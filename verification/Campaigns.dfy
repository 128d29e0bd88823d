/**
 * One campaign over the shared books: every handler of the campaigns, payments, admin, matching, evidence and
 * allocation services that touches its rows, as a function from the rows before to the rows after and the reply.
 * Rows are named by their position in their table.
 */
module Campaigns {
  import opened Common
  import opened Ledger
  import opened Delivery
  import Pricing
  import Quotes
  import Schedule

  // ---- Rows ----

  datatype CampaignStatus =
    Draft | Quoted | UnderReview | ChangesNeeded | ConfirmingPayment | Live | Paused | Ended | Fulfilled | Settled
    | CalledOff

  datatype SlotStatus = Open | Offered | Filled | Withheld

  datatype OfferStatus = Sent | Accepted | Declined | Expired | Withdrawn

  datatype Verdict = Undecided | Passed | Failed

  datatype Slot = Slot(status: SlotStatus, unitPrice: nat, posts: nat)

  datatype Offer = Offer(promoter: nat, fee: nat, gross: nat, promised: nat, expiresAt: int, status: OfferStatus)

  datatype DeliverySlot = DeliverySlot(index: nat, dueAt: int, gross: nat, fee: nat, promised: nat, status: PostStatus)

  datatype Assignment = Assignment(offer: nat, promoter: nat, slot: Option<nat>, status: AssignmentStatus,
                                     posts: seq<DeliverySlot>)

  datatype Submission = Submission(assignment: nat, post: nat, verdict: Verdict, verified: nat)

  /** `noShows` are the NO_SHOW trust events recorded, each naming the assignment. */
  datatype Campaign = Campaign(
    id: nat, client: nat, status: CampaignStatus, recurring: bool, posts: nat,
    startsAt: Option<int>, endsAt: Option<int>,
    price: Option<nat>, escrow: Option<nat>, target: nat, slotsTotal: int, slotsFilled: int,
    slots: seq<Slot>, offers: seq<Offer>, assignments: seq<Assignment>, submissions: seq<Submission>, noShows: seq<nat>)

  datatype World = World(books: Books, campaign: Campaign)

  function Views(posts: seq<DeliverySlot>): seq<PostView>
  {
    seq(|posts|, i requires 0 <= i < |posts| => PostView(posts[i].index, posts[i].status))
  }

  function RollupOf(posts: seq<DeliverySlot>): AssignmentStatus { ComputeRollup(Views(posts)).status }

  /** The price of one post: every slot of a campaign carries the same one. */
  function UnitOf(c: Campaign): nat { if c.slots == [] then 0 else c.slots[0].unitPrice }

  // ---- Brief and quote (campaigns.service.ts) ----

  predicate Editable(c: Campaign) { c.status.Draft? || c.status.Quoted? }

  datatype Edits = Edits(
    slotsTotal: Option<nat>, recurring: Option<bool>, posts: Option<nat>,
    startsAt: Option<Option<int>>, endsAt: Option<Option<int>>, other: bool)

  predicate NoEdits(e: Edits)
  {
    e.slotsTotal.None? && e.recurring.None? && e.posts.None? && e.startsAt.None? && e.endsAt.None? && !e.other
  }

  function NormalizePosts(recurring: bool, posts: nat): nat { if recurring then Max(2, posts) else 1 }

  function GetOr<T>(o: Option<T>, default: T): T { if o.Some? then o.value else default }

  function NextPosts(c: Campaign, e: Edits): nat
  {
    if e.recurring.Some? || e.posts.Some? then NormalizePosts(GetOr(e.recurring, c.recurring), GetOr(e.posts, c.posts))
    else c.posts
  }

  function Edited(c: Campaign, e: Edits): Campaign
  {
    c.(slotsTotal := GetOr(e.slotsTotal, c.slotsTotal), recurring := GetOr(e.recurring, c.recurring),
      posts := NextPosts(c, e),
       startsAt := GetOr(e.startsAt, c.startsAt), endsAt := GetOr(e.endsAt, c.endsAt))
  }

  /** A quoted campaign drops back to a draft without a price. */
  function Unquoted(c: Campaign): Campaign { if c.status.Quoted? then c.(status := Draft, price := None) else c }

  /**
   * update: the dates must run forwards and a recurring campaign must end; any change costs a quoted campaign its
   * quote.
   */
  function Update(w: World, e: Edits): (World, Reply)
  {
    var c, edited := w.campaign, Edited(w.campaign, e);
    if !Editable(c) then (w, BadRequest)
    else if edited.startsAt.Some? && edited.endsAt.Some? && edited.endsAt.value <= edited.startsAt.value then
      (w, BadRequest)
    else if 1 < edited.posts && edited.endsAt.None? then (w, BadRequest)
    else (w.(campaign := if NoEdits(e) then edited else Unquoted(edited)), Success)
  }

  /** setTargeting, as far as this campaign's rows go. */
  function SetTargeting(w: World): (World, Reply)
  {
    var c := w.campaign;
    if !Editable(c) then (w, BadRequest)
    else (w.(campaign := Unquoted(c)), Success)
  }

  function FreshSlots(n: nat, unit: nat, posts: nat): seq<Slot> { seq(n, i => Slot(Open, unit, posts)) }

  /** quote: freeze the price and materialise the priced slots anew. */
  function TakeQuote(w: World, exactPrice: Option<int>, terms: Quotes.Terms): (World, Reply)
  {
    var c := w.campaign;
    if !Editable(c) then (w, BadRequest)
    else
      match Quotes.QuoteFor(c.posts, Max(0, c.slotsTotal), exactPrice, terms)
      case Err(_) => (w, BadRequest)
      case Ok(q) =>
        (w.(campaign := c.(status := Quoted, price := Some(q.price), slotsTotal := q.slots, target := q.target,
                           slots := FreshSlots(q.slots, q.unit, c.posts))), Success)
  }

  // ---- Funding and review (payments.service.ts, admin.service.ts) ----

  predicate Fundable(c: Campaign) { c.status.Quoted? || c.status.ConfirmingPayment? }

  /** Credit the price to the campaign's escrow account and send it to review. */
  function FundEscrow(w: World, price: nat, key: Key): (World, Reply)
  {
    var c := w.campaign;
    var (b, e) := if c.escrow.Some? then (w.books, c.escrow.value) else GetOrCreate(w.books, CampaignEscrow, c.id);
    match Platform(b, BankClearing)
    case None => (World(b, c), LedgerRefused(NoPlatformAccount))
    case Some(bank) =>
      var (b', o) := Ledger.Post(b, FundPosting(c.id, bank, e, price, key));
      match o
      case Refused(why) => (World(b', c), LedgerRefused(why))
      case Posted(_, true) => (World(b', c), Success)
      case Posted(_, false) => (World(b', c.(status := UnderReview, escrow := Some(e))), Success)
  }

  /** fundCampaign: an admin records the client's bank transfer. */
  function FundByAdmin(w: World, amount: int, key: Key): (World, Reply)
  {
    var c := w.campaign;
    if Has(w.books.log, key) then (w, AlreadyRecorded)
    else if !Fundable(c) then (w, WrongState)
    else if c.price.None? || amount != c.price.value then (w, BadRequest)
    else FundEscrow(w, c.price.value, key)
  }

  datatype Charge = Charge(succeeded: bool, inNaira: bool, amount: int)

  /** settleCharge: the payment gateway's answer about a reference is an input. */
  function SettleCharge(w: World, reference: string, charge: Charge): (World, Reply)
  {
    var c := w.campaign;
    if c.price.None? then (w, BadRequest)
    else if Has(w.books.log, PaystackKey(reference)) then (w, AlreadyRecorded)
    else if !Fundable(c) then (w, WrongState)
    else if !charge.succeeded || !charge.inNaira || charge.amount != c.price.value then (w, BadRequest)
    else FundEscrow(w, c.price.value, PaystackKey(reference))
  }

  function ApproveCampaign(w: World): (World, Reply)
  {
    if !w.campaign.status.UnderReview? then (w, WrongState)
    else (w.(campaign := w.campaign.(status := Live)), Success)
  }

  /** rejectCampaign: a terminal rejection refunds the price, the other kind holds the escrow for a resubmission. */
  function RejectCampaign(w: World, terminal: bool): (World, Reply)
  {
    var c := w.campaign;
    if !c.status.UnderReview? then (w, WrongState)
    else if !terminal then (w.(campaign := c.(status := ChangesNeeded)), Success)
    else if c.escrow.None? || c.price.None? || c.price.value == 0 then
      (w.(campaign := c.(status := CalledOff)), Success)
    else
      var (b, wallet) := GetOrCreate(w.books, ClientWallet, c.client);
      var (b', o) := Ledger.Post(b, RefundPosting(c.id, c.escrow.value, wallet, c.price.value));
      match o
      case Refused(why) => (World(b', c), LedgerRefused(why))
      case Posted(_, _) => (World(b', c.(status := CalledOff)), Success)
  }

  /** submitForApproval. */
  function Resubmit(w: World): (World, Reply)
  {
    if !w.campaign.status.ChangesNeeded? then (w, BadRequest)
    else (w.(campaign := w.campaign.(status := UnderReview)), Success)
  }

  // ---- Offers (matching.service.ts) ----

  predicate AlreadyOffered(c: Campaign, promoter: nat)
  {
    exists i :: 0 <= i < |c.offers| && c.offers[i].promoter == promoter
  }

  datatype OfferTerms = OfferTerms(takeRate: Pricing.Percent, reachPerSlot: nat, expiresAt: int, qualified: set<nat>)

  /** An offer is worth what the client funded for one post of the first slot. */
  function NewOffer(c: Campaign, promoter: nat, terms: OfferTerms): Offer
  {
    Offer(promoter, Pricing.SplitFee(UnitOf(c), terms.takeRate).fee, UnitOf(c), terms.reachPerSlot, terms.expiresAt,
      Sent)
  }

  /**
   * The offers of one batch, in order. A promoter already offered is skipped; one without a channel stops the batch,
   * keeping what was sent.
   */
  function OfferEach(c: Campaign, promoters: seq<nat>, terms: OfferTerms): (Campaign, Reply)
    decreases |promoters|
  {
    if promoters == [] then (c, Success)
    else if promoters[0] !in terms.qualified then (c, BadRequest)
    else if AlreadyOffered(c, promoters[0]) then OfferEach(c, promoters[1..], terms)
    else OfferEach(c.(offers := c.offers + [NewOffer(c, promoters[0], terms)]), promoters[1..], terms)
  }

  function SendOffers(w: World, promoters: seq<nat>, terms: OfferTerms): (World, Reply)
  {
    var c := w.campaign;
    if promoters == [] || !c.status.Live? || c.slots == [] then (w, BadRequest)
    else
      var (c', reply) := OfferEach(c, promoters, terms);
      (w.(campaign := c'), reply)
  }

  /** The open slot with the least id, or the number of slots. */
  function FirstOpen(slots: seq<Slot>): (k: nat)
    ensures k <= |slots|
    ensures k < |slots| ==> slots[k].status.Open?
    ensures forall i :: 0 <= i < k ==> !slots[i].status.Open?
  {
    if slots == [] then 0 else if slots[0].status.Open? then 0 else 1 + FirstOpen(slots[1..])
  }

  datatype Clock = Clock(now: int, bufferHours: nat, window: nat)

  function NewPosts(c: Campaign, offer: Offer, posts: nat, clock: Clock): seq<DeliverySlot>
  {
    var times := Schedule.GenerateSlotSchedule(c.startsAt, c.endsAt, posts, clock.bufferHours, clock.window, clock.now);
    seq(|times|, i requires 0 <= i < |times| =>
      DeliverySlot(times[i].index, times[i].dueAt, offer.gross, offer.fee, offer.promised, Pending))
  }

  /** The guards of accept, and what it writes once it has picked slot k. */
  function AcceptOn(w: World, offer: nat, promoter: nat, clock: Clock, k: nat): (World, Reply)
  {
    var c := w.campaign;
    if offer >= |c.offers| || c.offers[offer].promoter != promoter then (w, NotFound)
    else if !c.offers[offer].status.Sent? then (w, WrongState)
    else if c.offers[offer].expiresAt < clock.now then (w, WrongState)
    else if !c.status.Live? then (w, WrongState)
    else if k >= |c.slots| then (w, WrongState)
    else
      var o := c.offers[offer];
      var a := Assignment(offer, promoter, Some(k), InProgress, NewPosts(c, o, Max(1, c.slots[k].posts), clock));
      (w.(campaign := c.(slots := c.slots[k := c.slots[k].(status := Filled)],
                         offers := c.offers[offer := o.(status := Accepted)],
                         assignments := c.assignments + [a],
                         slotsFilled := c.slotsFilled + 1)), Success)
  }

  /**
   * accept: take the first open slot. The expired branch throws inside its transaction, so its update is rolled back.
   */
  function Accept(w: World, offer: nat, promoter: nat, clock: Clock): (World, Reply)
  {
    AcceptOn(w, offer, promoter, clock, FirstOpen(w.campaign.slots))
  }

  function Decline(w: World, offer: nat, promoter: nat): (World, Reply)
  {
    var c := w.campaign;
    if offer >= |c.offers| || c.offers[offer].promoter != promoter then (w, NotFound)
    else if !c.offers[offer].status.Sent? then (w, WrongState)
    else (w.(campaign := c.(offers := c.offers[offer := c.offers[offer].(status := Declined)])), Success)
  }

  function ExpireOffer(o: Offer, now: int): Offer
  {
    if o.status.Sent? && o.expiresAt < now then o.(status := Expired) else o
  }

  /** expireStaleOffers. */
  function ExpireOffers(w: World, now: int): World
  {
    var c := w.campaign;
    w.(campaign := c.(offers := seq(|c.offers|, i requires 0 <= i < |c.offers| => ExpireOffer(c.offers[i], now))))
  }

  // ---- Proof (evidence.service.ts, admin.service.ts) ----

  function SetPost(c: Campaign, a: nat, p: nat, status: PostStatus): Campaign
    requires a < |c.assignments| && p < |c.assignments[a].posts|
  {
    var posts := c.assignments[a].posts[p := c.assignments[a].posts[p].(status := status)];
    c.(assignments := c.assignments[a := c.assignments[a].(posts := posts, status := RollupOf(posts))])
  }

  /** The earliest post still awaiting proof, or the number of posts. Posts are kept in schedule order. */
  function FirstOutstanding(posts: seq<DeliverySlot>): (p: nat)
    ensures p <= |posts|
    ensures p < |posts| ==> Outstanding(posts[p].status)
    ensures forall i :: 0 <= i < p ==> !Outstanding(posts[i].status)
  {
    if posts == [] then 0 else if Outstanding(posts[0].status) then 0 else 1 + FirstOutstanding(posts[1..])
  }

  /** submit: proof for a named post, or for the earliest one awaiting it. */
  function Submit(w: World, assignment: nat, promoter: nat, named: Option<nat>): (World, Reply)
  {
    var c := w.campaign;
    if assignment >= |c.assignments| || c.assignments[assignment].promoter != promoter then (w, NotFound)
    else if c.assignments[assignment].status.Cancelled? then (w, BadRequest)
    else
      var posts := c.assignments[assignment].posts;
      var p := GetOr(named, FirstOutstanding(posts));
      if p >= |posts| || !Outstanding(posts[p].status) then (w, BadRequest)
      else
        (w.(campaign := SetPost(c, assignment, p, Submitted)
                        .(submissions := c.submissions + [Submission(assignment, p, Undecided, 0)])), Success)
  }

  predicate GoodSubmission(c: Campaign, s: nat)
  {
    s < |c.submissions| && c.submissions[s].assignment < |c.assignments|
    && c.submissions[s].post < |c.assignments[c.submissions[s].assignment].posts|
  }

  /** rejectSubmission: the post can be submitted again. */
  function RejectSubmission(w: World, s: nat): (World, Reply)
  {
    var c := w.campaign;
    if !GoodSubmission(c, s) then (w, NotFound)
    else if !c.submissions[s].verdict.Undecided? then (w, WrongState)
    else
      (w.(campaign := SetPost(c, c.submissions[s].assignment, c.submissions[s].post, Rejected)
                      .(submissions := c.submissions[s := c.submissions[s].(verdict := Failed)])), Success)
  }

  datatype ApprovalTerms = ApprovalTerms(settlement: Pricing.SettlementConfig, reachPerPost: nat)

  function MarkApproved(c: Campaign, s: nat, verified: nat): Campaign
    requires GoodSubmission(c, s)
  {
    SetPost(c, c.submissions[s].assignment, c.submissions[s].post, Approved)
    .(submissions := c.submissions[s := c.submissions[s].(verdict := Passed, verified := verified)])
  }

  /** Some slot could still be filled. */
  predicate SlotsOpen(slots: seq<Slot>)
  {
    exists i :: 0 <= i < |slots| && (slots[i].status.Open? || slots[i].status.Offered?)
  }

  /** Some post of the assignment is pending or in review. A REJECTED post does not count. */
  predicate PostsInFlight(posts: seq<DeliverySlot>)
  {
    exists j :: 0 <= j < |posts| && (posts[j].status.Pending? || posts[j].status.Submitted?)
  }

  predicate WorkInFlight(c: Campaign)
  {
    SlotsOpen(c.slots) || exists i :: 0 <= i < |c.assignments| && PostsInFlight(c.assignments[i].posts)
  }

  function VerifiedReach(s: Submission): int { if s.verdict.Passed? then s.verified else 0 }

  function TotalVerified(c: Campaign): int { Sum(VerifiedReach, c.submissions) }

  predicate ReachMet(c: Campaign) { 0 < c.target && c.target <= TotalVerified(c) }

  function CeilDiv(a: nat, d: nat): nat
    requires 0 < d
  {
    (a + d - 1) / d
  }

  /** How many slots to reopen: enough for the reach deficit, no more than the escrow on hand pays for. */
  function ReopenCount(c: Campaign, escrow: int, reachPerPost: nat): nat
  {
    var slotCost := Quotes.Times(UnitOf(c), c.posts);
    var slotReach := Quotes.Times(reachPerPost, c.posts);
    if !ReachMet(c) && !WorkInFlight(c) && 0 < c.target && 0 < slotReach && 0 < slotCost && TotalVerified(c) < c.target
      && 0 <= escrow
    then Min(CeilDiv(c.target - TotalVerified(c), slotReach), escrow / slotCost)
    else 0
  }

  /** retainCampaignRemainder, when anything remains. */
  function RetainRemainder(w: World, escrow: nat): (World, Reply)
    requires escrow < |w.books.accounts|
  {
    var remaining := Balance(w.books, escrow);
    if remaining <= 0 then (w, Success)
    else
      match Platform(w.books, RaliaRevenue)
      case None => (w, LedgerRefused(NoPlatformAccount))
      case Some(revenue) =>
        var (b', o) := Ledger.Post(w.books, RetainPosting(w.campaign.id, escrow, revenue, remaining));
        (w.(books := b'), if o.Refused? then LedgerRefused(o.why) else Success)
  }

  /**
   * After an approval on a live campaign: fulfilled, still in flight, reopened, or finalised with its remainder
   * retained.
   */
  function Decide(w: World, escrow: nat, reachPerPost: nat): (World, Reply)
    requires escrow < |w.books.accounts|
  {
    var c := w.campaign;
    var reopen := ReopenCount(c, Balance(w.books, escrow), reachPerPost);
    if 0 < reopen then
      (w.(campaign := c.(slots := c.slots + FreshSlots(reopen, UnitOf(c), c.posts),
        slotsTotal := c.slotsTotal + reopen)), Success)
    else if ReachMet(c) || !WorkInFlight(c) then
      var done := w.(campaign := c.(status := Fulfilled));
      if WorkInFlight(c) then (done, Success) else RetainRemainder(done, escrow)
    else (w, Success)
  }

  datatype Payment = Payment(world: World, reply: Reply, paidNow: bool)

  /** Post the settlement of a judged post; only a fresh posting changes the rows. */
  function PostSettlement(w: World, s: nat, verified: nat, key: Key, promoter: nat,
                          settled: Pricing.Settlement): Payment
    requires GoodSubmission(w.campaign, s) && w.campaign.escrow.Some?
  {
    match Platform(w.books, RaliaRevenue)
    case None => Payment(w, LedgerRefused(NoPlatformAccount), false)
    case Some(revenue) =>
      var (b', o) :=
        Ledger.Post(w.books,
        SettlePosting(s, w.campaign.escrow.value, promoter, revenue, settled.fee, settled.take, key));
      match o
      case Refused(why) => Payment(w.(books := b'), LedgerRefused(why), false)
      case Posted(_, true) => Payment(w.(books := b'), Success, false)
      case Posted(_, false) => Payment(World(b', MarkApproved(w.campaign, s, verified)), Success, true)
  }

  /** The first half of approveSubmission: guards, settlement out of escrow, and the rows of the judged post. */
  function PayForPost(w: World, s: nat, verified: int, key: Key, settlement: Pricing.SettlementConfig): Payment
  {
    var c := w.campaign;
    if !GoodSubmission(c, s) then Payment(w, NotFound, false)
    else if Has(w.books.log, key) then Payment(w, AlreadyRecorded, false)
    else if !c.submissions[s].verdict.Undecided? then Payment(w, WrongState, false)
    else if c.escrow.None? then Payment(w, BadRequest, false)
    else
      var post := JudgedPost(c, s);
      var settled := Pricing.SettleDelivery(post.gross, verified, post.promised, settlement);
      if settled.Err? || !settled.value.meetsThreshold then Payment(w, BadRequest, false)
      else
        var (b, promoter) :=
          GetOrCreate(w.books, PromoterAvailable, c.assignments[c.submissions[s].assignment].promoter);
        PostSettlement(w.(books := b), s, verified, key, promoter, settled.value)
  }

  function JudgedPost(c: Campaign, s: nat): DeliverySlot
    requires GoodSubmission(c, s)
  {
    c.assignments[c.submissions[s].assignment].posts[c.submissions[s].post]
  }

  /**
   * approveSubmission: pay the verified share out of escrow, mark the post, then decide what the campaign does next.
   */
  function ApproveSubmission(w: World, s: nat, verified: int, key: Key, terms: ApprovalTerms): (World, Reply)
  {
    var paid := PayForPost(w, s, verified, key, terms.settlement);
    if paid.paidNow && w.campaign.status.Live? && w.campaign.escrow.Some?
      && w.campaign.escrow.value < |paid.world.books.accounts|
    then Decide(paid.world, w.campaign.escrow.value, terms.reachPerPost)
    else (paid.world, paid.reply)
  }

  // ---- The missed-deadline sweep (allocation.service.ts) ----

  predicate Overdue(p: DeliverySlot, now: int) { Outstanding(p.status) && p.dueAt < now }

  function Flip(p: DeliverySlot, now: int): DeliverySlot { if Overdue(p, now) then p.(status := Missed) else p }

  function FlipPosts(posts: seq<DeliverySlot>, now: int): seq<DeliverySlot>
  {
    seq(|posts|, i requires 0 <= i < |posts| => Flip(posts[i], now))
  }

  function OverdueCount(posts: seq<DeliverySlot>, now: int): nat
  {
    if posts == [] then 0
    else OverdueCount(posts[..|posts| - 1], now) + (if Overdue(posts[|posts| - 1], now) then 1 else 0)
  }

  /** Posts of an assignment the sweep's query returns: those of a closed assignment are not looked at. */
  function NewlyMissed(a: Assignment, now: int): nat
  {
    if a.status.Cancelled? || a.status.Paid? then 0 else OverdueCount(a.posts, now)
  }

  function Forfeit(p: DeliverySlot): DeliverySlot { if Outstanding(p.status) then p.(status := Missed) else p }

  function ForfeitPosts(posts: seq<DeliverySlot>): seq<DeliverySlot>
  {
    seq(|posts|, i requires 0 <= i < |posts| => Forfeit(posts[i]))
  }

  /** The posts a replacement must deliver. */
  function Deficit(posts: seq<DeliverySlot>): int { |posts| - ApprovedCount(Views(posts)) }

  /** Take the promoter off: forfeit what is open, free the slot for the deficit. */
  function Pull(c: Campaign, i: nat): Campaign
    requires i < |c.assignments|
  {
    var a := c.assignments[i];
    var released :=
      c.(assignments := c.assignments[i := a.(status := Cancelled, slot := None, posts := ForfeitPosts(a.posts))]);
    if a.slot.Some? && a.slot.value < |c.slots| then
      var reopened := c.slots[a.slot.value].(status := Open, posts := Max(0, Deficit(a.posts)));
      released.(slots := c.slots[a.slot.value := reopened], slotsFilled := c.slotsFilled - 1)
    else released
  }

  function Repeat(i: nat, times: nat): seq<nat> { seq(times, k => i) }

  /** reconcileAfterMisses: keep and roll up, or pull; one trust event per newly missed post. */
  function Reconcile(c: Campaign, i: nat, missed: nat): Campaign
    requires i < |c.assignments|
  {
    var a := c.assignments[i];
    if a.status.Cancelled? then c
    else
      var settled := if ShouldPull(Views(a.posts)) then Pull(c, i)
                     else c.(assignments := c.assignments[i := a.(status := RollupOf(a.posts))]);
      settled.(noShows := c.noShows + Repeat(i, missed))
  }

  /** What the sweep does to assignment i. */
  function SweepOne(c: Campaign, i: nat, now: int): Campaign
    requires i < |c.assignments|
  {
    var a := c.assignments[i];
    if NewlyMissed(a, now) == 0 then c
    else Reconcile(c.(assignments := c.assignments[i := a.(posts := FlipPosts(a.posts, now))]), i, NewlyMissed(a, now))
  }

  function SweepUpTo(c: Campaign, n: nat, now: int): (r: Campaign)
    requires n <= |c.assignments|
    ensures |r.assignments| == |c.assignments|
  {
    if n == 0 then c else SweepOne(SweepUpTo(c, n - 1, now), n - 1, now)
  }

  /** reclaimOverdueAssignments over this campaign's assignments. */
  function Sweep(w: World, now: int): World
  {
    w.(campaign := SweepUpTo(w.campaign, |w.campaign.assignments|, now))
  }

  // ---- Runs ----

  datatype Action =
    | DoUpdate(edits: Edits)
    | DoSetTargeting
    | DoQuote(exactPrice: Option<int>, quoteTerms: Quotes.Terms)
    | DoFund(amount: int, key: Key)
    | DoCharge(reference: string, charge: Charge)
    | DoApproveCampaign
    | DoRejectCampaign(terminal: bool)
    | DoResubmit
    | DoSendOffers(promoters: seq<nat>, offerTerms: OfferTerms)
    | DoAccept(offer: nat, promoter: nat, clock: Clock)
    | DoDecline(offer: nat, promoter: nat)
    | DoExpire(now: int)
    | DoSubmit(assignment: nat, promoter: nat, named: Option<nat>)
    | DoApprove(submission: nat, verified: int, key: Key, terms: ApprovalTerms)
    | DoReject(submission: nat)
    | DoSweep(now: int)
    | Elsewhere(posting: Posting)                 // a posting of another campaign or of a withdrawal
    | AccountElsewhere(kind: AccountKind, owner: nat)

  predicate IsBriefWork(action: Action) { action.DoUpdate? || action.DoSetTargeting? || action.DoQuote? }

  predicate IsFunding(action: Action) { action.DoFund? || action.DoCharge? }

  predicate IsReview(action: Action) { action.DoApproveCampaign? || action.DoRejectCampaign? || action.DoResubmit? }

  predicate IsOfferWork(action: Action)
  {
    action.DoSendOffers? || action.DoAccept? || action.DoDecline? || action.DoExpire?
  }

  predicate IsProofWork(action: Action) { action.DoSubmit? || action.DoReject? || action.DoSweep? }

  predicate IsElsewhere(action: Action) { action.Elsewhere? || action.AccountElsewhere? }

  /** What only happens on air, approvals aside. */
  predicate IsWork(action: Action) { IsOfferWork(action) || IsProofWork(action) }

  /** What happens before a campaign is live, or to somebody else. */
  predicate IsDeskWork(action: Action)
  {
    IsBriefWork(action) || IsFunding(action) || IsReview(action) || IsElsewhere(action)
  }

  /** Other handlers post to their own escrow accounts and under their own keys. */
  predicate Foreign(w: World, p: Posting)
  {
    var e := FindAccount(w.books.accounts, CampaignEscrow, Some(w.campaign.id));
    && (e < |w.books.accounts| ==> !Touches(p.entries, e))
    && p.key != RefundKey(w.campaign.id) && p.key != RetainKey(w.campaign.id)
  }

  function Respond(w: World, action: Action): (World, Reply)
  {
    match action
    case DoUpdate(e) => Update(w, e)
    case DoSetTargeting => SetTargeting(w)
    case DoQuote(price, terms) => TakeQuote(w, price, terms)
    case DoFund(amount, key) =>
      // a client key is a UUID, so it is none of the prefixed keys
      if key.ClientKey? then FundByAdmin(w, amount, key) else (w, BadRequest)
    case DoCharge(reference, charge) => SettleCharge(w, reference, charge)
    case DoApproveCampaign => ApproveCampaign(w)
    case DoRejectCampaign(terminal) => RejectCampaign(w, terminal)
    case DoResubmit => Resubmit(w)
    case DoSendOffers(promoters, terms) => SendOffers(w, promoters, terms)
    case DoAccept(offer, promoter, clock) => Accept(w, offer, promoter, clock)
    case DoDecline(offer, promoter) => Decline(w, offer, promoter)
    case DoExpire(now) => (ExpireOffers(w, now), Success)
    case DoSubmit(assignment, promoter, named) => Submit(w, assignment, promoter, named)
    case DoApprove(s, verified, key, terms) =>
      if key.ClientKey? then ApproveSubmission(w, s, verified, key, terms) else (w, BadRequest)
    case DoReject(s) => RejectSubmission(w, s)
    case DoSweep(now) => (Sweep(w, now), Success)
    case Elsewhere(p) => if Foreign(w, p) then (w.(books := Ledger.Post(w.books, p).0), Success) else (w, BadRequest)
    case AccountElsewhere(kind, owner) =>
      if kind.CampaignEscrow? && owner == w.campaign.id then (w, BadRequest)
      else (w.(books := GetOrCreate(w.books, kind, owner).0), Success)
  }

  function Step(w: World, action: Action): World { Respond(w, action).0 }

  function RunWorld(w: World, actions: seq<Action>): World
  {
    if actions == [] then w else Step(RunWorld(w, actions[..|actions| - 1]), actions[|actions| - 1])
  }

  /** A campaign just created, before any money of its own has moved. */
  function NewCampaign(id: nat, client: nat, slotsTotal: nat, recurring: bool, posts: nat, startsAt: Option<int>,
                       endsAt: Option<int>): Campaign
  {
    Campaign(id, client, Draft, recurring, NormalizePosts(recurring, posts), startsAt, endsAt, None, None, 0,
             slotsTotal, 0, [], [], [], [], [])
  }
}
