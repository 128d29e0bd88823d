/**
 * The handlers as they run: one campaign's row and tables, updated in place, over the shared ledger service.
 * Each method is tied to the handler of the same name in Campaigns, whose properties the other modules prove.
 */
module CampaignDesks {
  import opened Common
  import opened Ledger
  import opened LedgerServices
  import opened Delivery
  import opened Campaigns
  import Pricing
  import Quotes
  import opened CampaignSolvency
  import Allocation

  class CampaignDesk {
    const ledger: LedgerService
    const id: nat
    const client: nat
    var status: CampaignStatus
    var recurring: bool
    var posts: nat
    var startsAt: Option<int>
    var endsAt: Option<int>
    var price: Option<nat>
    var escrow: Option<nat>
    var target: nat
    var slotsTotal: int
    var slotsFilled: int
    var slots: seq<Slot>
    var offers: seq<Offer>
    var assignments: seq<Assignment>
    var submissions: seq<Submission>
    var noShows: seq<nat>

    function Row(): Campaign
      reads this
    {
      Campaign(id, client, status, recurring, posts, startsAt, endsAt, price, escrow, target, slotsTotal, slotsFilled,
               slots, offers, assignments, submissions, noShows)
    }

    function State(): World
      reads this, ledger
    {
      World(ledger.State(), Row())
    }

    constructor (ledger: LedgerService, id: nat, client: nat, slotsTotal: nat, recurring: bool, posts: nat,
                 startsAt: Option<int>, endsAt: Option<int>)
      ensures State() == World(ledger.State(), NewCampaign(id, client, slotsTotal, recurring, posts, startsAt, endsAt))
      ensures this.ledger == ledger
    {
      this.ledger, this.id, this.client := ledger, id, client;
      this.status, this.recurring, this.posts := Draft, recurring, NormalizePosts(recurring, posts);
      this.startsAt, this.endsAt, this.price, this.escrow, this.target := startsAt, endsAt, None, None, 0;
      this.slotsTotal, this.slotsFilled := slotsTotal, 0;
      this.slots, this.offers, this.assignments, this.submissions, this.noShows := [], [], [], [], [];
    }

    // ---- Brief and quote ----

    /** The one row update both paths of update share. */
    method Apply(e: Edits)
      modifies this
      ensures Row() == Edited(old(Row()), e)
    {
      startsAt := GetOr(e.startsAt, startsAt);
      endsAt := GetOr(e.endsAt, endsAt);
      if e.recurring.Some? || e.posts.Some? {
        posts := NormalizePosts(GetOr(e.recurring, recurring), GetOr(e.posts, posts));
      }
      recurring := GetOr(e.recurring, recurring);
      slotsTotal := GetOr(e.slotsTotal, slotsTotal);
    }

    method Update(e: Edits) returns (reply: Reply)
      modifies this
      ensures (State(), reply) == Campaigns.Update(old(State()), e)
    {
      if !status.Draft? && !status.Quoted? {
        return BadRequest;
      }
      var edited := Edited(Row(), e);
      if edited.startsAt.Some? && edited.endsAt.Some? && edited.endsAt.value <= edited.startsAt.value {
        return BadRequest;
      }
      if 1 < edited.posts && edited.endsAt.None? {
        return BadRequest;
      }
      Apply(e);
      if status.Quoted? && !NoEdits(e) {
        status, price := Draft, None;
      }
      return Success;
    }

    method SetTargeting() returns (reply: Reply)
      modifies this
      ensures (State(), reply) == Campaigns.SetTargeting(old(State()))
    {
      if !status.Draft? && !status.Quoted? {
        return BadRequest;
      }
      if status.Quoted? {
        status, price := Draft, None;
      }
      return Success;
    }

    method Quote(exactPrice: Option<int>, terms: Quotes.Terms) returns (reply: Reply)
      modifies this
      ensures (State(), reply) == TakeQuote(old(State()), exactPrice, terms)
    {
      if !status.Draft? && !status.Quoted? {
        return BadRequest;
      }
      var quoted := Quotes.QuoteFor(posts, Max(0, slotsTotal), exactPrice, terms);
      if quoted.Err? {
        return BadRequest;
      }
      slots := [];                                    // deleteMany, then createMany
      slots := FreshSlots(quoted.value.slots, quoted.value.unit, posts);
      status, price, slotsTotal, target := Quoted, Some(quoted.value.price), quoted.value.slots, quoted.value.target;
      return Success;
    }

    // ---- Funding and review ----

    method Fund(amount: nat, key: Key) returns (reply: Reply)
      modifies this, ledger
      ensures (State(), reply) == FundEscrow(old(State()), amount, key)
    {
      var e: nat;
      if escrow.Some? {
        e := escrow.value;
      } else {
        e := ledger.GetOrCreateAccount(CampaignEscrow, id);
      }
      var outcome := ledger.FundCampaign(id, e, amount, key);
      if outcome.Refused? {
        return LedgerRefused(outcome.why);
      }
      if !outcome.replayed {
        status, escrow := UnderReview, Some(e);
      }
      return Success;
    }

    method FundByAdmin(amount: int, key: Key) returns (reply: Reply)
      modifies this, ledger
      ensures (State(), reply) == Campaigns.FundByAdmin(old(State()), amount, key)
    {
      var posted := ledger.AlreadyPosted(key);
      if posted {
        return AlreadyRecorded;
      }
      if !status.Quoted? && !status.ConfirmingPayment? {
        return WrongState;
      }
      if price.None? || amount != price.value {
        return BadRequest;
      }
      reply := Fund(price.value, key);
    }

    method SettleCharge(reference: string, charge: Charge) returns (reply: Reply)
      modifies this, ledger
      ensures (State(), reply) == Campaigns.SettleCharge(old(State()), reference, charge)
    {
      if price.None? {
        return BadRequest;
      }
      var posted := ledger.AlreadyPosted(PaystackKey(reference));
      if posted {
        return AlreadyRecorded;
      }
      if !status.Quoted? && !status.ConfirmingPayment? {
        return WrongState;
      }
      if !charge.succeeded || !charge.inNaira || charge.amount != price.value {
        return BadRequest;
      }
      reply := Fund(price.value, PaystackKey(reference));
    }

    method ApproveCampaign() returns (reply: Reply)
      modifies this
      ensures (State(), reply) == Campaigns.ApproveCampaign(old(State()))
    {
      if !status.UnderReview? {
        return WrongState;
      }
      status := Live;
      return Success;
    }

    method RejectCampaign(terminal: bool) returns (reply: Reply)
      modifies this, ledger
      ensures (State(), reply) == Campaigns.RejectCampaign(old(State()), terminal)
    {
      if !status.UnderReview? {
        return WrongState;
      }
      if terminal && escrow.Some? && price.Some? && price.value != 0 {
        var wallet := ledger.GetOrCreateAccount(ClientWallet, client);
        var outcome := ledger.RefundCampaign(id, escrow.value, wallet, price.value);
        if outcome.Refused? {
          return LedgerRefused(outcome.why);
        }
      }
      status := if terminal then CalledOff else ChangesNeeded;
      return Success;
    }

    method Resubmit() returns (reply: Reply)
      modifies this
      ensures (State(), reply) == Campaigns.Resubmit(old(State()))
    {
      if !status.ChangesNeeded? {
        return BadRequest;
      }
      status := UnderReview;
      return Success;
    }

    // ---- Offers ----

    /** One offer after another; the batch stops at a promoter without a channel, keeping what was sent. */
    method SendOffers(promoters: seq<nat>, terms: OfferTerms) returns (reply: Reply)
      modifies this
      ensures (State(), reply) == Campaigns.SendOffers(old(State()), promoters, terms)
    {
      if promoters == [] || !status.Live? || slots == [] {
        return BadRequest;
      }
      ghost var start := Row();
      var k := 0;
      while k < |promoters|
        invariant k <= |promoters|
        invariant ledger.State() == old(ledger.State())
        invariant Row() == start.(offers := offers)
        invariant OfferEach(start, promoters, terms) == OfferEach(Row(), promoters[k..], terms)
      {
        var promoter := promoters[k];
        assert promoters[k..][0] == promoter && promoters[k..][1..] == promoters[k + 1..];
        if promoter !in terms.qualified {
          return BadRequest;
        }
        if !AlreadyOffered(Row(), promoter) {
          offers := offers + [NewOffer(Row(), promoter, terms)];
        }
        k := k + 1;
      }
      return Success;
    }

    /** allocateCampaign: top the outstanding offers up to the phase's target. */
    method Allocate(now: int, headStartEnds: Option<int>, ranked: seq<nat>, terms: OfferTerms)
      modifies this
      ensures State() == Allocation.Allocate(old(State()), now, headStartEnds, ranked, terms)
    {
      if !status.Live? {
        return;
      }
      var openSlots := Max(slotsTotal - slotsFilled, 0);
      if openSlots == 0 {
        return;
      }
      var inHeadStart := headStartEnds.Some? && now < headStartEnds.value;
      var target := if inHeadStart then openSlots else Allocation.OverOffer(openSlots);
      var toSend := Max(target - Allocation.OutstandingOffers(offers, now), 0);
      if toSend == 0 {
        assert ranked[..0] == [];
        return;
      }
      var picked := ranked[..Min(toSend, |ranked|)];
      if picked == [] {
        return;
      }
      var _ := SendOffers(picked, terms);
    }

    method Accept(offer: nat, promoter: nat, clock: Clock) returns (reply: Reply)
      modifies this
      ensures (State(), reply) == Campaigns.Accept(old(State()), offer, promoter, clock)
    {
      if offer >= |offers| || offers[offer].promoter != promoter {
        return NotFound;
      }
      var o := offers[offer];
      if !o.status.Sent? || o.expiresAt < clock.now || !status.Live? {
        return WrongState;
      }
      var k := FirstOpen(slots);
      if k == |slots| {
        return WrongState;
      }
      var schedule := NewPosts(Row(), o, Max(1, slots[k].posts), clock);
      slots := slots[k := slots[k].(status := Filled)];
      offers := offers[offer := o.(status := Accepted)];
      assignments := assignments + [Assignment(offer, promoter, Some(k), InProgress, schedule)];
      slotsFilled := slotsFilled + 1;
      return Success;
    }

    method Decline(offer: nat, promoter: nat) returns (reply: Reply)
      modifies this
      ensures (State(), reply) == Campaigns.Decline(old(State()), offer, promoter)
    {
      if offer >= |offers| || offers[offer].promoter != promoter {
        return NotFound;
      }
      if !offers[offer].status.Sent? {
        return WrongState;
      }
      offers := offers[offer := offers[offer].(status := Declined)];
      return Success;
    }

    /** updateMany, row by row. */
    method ExpireOffers(now: int)
      modifies this
      ensures State() == Campaigns.ExpireOffers(old(State()), now)
    {
      ghost var start := Row();
      for i := 0 to |offers|
        invariant ledger.State() == old(ledger.State())
        invariant Row() == start.(offers := offers) && |offers| == |start.offers|
        invariant forall j :: 0 <= j < |offers| ==>
                    offers[j] == if j < i then ExpireOffer(start.offers[j], now) else start.offers[j]
      {
        if offers[i].status.Sent? && offers[i].expiresAt < now {
          offers := offers[i := offers[i].(status := Expired)];
        }
      }
    }

    // ---- Proof ----

    method Submit(assignment: nat, promoter: nat, named: Option<nat>) returns (reply: Reply)
      modifies this
      ensures (State(), reply) == Campaigns.Submit(old(State()), assignment, promoter, named)
    {
      if assignment >= |assignments| || assignments[assignment].promoter != promoter {
        return NotFound;
      }
      var a := assignments[assignment];
      if a.status.Cancelled? {
        return BadRequest;
      }
      var p := GetOr(named, FirstOutstanding(a.posts));
      if p >= |a.posts| || !Outstanding(a.posts[p].status) {
        return BadRequest;
      }
      submissions := submissions + [Submission(assignment, p, Undecided, 0)];
      SetPost(assignment, p, Submitted);
      return Success;
    }

    /** Mark one post and roll its assignment up. */
    method SetPost(a: nat, p: nat, to: PostStatus)
      requires a < |assignments| && p < |assignments[a].posts|
      modifies this`assignments
      ensures Row() == Campaigns.SetPost(old(Row()), a, p, to)
    {
      var marked := assignments[a].posts[p := assignments[a].posts[p].(status := to)];
      assignments := assignments[a := assignments[a].(posts := marked, status := ComputeRollup(Views(marked)).status)];
    }

    method RejectSubmission(s: nat) returns (reply: Reply)
      modifies this
      ensures (State(), reply) == Campaigns.RejectSubmission(old(State()), s)
    {
      if !GoodSubmission(Row(), s) {
        return NotFound;
      }
      if !submissions[s].verdict.Undecided? {
        return WrongState;
      }
      submissions := submissions[s := submissions[s].(verdict := Failed)];
      SetPost(submissions[s].assignment, submissions[s].post, Rejected);
      return Success;
    }

    /** Pay the verified share, mark the post, and on a live campaign reopen, finalise or wait. */
    method ApproveSubmission(s: nat, verified: int, key: Key, terms: ApprovalTerms) returns (reply: Reply)
      modifies this, ledger
      ensures (State(), reply) == Campaigns.ApproveSubmission(old(State()), s, verified, key, terms)
    {
      if !GoodSubmission(Row(), s) {
        return NotFound;
      }
      var posted := ledger.AlreadyPosted(key);
      if posted {
        return AlreadyRecorded;
      }
      if !submissions[s].verdict.Undecided? {
        return WrongState;
      }
      if escrow.None? {
        return BadRequest;
      }
      var post := JudgedPost(Row(), s);
      var settled := Pricing.SettleDelivery(post.gross, verified, post.promised, terms.settlement);
      if settled.Err? || !settled.value.meetsThreshold {
        return BadRequest;
      }
      var promoter := ledger.GetOrCreateAccount(PromoterAvailable, assignments[submissions[s].assignment].promoter);
      var outcome := ledger.SettleSubmission(s, escrow.value, promoter, settled.value.fee, settled.value.take, key);
      if outcome.Refused? {
        return LedgerRefused(outcome.why);
      }
      if outcome.replayed {
        return Success;
      }
      var wasLive := status.Live?;
      submissions := submissions[s := submissions[s].(verdict := Passed, verified := verified)];
      SetPost(submissions[s].assignment, submissions[s].post, Approved);
      var balance := ledger.GetBalance(escrow.value);
      if !wasLive || balance.None? {
        return Success;
      }
      reply := Decide(escrow.value, balance.value, terms.reachPerPost);
    }

    /** The reach-driven decision after an approval. */
    method Decide(account: nat, balance: int, reachPerPost: nat) returns (reply: Reply)
      requires account < |ledger.accounts| && balance == Balance(ledger.State(), account)
      modifies this, ledger
      ensures (State(), reply) == Campaigns.Decide(old(State()), account, reachPerPost)
    {
      var workInFlight := WorkInFlight(Row());
      var totalVerified := TotalVerified(Row());
      var reachMet := 0 < target && target <= totalVerified;
      var slotCost := Quotes.Times(UnitOf(Row()), posts);
      var slotReach := Quotes.Times(reachPerPost, posts);
      var reopen := 0;
      if !reachMet && !workInFlight && 0 < target && 0 < slotReach && 0 < slotCost && 0 <= balance {
        var needed: nat := CeilDiv(target - totalVerified, slotReach);
        reopen := Min(needed, balance / slotCost);
      }
      if 0 < reopen {
        slots := slots + FreshSlots(reopen, UnitOf(Row()), posts);
        slotsTotal := slotsTotal + reopen;
        return Success;
      }
      if !reachMet && workInFlight {
        return Success;
      }
      status := Fulfilled;
      if workInFlight {
        return Success;
      }
      var remaining := ledger.GetBalance(account);
      if remaining.value <= 0 {
        return Success;
      }
      var outcome := ledger.RetainCampaignRemainder(id, account, remaining.value);
      return if outcome.Refused? then LedgerRefused(outcome.why) else Success;
    }

    // ---- The missed-deadline sweep ----

    /** First pass: turn every overdue post MISSED, counting them by assignment. */
    method FlipOverdue(now: int) returns (missedBy: map<nat, nat>)
      modifies this`assignments
      ensures Row() == FlippedFrom(old(Row()), 0, now)
      ensures forall i: nat :: i in missedBy <==> i < |old(assignments)| && NewlyMissed(old(assignments)[i], now) != 0
      ensures forall i: nat :: i in missedBy ==> missedBy[i] == NewlyMissed(old(assignments)[i], now)
    {
      ghost var before := assignments;
      missedBy := map[];
      for i := 0 to |assignments|
        invariant |assignments| == |before|
        invariant forall j :: 0 <= j < |before| ==>
                    assignments[j] == if j < i then Flipped(before[j], now) else before[j]
        invariant forall j: nat :: j in missedBy <==> j < i && NewlyMissed(before[j], now) != 0
        invariant forall j: nat :: j in missedBy ==> missedBy[j] == NewlyMissed(before[j], now)
      {
        if !assignments[i].status.Cancelled? && !assignments[i].status.Paid? {
          var missed := FlipPostsOf(i, now);
          if missed != 0 {
            missedBy := missedBy[i := missed];
          } else {
            NoneToFlip(before[i].posts, now);
          }
        }
      }
      assert assignments == FlippedFrom(old(Row()), 0, now).assignments;
    }

    method FlipPostsOf(i: nat, now: int) returns (missed: nat)
      requires i < |assignments|
      modifies this`assignments
      ensures missed == OverdueCount(old(assignments)[i].posts, now)
      ensures assignments
              == old(assignments)[i := old(assignments)[i].(posts := FlipPosts(old(assignments)[i].posts, now))]
    {
      ghost var before := assignments;
      ghost var all := assignments[i].posts;
      missed := 0;
      for p := 0 to |assignments[i].posts|
        invariant missed == OverdueCount(all[..p], now)
        invariant |assignments| == |before| && |assignments[i].posts| == |all|
        invariant assignments == before[i := before[i].(posts := assignments[i].posts)]
        invariant forall q :: 0 <= q < |all| ==> assignments[i].posts[q] == if q < p then Flip(all[q], now) else all[q]
      {
        var a := assignments[i];
        assert all[..p + 1][..p] == all[..p];
        if Overdue(a.posts[p], now) {
          missed := missed + 1;
          assignments := assignments[i := a.(posts := a.posts[p := a.posts[p].(status := Missed)])];
        }
      }
      assert all[..|all|] == all;
      assert assignments[i].posts == FlipPosts(all, now);
    }

    /** Second pass, for one assignment: keep it rolled up, or pull it and open its slot again. */
    method Reconcile(i: nat, missed: nat)
      requires i < |assignments|
      modifies this
      ensures ledger.State() == old(ledger.State())
      ensures Row() == Campaigns.Reconcile(old(Row()), i, missed)
    {
      var a := assignments[i];
      if a.status.Cancelled? {
        return;
      }
      var views := Views(a.posts);
      var deficit := |views| - ApprovedCount(views);
      var inARow := HasConsecutiveMisses(views, MISS_THRESHOLD);
      if 0 < deficit && (|views| == 1 || inARow) {
        assignments := assignments[i := a.(status := Cancelled, slot := None, posts := ForfeitPosts(a.posts))];
        if a.slot.Some? && a.slot.value < |slots| {
          slots := slots[a.slot.value := slots[a.slot.value].(status := Open, posts := deficit)];
          slotsFilled := slotsFilled - 1;
        }
      } else {
        assignments := assignments[i := a.(status := ComputeRollup(views).status)];
      }
      RecordNoShows(i, missed);
    }

    /** One trust event per post missed in this sweep. */
    method RecordNoShows(i: nat, missed: nat)
      modifies this`noShows
      ensures noShows == old(noShows) + Repeat(i, missed)
    {
      for k := 0 to missed
        invariant noShows == old(noShows) + Repeat(i, k)
      {
        noShows := noShows + [i];
        assert Repeat(i, k + 1) == Repeat(i, k) + [i];
      }
    }

    /** reclaimOverdueAssignments: both passes together are the sweep. */
    method Reclaim(now: int)
      modifies this
      ensures State() == Sweep(old(State()), now)
    {
      ghost var start := Row();
      var missedBy := FlipOverdue(now);
      for i := 0 to |assignments|
        invariant ledger.State() == old(ledger.State())
        invariant |assignments| == |start.assignments|
        invariant Row() == FlippedFrom(SweepUpTo(start, i, now), i, now)
      {
        ghost var swept := SweepUpTo(start, i, now);
        SweepLeavesLater(start, i, now);
        SweepThenFlip(swept, i, now);
        if i in missedBy {
          Reconcile(i, missedBy[i]);
        }
        assert SweepUpTo(start, i + 1, now) == SweepOne(swept, i, now);
      }
      assert Row() == SweepUpTo(start, |start.assignments|, now) by {
        var swept := SweepUpTo(start, |start.assignments|, now);
        assert FlippedFrom(swept, |start.assignments|, now).assignments == swept.assignments;
      }
    }
  }

  /** An assignment after the first pass. */
  function Flipped(a: Assignment, now: int): Assignment
  {
    if NewlyMissed(a, now) == 0 then a else a.(posts := FlipPosts(a.posts, now))
  }

  /** The campaign with the first pass made over assignments n and up. */
  function FlippedFrom(c: Campaign, n: nat, now: int): Campaign
  {
    c.(assignments := seq(|c.assignments|, j requires 0 <= j < |c.assignments| =>
                        if j < n then c.assignments[j] else Flipped(c.assignments[j], now)))
  }

  lemma {:induction false} NoneToFlip(posts: seq<DeliverySlot>, now: int)
    requires OverdueCount(posts, now) == 0
    ensures FlipPosts(posts, now) == posts
    decreases |posts|
  {
    if posts != [] {
      NoneToFlip(posts[..|posts| - 1], now);
      assert FlipPosts(posts, now) == FlipPosts(posts[..|posts| - 1], now) + [posts[|posts| - 1]];
      assert posts == posts[..|posts| - 1] + [posts[|posts| - 1]];
    }
  }

  /**
   * Reconciling assignment i after the first pass over i and up is sweeping i and making the first pass over the rest.
   */
  lemma SweepThenFlip(c: Campaign, i: nat, now: int)
    requires i < |c.assignments|
    ensures FlippedFrom(SweepOne(c, i, now), i + 1, now)
            == if NewlyMissed(c.assignments[i], now) == 0 then FlippedFrom(c, i, now)
               else Campaigns.Reconcile(FlippedFrom(c, i, now), i, NewlyMissed(c.assignments[i], now))
  {
    var l := FlippedFrom(SweepOne(c, i, now), i + 1, now);
    var r := if NewlyMissed(c.assignments[i], now) == 0 then FlippedFrom(c, i, now)
             else Campaigns.Reconcile(FlippedFrom(c, i, now), i, NewlyMissed(c.assignments[i], now));
    assert l.assignments == r.assignments;
  }
}
