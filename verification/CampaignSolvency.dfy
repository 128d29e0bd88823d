/**
 * Escrow against future pay: what the campaign may still have to pay is always backed, as long as two things the code
 * does not check hold.
 */
module CampaignSolvency {
  import opened Common
  import opened Ledger
  import opened Delivery
  import opened Campaigns
  import opened CampaignRows
  import opened CampaignMoney
  import Pricing
  import Quotes

  // ---- Exposure ----

  function OpenPosts(s: Slot): int { if s.status.Open? || s.status.Offered? then s.posts else 0 }

  function UnresolvedOne(v: PostView): int { if Resolved(v.status) then 0 else 1 }

  function InReviewOne(v: PostView): int { if v.status.Submitted? then 1 else 0 }

  function InReview(posts: seq<DeliverySlot>): int { Sum(InReviewOne, Views(posts)) }

  /** The posts of an assignment that may still be paid, by its promoter or, once it is pulled, by a replacement. */
  function Owed(a: Assignment): int
  {
    if a.slot.None? then Sum(UnresolvedOne, Views(a.posts))
    else if AllResolved(Views(a.posts)) then 0
    else Deficit(a.posts)
  }

  /** Posts of open slots, and posts owed on every assignment. */
  function Exposure(c: Campaign): int { Sum(OpenPosts, c.slots) + Sum(Owed, c.assignments) }

  predicate Backed(w: World)
  {
    var e := EscrowOf(w);
    OnAir(w.campaign) ==> e < |w.books.accounts| && UnitOf(w.campaign) * Exposure(w.campaign) <= Balance(w.books, e)
  }

  /** The slots priced by a quote fit its price. */
  predicate QuoteFits(c: Campaign)
  {
    c.status.Quoted? || c.status.UnderReview? || c.status.ChangesNeeded? ==>
      c.price.Some? && UnitOf(c) * (|c.slots| * c.posts) <= c.price.value
  }

  ghost predicate Solvent(w: World) { MoneyOk(w) && RowsOk(w.campaign) && QuoteFits(w.campaign) && Backed(w) }

  // ---- Facts about single assignments ----

  lemma ViewsUpdate(posts: seq<DeliverySlot>, p: nat, status: PostStatus)
    requires p < |posts|
    ensures Views(posts[p := posts[p].(status := status)]) == Views(posts)[p := PostView(posts[p].index, status)]
  {
  }

  lemma DeficitIsSum(posts: seq<DeliverySlot>)
    ensures Deficit(posts) == |posts| - Sum(ApprovedOne, Views(posts))
  {
    ApprovedCountIsSum(Views(posts));
  }

  lemma OwedIsNonNegative(a: Assignment)
    ensures 0 <= Owed(a)
    ensures (exists p :: 0 <= p < |a.posts| && a.posts[p].status.Submitted?) ==> 1 <= Owed(a)
  {
    var vs := Views(a.posts);
    SumNonNegative(UnresolvedOne, vs);
    DeficitIsSum(a.posts);
    SumOfBits(ApprovedOne, vs);
    if p :| 0 <= p < |a.posts| && a.posts[p].status.Submitted? {
      assert UnresolvedOne(vs[p]) == 1;
      var ws := vs[p := PostView(vs[p].index, Approved)];
      SumUpdate(ApprovedOne, vs, p, ws[p]);
      SumOfBits(ApprovedOne, ws);
    }
  }

  /** Judging a post in review: an approval lowers what is owed, a rejection leaves it. */
  lemma JudgedOwed(a: Assignment, p: nat, status: PostStatus, a': Assignment)
    requires p < |a.posts| && a.posts[p].status.Submitted? && (status.Approved? || status.Rejected?)
    requires a'.slot == a.slot && a'.posts == a.posts[p := a.posts[p].(status := status)]
    ensures if status.Approved? then Owed(a') <= Owed(a) - 1 else Owed(a') == Owed(a)
  {
    var vs, v := Views(a.posts), PostView(a.posts[p].index, status);
    ViewsUpdate(a.posts, p, status);
    SumUpdate(UnresolvedOne, vs, p, v);
    SumUpdate(ApprovedOne, vs, p, v);
    DeficitIsSum(a.posts);
    DeficitIsSum(a'.posts);
    OwedIsNonNegative(a);
    assert vs[p].status.Submitted?;
    assert status.Rejected? ==> Views(a'.posts)[p].status.Rejected?;
  }

  /** Sending a post to review changes nothing about what is owed. */
  lemma SubmittedOwed(a: Assignment, p: nat, a': Assignment)
    requires p < |a.posts| && Outstanding(a.posts[p].status)
    requires a'.slot == a.slot && a'.posts == a.posts[p := a.posts[p].(status := Submitted)]
    ensures Owed(a') == Owed(a)
  {
    var vs, v := Views(a.posts), PostView(a.posts[p].index, Submitted);
    ViewsUpdate(a.posts, p, Submitted);
    SumUpdate(UnresolvedOne, vs, p, v);
    SumUpdate(ApprovedOne, vs, p, v);
    DeficitIsSum(a.posts);
    DeficitIsSum(a'.posts);
    assert vs[p].status == a.posts[p].status;
    assert Views(a'.posts)[p].status.Submitted?;
  }

  /** An untouched assignment just accepted owes all its posts. */
  lemma NewOwed(a: Assignment)
    requires a.slot.Some? && a.posts != [] && forall j :: 0 <= j < |a.posts| ==> a.posts[j].status.Pending?
    ensures Owed(a) == |a.posts|
  {
    DeficitIsSum(a.posts);
    SumConstant(ApprovedOne, Views(a.posts), 0);
    assert Views(a.posts)[0].status.Pending?;
  }

  // ---- Solvency of each step ----

  lemma ScaledLess(u: nat, x: int, y: int)
    requires x <= y
    ensures u * x <= u * y
  {
  }

  /** Changing one assignment. */
  lemma OneAssignmentExposure(c: Campaign, c': Campaign, i: nat)
    requires i < |c.assignments| == |c'.assignments| && c'.slots == c.slots
             && c'.assignments == c.assignments[i := c'.assignments[i]]
    ensures Exposure(c') == Exposure(c) - Owed(c.assignments[i]) + Owed(c'.assignments[i])
  {
    SumUpdate(Owed, c.assignments, i, c'.assignments[i]);
  }

  lemma AcceptExposure(w: World, offer: nat, promoter: nat, clock: Clock)
    requires RowsOk(w.campaign)
    ensures Exposure(Accept(w, offer, promoter, clock).0.campaign) == Exposure(w.campaign)
  {
    var c := w.campaign;
    var (w', reply) := Accept(w, offer, promoter, clock);
    if reply.Success? {
      var c', k := w'.campaign, FirstOpen(c.slots);
      var a := c'.assignments[|c.assignments|];
      NewPostsOk(c, c.offers[offer], c.slots[k].posts, clock);
      NewOwed(a);
      SumUpdate(OpenPosts, c.slots, k, c'.slots[k]);
      SumSnoc(Owed, c.assignments, a);
    }
  }

  lemma SubmitExposure(w: World, assignment: nat, promoter: nat, named: Option<nat>)
    ensures Exposure(Submit(w, assignment, promoter, named).0.campaign) == Exposure(w.campaign)
  {
    var c := w.campaign;
    var (w', reply) := Submit(w, assignment, promoter, named);
    if reply.Success? {
      var p := GetOr(named, FirstOutstanding(c.assignments[assignment].posts));
      SubmittedOwed(c.assignments[assignment], p, w'.campaign.assignments[assignment]);
      OneAssignmentExposure(c, w'.campaign, assignment);
    }
  }

  lemma JudgedExposure(c: Campaign, s: nat, status: PostStatus, subs: seq<Submission>)
    requires RowsOk(c) && s < |c.submissions| && c.submissions[s].verdict.Undecided?
             && (status.Approved? || status.Rejected?)
    ensures GoodSubmission(c, s)
    ensures var c' := SetPost(c, c.submissions[s].assignment, c.submissions[s].post, status).(submissions := subs);
            if status.Approved? then Exposure(c') <= Exposure(c) - 1 else Exposure(c') == Exposure(c)
  {
    assert SubmissionOk(c, c.submissions[s]);
    var a, p := c.submissions[s].assignment, c.submissions[s].post;
    var c' := SetPost(c, a, p, status).(submissions := subs);
    JudgedOwed(c.assignments[a], p, status, c'.assignments[a]);
    OneAssignmentExposure(c, c', a);
  }

  /** A submission still to be judged is backed: its post alone is part of the exposure. */
  lemma UndecidedIsExposed(c: Campaign, s: nat)
    requires RowsOk(c) && s < |c.submissions| && c.submissions[s].verdict.Undecided?
    ensures 1 <= Exposure(c)
  {
    assert SubmissionOk(c, c.submissions[s]);
    var a := c.submissions[s].assignment;
    forall i | 0 <= i < |c.assignments| ensures 0 <= Owed(c.assignments[i]) {
      OwedIsNonNegative(c.assignments[i]);
    }
    OwedIsNonNegative(c.assignments[a]);
    SumNonNegative(Owed, c.assignments);
    SumNonNegative(OpenPosts, c.slots);
  }

  lemma DeliveredIsWithinUnit(c: Campaign, s: nat, verified: nat)
    requires RowsOk(c) && GoodSubmission(c, s) && 0 < JudgedPost(c, s).promised
    ensures Pricing.Delivered(JudgedPost(c, s).gross, verified, JudgedPost(c, s).promised) <= UnitOf(c)
  {
    assert AssignmentOk(c, c.assignments[c.submissions[s].assignment]);
    Pricing.DeliveredIsMonotone(JudgedPost(c, s).gross, verified, verified, JudgedPost(c, s).promised);
  }

  lemma OneUnitLess(u: nat, x: int, x': int, balance: int, paid: int)
    requires x' <= x - 1 && paid <= u && u * x <= balance
    ensures u * x' <= balance - paid
  {
    ScaledLess(u, x', x - 1);
    assert u * (x - 1) == u * x - u;
  }

  /** Marking the judged post: one post less is owed and nothing else about the exposure moves. */
  lemma MarkedExposure(c: Campaign, s: nat, verified: nat)
    requires RowsOk(c) && s < |c.submissions| && c.submissions[s].verdict.Undecided?
    ensures GoodSubmission(c, s) && OnAir(c)
    ensures var c' := MarkApproved(c, s, verified);
            Exposure(c') <= Exposure(c) - 1 && UnitOf(c') == UnitOf(c) && c'.status == c.status
  {
    assert c.submissions != [];
    assert SubmissionOk(c, c.submissions[s]);
    JudgedExposure(c, s, Approved, MarkApproved(c, s, verified).submissions);
  }

  /** Paying for a post keeps the campaign backed: at most one unit leaves, and one post less is owed. */
  lemma PayKeepsBacked(w: World, s: nat, verified: int, key: Key, settlement: Pricing.SettlementConfig)
    requires Solvent(w) && key.ClientKey?
    ensures Backed(PayForPost(w, s, verified, key, settlement).world)
  {
    var paid := PayForPost(w, s, verified, key, settlement);
    PayMovesDelivered(w, s, verified, key, settlement);
    PaidKeepsBacked(w, s, verified, paid);
  }

  lemma PaidKeepsBacked(w: World, s: nat, verified: int, paid: Payment)
    requires RowsOk(w.campaign) && Backed(w)
    requires if paid.paidNow then
               GoodSubmission(w.campaign, s) && w.campaign.submissions[s].verdict.Undecided? && 0 <= verified &&
               var post := JudgedPost(w.campaign, s);
               0 < post.promised && PaidOut(w, paid.world, Pricing.Delivered(post.gross, verified, post.promised))
               && paid.world.campaign == MarkApproved(w.campaign, s, verified)
             else PaidOut(w, paid.world, 0) && paid.world.campaign == w.campaign
    ensures Backed(paid.world)
  {
    var c, e := w.campaign, EscrowOf(w);
    if paid.paidNow {
      MarkedExposure(c, s, verified);
      DeliveredIsWithinUnit(c, s, verified);
      var post := JudgedPost(c, s);
      OneUnitLess(UnitOf(c), Exposure(c), Exposure(paid.world.campaign), Balance(w.books, e),
                  Pricing.Delivered(post.gross, verified, post.promised));
    }
  }

  /**
   * No approval is ever refused for lack of funds: with a fresh key the post is paid exactly when it was to be judged
   * and earns something.
   */
  lemma ApprovalIsNeverShort(w: World, s: nat, verified: int, key: Key, settlement: Pricing.SettlementConfig)
    requires Solvent(w) && key.ClientKey? && !Blank(key) && !Has(w.books.log, key)
    ensures PayForPost(w, s, verified, key, settlement).reply != LedgerRefused(InsufficientFunds)
    ensures PayForPost(w, s, verified, key, settlement).paidNow <==>
              GoodSubmission(w.campaign, s) && w.campaign.submissions[s].verdict.Undecided?
              && 0 < JudgedPost(w.campaign, s).promised && 0 <= verified
              && settlement.threshold * JudgedPost(w.campaign, s).promised <= verified * 100
              && 0 < Pricing.Delivered(JudgedPost(w.campaign, s).gross, verified, JudgedPost(w.campaign, s).promised)
  {
    PayUnfolds(w, s, verified, key, settlement);
    if MayPay(w, s, verified, key, settlement) {
      PermittedPayGoesThrough(w, s, verified, key, settlement);
    } else if GoodSubmission(w.campaign, s) && w.campaign.submissions[s].verdict.Undecided? {
      assert w.campaign.submissions != [] && OnAir(w.campaign);
    }
  }

  lemma PermittedPayGoesThrough(w: World, s: nat, verified: int, key: Key, settlement: Pricing.SettlementConfig)
    requires Solvent(w) && key.ClientKey? && !Blank(key) && MayPay(w, s, verified, key, settlement)
    ensures var post := JudgedPost(w.campaign, s);
            var settled := Pricing.SettleDelivery(post.gross, verified, post.promised, settlement).value;
            var (b, a) :=
              GetOrCreate(w.books, PromoterAvailable,
                          w.campaign.assignments[w.campaign.submissions[s].assignment].promoter);
            var paid := PostSettlement(w.(books := b), s, verified, key, a, settled);
            paid.reply != LedgerRefused(InsufficientFunds) && (paid.paidNow <==> 0 < settled.delivered)
  {
    var c := w.campaign;
    assert c.submissions != [];
    var post := JudgedPost(c, s);
    var settled := Pricing.SettleDelivery(post.gross, verified, post.promised, settlement).value;
    var promoter := c.assignments[c.submissions[s].assignment].promoter;
    var (b, a) := GetOrCreate(w.books, PromoterAvailable, promoter);
    OpeningKeepsMoney(w, PromoterAvailable, promoter);
    Pricing.FeeWithinPrice(settled.delivered, settlement.takeRate);
    SettlementPosted(w.(books := b), s, verified, key, a, settled);
    UndecidedIsExposed(c, s);
    ScaledLess(UnitOf(c), 1, Exposure(c));
    DeliveredIsWithinUnit(c, s, verified);
  }

  // ---- Reopening and finalising ----

  predicate NoneRejected(c: Campaign)
  {
    forall i :: 0 <= i < |c.assignments| ==> forall j :: 0 <= j < |c.assignments[i].posts| ==>
      !c.assignments[i].posts[j].status.Rejected?
  }

  /** When nothing is in flight and nothing waits to be submitted again, nothing more can be paid. */
  lemma IdleIsUnexposed(c: Campaign)
    requires RowsOk(c) && !WorkInFlight(c) && NoneRejected(c)
    ensures Exposure(c) == 0
  {
    forall k | 0 <= k < |c.slots| ensures OpenPosts(c.slots[k]) == 0 {
      assert !SlotsOpen(c.slots);
    }
    SumConstant(OpenPosts, c.slots, 0);
    forall i | 0 <= i < |c.assignments| ensures Owed(c.assignments[i]) == 0 {
      var posts := c.assignments[i].posts;
      assert !PostsInFlight(posts);
      var vs := Views(posts);
      forall j | 0 <= j < |vs| ensures Resolved(vs[j].status) {
        assert !posts[j].status.Pending? && !posts[j].status.Submitted? && !posts[j].status.Rejected?;
      }
      SumConstant(UnresolvedOne, vs, 0);
    }
    SumConstant(Owed, c.assignments, 0);
  }

  /** Enough slots are opened to close the deficit, unless escrow does not pay for one more. */
  lemma EnoughIsReopened(c: Campaign, escrow: nat, reachPerPost: nat)
    requires !WorkInFlight(c) && 0 < c.target && TotalVerified(c) < c.target && 0 < reachPerPost * c.posts
             && 0 < UnitOf(c) * c.posts
    ensures var n := ReopenCount(c, escrow, reachPerPost);
            c.target <= TotalVerified(c) + n * (reachPerPost * c.posts) || escrow < (n + 1) * (UnitOf(c) * c.posts)
  {
    CeilingCovers(c.target - TotalVerified(c), reachPerPost * c.posts);
    FloorIsTight(escrow, UnitOf(c) * c.posts);
  }

  lemma FloorFits(n: nat, x: nat, d: nat)
    requires 0 < d && n <= x / d
    ensures n * d <= x
  {
    assert x == d * (x / d) + x % d;
    ScaledLess(d, n, x / d);
    assert n * d == d * n;
  }

  /** A reopening costs at most the escrow on hand, and stops at the slot that closes the deficit. */
  lemma ReopenIsBounded(c: Campaign, escrow: nat, reachPerPost: nat)
    ensures var n := ReopenCount(c, escrow, reachPerPost);
            && UnitOf(c) * (n * c.posts) <= escrow
            && (0 < n ==>
               !ReachMet(c) && !WorkInFlight(c)
               && (n - 1) * Quotes.Times(reachPerPost, c.posts) < c.target - TotalVerified(c))
            && (!WorkInFlight(c) && 0 < c.target && TotalVerified(c) < c.target && 0 < reachPerPost * c.posts
                && 0 < UnitOf(c) * c.posts ==>
                  || c.target <= TotalVerified(c) + n * (reachPerPost * c.posts)
                  || escrow < (n + 1) * (UnitOf(c) * c.posts))
  {
    if !WorkInFlight(c) && 0 < c.target && TotalVerified(c) < c.target && 0 < reachPerPost * c.posts
      && 0 < UnitOf(c) * c.posts {
      EnoughIsReopened(c, escrow, reachPerPost);
    }
    var n := ReopenCount(c, escrow, reachPerPost);
    if 0 < n {
      var slotCost, slotReach := Quotes.Times(UnitOf(c), c.posts), Quotes.Times(reachPerPost, c.posts);
      FloorFits(n, escrow, slotCost);
      assert UnitOf(c) * (n * c.posts) == n * slotCost;
      CeilingIsTight(c.target - TotalVerified(c), slotReach, n);
    }
  }

  lemma CeilingCovers(a: nat, d: nat)
    requires 0 < d
    ensures a <= CeilDiv(a, d) * d
  {
    assert a + d - 1 == d * CeilDiv(a, d) + (a + d - 1) % d;
    assert CeilDiv(a, d) * d == d * CeilDiv(a, d);
  }

  lemma FloorIsTight(x: nat, d: nat)
    requires 0 < d
    ensures x < (x / d + 1) * d
  {
    assert x == d * (x / d) + x % d;
    assert (x / d + 1) * d == d * (x / d) + d;
  }

  lemma CeilingIsTight(a: nat, d: nat, n: nat)
    requires 0 < d && 0 < n <= CeilDiv(a, d)
    ensures (n - 1) * d < a
  {
    var q := (a + d - 1) / d;
    assert a + d - 1 == d * q + (a + d - 1) % d;
    ScaledLess(d, n, q);
    assert (n - 1) * d == d * n - d;
  }

  lemma FreshSlotsExposure(n: nat, unit: nat, posts: nat)
    ensures Sum(OpenPosts, FreshSlots(n, unit, posts)) == n * posts
  {
    SumConstant(OpenPosts, FreshSlots(n, unit, posts), posts);
  }

  lemma ReopenedExposure(c: Campaign, n: nat)
    requires c.slots != []
    ensures var c' := c.(slots := c.slots + FreshSlots(n, UnitOf(c), c.posts), slotsTotal := c.slotsTotal + n);
            Exposure(c') == Exposure(c) + n * c.posts && UnitOf(c') == UnitOf(c)
  {
    SumConcat(OpenPosts, c.slots, FreshSlots(n, UnitOf(c), c.posts));
    FreshSlotsExposure(n, UnitOf(c), c.posts);
  }

  lemma DecideReopens(w: World, e: nat, reachPerPost: nat)
    requires e < |w.books.accounts| && 0 < ReopenCount(w.campaign, Balance(w.books, e), reachPerPost)
    ensures var n := ReopenCount(w.campaign, Balance(w.books, e), reachPerPost);
            Decide(w, e, reachPerPost).0
            == w.(campaign := w.campaign.(
                    slots := w.campaign.slots + FreshSlots(n, UnitOf(w.campaign), w.campaign.posts),
                    slotsTotal := w.campaign.slotsTotal + n))
  {
  }

  lemma ReopenKeepsBacked(w: World, reachPerPost: nat)
    requires RowsOk(w.campaign) && w.campaign.status.Live? && NoneRejected(w.campaign)
    requires EscrowOf(w) < |w.books.accounts| && 0 <= Balance(w.books, EscrowOf(w))
    requires 0 < ReopenCount(w.campaign, Balance(w.books, EscrowOf(w)), reachPerPost)
    ensures Backed(Decide(w, EscrowOf(w), reachPerPost).0)
  {
    var c, balance := w.campaign, Balance(w.books, EscrowOf(w));
    var n := ReopenCount(c, balance, reachPerPost);
    ReopenIsBounded(c, balance, reachPerPost);
    assert c.slots != [] by {
      assert 0 < Quotes.Times(UnitOf(c), c.posts);
    }
    IdleIsUnexposed(c);
    ReopenedExposure(c, n);
    DecideReopens(w, EscrowOf(w), reachPerPost);
  }

  lemma DecideFinishes(w: World, e: nat, reachPerPost: nat)
    requires e < |w.books.accounts| && ReopenCount(w.campaign, Balance(w.books, e), reachPerPost) == 0
    ensures Decide(w, e, reachPerPost).0.campaign
            == w.campaign.(status := if ReachMet(w.campaign) || !WorkInFlight(w.campaign) then Fulfilled
                                     else w.campaign.status)
  {
    RetainLeavesRows(w.(campaign := w.campaign.(status := Fulfilled)), e);
  }

  lemma StatusLeavesExposure(c: Campaign, status: CampaignStatus)
    ensures Exposure(c.(status := status)) == Exposure(c) && UnitOf(c.(status := status)) == UnitOf(c)
  {
  }

  lemma FinishKeepsBacked(w: World, reachPerPost: nat)
    requires MoneyOk(w) && RowsOk(w.campaign) && Backed(w) && w.campaign.status.Live?
    requires !WorkInFlight(w.campaign) ==> Exposure(w.campaign) == 0
    requires ReopenCount(w.campaign, Balance(w.books, EscrowOf(w)), reachPerPost) == 0
    ensures Backed(Decide(w, EscrowOf(w), reachPerPost).0)
  {
    DecideKeepsMoney(w, reachPerPost);
    DecideFinishes(w, EscrowOf(w), reachPerPost);
    FinishedIsBacked(w, Decide(w, EscrowOf(w), reachPerPost).0);
  }

  lemma FinishedIsBacked(w: World, w': World)
    requires Backed(w) && OnAir(w.campaign) && EscrowOf(w') == EscrowOf(w) < |w'.books.accounts|
    requires w'.campaign == w.campaign || w'.campaign == w.campaign.(status := Fulfilled)
    requires Balance(w'.books, EscrowOf(w)) == Balance(w.books, EscrowOf(w))
             || (Exposure(w.campaign) == 0 && Balance(w'.books, EscrowOf(w)) == 0)
    ensures Backed(w')
  {
    StatusLeavesExposure(w.campaign, Fulfilled);
  }

  lemma DecideKeepsBacked(w: World, reachPerPost: nat)
    requires MoneyOk(w) && RowsOk(w.campaign) && Backed(w) && w.campaign.status.Live?
    requires !WorkInFlight(w.campaign) ==> NoneRejected(w.campaign)
    ensures Backed(Decide(w, EscrowOf(w), reachPerPost).0)
  {
    if 0 < ReopenCount(w.campaign, Balance(w.books, EscrowOf(w)), reachPerPost) {
      ReopenKeepsBacked(w, reachPerPost);
    } else {
      if !WorkInFlight(w.campaign) {
        IdleIsUnexposed(w.campaign);
      }
      FinishKeepsBacked(w, reachPerPost);
    }
  }

  // ---- The sweep ----

  lemma FlippedCounts(posts: seq<DeliverySlot>, now: int)
    ensures Deficit(FlipPosts(posts, now)) == Deficit(posts)
    ensures InReview(FlipPosts(posts, now)) == InReview(posts)
    ensures Sum(UnresolvedOne, Views(FlipPosts(posts, now))) <= Sum(UnresolvedOne, Views(posts))
    ensures AllResolved(Views(posts)) ==> AllResolved(Views(FlipPosts(posts, now)))
  {
    var vs, fs := Views(posts), Views(FlipPosts(posts, now));
    DeficitIsSum(posts);
    DeficitIsSum(FlipPosts(posts, now));
    SumMonotone(ApprovedOne, vs, ApprovedOne, fs);
    SumMonotone(ApprovedOne, fs, ApprovedOne, vs);
    SumMonotone(InReviewOne, vs, InReviewOne, fs);
    SumMonotone(InReviewOne, fs, InReviewOne, vs);
    SumMonotone(UnresolvedOne, fs, UnresolvedOne, vs);
    assert AllResolved(vs) ==> forall i :: 0 <= i < |fs| ==> Resolved(vs[i].status) && fs[i] == vs[i];
  }

  lemma ForfeitedCounts(posts: seq<DeliverySlot>)
    ensures Sum(UnresolvedOne, Views(ForfeitPosts(posts))) == InReview(posts)
  {
    var vs, fs := Views(posts), Views(ForfeitPosts(posts));
    SumMonotone(UnresolvedOne, fs, InReviewOne, vs);
    SumMonotone(InReviewOne, vs, UnresolvedOne, fs);
  }

  lemma {:induction false} OverdueIsOutstanding(posts: seq<DeliverySlot>, now: int)
    requires 0 < OverdueCount(posts, now)
    ensures exists p :: 0 <= p < |posts| && Overdue(posts[p], now)
    decreases |posts|
  {
    if !Overdue(posts[|posts| - 1], now) {
      OverdueIsOutstanding(posts[..|posts| - 1], now);
      var p :| 0 <= p < |posts| - 1 && Overdue(posts[..|posts| - 1][p], now);
      assert Overdue(posts[p], now);
    }
  }

  /** The assignment is pulled by a sweep at this time. */
  predicate WillBePulled(a: Assignment, now: int)
  {
    NewlyMissed(a, now) != 0 && ShouldPull(Views(FlipPosts(a.posts, now)))
  }

  lemma PulledShape(c: Campaign, i: nat, now: int)
    requires i < |c.assignments| && WillBePulled(c.assignments[i], now) && !c.assignments[i].status.Cancelled?
    requires c.assignments[i].slot.Some? && c.assignments[i].slot.value < |c.slots|
    ensures var a, c', posts := c.assignments[i], SweepOne(c, i, now), FlipPosts(c.assignments[i].posts, now);
            && c'.assignments == c.assignments[i := a.(status := Cancelled, slot := None, posts := ForfeitPosts(posts))]
            && c'.slots
               == c.slots[a.slot.value := c.slots[a.slot.value].(status := Open, posts := Max(0, Deficit(posts)))]
  {
  }

  /** The exact price of pulling: every post in review stays payable although the reopened slot carries it too. */
  lemma PullCostsPostsInReview(c: Campaign, i: nat, now: int)
    requires i < |c.assignments| && AssignmentOk(c, c.assignments[i])
    requires c.assignments[i].slot.Some? && WillBePulled(c.assignments[i], now)
    ensures Exposure(SweepOne(c, i, now)) == Exposure(c) + InReview(c.assignments[i].posts)
  {
    var a, c' := c.assignments[i], SweepOne(c, i, now);
    var posts := FlipPosts(a.posts, now);
    PulledShape(c, i, now);
    OverdueIsOutstanding(a.posts, now);
    var p :| 0 <= p < |a.posts| && Overdue(a.posts[p], now);
    assert !Resolved(Views(a.posts)[p].status);
    FlippedCounts(a.posts, now);
    ForfeitedCounts(posts);
    DeficitIsPositive(posts);
    SumUpdate(OpenPosts, c.slots, a.slot.value, c'.slots[a.slot.value]);
    SumUpdate(Owed, c.assignments, i, c'.assignments[i]);
  }

  lemma SweepOneExposure(c: Campaign, i: nat, now: int)
    requires i < |c.assignments| && AssignmentOk(c, c.assignments[i])
    requires c.assignments[i].slot.Some? && WillBePulled(c.assignments[i], now) ==>
             InReview(c.assignments[i].posts) == 0
    ensures Exposure(SweepOne(c, i, now)) <= Exposure(c)
  {
    var a, c' := c.assignments[i], SweepOne(c, i, now);
    if NewlyMissed(a, now) != 0 {
      if a.slot.Some? && WillBePulled(a, now) {
        PullCostsPostsInReview(c, i, now);
      } else {
        var posts := FlipPosts(a.posts, now);
        FlippedCounts(a.posts, now);
        FlippedCounts(posts, 0);
        ForfeitedCounts(posts);
        InReviewIsUnresolved(posts);
        OwedIsNonNegative(a);
        OneAssignmentExposure(c, c', i);
      }
    }
  }

  lemma InReviewIsUnresolved(posts: seq<DeliverySlot>)
    ensures InReview(posts) <= Sum(UnresolvedOne, Views(posts))
  {
    SumMonotone(InReviewOne, Views(posts), UnresolvedOne, Views(posts));
  }

  /** The sweep has not yet touched the assignments it has not come to. */
  lemma {:induction false} SweepLeavesLater(c: Campaign, n: nat, now: int)
    requires n <= |c.assignments|
    ensures forall i :: n <= i < |c.assignments| ==> SweepUpTo(c, n, now).assignments[i] == c.assignments[i]
    decreases n
  {
    if n > 0 {
      SweepLeavesLater(c, n - 1, now);
    }
  }

  /** No assignment about to lose its slot still has a post in review. */
  predicate CleanSweep(c: Campaign, now: int)
  {
    forall i :: 0 <= i < |c.assignments| && c.assignments[i].slot.Some? && WillBePulled(c.assignments[i], now) ==>
      InReview(c.assignments[i].posts) == 0
  }

  lemma SweepStepExposure(c: Campaign, i: nat, now: int, a: Assignment, c': Campaign)
    requires RowsOk(c) && i < |c.assignments| && c.assignments[i] == a && c' == SweepOne(c, i, now)
    requires a.slot.Some? && WillBePulled(a, now) ==> InReview(a.posts) == 0
    ensures Exposure(c') <= Exposure(c) && UnitOf(c') == UnitOf(c)
  {
    assert AssignmentOk(c, c.assignments[i]);
    SweepOneExposure(c, i, now);
    SweepOneKeepsUnit(c, i, now);
  }

  lemma CleanAt(c: Campaign, now: int, i: nat)
    requires CleanSweep(c, now) && i < |c.assignments|
    ensures c.assignments[i].slot.Some? && WillBePulled(c.assignments[i], now) ==> InReview(c.assignments[i].posts) == 0
  {
  }

  /** The tables are right, nothing is exposed beyond c, and from assignment i on nothing has changed. */
  predicate SweptSafely(c: Campaign, x: Campaign, i: nat)
  {
    && RowsOk(x) && Exposure(x) <= Exposure(c) && UnitOf(x) == UnitOf(c) && |x.assignments| == |c.assignments|
    && forall j :: i <= j < |c.assignments| ==> x.assignments[j] == c.assignments[j]
  }

  lemma SweepOneIsSafe(c: Campaign, x: Campaign, i: nat, now: int)
    requires SweptSafely(c, x, i) && i < |c.assignments|
    requires c.assignments[i].slot.Some? && WillBePulled(c.assignments[i], now) ==>
             InReview(c.assignments[i].posts) == 0
    ensures SweptSafely(c, SweepOne(x, i, now), i + 1)
  {
    SweepStepExposure(x, i, now, c.assignments[i], SweepOne(x, i, now));
    SweepOneKeepsRows(x, i, now);
    SweepOneLeavesOthers(x, i, now);
  }

  lemma SweepOneLeavesOthers(c: Campaign, i: nat, now: int)
    requires i < |c.assignments|
    ensures |SweepOne(c, i, now).assignments| == |c.assignments|
    ensures forall j :: 0 <= j < |c.assignments| && j != i ==> SweepOne(c, i, now).assignments[j] == c.assignments[j]
  {
  }

  /** A clean sweep never raises the exposure. */
  lemma SweepExposure(c: Campaign, n: nat, now: int)
    requires RowsOk(c) && n <= |c.assignments| && CleanSweep(c, now)
    ensures Exposure(SweepUpTo(c, n, now)) <= Exposure(c) && UnitOf(SweepUpTo(c, n, now)) == UnitOf(c)
  {
    forall x: Campaign, i: nat | i < n && |x.assignments| == |c.assignments| && SweptSafely(c, x, i)
      ensures SweptSafely(c, SweepOne(x, i, now), i + 1)
    {
      CleanAt(c, now, i);
      SweepOneIsSafe(c, x, i, now);
    }
    SweepInduction(c, n, now, (x: Campaign, i: nat) => SweptSafely(c, x, i));
  }

  lemma SweepOneKeepsUnit(c: Campaign, i: nat, now: int)
    requires i < |c.assignments|
    ensures UnitOf(SweepOne(c, i, now)) == UnitOf(c)
  {
  }
}
