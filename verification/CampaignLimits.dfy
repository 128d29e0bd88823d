/**
 * Where solvency ends: exactly what each sweep and each decision does to what may still be paid, so exactly which
 * steps, and which runs, keep a campaign backed.
 */
module CampaignLimits {
  import opened Common
  import opened Ledger
  import opened Delivery
  import opened Campaigns
  import opened CampaignRows
  import opened CampaignMoney
  import opened CampaignSolvency
  import opened CampaignRuns
  import opened CampaignTerms
  import Pricing
  import Quotes

  // ---- What a sweep does to the exposure ----

  /** How much more may have to be paid once the sweep has dealt with one assignment. */
  function SweepRise(a: Assignment, now: int): int
  {
    if NewlyMissed(a, now) == 0 then 0
    else if a.slot.Some? then
      if WillBePulled(a, now) then
        InReview(a.posts)                                // its slot carries them a second time
      else if AllResolved(Views(FlipPosts(a.posts, now))) then
        0 - Deficit(a.posts)    // finished: nobody makes the rest good
      else 0
    else if WillBePulled(a, now) then 0 - OutstandingCount(Views(a.posts))
    else 0 - OverdueCount(a.posts, now)
  }

  function RiseAt(now: int): Assignment -> int { (a: Assignment) => SweepRise(a, now) }

  lemma {:induction false} UnresolvedSplits(vs: seq<PostView>)
    ensures Sum(UnresolvedOne, vs) == Sum(InReviewOne, vs) + OutstandingCount(vs)
    decreases |vs|
  {
    if vs != [] {
      UnresolvedSplits(vs[..|vs| - 1]);
    }
  }

  lemma {:induction false} FlippedUnresolved(posts: seq<DeliverySlot>, now: int)
    ensures Sum(UnresolvedOne, Views(FlipPosts(posts, now)))
            == Sum(UnresolvedOne, Views(posts)) - OverdueCount(posts, now)
    decreases |posts|
  {
    if posts != [] {
      var front, last := posts[..|posts| - 1], posts[|posts| - 1];
      FlippedUnresolved(front, now);
      assert Views(posts) == Views(front) + [PostView(last.index, last.status)];
      assert Views(FlipPosts(posts, now))
             == Views(FlipPosts(front, now)) + [PostView(last.index, Flip(last, now).status)];
      SumSnoc(UnresolvedOne, Views(front), PostView(last.index, last.status));
      SumSnoc(UnresolvedOne, Views(FlipPosts(front, now)), PostView(last.index, Flip(last, now).status));
    }
  }

  lemma OverdueIsUnresolved(posts: seq<DeliverySlot>, now: int)
    requires OverdueCount(posts, now) != 0
    ensures !AllResolved(Views(posts))
  {
    OverdueIsOutstanding(posts, now);
    var p :| 0 <= p < |posts| && Overdue(posts[p], now);
    assert !Resolved(Views(posts)[p].status);
  }

  /** A kept assignment that held its slot. */
  lemma KeptRise(a: Assignment, now: int, a': Assignment)
    requires a.slot.Some? && NewlyMissed(a, now) != 0 && !WillBePulled(a, now)
    requires a'.slot == a.slot && a'.posts == FlipPosts(a.posts, now)
    ensures Owed(a') == Owed(a) + SweepRise(a, now)
  {
    OverdueIsUnresolved(a.posts, now);
    FlippedCounts(a.posts, now);
  }

  /** An assignment that had lost its slot already. */
  lemma SlotlessRise(a: Assignment, now: int, a': Assignment)
    requires a.slot.None? && NewlyMissed(a, now) != 0 && a'.slot.None?
    requires a'.posts == if WillBePulled(a, now) then ForfeitPosts(FlipPosts(a.posts, now)) else FlipPosts(a.posts, now)
    ensures Owed(a') == Owed(a) + SweepRise(a, now)
  {
    FlippedUnresolved(a.posts, now);
    FlippedCounts(a.posts, now);
    ForfeitedCounts(FlipPosts(a.posts, now));
    UnresolvedSplits(Views(a.posts));
  }

  /** What the sweep leaves of one assignment when no slot is let go. */
  lemma SweptShape(c: Campaign, i: nat, now: int)
    requires i < |c.assignments| && NewlyMissed(c.assignments[i], now) != 0
    requires c.assignments[i].slot.None? || !WillBePulled(c.assignments[i], now)
    ensures var a, c' := c.assignments[i], SweepOne(c, i, now);
            && |c'.assignments| == |c.assignments| && c'.assignments == c.assignments[i := c'.assignments[i]]
            && c'.slots == c.slots && c'.assignments[i].slot == a.slot
            && c'.assignments[i].posts
               == if WillBePulled(a, now) then ForfeitPosts(FlipPosts(a.posts, now)) else FlipPosts(a.posts, now)
  {
  }

  lemma SweepOneRises(c: Campaign, i: nat, now: int)
    requires i < |c.assignments| && AssignmentOk(c, c.assignments[i])
    ensures Exposure(SweepOne(c, i, now)) == Exposure(c) + SweepRise(c.assignments[i], now)
  {
    var a, c' := c.assignments[i], SweepOne(c, i, now);
    if NewlyMissed(a, now) != 0 {
      if a.slot.Some? && WillBePulled(a, now) {
        PullCostsPostsInReview(c, i, now);
      } else {
        SweptShape(c, i, now);
        OneAssignmentExposure(c, c', i);
        if a.slot.Some? {
          KeptRise(a, now, c'.assignments[i]);
        } else {
          SlotlessRise(a, now, c'.assignments[i]);
        }
      }
    }
  }

  /** The first i assignments have been swept: the exposure has moved by exactly their rises. */
  predicate SweptExactly(c: Campaign, x: Campaign, i: nat, now: int)
  {
    && i <= |c.assignments| == |x.assignments| && RowsOk(x) && UnitOf(x) == UnitOf(c)
    && Exposure(x) == Exposure(c) + Sum(RiseAt(now), c.assignments[..i])
    && forall j :: i <= j < |c.assignments| ==> x.assignments[j] == c.assignments[j]
  }

  lemma SweepOneIsExact(c: Campaign, x: Campaign, i: nat, now: int)
    requires i < |c.assignments| && SweptExactly(c, x, i, now)
    ensures SweptExactly(c, SweepOne(x, i, now), i + 1, now)
  {
    assert AssignmentOk(x, x.assignments[i]);
    SweepOneRises(x, i, now);
    SweepOneKeepsRows(x, i, now);
    SweepOneKeepsUnit(x, i, now);
    SweepOneLeavesOthers(x, i, now);
    assert c.assignments[..i + 1] == c.assignments[..i] + [c.assignments[i]];
    SumSnoc(RiseAt(now), c.assignments[..i], c.assignments[i]);
  }

  /**
   * The whole sweep, exactly: the exposure rises by the posts in review of every assignment that loses its slot, and
   * falls by what the sweep resolves for good on the others.
   */
  lemma SweepExposureIsExact(c: Campaign, now: int)
    requires RowsOk(c)
    ensures var c' := SweepUpTo(c, |c.assignments|, now);
            Exposure(c') == Exposure(c) + Sum(RiseAt(now), c.assignments) && UnitOf(c') == UnitOf(c)
  {
    var n := |c.assignments|;
    assert c.assignments[..0] == [] && c.assignments[..n] == c.assignments;
    forall x: Campaign, i: nat | i < n && |x.assignments| == n && SweptExactly(c, x, i, now)
      ensures SweptExactly(c, SweepOne(x, i, now), i + 1, now)
    {
      SweepOneIsExact(c, x, i, now);
    }
    SweepInduction(c, n, now, (x: Campaign, i: nat) => SweptExactly(c, x, i, now));
  }

  // ---- What is still exposed when nothing is in flight ----

  function RejectedOne(v: PostView): int { if v.status.Rejected? then 1 else 0 }

  function MissedOne(v: PostView): int { if v.status.Missed? then 1 else 0 }

  /**
   * Posts nobody is waiting for but which may still have to be paid: the rejected ones, which may be submitted again,
   * and beside them, while the assignment holds its slot, the missed ones, which a replacement would deliver.
   */
  function Stranded(a: Assignment): int
  {
    var rejected := Sum(RejectedOne, Views(a.posts));
    if rejected == 0 then 0 else rejected + (if a.slot.Some? then Sum(MissedOne, Views(a.posts)) else 0)
  }

  predicate Settled(vs: seq<PostView>)
  {
    forall i :: 0 <= i < |vs| ==> vs[i].status.Approved? || vs[i].status.Rejected? || vs[i].status.Missed?
  }

  lemma {:induction false} SettledCounts(vs: seq<PostView>)
    requires Settled(vs)
    ensures Sum(ApprovedOne, vs) + Sum(RejectedOne, vs) + Sum(MissedOne, vs) == |vs|
    ensures Sum(UnresolvedOne, vs) == Sum(RejectedOne, vs) && 0 <= Sum(RejectedOne, vs)
    ensures AllResolved(vs) <==> Sum(RejectedOne, vs) == 0
    decreases |vs|
  {
    if vs != [] {
      var front, last := vs[..|vs| - 1], vs[|vs| - 1];
      assert vs == front + [last];
      assert forall i :: 0 <= i < |front| ==> front[i] == vs[i];
      SettledCounts(front);
      assert AllResolved(vs) <==> AllResolved(front) && Resolved(last.status);
    }
  }

  lemma IdleOwes(a: Assignment)
    requires !PostsInFlight(a.posts)
    ensures Owed(a) == Stranded(a)
  {
    var vs := Views(a.posts);
    forall i | 0 <= i < |vs| ensures vs[i].status.Approved? || vs[i].status.Rejected? || vs[i].status.Missed? {
      assert !a.posts[i].status.Pending? && !a.posts[i].status.Submitted?;
    }
    SettledCounts(vs);
    DeficitIsSum(a.posts);
  }

  /** With nothing in flight, the exposure is exactly the posts left stranded by rejections. */
  lemma IdleExposureIsStranded(c: Campaign)
    requires !WorkInFlight(c)
    ensures Exposure(c) == Sum(Stranded, c.assignments)
  {
    forall k | 0 <= k < |c.slots| ensures OpenPosts(c.slots[k]) == 0 {
      assert !SlotsOpen(c.slots);
    }
    SumConstant(OpenPosts, c.slots, 0);
    forall i | 0 <= i < |c.assignments| ensures Owed(c.assignments[i]) == Stranded(c.assignments[i]) {
      IdleOwes(c.assignments[i]);
    }
    SumMonotone(Owed, c.assignments, Stranded, c.assignments);
    SumMonotone(Stranded, c.assignments, Owed, c.assignments);
  }

  // ---- Exact conditions ----

  lemma UnresolvedIsOwed(a: Assignment, p: nat)
    requires p < |a.posts| && !Resolved(a.posts[p].status)
    ensures 1 <= Owed(a)
  {
    var vs := Views(a.posts);
    assert vs[p].status == a.posts[p].status;
    SumNonNegative(UnresolvedOne, vs);
    DeficitIsSum(a.posts);
    var ws := vs[p := PostView(vs[p].index, Approved)];
    SumUpdate(ApprovedOne, vs, p, ws[p]);
    SumOfBits(ApprovedOne, ws);
    assert UnresolvedOne(vs[p]) == 1;
  }

  /**
   * With nothing in flight, what may still be paid is nothing exactly when no rejected post waits to be submitted
   * again.
   */
  lemma IdleExposureIsRejected(c: Campaign)
    requires RowsOk(c) && !WorkInFlight(c)
    ensures 0 <= Exposure(c)
    ensures Exposure(c) == 0 <==> NoneRejected(c)
  {
    forall i | 0 <= i < |c.assignments| ensures 0 <= Owed(c.assignments[i]) {
      OwedIsNonNegative(c.assignments[i]);
    }
    SumNonNegative(Owed, c.assignments);
    SumNonNegative(OpenPosts, c.slots);
    if NoneRejected(c) {
      IdleIsUnexposed(c);
    } else {
      var i :| 0 <= i < |c.assignments| && exists j ::
        0 <= j < |c.assignments[i].posts| && c.assignments[i].posts[j].status.Rejected?;
      var j :| 0 <= j < |c.assignments[i].posts| && c.assignments[i].posts[j].status.Rejected?;
      UnresolvedIsOwed(c.assignments[i], j);
    }
  }

  lemma PositiveProduct(u: nat, x: int)
    requires 0 <= x
    ensures u * x <= 0 <==> u == 0 || x == 0
  {
  }

  /**
   * Finalising with nothing in flight keeps the campaign backed if and only if no post is REJECTED (or posts are free).
   */
  lemma FinalisedIsBackedExactly(w: World, reachPerPost: nat)
    requires MoneyOk(w) && RowsOk(w.campaign) && w.campaign.status.Live? && !WorkInFlight(w.campaign)
    requires ReopenCount(w.campaign, Balance(w.books, EscrowOf(w)), reachPerPost) == 0
    ensures Backed(Decide(w, EscrowOf(w), reachPerPost).0) <==> UnitOf(w.campaign) == 0 || NoneRejected(w.campaign)
  {
    var c, e := w.campaign, EscrowOf(w);
    DecideKeepsMoney(w, reachPerPost);
    DecideFinishes(w, e, reachPerPost);
    IdleExposureIsRejected(c);
    PositiveProduct(UnitOf(c), Exposure(c));
    StatusLeavesExposure(c, Fulfilled);
  }

  /** The balance covers n new slots and the posts left stranded by rejections. */
  predicate CoversReopening(c: Campaign, balance: int, n: nat)
  {
    UnitOf(c) * (Sum(Stranded, c.assignments) + n * c.posts) <= balance
  }

  lemma ReopenedIsBacked(w: World, w': World, n: nat)
    requires w' == w.(campaign := w'.campaign) && w'.campaign.id == w.campaign.id && w'.campaign.status.Live?
    requires EscrowOf(w) < |w.books.accounts| && UnitOf(w'.campaign) == UnitOf(w.campaign)
    requires Exposure(w'.campaign) == Sum(Stranded, w.campaign.assignments) + n * w.campaign.posts
    ensures Backed(w') <==> CoversReopening(w.campaign, Balance(w.books, EscrowOf(w)), n)
  {
  }

  lemma ReopensIdle(c: Campaign, balance: int, reachPerPost: nat)
    requires 0 < ReopenCount(c, balance, reachPerPost)
    ensures !WorkInFlight(c) && c.slots != []
  {
    assert c.slots != [] by {
      assert 0 < Quotes.Times(UnitOf(c), c.posts);
    }
  }

  /** Reopening keeps it backed if and only if escrow covers the new slots and the posts left stranded by rejections. */
  lemma ReopenedIsBackedExactly(w: World, reachPerPost: nat)
    requires RowsOk(w.campaign) && w.campaign.status.Live? && EscrowOf(w) < |w.books.accounts|
    requires 0 < ReopenCount(w.campaign, Balance(w.books, EscrowOf(w)), reachPerPost)
    ensures var balance := Balance(w.books, EscrowOf(w));
            Backed(Decide(w, EscrowOf(w), reachPerPost).0)
            <==> CoversReopening(w.campaign, balance, ReopenCount(w.campaign, balance, reachPerPost))
  {
    var c, balance := w.campaign, Balance(w.books, EscrowOf(w));
    var n := ReopenCount(c, balance, reachPerPost);
    ReopensIdle(c, balance, reachPerPost);
    IdleExposureIsStranded(c);
    ReopenedExposure(c, n);
    DecideReopens(w, EscrowOf(w), reachPerPost);
    ReopenedIsBacked(w, Decide(w, EscrowOf(w), reachPerPost).0, n);
  }

  /**
   * Pulling an assignment keeps the campaign backed if and only if escrow covers every one of its posts in review a
   * second time.
   */
  lemma PulledIsBackedExactly(w: World, i: nat, now: int)
    requires RowsOk(w.campaign) && OnAir(w.campaign) && EscrowOf(w) < |w.books.accounts|
    requires i < |w.campaign.assignments| && w.campaign.assignments[i].slot.Some?
             && WillBePulled(w.campaign.assignments[i], now)
    ensures Backed(w.(campaign := SweepOne(w.campaign, i, now)))
            <==> UnitOf(w.campaign) * (Exposure(w.campaign) + InReview(w.campaign.assignments[i].posts))
                 <= Balance(w.books, EscrowOf(w))
  {
    assert AssignmentOk(w.campaign, w.campaign.assignments[i]);
    PullCostsPostsInReview(w.campaign, i, now);
    SweepOneKeepsUnit(w.campaign, i, now);
    SweepOneKeepsHeader(w.campaign, i, now);
  }

  // ---- Every step ----

  /** On an approval that leaves nothing in flight: what reopening or finalising needs, in terms of the marked rows. */
  predicate CoversDecision(c: Campaign, balance: int, reachPerPost: nat)
  {
    !WorkInFlight(c) ==>
      var n := ReopenCount(c, balance, reachPerPost);
      if 0 < n then CoversReopening(c, balance, n)
      else UnitOf(c) == 0 || NoneRejected(c)
  }

  /** The approval will pay for the post: its guards hold and it earns something. */
  predicate WillPay(w: World, s: nat, verified: int, key: Key, settlement: Pricing.SettlementConfig)
  {
    && key.ClientKey? && !Blank(key) && MayPay(w, s, verified, key, settlement)
    && 0 < Pricing.Delivered(JudgedPost(w.campaign, s).gross, verified, JudgedPost(w.campaign, s).promised)
  }

  /** Escrow covers what the sweep is about to make of the exposure. */
  predicate CoversSweep(w: World, now: int)
  {
    OnAir(w.campaign) ==>
      && EscrowOf(w) < |w.books.accounts|
      && UnitOf(w.campaign) * (Exposure(w.campaign) + Sum(RiseAt(now), w.campaign.assignments))
         <= Balance(w.books, EscrowOf(w))
  }

  /** An approval that pays for a post of a live campaign leaves the decision enough. */
  predicate CoversApproval(w: World, s: nat, verified: int, key: Key, terms: ApprovalTerms)
  {
    var c, e := w.campaign, EscrowOf(w);
    c.status.Live? && e < |w.books.accounts| && WillPay(w, s, verified, key, terms.settlement) ==>
      CoversDecision(MarkApproved(c, s, verified),
                     Balance(w.books, e)
                       - Pricing.Delivered(JudgedPost(c, s).gross, verified, JudgedPost(c, s).promised),
                     terms.reachPerPost)
  }

  /** What a caller can check before the step, and which decides whether escrow still covers the campaign after it. */
  predicate Covered(w: World, action: Action)
  {
    match action
    case DoSweep(now) => CoversSweep(w, now)
    case DoApprove(s, verified, key, terms) => key.ClientKey? ==> CoversApproval(w, s, verified, key, terms)
    case _ => true
  }

  lemma SweptBacking(w: World, w': World, now: int)
    requires w'.books == w.books && w'.campaign.id == w.campaign.id && w'.campaign.status == w.campaign.status
    requires UnitOf(w'.campaign) == UnitOf(w.campaign)
    requires Exposure(w'.campaign) == Exposure(w.campaign) + Sum(RiseAt(now), w.campaign.assignments)
    ensures Backed(w') <==> CoversSweep(w, now)
  {
  }

  lemma SweptIsBackedExactly(w: World, now: int)
    requires Solvent(w)
    ensures Backed(Sweep(w, now)) <==> CoversSweep(w, now)
  {
    var w' := Sweep(w, now);
    SweepExposureIsExact(w.campaign, now);
    SweepKeepsHeader(w.campaign, |w.campaign.assignments|, now);
    SweptBacking(w, w', now);
  }

  lemma PaysExactly(w: World, s: nat, verified: int, key: Key, settlement: Pricing.SettlementConfig)
    requires Solvent(w) && key.ClientKey?
    ensures PayForPost(w, s, verified, key, settlement).paidNow <==> WillPay(w, s, verified, key, settlement)
  {
    PayUnfolds(w, s, verified, key, settlement);
    if MayPay(w, s, verified, key, settlement) {
      if Blank(key) {
        BlankNeverPays(w, s, verified, key, settlement);
      } else {
        PermittedPayGoesThrough(w, s, verified, key, settlement);
      }
    }
  }

  lemma BlankNeverPays(w: World, s: nat, verified: int, key: Key, settlement: Pricing.SettlementConfig)
    requires Blank(key)
    ensures !PayForPost(w, s, verified, key, settlement).paidNow
  {
  }

  lemma WaitingStaysBacked(w: World, reachPerPost: nat)
    requires MoneyOk(w) && RowsOk(w.campaign) && Backed(w) && w.campaign.status.Live? && WorkInFlight(w.campaign)
    ensures Backed(Decide(w, EscrowOf(w), reachPerPost).0)
  {
    FinishKeepsBacked(w, reachPerPost);
  }

  lemma DecisionIsBackedExactly(w: World, reachPerPost: nat, balance: int, w': World)
    requires MoneyOk(w) && RowsOk(w.campaign) && Backed(w) && w.campaign.status.Live?
    requires EscrowOf(w) < |w.books.accounts| && balance == Balance(w.books, EscrowOf(w))
    requires w' == Decide(w, EscrowOf(w), reachPerPost).0
    ensures Backed(w') <==> CoversDecision(w.campaign, balance, reachPerPost)
  {
    if WorkInFlight(w.campaign) {
      WaitingStaysBacked(w, reachPerPost);
    } else if 0 < ReopenCount(w.campaign, balance, reachPerPost) {
      ReopenedIsBackedExactly(w, reachPerPost);
    } else {
      FinalisedIsBackedExactly(w, reachPerPost);
    }
  }

  /** The world between the payment and the decision. */
  ghost predicate AfterPayment(w: World, mid: World, s: nat, verified: int)
  {
    && 0 <= verified && GoodSubmission(w.campaign, s) && 0 < JudgedPost(w.campaign, s).promised
    && EscrowOf(mid) == EscrowOf(w) && EscrowOf(w) < |w.books.accounts| && EscrowOf(w) < |mid.books.accounts|
    && MoneyOk(mid) && RowsOk(mid.campaign) && Backed(mid)
    && mid.campaign == MarkApproved(w.campaign, s, verified) && mid.campaign.status == w.campaign.status
    && Balance(mid.books, EscrowOf(w))
       == Balance(w.books, EscrowOf(w))
          - Pricing.Delivered(JudgedPost(w.campaign, s).gross, verified, JudgedPost(w.campaign, s).promised)
  }

  lemma PaidWorld(w: World, s: nat, verified: int, key: Key, settlement: Pricing.SettlementConfig)
    requires Solvent(w) && key.ClientKey? && PayForPost(w, s, verified, key, settlement).paidNow
    ensures AfterPayment(w, PayForPost(w, s, verified, key, settlement).world, s, verified)
  {
    PayMovesDelivered(w, s, verified, key, settlement);
    PayKeepsBacked(w, s, verified, key, settlement);
    PayKeepsRows(w, s, verified, key, settlement);
    MarkKeepsHeader(w.campaign, s, verified);
    assert w.campaign.submissions != [];
  }

  /** An approval is a payment, followed by a decision when it paid on a live campaign. */
  lemma ApprovalSplits(w: World, s: nat, verified: int, key: Key, terms: ApprovalTerms, paid: Payment)
    requires MoneyOk(w) && paid == PayForPost(w, s, verified, key, terms.settlement)
    requires paid.paidNow ==> EscrowOf(w) < |w.books.accounts| && EscrowOf(w) < |paid.world.books.accounts|
    ensures ApproveSubmission(w, s, verified, key, terms).0
            == if paid.paidNow && w.campaign.status.Live? then Decide(paid.world, EscrowOf(w), terms.reachPerPost).0
               else paid.world
  {
    PayShape(w, s, verified, key, terms.settlement);
  }

  lemma UndecidedIsCovered(w: World, s: nat, verified: int, key: Key, terms: ApprovalTerms)
    requires !w.campaign.status.Live? || !WillPay(w, s, verified, key, terms.settlement)
    ensures CoversApproval(w, s, verified, key, terms)
  {
  }

  lemma DecidedApproval(w: World, mid: World, w': World, s: nat, verified: int, key: Key, terms: ApprovalTerms)
    requires w.campaign.status.Live? && WillPay(w, s, verified, key, terms.settlement)
    requires AfterPayment(w, mid, s, verified) && w' == Decide(mid, EscrowOf(w), terms.reachPerPost).0
    ensures Backed(w') <==> CoversApproval(w, s, verified, key, terms)
  {
    CoveredDecision(w, s, verified, key, terms, mid.campaign, Balance(mid.books, EscrowOf(w)));
    DecisionIsBackedExactly(mid, terms.reachPerPost, Balance(mid.books, EscrowOf(w)), w');
  }

  lemma CoveredDecision(w: World, s: nat, verified: int, key: Key, terms: ApprovalTerms, c: Campaign, balance: int)
    requires w.campaign.status.Live? && EscrowOf(w) < |w.books.accounts|
    requires WillPay(w, s, verified, key, terms.settlement) && c == MarkApproved(w.campaign, s, verified)
    requires var post := JudgedPost(w.campaign, s);
             balance == Balance(w.books, EscrowOf(w)) - Pricing.Delivered(post.gross, verified, post.promised)
    ensures CoversApproval(w, s, verified, key, terms) <==> CoversDecision(c, balance, terms.reachPerPost)
  {
  }

  lemma PaidApproval(w: World, s: nat, verified: int, key: Key, terms: ApprovalTerms, paid: Payment, w': World)
    requires Solvent(w) && WillPay(w, s, verified, key, terms.settlement) && AfterPayment(w, paid.world, s, verified)
    requires w' == if w.campaign.status.Live? then Decide(paid.world, EscrowOf(w), terms.reachPerPost).0 else paid.world
    ensures Backed(w') <==> CoversApproval(w, s, verified, key, terms)
  {
    if w.campaign.status.Live? {
      DecidedApproval(w, paid.world, w', s, verified, key, terms);
    } else {
      UndecidedIsCovered(w, s, verified, key, terms);
    }
  }

  lemma ApprovedIsBackedExactly(w: World, s: nat, verified: int, key: Key, terms: ApprovalTerms)
    requires Solvent(w) && key.ClientKey?
    ensures Backed(ApproveSubmission(w, s, verified, key, terms).0) <==> CoversApproval(w, s, verified, key, terms)
  {
    var paid, w' := PayForPost(w, s, verified, key, terms.settlement), ApproveSubmission(w, s, verified, key, terms).0;
    PaysExactly(w, s, verified, key, terms.settlement);
    if paid.paidNow {
      PaidWorld(w, s, verified, key, terms.settlement);
      ApprovalSplits(w, s, verified, key, terms, paid);
      PaidApproval(w, s, verified, key, terms, paid, w');
    } else {
      ApprovalSplits(w, s, verified, key, terms, paid);
      UndecidedIsCovered(w, s, verified, key, terms);
      PayKeepsBacked(w, s, verified, key, terms.settlement);
    }
  }

  /**
   * The exact condition of a step: from a solvent world, escrow covers the exposure afterwards if and only if the step
   * is covered.
   */
  lemma StepIsBackedExactly(w: World, action: Action)
    requires Solvent(w)
    ensures Backed(Step(w, action)) <==> Covered(w, action)
  {
    match action
    case DoSweep(now) =>
      StepIsHandler(w, action);
      SweptIsBackedExactly(w, now);
    case DoApprove(s, verified, key, terms) =>
      StepIsHandler(w, action);
      if key.ClientKey? {
        ApprovedIsBackedExactly(w, s, verified, key, terms);
      }
    case _ => StepKeepsSolvent(w, action);
  }

  // ---- Every run ----

  lemma StepKeepsQuoteFits(w: World, action: Action)
    requires RowsOk(w.campaign) && QuoteFits(w.campaign)
    ensures QuoteFits(Step(w, action).campaign)
  {
    if TakesQuote(w, action) {
      QuoteStepFits(w, action.exactPrice, action.quoteTerms);
    } else if !Step(w, action).campaign.status.Draft? {
      StepKeepsTerms(w, action);
    }
  }

  lemma {:induction false} RunIsSound(w: World, actions: seq<Action>)
    requires FreshStart(w)
    ensures MoneyOk(RunWorld(w, actions)) && RowsOk(RunWorld(w, actions).campaign)
            && QuoteFits(RunWorld(w, actions).campaign)
    decreases |actions|
  {
    FreshStartIsOk(w);
    RunKeepsMoney(w, actions);
    if actions != [] {
      var front := actions[..|actions| - 1];
      RunIsSound(w, front);
      StepKeepsQuoteFits(RunWorld(w, front), actions[|actions| - 1]);
    }
  }

  ghost predicate AlwaysBacked(w: World, actions: seq<Action>)
  {
    forall k :: 0 <= k <= |actions| ==> Backed(RunWorld(w, actions[..k]))
  }

  ghost predicate CoveredRun(w: World, actions: seq<Action>)
  {
    forall k :: 0 <= k < |actions| ==> Covered(RunWorld(w, actions[..k]), actions[k])
  }

  lemma NextOf(w: World, actions: seq<Action>, k: nat)
    requires k < |actions|
    ensures RunWorld(w, actions[..k + 1]) == Step(RunWorld(w, actions[..k]), actions[k])
  {
    assert actions[..k + 1][..k] == actions[..k];
  }

  lemma {:induction false} CoveredUpTo(w: World, actions: seq<Action>, k: nat)
    requires FreshStart(w) && k <= |actions| && CoveredRun(w, actions)
    ensures Backed(RunWorld(w, actions[..k]))
  {
    if k == 0 {
      assert actions[..0] == [];
    } else {
      var mid := RunWorld(w, actions[..k - 1]);
      CoveredUpTo(w, actions, k - 1);
      RunIsSound(w, actions[..k - 1]);
      NextOf(w, actions, k - 1);
      assert Covered(mid, actions[k - 1]);
      StepIsBackedExactly(mid, actions[k - 1]);
    }
  }

  lemma BackedIsCovered(w: World, actions: seq<Action>, k: nat)
    requires FreshStart(w) && k < |actions| && AlwaysBacked(w, actions)
    ensures Covered(RunWorld(w, actions[..k]), actions[k])
  {
    RunIsSound(w, actions[..k]);
    NextOf(w, actions, k);
    assert Backed(RunWorld(w, actions[..k])) && Backed(RunWorld(w, actions[..k + 1]));
    StepIsBackedExactly(RunWorld(w, actions[..k]), actions[k]);
  }

  /** Escrow covers the whole exposure after every step of a run if and only if every step of it was covered. */
  lemma RunIsBackedExactly(w: World, actions: seq<Action>)
    requires FreshStart(w)
    ensures AlwaysBacked(w, actions) <==> CoveredRun(w, actions)
  {
    if CoveredRun(w, actions) {
      forall k | 0 <= k <= |actions| ensures Backed(RunWorld(w, actions[..k])) {
        CoveredUpTo(w, actions, k);
      }
    }
    if AlwaysBacked(w, actions) {
      forall k | 0 <= k < |actions| ensures Covered(RunWorld(w, actions[..k]), actions[k]) {
        BackedIsCovered(w, actions, k);
      }
    }
  }

  /** On such a run no approval is refused for lack of funds. */
  lemma CoveredRunIsNeverShort(w: World, actions: seq<Action>, s: nat, verified: int, key: Key, terms: ApprovalTerms)
    requires FreshStart(w) && CoveredRun(w, actions) && key.ClientKey? && !Blank(key)
    ensures ApproveSubmission(RunWorld(w, actions), s, verified, key, terms).1 != LedgerRefused(InsufficientFunds)
  {
    CoveredUpTo(w, actions, |actions|);
    assert actions[..|actions|] == actions;
    RunIsSound(w, actions);
    NeverShort(RunWorld(w, actions), s, verified, key, terms);
  }

  /** The two plain hypotheses are sufficient: a run that keeps them is covered. */
  lemma CleanRunIsCovered(w: World, actions: seq<Action>)
    requires FreshStart(w) && CleanRun(w, actions)
    ensures CoveredRun(w, actions)
  {
    FreshStartIsOk(w);
    forall k | 0 <= k < |actions| ensures Covered(RunWorld(w, actions[..k]), actions[k]) {
      var front := actions[..k];
      assert forall j :: 0 <= j < k ==> front[..j] == actions[..j] && front[j] == actions[j];
      assert CleanRun(w, front);
      CleanRunIsSolvent(w, front);
      StepKeepsSolvent(RunWorld(w, front), actions[k]);
      StepIsBackedExactly(RunWorld(w, front), actions[k]);
    }
  }
}
