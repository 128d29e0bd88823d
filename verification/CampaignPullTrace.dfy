/**
 * The other run: a promoter is pulled while a post is in review. The replacement's slot carries that post again, it is
 * paid twice, and escrow runs out.
 */
module CampaignPullTrace {
  import opened Common
  import opened Ledger
  import opened Delivery
  import opened Campaigns
  import opened CampaignRows
  import opened CampaignMoney
  import opened CampaignSolvency
  import opened CampaignTraces
  import Schedule

  const END: Option<int> := Some(30)

  const FUND := {ClientKey("fund")}

  function NthPost(index: nat, status: PostStatus): DeliverySlot
  {
    DeliverySlot(index, 10 * index, 100, 70, 100, status)
  }

  function Three(s1: PostStatus, s2: PostStatus, s3: PostStatus): seq<DeliverySlot>
  {
    [NthPost(1, s1), NthPost(2, s2), NthPost(3, s3)]
  }

  /** One slot of three posts, held by promoter 7. */
  function FirstHolds(s1: PostStatus, s2: PostStatus, s3: PostStatus, submissions: seq<Submission>): Campaign
  {
    Opened(1, true, 3, END, 300)
    .(slots := [Slot(Filled, 100, 3)], slotsFilled := 1, offers := [OfferTo(7).(status := Accepted), OfferTo(8)],
      assignments := [Assignment(0, 7, Some(0), RollupOf(Three(s1, s2, s3)), Three(s1, s2, s3))],
      submissions := submissions)
  }

  lemma NewThree(c: Campaign, promoter: nat)
    requires c.startsAt.None? && c.endsAt == END
    ensures NewPosts(c, OfferTo(promoter), 3, CLOCK) == Three(Pending, Pending, Pending)
    ensures RollupOf(Three(Pending, Pending, Pending)) == InProgress
  {
    var times := Schedule.GenerateSlotSchedule(c.startsAt, c.endsAt, 3, 0, 10, 0);
    assert |times| == 3;
    assert times[0] == Schedule.SlotTime(1, 10, 10);
    assert times[1] == Schedule.SlotTime(2, 20, 20);
    assert times[2] == Schedule.SlotTime(3, 30, 30);
    assert Views(Three(Pending, Pending, Pending))[0].status.Pending?;
    RollupReadsBack(Views(Three(Pending, Pending, Pending)));
  }

  lemma FirstAccepts(w: World)
    requires At(w, Opened(1, true, 3, END, 300), FUND, 300)
    ensures At(Step(w, DoAccept(0, 7, CLOCK)), FirstHolds(Pending, Pending, Pending, []), FUND, 300)
  {
    var c := Opened(1, true, 3, END, 300);
    assert c.slots == [Slot(Open, 100, 3)];
    NewThree(c, 7);
    AcceptRuns(w, c, FUND, 300, 0, 0, CLOCK);
    var c1 := Step(w, DoAccept(0, 7, CLOCK)).campaign;
    assert c1.slots == [Slot(Filled, 100, 3)];
    assert c1.offers == [OfferTo(7).(status := Accepted), OfferTo(8)];
    assert c1 == FirstHolds(Pending, Pending, Pending, []);
  }

  const PROOF := Submission(0, 2, Undecided, 0)

  lemma FirstSubmits(w: World)
    requires At(w, FirstHolds(Pending, Pending, Pending, []), FUND, 300)
    ensures At(Step(w, DoSubmit(0, 7, Some(2))), FirstHolds(Pending, Pending, Submitted, [PROOF]), FUND, 300)
  {
    var c := FirstHolds(Pending, Pending, Pending, []);
    RollupNotCancelled(c.assignments[0].posts, 0);
    SubmitRuns(w, c, FUND, 300, 0, 2);
    var x := c.assignments[0].posts[2 := c.assignments[0].posts[2].(status := Submitted)];
    assert x == Three(Pending, Pending, Submitted);
    assert SetPost(c, 0, 2, Submitted).assignments == FirstHolds(Pending, Pending, Submitted, [PROOF]).assignments;
  }

  /** Promoter 7 has been pulled with the third post still in review; its slot is open again for all three posts. */
  function Pulled(third: PostStatus, submissions: seq<Submission>, status: AssignmentStatus): Campaign
  {
    Opened(1, true, 3, END, 300)
    .(offers := [OfferTo(7).(status := Accepted), OfferTo(8)], slots := [Slot(Open, 100, 3)],
      assignments :=
        [Assignment(0, 7, None, status, Three(Missed, Missed, third))], submissions := submissions, noShows := [0, 0])
  }

  lemma TwoMissesArePulled()
    ensures ShouldPull(Views(Three(Missed, Missed, Submitted))) && Deficit(Three(Missed, Missed, Submitted)) == 3
  {
    var vs := Views(Three(Missed, Missed, Submitted));
    SortedIsIdentity(vs);
    assert MissedRun(vs, 0, Max(1, MISS_THRESHOLD)) && ConsecutiveMisses(vs, MISS_THRESHOLD);
    NoneApproved(vs);
  }

  lemma TwoAreOverdue()
    ensures OverdueCount(Three(Pending, Pending, Submitted), 25) == 2
    ensures FlipPosts(Three(Pending, Pending, Submitted), 25) == Three(Missed, Missed, Submitted)
    ensures ForfeitPosts(Three(Missed, Missed, Submitted)) == Three(Missed, Missed, Submitted)
  {
    var t := Three(Pending, Pending, Submitted);
    assert t[..2] == [NthPost(1, Pending), NthPost(2, Pending)];
    assert t[..2][..1] == [NthPost(1, Pending)];
    assert OverdueCount(t[..2][..1], 25) == 1;
    assert OverdueCount(t[..2], 25) == 2;
  }

  lemma StillOpen(c: Campaign)
    requires c == FirstHolds(Pending, Pending, Submitted, [PROOF])
    ensures !c.assignments[0].status.Cancelled? && !c.assignments[0].status.Paid?
  {
    RollupReadsBack(Views(c.assignments[0].posts));
    assert !Resolved(Views(c.assignments[0].posts)[0].status);
  }

  lemma SweptOnce(c: Campaign)
    requires c == FirstHolds(Pending, Pending, Submitted, [PROOF])
    requires !c.assignments[0].status.Cancelled? && !c.assignments[0].status.Paid?
    ensures SweepUpTo(c, 1, 25) == Pulled(Submitted, [PROOF], Cancelled)
  {
    TwoAreOverdue();
    TwoMissesArePulled();
    var a := c.assignments[0];
    assert WillBePulled(a, 25);
    PulledShape(c, 0, 25);
    var c' := SweepOne(c, 0, 25);
    assert c'.slots == [Slot(Open, 100, 3)];
    assert c'.assignments == [Assignment(0, 7, None, Cancelled, Three(Missed, Missed, Submitted))];
    assert Repeat(0, 2) == [0, 0];
    assert c'.noShows == [0, 0];
    assert SweepUpTo(c, 0, 25) == c;
    assert SweepUpTo(c, 1, 25) == SweepOne(c, 0, 25);
  }

  lemma SweepStep(w: World, c: Campaign, now: int)
    requires w.campaign == c && |c.assignments| == 1
    ensures Step(w, DoSweep(now)) == w.(campaign := SweepUpTo(c, 1, now))
  {
  }

  lemma FirstIsPulled(w: World)
    requires At(w, FirstHolds(Pending, Pending, Submitted, [PROOF]), FUND, 300)
    ensures At(Step(w, DoSweep(25)), Pulled(Submitted, [PROOF], Cancelled), FUND, 300)
  {
    var c := FirstHolds(Pending, Pending, Submitted, [PROOF]);
    StillOpen(c);
    SweptOnce(c);
    SweepStep(w, c, 25);
    RowsOnlyKeepsMoney(w, Pulled(Submitted, [PROOF], Cancelled));
  }

  // ---- Escrow no longer covers what may be paid ----

  lemma FourPostsAreExposed()
    ensures Exposure(Pulled(Submitted, [PROOF], Cancelled)) == 4
  {
    var c := Pulled(Submitted, [PROOF], Cancelled);
    var vs := Views(c.assignments[0].posts);
    assert c.slots[..0] == [] && c.assignments[..0] == [];
    assert Sum(OpenPosts, c.slots) == 3;
    assert vs == [PostView(1, Missed), PostView(2, Missed)] + [PostView(3, Submitted)];
    SumSnoc(UnresolvedOne, [PostView(1, Missed), PostView(2, Missed)], PostView(3, Submitted));
    SumConstant(UnresolvedOne, [PostView(1, Missed), PostView(2, Missed)], 0);
    assert Owed(c.assignments[0]) == 1;
    assert Sum(Owed, c.assignments) == 1;
  }

  lemma NotBacked(w: World)
    requires At(w, Pulled(Submitted, [PROOF], Cancelled), FUND, 300)
    ensures !Backed(w)
  {
    FourPostsAreExposed();
  }

  // ---- The post in review is paid, and then its replacement ----

  const PASSED := Submission(0, 2, Passed, 100)

  lemma PulledIsPaid(w: World)
    requires At(w, Pulled(Submitted, [PROOF], Cancelled), FUND, 300)
    ensures At(Step(w, DoApprove(0, 100, ClientKey("k0"), APPROVAL)), Pulled(Approved, [PASSED], Paid),
            FUND + {ClientKey("k0")}, 200)
  {
    var c := Pulled(Submitted, [PROOF], Cancelled);
    var c1 := Pulled(Approved, [PASSED], Paid);
    var posts := Three(Missed, Missed, Approved);
    assert c.assignments[0].posts[2 := c.assignments[0].posts[2].(status := Approved)] == posts;
    PaidOffAfterMisses();
    assert [PROOF][0 := PASSED] == [PASSED];
    assert MarkApproved(c, 0, 100).assignments == c1.assignments;
    assert MarkApproved(c, 0, 100) == c1;
    assert c1.slots[0].status.Open?;
    SumSnoc(VerifiedReach, [], PASSED);
    assert [] + [PASSED] == [PASSED];
    ApproveRuns(w, c, FUND, 300, 0, 100, ClientKey("k0"), APPROVAL);
  }

  lemma PaidOffAfterMisses()
    ensures RollupOf(Three(Missed, Missed, Approved)) == Paid
  {
    var vs := Views(Three(Missed, Missed, Approved));
    assert vs[2].status.Approved?;
  }

  /** Promoter 8 holds the slot in place of the promoter pulled and paid. */
  function Replaced(s1: PostStatus, s2: PostStatus, s3: PostStatus, submissions: seq<Submission>,
                    status: CampaignStatus): Campaign
  {
    Opened(1, true, 3, END, 300)
    .(status := status, slots := [Slot(Filled, 100, 3)], slotsFilled := 1,
      offers := [OfferTo(7).(status := Accepted), OfferTo(8).(status := Accepted)],
      assignments := [Assignment(0, 7, None, Paid, Three(Missed, Missed, Approved)),
                      Assignment(1, 8, Some(0), RollupOf(Three(s1, s2, s3)), Three(s1, s2, s3))],
      submissions := submissions, noShows := [0, 0])
  }

  lemma SecondAccepts(w: World, used: set<Key>)
    requires At(w, Pulled(Approved, [PASSED], Paid), used, 200)
    ensures At(Step(w, DoAccept(1, 8, CLOCK)), Replaced(Pending, Pending, Pending, [PASSED], Live), used, 200)
  {
    var c := Pulled(Approved, [PASSED], Paid);
    NewThree(c, 8);
    AcceptRuns(w, c, used, 200, 1, 0, CLOCK);
    var c1, c2 := Step(w, DoAccept(1, 8, CLOCK)).campaign, Replaced(Pending, Pending, Pending, [PASSED], Live);
    assert c1.slots == c2.slots && c1.offers == c2.offers && c1.assignments == c2.assignments;
  }

  /** Setting post p of the replacement. */
  function With(ss: seq<PostStatus>, submissions: seq<Submission>, status: CampaignStatus): Campaign
    requires |ss| == 3
  {
    Replaced(ss[0], ss[1], ss[2], submissions, status)
  }

  lemma SetReplaced(ss: seq<PostStatus>, submissions: seq<Submission>, status: CampaignStatus, p: nat, s: PostStatus)
    requires |ss| == 3 && p < 3
    ensures SetPost(With(ss, submissions, status), 1, p, s) == With(ss[p := s], submissions, status)
  {
    var c, c' := With(ss, submissions, status), With(ss[p := s], submissions, status);
    assert c.assignments[1].posts[p := c.assignments[1].posts[p].(status := s)] == c'.assignments[1].posts;
    assert SetPost(c, 1, p, s).assignments == c'.assignments;
  }

  lemma SecondSubmits(w: World, used: set<Key>, ss: seq<PostStatus>, submissions: seq<Submission>, p: nat)
    requires |ss| == 3 && p < 3 && ss[p].Pending? && At(w, With(ss, submissions, Live), used, 200)
    ensures At(Step(w, DoSubmit(1, 8, Some(p))),
            With(ss[p := Submitted], submissions + [Submission(1, p, Undecided, 0)], Live), used, 200)
  {
    var c := With(ss, submissions, Live);
    SetReplaced(ss, submissions, Live, p, Submitted);
    RollupNotCancelled(c.assignments[1].posts, p);
    SubmitRuns(w, c, used, 200, 1, p);
  }

  function Proof(p: nat): Submission { Submission(1, p, Undecided, 0) }

  function Done(p: nat): Submission { Submission(1, p, Passed, 100) }

  lemma FirstProof(w: World, used: set<Key>)
    requires At(w, Replaced(Pending, Pending, Pending, [PASSED], Live), used, 200)
    ensures At(Step(w, DoSubmit(1, 8, Some(0))), Replaced(Submitted, Pending, Pending, [PASSED, Proof(0)], Live), used,
            200)
  {
    var ss := [Pending, Pending, Pending];
    SecondSubmits(w, used, ss, [PASSED], 0);
    assert ss[0 := Submitted] == [Submitted, Pending, Pending] && [PASSED] + [Proof(0)] == [PASSED, Proof(0)];
  }

  lemma SecondProof(w: World, used: set<Key>)
    requires At(w, Replaced(Submitted, Pending, Pending, [PASSED, Proof(0)], Live), used, 200)
    ensures At(Step(w, DoSubmit(1, 8, Some(1))),
            Replaced(Submitted, Submitted, Pending, [PASSED, Proof(0), Proof(1)], Live), used, 200)
  {
    var ss := [Submitted, Pending, Pending];
    SecondSubmits(w, used, ss, [PASSED, Proof(0)], 1);
    assert ss[1 := Submitted] == [Submitted, Submitted, Pending]
           && [PASSED, Proof(0)] + [Proof(1)] == [PASSED, Proof(0), Proof(1)];
  }

  lemma ThirdProof(w: World, used: set<Key>)
    requires At(w, Replaced(Submitted, Submitted, Pending, [PASSED, Proof(0), Proof(1)], Live), used, 200)
    ensures At(Step(w, DoSubmit(1, 8, Some(2))),
               Replaced(Submitted, Submitted, Submitted, [PASSED, Proof(0), Proof(1), Proof(2)], Live), used, 200)
  {
    var ss, subs := [Submitted, Submitted, Pending], [PASSED, Proof(0), Proof(1)];
    SecondSubmits(w, used, ss, subs, 2);
    assert ss[2 := Submitted] == [Submitted, Submitted, Submitted]
           && subs + [Proof(2)] == [PASSED, Proof(0), Proof(1), Proof(2)];
  }

  lemma SecondDelivers(w: World, used: set<Key>)
    requires At(w, Replaced(Pending, Pending, Pending, [PASSED], Live), used, 200)
    ensures At(Step(Step(Step(w, DoSubmit(1, 8, Some(0))), DoSubmit(1, 8, Some(1))), DoSubmit(1, 8, Some(2))),
               Replaced(Submitted, Submitted, Submitted, [PASSED, Proof(0), Proof(1), Proof(2)], Live), used, 200)
  {
    FirstProof(w, used);
    SecondProof(Step(w, DoSubmit(1, 8, Some(0))), used);
    ThirdProof(Step(Step(w, DoSubmit(1, 8, Some(0))), DoSubmit(1, 8, Some(1))), used);
  }

  lemma MarkReplaced(ss: seq<PostStatus>, submissions: seq<Submission>, p: nat)
    requires |ss| == 3 && p < 3 && p + 1 < |submissions| && submissions[p + 1] == Proof(p)
    ensures MarkApproved(With(ss, submissions, Live), p + 1, 100)
            == With(ss[p := Approved], submissions[p + 1 := Done(p)], Live)
  {
    SetReplaced(ss, submissions, Live, p, Approved);
  }

  lemma ThirdInReview(c: Campaign)
    requires |c.assignments| == 2 && |c.assignments[1].posts| == 3 && c.assignments[1].posts[2].status.Submitted?
    ensures WorkInFlight(c)
  {
    assert PostsInFlight(c.assignments[1].posts);
  }

  lemma Verified(more: seq<Submission>)
    requires forall i :: 0 <= i < |more| ==> more[i].verdict.Undecided?
    ensures Sum(VerifiedReach, [PASSED, Done(0)] + more) == 200
    ensures Sum(VerifiedReach, [PASSED, Done(0), Done(1)] + more) == 300
  {
    SumConstant(VerifiedReach, more, 0);
    SumSnoc(VerifiedReach, [], PASSED);
    SumSnoc(VerifiedReach, [PASSED], Done(0));
    SumSnoc(VerifiedReach, [PASSED, Done(0)], Done(1));
    assert [] + [PASSED] == [PASSED] && [PASSED] + [Done(0)] == [PASSED, Done(0)];
    assert [PASSED, Done(0)] + [Done(1)] == [PASSED, Done(0), Done(1)];
    SumConcat(VerifiedReach, [PASSED, Done(0)], more);
    SumConcat(VerifiedReach, [PASSED, Done(0), Done(1)], more);
  }

  lemma FirstMarked()
    ensures MarkApproved(With([Submitted, Submitted, Submitted], [PASSED, Proof(0), Proof(1), Proof(2)], Live), 1, 100)
            == With([Approved, Submitted, Submitted], [PASSED, Done(0), Proof(1), Proof(2)], Live)
  {
    var ss, subs := [Submitted, Submitted, Submitted], [PASSED, Proof(0), Proof(1), Proof(2)];
    MarkReplaced(ss, subs, 0);
    assert ss[0 := Approved] == [Approved, Submitted, Submitted];
    assert subs[1 := Done(0)] == [PASSED, Done(0), Proof(1), Proof(2)];
  }

  lemma FirstOfThreePaid(w: World, used: set<Key>)
    requires At(w, Replaced(Submitted, Submitted, Submitted, [PASSED, Proof(0), Proof(1), Proof(2)], Live), used, 200)
             && ClientKey("k1") !in used
    ensures At(Step(w, DoApprove(1, 100, ClientKey("k1"), APPROVAL)),
               Replaced(Approved, Submitted, Submitted, [PASSED, Done(0), Proof(1), Proof(2)], Live),
               used + {ClientKey("k1")}, 100)
  {
    var ss, subs := [Submitted, Submitted, Submitted], [PASSED, Proof(0), Proof(1), Proof(2)];
    var subs' := [PASSED, Done(0), Proof(1), Proof(2)];
    FirstMarked();
    ThirdInReview(With([Approved, Submitted, Submitted], subs', Live));
    Verified([Proof(1), Proof(2)]);
    assert subs' == [PASSED, Done(0)] + [Proof(1), Proof(2)];
    ApproveRuns(w, With(ss, subs, Live), used, 200, 1, 100, ClientKey("k1"), APPROVAL);
  }

  lemma SecondOfThreePaid(w: World, used: set<Key>)
    requires At(w, Replaced(Approved, Submitted, Submitted, [PASSED, Done(0), Proof(1), Proof(2)], Live), used, 100)
             && ClientKey("k2") !in used
    ensures At(Step(w, DoApprove(2, 100, ClientKey("k2"), APPROVAL)),
               Replaced(Approved, Approved, Submitted, [PASSED, Done(0), Done(1), Proof(2)], Fulfilled),
               used + {ClientKey("k2")}, 0)
  {
    var ss, subs := [Approved, Submitted, Submitted], [PASSED, Done(0), Proof(1), Proof(2)];
    var subs' := [PASSED, Done(0), Done(1), Proof(2)];
    MarkReplaced(ss, subs, 1);
    assert ss[1 := Approved] == [Approved, Approved, Submitted] && subs[2 := Done(1)] == subs';
    ThirdInReview(With([Approved, Approved, Submitted], subs', Live));
    Verified([Proof(2)]);
    assert subs' == [PASSED, Done(0), Done(1)] + [Proof(2)];
    ApproveRuns(w, With(ss, subs, Live), used, 100, 2, 100, ClientKey("k2"), APPROVAL);
  }

  lemma ThirdIsRefused(w: World, used: set<Key>)
    requires At(w, Replaced(Approved, Approved, Submitted, [PASSED, Done(0), Done(1), Proof(2)], Fulfilled), used, 0)
             && ClientKey("k3") !in used
    ensures ApproveSubmission(w, 3, 100, ClientKey("k3"), APPROVAL).1 == LedgerRefused(InsufficientFunds)
  {
    ApproveIsRefused(w, w.campaign, used, 0, 3, 100, ClientKey("k3"));
  }

  // ---- The run ----

  function PullRun(): seq<Action>
  {
    Opening(300) + [DoAccept(0, 7, CLOCK), DoSubmit(0, 7, Some(2)), DoSweep(25)]
  }

  /** After the pull: pay what was in review, and let the replacement deliver all three posts. */
  function ReplacedRun(): seq<Action>
  {
    PullRun() + [DoApprove(0, 100, ClientKey("k0"), APPROVAL), DoAccept(1, 8, CLOCK)]
    + [DoSubmit(1, 8, Some(0)), DoSubmit(1, 8, Some(1)), DoSubmit(1, 8, Some(2))]
  }

  function Aftermath(): seq<Action>
  {
    ReplacedRun()
    + [DoApprove(1, 100, ClientKey("k1"), APPROVAL), DoApprove(2, 100, ClientKey("k2"), APPROVAL)]
  }

  lemma PullRunEnds()
    ensures At(RunWorld(Begin(1, true, 3, END), PullRun()), Pulled(Submitted, [PROOF], Cancelled), FUND, 300)
  {
    var w := Begin(1, true, 3, END);
    OpeningRuns(1, true, 3, END, 300);
    var w1 := RunWorld(w, Opening(300));
    FirstAccepts(w1);
    FirstSubmits(Step(w1, DoAccept(0, 7, CLOCK)));
    FirstIsPulled(Step(Step(w1, DoAccept(0, 7, CLOCK)), DoSubmit(0, 7, Some(2))));
    ThreeMore(w, Opening(300), DoAccept(0, 7, CLOCK), DoSubmit(0, 7, Some(2)), DoSweep(25));
  }

  lemma ReplacementStarts(w: World, done: seq<Action>)
    requires At(RunWorld(w, done), Pulled(Submitted, [PROOF], Cancelled), FUND, 300)
    ensures At(RunWorld(w, done + [DoApprove(0, 100, ClientKey("k0"), APPROVAL), DoAccept(1, 8, CLOCK)]),
               Replaced(Pending, Pending, Pending, [PASSED], Live), FUND + {ClientKey("k0")}, 200)
  {
    PulledIsPaid(RunWorld(w, done));
    SecondAccepts(Step(RunWorld(w, done), DoApprove(0, 100, ClientKey("k0"), APPROVAL)), FUND + {ClientKey("k0")});
    TwoMore(w, done, DoApprove(0, 100, ClientKey("k0"), APPROVAL), DoAccept(1, 8, CLOCK));
  }

  lemma ReplacementDelivers(w: World, done: seq<Action>, used: set<Key>)
    requires At(RunWorld(w, done), Replaced(Pending, Pending, Pending, [PASSED], Live), used, 200)
    ensures At(RunWorld(w, done + [DoSubmit(1, 8, Some(0)), DoSubmit(1, 8, Some(1)), DoSubmit(1, 8, Some(2))]),
               Replaced(Submitted, Submitted, Submitted, [PASSED, Proof(0), Proof(1), Proof(2)], Live), used, 200)
  {
    SecondDelivers(RunWorld(w, done), used);
    ThreeMore(w, done, DoSubmit(1, 8, Some(0)), DoSubmit(1, 8, Some(1)), DoSubmit(1, 8, Some(2)));
  }

  lemma EscrowRunsOut(w: World, done: seq<Action>, used: set<Key>)
    requires At(RunWorld(w, done),
             Replaced(Submitted, Submitted, Submitted, [PASSED, Proof(0), Proof(1), Proof(2)], Live), used, 200)
    requires ClientKey("k1") !in used && ClientKey("k2") !in used && ClientKey("k3") !in used
    ensures ApproveSubmission(RunWorld(w,
            done + [DoApprove(1, 100, ClientKey("k1"), APPROVAL), DoApprove(2, 100, ClientKey("k2"), APPROVAL)]),
                              3, 100, ClientKey("k3"), APPROVAL).1 == LedgerRefused(InsufficientFunds)
  {
    TwoMore(w, done, DoApprove(1, 100, ClientKey("k1"), APPROVAL), DoApprove(2, 100, ClientKey("k2"), APPROVAL));
    TwoOfThreePaid(RunWorld(w, done), used);
    ThirdIsRefused(RunWorld(w, done + [DoApprove(1, 100, ClientKey("k1"), APPROVAL),
                                       DoApprove(2, 100, ClientKey("k2"), APPROVAL)]),
                   used + {ClientKey("k1")} + {ClientKey("k2")});
  }

  lemma TwoOfThreePaid(w: World, used: set<Key>)
    requires At(w, Replaced(Submitted, Submitted, Submitted, [PASSED, Proof(0), Proof(1), Proof(2)], Live), used, 200)
    requires ClientKey("k1") !in used && ClientKey("k2") !in used
    ensures At(Step(Step(w, DoApprove(1, 100, ClientKey("k1"), APPROVAL)),
                    DoApprove(2, 100, ClientKey("k2"), APPROVAL)),
               Replaced(Approved, Approved, Submitted, [PASSED, Done(0), Done(1), Proof(2)], Fulfilled),
               used + {ClientKey("k1")} + {ClientKey("k2")}, 0)
  {
    FirstOfThreePaid(w, used);
    SecondOfThreePaid(Step(w, DoApprove(1, 100, ClientKey("k1"), APPROVAL)), used + {ClientKey("k1")});
  }

  lemma ReplacedRunEnds()
    ensures At(RunWorld(Begin(1, true, 3, END), ReplacedRun()),
               Replaced(Submitted, Submitted, Submitted, [PASSED, Proof(0), Proof(1), Proof(2)], Live),
               FUND + {ClientKey("k0")}, 200)
  {
    var w := Begin(1, true, 3, END);
    PullRunEnds();
    ReplacementStarts(w, PullRun());
    ReplacementDelivers(w, PullRun() + [DoApprove(0, 100, ClientKey("k0"), APPROVAL), DoAccept(1, 8, CLOCK)],
                        FUND + {ClientKey("k0")});
  }

  lemma AftermathEnds()
    ensures ApproveSubmission(RunWorld(Begin(1, true, 3, END), Aftermath()), 3, 100, ClientKey("k3"), APPROVAL).1
            == LedgerRefused(InsufficientFunds)
  {
    var w := Begin(1, true, 3, END);
    ReplacedRunEnds();
    EscrowRunsOut(w, ReplacedRun(), FUND + {ClientKey("k0")});
  }

  lemma NeverRejected()
    ensures Without(Aftermath(), false)
  {
  }

  /**
   * No proof was ever rejected; a promoter was pulled with a post in review. Escrow stops covering the campaign at
   * once, and later an approval is refused.
   */
  lemma PostInReviewIsPaidTwice()
    ensures FreshStart(Begin(1, true, 3, END)) && Without(Aftermath(), false) && PullRun() <= Aftermath()
    ensures !Backed(RunWorld(Begin(1, true, 3, END), PullRun()))
    ensures ApproveSubmission(RunWorld(Begin(1, true, 3, END), Aftermath()), 3, 100, ClientKey("k3"), APPROVAL).1
            == LedgerRefused(InsufficientFunds)
  {
    BeginIsFresh(1, true, 3, END);
    NeverRejected();
    PullRunEnds();
    NotBacked(RunWorld(Begin(1, true, 3, END), PullRun()));
    AftermathEnds();
  }
}
