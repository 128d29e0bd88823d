/**
 * The floor a screen shows can be out of reach with every rate unchanged: a run in which a promoter of five posts is
 * pulled after three, and the next one, shown the floor of five posts, gets the two that are left.
 */
module CampaignFloorTrace {
  import opened Common
  import opened Ledger
  import opened Delivery
  import opened Campaigns
  import opened CampaignRows
  import opened CampaignMoney
  import opened CampaignSolvency
  import opened CampaignTraces
  import opened CampaignFloors
  import Pricing
  import Schedule

  const END: Option<int> := Some(50)

  const FUND := {ClientKey("fund")}

  /** The take rate the offers were made at, and the threshold the screen shows. */
  const STEADY := ApprovalTerms(Pricing.SettlementConfig(30, 50), 100)

  const LATER := Clock(26, 0, 10)

  function Due(index: nat, status: PostStatus): DeliverySlot
  {
    DeliverySlot(index, 10 * index, 100, 70, 100, status)
  }

  function Five(ss: seq<PostStatus>): seq<DeliverySlot>
    requires |ss| == 5
  {
    [Due(1, ss[0]), Due(2, ss[1]), Due(3, ss[2]), Due(4, ss[3]), Due(5, ss[4])]
  }

  const FRESH := [Pending, Pending, Pending, Pending, Pending]

  const PART := [Pending, Pending, Approved, Approved, Approved]

  const MISSED := [Missed, Missed, Approved, Approved, Approved]

  /** One slot of five posts, held by promoter 7. */
  function Holds(ss: seq<PostStatus>, submissions: seq<Submission>): Campaign
    requires |ss| == 5
  {
    Opened(1, true, 5, END, 500)
    .(slots := [Slot(Filled, 100, 5)], slotsFilled := 1, offers := [OfferTo(7).(status := Accepted), OfferTo(8)],
      assignments := [Assignment(0, 7, Some(0), RollupOf(Five(ss)), Five(ss))], submissions := submissions)
  }

  lemma NewFive(c: Campaign)
    requires c.startsAt.None? && c.endsAt == END
    ensures NewPosts(c, OfferTo(7), 5, CLOCK) == Five(FRESH)
    ensures RollupOf(Five(FRESH)) == InProgress
  {
    var times := Schedule.GenerateSlotSchedule(c.startsAt, c.endsAt, 5, 0, 10, 0);
    assert |times| == 5;
    assert times[0] == Schedule.SlotTime(1, 10, 10) && times[1] == Schedule.SlotTime(2, 20, 20);
    assert times[2] == Schedule.SlotTime(3, 30, 30) && times[3] == Schedule.SlotTime(4, 40, 40);
    assert times[4] == Schedule.SlotTime(5, 50, 50);
    assert Views(Five(FRESH))[0].status.Pending?;
    RollupReadsBack(Views(Five(FRESH)));
  }

  lemma FirstAccepts(w: World)
    requires At(w, Opened(1, true, 5, END, 500), FUND, 500)
    ensures At(Step(w, DoAccept(0, 7, CLOCK)), Holds(FRESH, []), FUND, 500)
  {
    var c := Opened(1, true, 5, END, 500);
    assert c.slots == [Slot(Open, 100, 5)];
    NewFive(c);
    AcceptRuns(w, c, FUND, 500, 0, 0, CLOCK);
    var c1 := Step(w, DoAccept(0, 7, CLOCK)).campaign;
    assert c1.slots == [Slot(Filled, 100, 5)];
    assert c1.offers == [OfferTo(7).(status := Accepted), OfferTo(8)];
    assert c1 == Holds(FRESH, []);
  }

  // ---- Three posts are delivered and approved ----

  lemma SetHolds(ss: seq<PostStatus>, submissions: seq<Submission>, p: nat, s: PostStatus)
    requires |ss| == 5 && p < 5
    ensures SetPost(Holds(ss, submissions), 0, p, s) == Holds(ss[p := s], submissions)
  {
    var c, c' := Holds(ss, submissions), Holds(ss[p := s], submissions);
    assert c.assignments[0].posts[p := c.assignments[0].posts[p].(status := s)] == c'.assignments[0].posts;
    assert SetPost(c, 0, p, s).assignments == c'.assignments;
  }

  function Handed(p: nat): Submission { Submission(0, p, Undecided, 0) }

  function Paid100(p: nat): Submission { Submission(0, p, Passed, 100) }

  lemma HandIn(w: World, used: set<Key>, balance: int, ss: seq<PostStatus>, submissions: seq<Submission>, p: nat)
    requires |ss| == 5 && p < 5 && ss[p].Pending? && At(w, Holds(ss, submissions), used, balance)
    ensures At(Step(w, DoSubmit(0, 7, Some(p))), Holds(ss[p := Submitted], submissions + [Handed(p)]), used, balance)
  {
    var c := Holds(ss, submissions);
    RollupNotCancelled(c.assignments[0].posts, p);
    SetHolds(ss, submissions, p, Submitted);
    SubmitRuns(w, c, used, balance, 0, p);
  }

  lemma {:induction false} ReachAtMost(submissions: seq<Submission>)
    requires forall s :: 0 <= s < |submissions| ==> VerifiedReach(submissions[s]) <= 100
    ensures Sum(VerifiedReach, submissions) <= 100 * |submissions|
    decreases |submissions|
  {
    if submissions != [] {
      var front := submissions[..|submissions| - 1];
      assert forall s :: 0 <= s < |front| ==> front[s] == submissions[s];
      ReachAtMost(front);
    }
  }

  predicate Early(submissions: seq<Submission>)
  {
    |submissions| <= 3 && forall s :: 0 <= s < |submissions| ==> VerifiedReach(submissions[s]) <= 100
  }

  lemma Judged(w: World, used: set<Key>, balance: int, ss: seq<PostStatus>, submissions: seq<Submission>, p: nat,
               key: Key)
    requires |ss| == 5 && 0 < p < 5 && ss[p].Submitted? && ss[0].Pending? && |submissions| <= 2 && Early(submissions)
    requires At(w, Holds(ss, submissions + [Handed(p)]), used, balance) && 100 <= balance
    requires key.ClientKey? && !Blank(key) && key !in used
    ensures At(Step(w, DoApprove(|submissions|, 100, key, STEADY)),
               Holds(ss[p := Approved], submissions + [Paid100(p)]), used + {key}, balance - 100)
  {
    var c, c' := Holds(ss, submissions + [Handed(p)]), Holds(ss[p := Approved], submissions + [Paid100(p)]);
    var s := |submissions|;
    assert (submissions + [Handed(p)])[s := Paid100(p)] == submissions + [Paid100(p)];
    SetHolds(ss, submissions + [Handed(p)], p, Approved);
    assert MarkApproved(c, s, 100) == c';
    ReachAtMost(submissions + [Paid100(p)]);
    assert c'.assignments[0].posts[0].status.Pending?;
    assert PostsInFlight(c'.assignments[0].posts);
    ApproveRuns(w, c, used, balance, s, 100, key, STEADY);
  }

  lemma Delivers(w: World, used: set<Key>, balance: int, ss: seq<PostStatus>, submissions: seq<Submission>, p: nat,
                 key: Key)
    requires |ss| == 5 && 0 < p < 5 && ss[p].Pending? && ss[0].Pending? && |submissions| <= 2 && Early(submissions)
    requires At(w, Holds(ss, submissions), used, balance) && 100 <= balance
    requires key.ClientKey? && !Blank(key) && key !in used
    ensures At(Step(Step(w, DoSubmit(0, 7, Some(p))), DoApprove(|submissions|, 100, key, STEADY)),
               Holds(ss[p := Approved], submissions + [Paid100(p)]), used + {key}, balance - 100)
  {
    HandIn(w, used, balance, ss, submissions, p);
    Judged(Step(w, DoSubmit(0, 7, Some(p))), used, balance, ss[p := Submitted], submissions, p, key);
    assert ss[p := Submitted][p := Approved] == ss[p := Approved];
  }

  // ---- Two are missed, and the slot opens again for them ----

  const THREE := [Paid100(2), Paid100(3), Paid100(4)]

  /** Promoter 7 has been pulled; the slot is open again for the two posts not approved. */
  function LetGo(): Campaign
  {
    Opened(1, true, 5, END, 500)
    .(offers := [OfferTo(7).(status := Accepted), OfferTo(8)], slots := [Slot(Open, 100, 2)],
      assignments := [Assignment(0, 7, None, Cancelled, Five(MISSED))], submissions := THREE, noShows := [0, 0])
  }

  lemma FirstTwoAreOverdue()
    ensures OverdueCount(Five(PART), 25) == 2
    ensures FlipPosts(Five(PART), 25) == Five(MISSED) && ForfeitPosts(Five(MISSED)) == Five(MISSED)
  {
    var t := Five(PART);
    assert t[..4][..3][..2] == [Due(1, Pending), Due(2, Pending)];
    assert t[..4][..3][..2][..1] == [Due(1, Pending)];
    assert OverdueCount(t[..4][..3][..2][..1], 25) == 1;
    assert OverdueCount(t[..4][..3][..2], 25) == 2;
    assert OverdueCount(t[..4][..3], 25) == 2;
    assert OverdueCount(t[..4], 25) == 2;
  }

  lemma TwoAreLeft()
    ensures Deficit(Five(MISSED)) == 2 == Deficit(Five(PART)) && ShouldPull(Views(Five(MISSED)))
  {
    var vs := Views(Five(MISSED));
    FirstTwoAreOverdue();
    FlippedCounts(Five(PART), 25);
    assert vs[..4][..3][..2] == [PostView(1, Missed), PostView(2, Missed)];
    NoneApproved(vs[..4][..3][..2]);
    assert ApprovedCount(vs[..4][..3]) == 1 && ApprovedCount(vs[..4]) == 2 && ApprovedCount(vs) == 3;
    SortedIsIdentity(vs);
    assert MissedRun(vs, 0, Max(1, MISS_THRESHOLD)) && ConsecutiveMisses(vs, MISS_THRESHOLD);
  }

  lemma StillAtWork(c: Campaign)
    requires c == Holds(PART, THREE)
    ensures !c.assignments[0].status.Cancelled? && !c.assignments[0].status.Paid?
  {
    RollupReadsBack(Views(c.assignments[0].posts));
    assert !Resolved(Views(c.assignments[0].posts)[0].status);
  }

  lemma SweptAfterThree(c: Campaign)
    requires c == Holds(PART, THREE) && !c.assignments[0].status.Cancelled? && !c.assignments[0].status.Paid?
    ensures SweepUpTo(c, 1, 25) == LetGo() && PullsPartWay(c, 25, 0)
  {
    FirstTwoAreOverdue();
    TwoAreLeft();
    assert WillBePulled(c.assignments[0], 25);
    PulledShape(c, 0, 25);
    var c' := SweepOne(c, 0, 25);
    assert c'.slots == [Slot(Open, 100, 2)];
    assert c'.assignments == [Assignment(0, 7, None, Cancelled, Five(MISSED))];
    assert Repeat(0, 2) == [0, 0] && c'.noShows == [0, 0];
    assert SweepUpTo(c, 0, 25) == c;
    assert SweepUpTo(c, 1, 25) == SweepOne(c, 0, 25);
  }

  lemma FirstIsLetGo(w: World, used: set<Key>)
    requires At(w, Holds(PART, THREE), used, 200)
    ensures At(Step(w, DoSweep(25)), LetGo(), used, 200) && Shrinks(w.campaign, DoSweep(25))
  {
    var c := Holds(PART, THREE);
    StillAtWork(c);
    SweptAfterThree(c);
    StepIsHandler(w, DoSweep(25));
    RowsOnlyKeepsMoney(w, LetGo());
  }

  // ---- The second promoter takes what is left ----

  const LEFT := [DeliverySlot(1, 38, 100, 70, 100, Pending), DeliverySlot(2, 50, 100, 70, 100, Pending)]

  function TwoForFive(): Campaign
  {
    LetGo().(slots := [Slot(Filled, 100, 2)], slotsFilled := 1,
             offers := [OfferTo(7).(status := Accepted), OfferTo(8).(status := Accepted)],
             assignments := [Assignment(0, 7, None, Cancelled, Five(MISSED)),
                             Assignment(1, 8, Some(0), InProgress, LEFT)])
  }

  lemma NewTwo(c: Campaign)
    requires c.startsAt.None? && c.endsAt == END
    ensures NewPosts(c, OfferTo(8), 2, LATER) == LEFT
  {
    var times := Schedule.GenerateSlotSchedule(c.startsAt, c.endsAt, 2, 0, 10, 26);
    assert |times| == 2;
    assert times[0] == Schedule.SlotTime(1, 38, 38) && times[1] == Schedule.SlotTime(2, 50, 50);
  }

  lemma SecondTakesTwo(w: World, used: set<Key>)
    requires At(w, LetGo(), used, 200)
    ensures At(Step(w, DoAccept(1, 8, LATER)), TwoForFive(), used, 200)
  {
    var c := LetGo();
    NewTwo(c);
    AcceptRuns(w, c, used, 200, 1, 0, LATER);
    var c1, c2 := Step(w, DoAccept(1, 8, LATER)).campaign, TwoForFive();
    assert c1.slots == c2.slots && c1.offers == c2.offers && c1.assignments == c2.assignments;
  }

  // ---- The run ----

  function Started(): seq<Action> { Opening(500) + [DoAccept(0, 7, CLOCK)] }

  function OnePaid(): seq<Action>
  {
    Started() + [DoSubmit(0, 7, Some(2)), DoApprove(0, 100, ClientKey("k0"), STEADY)]
  }

  function TwoPaid(): seq<Action>
  {
    OnePaid() + [DoSubmit(0, 7, Some(3)), DoApprove(1, 100, ClientKey("k1"), STEADY)]
  }

  function PartRun(): seq<Action>
  {
    TwoPaid() + [DoSubmit(0, 7, Some(4)), DoApprove(2, 100, ClientKey("k2"), STEADY)]
  }

  function ShortRun(): seq<Action> { PartRun() + [DoSweep(25), DoAccept(1, 8, LATER)] }

  const USED := FUND + {ClientKey("k0")} + {ClientKey("k1")} + {ClientKey("k2")}

  lemma DeliversNext(w: World, done: seq<Action>, used: set<Key>, balance: int, ss: seq<PostStatus>,
                     submissions: seq<Submission>, p: nat, key: Key, ss': seq<PostStatus>,
                     submissions': seq<Submission>, done': seq<Action>)
    requires |ss| == 5 && 0 < p < 5 && ss[p].Pending? && ss[0].Pending? && |submissions| <= 2 && Early(submissions)
    requires At(RunWorld(w, done), Holds(ss, submissions), used, balance) && 100 <= balance
    requires key.ClientKey? && !Blank(key) && key !in used
    requires ss' == ss[p := Approved] && submissions' == submissions + [Paid100(p)]
    requires done' == done + [DoSubmit(0, 7, Some(p)), DoApprove(|submissions|, 100, key, STEADY)]
    ensures At(RunWorld(w, done'), Holds(ss', submissions'), used + {key}, balance - 100)
  {
    Delivers(RunWorld(w, done), used, balance, ss, submissions, p, key);
    TwoMore(w, done, DoSubmit(0, 7, Some(p)), DoApprove(|submissions|, 100, key, STEADY));
  }

  const S1 := [Pending, Pending, Approved, Pending, Pending]

  const S2 := [Pending, Pending, Approved, Approved, Pending]

  lemma StartedEnds()
    ensures At(RunWorld(Begin(1, true, 5, END), Started()), Holds(FRESH, []), FUND, 500)
  {
    var w := Begin(1, true, 5, END);
    OpeningRuns(1, true, 5, END, 500);
    FirstAccepts(RunWorld(w, Opening(500)));
    RunSnoc(w, Opening(500), DoAccept(0, 7, CLOCK));
  }

  lemma OnePaidEnds()
    ensures At(RunWorld(Begin(1, true, 5, END), OnePaid()), Holds(S1, [Paid100(2)]), FUND + {ClientKey("k0")}, 400)
  {
    StartedEnds();
    assert FRESH[2 := Approved] == S1 && [] + [Paid100(2)] == [Paid100(2)];
    DeliversNext(Begin(1, true, 5, END), Started(), FUND, 500, FRESH, [], 2, ClientKey("k0"), S1, [Paid100(2)],
                 OnePaid());
  }

  lemma TwoPaidEnds()
    ensures At(RunWorld(Begin(1, true, 5, END), TwoPaid()), Holds(S2, [Paid100(2), Paid100(3)]),
               FUND + {ClientKey("k0")} + {ClientKey("k1")}, 300)
  {
    OnePaidEnds();
    assert S1[3 := Approved] == S2 && [Paid100(2)] + [Paid100(3)] == [Paid100(2), Paid100(3)];
    DeliversNext(Begin(1, true, 5, END), OnePaid(), FUND + {ClientKey("k0")}, 400, S1, [Paid100(2)], 3,
                 ClientKey("k1"), S2, [Paid100(2), Paid100(3)], TwoPaid());
  }

  const TWO := [Paid100(2), Paid100(3)]

  lemma ThirdIsLast()
    ensures PART == S2[4 := Approved] && THREE == TWO + [Paid100(4)]
    ensures |S2| == 5 && S2[4].Pending? && S2[0].Pending? && |TWO| == 2 && Early(TWO)
    ensures PartRun() == TwoPaid() + [DoSubmit(0, 7, Some(4)), DoApprove(|TWO|, 100, ClientKey("k2"), STEADY)]
  {
  }

  lemma PartRunEnds()
    ensures At(RunWorld(Begin(1, true, 5, END), PartRun()), Holds(PART, THREE), USED, 200)
  {
    TwoPaidEnds();
    ThirdIsLast();
    DeliversNext(Begin(1, true, 5, END), TwoPaid(), FUND + {ClientKey("k0")} + {ClientKey("k1")}, 300, S2, TWO, 4,
                 ClientKey("k2"), PART, THREE, PartRun());
  }

  lemma ShortRunEnds()
    ensures At(RunWorld(Begin(1, true, 5, END), ShortRun()), TwoForFive(), USED, 200)
    ensures !NeverShrinks(Begin(1, true, 5, END), ShortRun())
  {
    var w := Begin(1, true, 5, END);
    PartRunEnds();
    FirstIsLetGo(RunWorld(w, PartRun()), USED);
    SecondTakesTwo(Step(RunWorld(w, PartRun()), DoSweep(25)), USED);
    TwoMore(w, PartRun(), DoSweep(25), DoAccept(1, 8, LATER));
    var k := |PartRun()|;
    assert ShortRun()[..k] == PartRun() && ShortRun()[k] == DoSweep(25);
    assert Shrinks(RunWorld(w, ShortRun()[..k]).campaign, ShortRun()[k]);
  }

  /**
   * The second promoter accepted five posts' worth: its screen showed a floor of 175 kobo. It holds two posts, and no
   * way to deliver them, settled at the very rates the offer was made at, pays more than 140.
   */
  lemma FloorIsOutOfReach(verified: seq<nat>)
    requires |verified| == 2
    ensures var w := Begin(1, true, 5, END);
            var c := RunWorld(w, ShortRun()).campaign;
            && FreshStart(w) && |c.assignments| == 2 && c.assignments[1].offer == 1 && |c.offers| == 2
            && |c.assignments[1].posts| == 2 && c.posts == 5 && c.offers[1].promised == 100
            && ShownFloor(c, c.offers[1], STEADY.settlement.threshold) == 175
            && PayOf(c, c.assignments[1], verified, STEADY.settlement) <= 140
  {
    BeginIsFresh(1, true, 5, END);
    ShortRunEnds();
    FloorOfFive(verified);
  }

  lemma FloorOfFive(verified: seq<nat>)
    requires |verified| == 2
    ensures ShownFloor(TwoForFive(), OfferTo(8), STEADY.settlement.threshold) == 175
    ensures Pricing.TotalPay(100, verified, 100, STEADY.settlement) <= 140
  {
    Pricing.TotalPayAtMost(100, verified, 100, STEADY.settlement);
    FeeIs70();
    assert Pricing.AdvertisedFloor(70, 5, 50) == 175;
  }
}
