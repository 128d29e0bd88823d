/** What the missed-deadline sweep does, assignment by assignment, and that doing it twice changes nothing. */
module CampaignSweep {
  import opened Common
  import opened Delivery
  import opened Campaigns
  import opened CampaignRows
  import opened CampaignSolvency

  /** The sweep's effect on one assignment, seen alone. */
  function Swept(a: Assignment, now: int): Assignment
  {
    var posts := FlipPosts(a.posts, now);
    if NewlyMissed(a, now) == 0 then a
    else if ShouldPull(Views(posts)) then a.(status := Cancelled, slot := None, posts := ForfeitPosts(posts))
    else a.(status := RollupOf(posts), posts := posts)
  }

  /** NO_SHOW events recorded against assignment i. */
  function EventsFor(events: seq<nat>, i: nat): nat
  {
    if events == [] then 0 else EventsFor(events[..|events| - 1], i) + (if events[|events| - 1] == i then 1 else 0)
  }

  lemma {:induction false} EventsConcat(s: seq<nat>, t: seq<nat>, i: nat)
    ensures EventsFor(s + t, i) == EventsFor(s, i) + EventsFor(t, i)
    decreases |t|
  {
    if t == [] {
      assert s + t == s;
    } else {
      assert (s + t)[..|s + t| - 1] == s + t[..|t| - 1];
      EventsConcat(s, t[..|t| - 1], i);
    }
  }

  lemma {:induction false} EventsRepeat(j: nat, times: nat, i: nat)
    ensures EventsFor(Repeat(j, times), i) == if i == j then times else 0
    decreases times
  {
    if times > 0 {
      assert Repeat(j, times)[..times - 1] == Repeat(j, times - 1);
      EventsRepeat(j, times - 1, i);
    }
  }

  lemma SweepOneSwept(c: Campaign, i: nat, now: int)
    requires i < |c.assignments|
    ensures SweepOne(c, i, now).assignments == c.assignments[i := Swept(c.assignments[i], now)]
    ensures SweepOne(c, i, now).noShows == c.noShows + Repeat(i, NewlyMissed(c.assignments[i], now))
  {
    if NewlyMissed(c.assignments[i], now) == 0 {
      assert c.noShows + Repeat(i, 0) == c.noShows;
      assert c.assignments[i := c.assignments[i]] == c.assignments;
    }
  }

  /** The sweep of assignment j is one event per newly missed post of j and none for anybody else. */
  lemma SweepOneEvents(c: Campaign, j: nat, now: int, i: nat)
    requires j < |c.assignments|
    ensures EventsFor(SweepOne(c, j, now).noShows, i)
            == EventsFor(c.noShows, i) + (if i == j then NewlyMissed(c.assignments[j], now) else 0)
  {
    SweepOneSwept(c, j, now);
    EventsConcat(c.noShows, Repeat(j, NewlyMissed(c.assignments[j], now)), i);
    EventsRepeat(j, NewlyMissed(c.assignments[j], now), i);
  }

  /** The first n assignments have been swept: how assignment i stands. */
  predicate StandsSwept(c: Campaign, x: Campaign, n: nat, now: int, i: nat)
  {
    i < |c.assignments| && i < |x.assignments|
    && x.assignments[i] == if i < n then Swept(c.assignments[i], now) else c.assignments[i]
  }

  /** The sweep is its effect on each assignment alone. */
  lemma SweepAt(c: Campaign, n: nat, now: int, i: nat)
    requires n <= |c.assignments| && i < |c.assignments|
    ensures StandsSwept(c, SweepUpTo(c, n, now), n, now, i)
  {
    forall x: Campaign, k: nat | k < n && |x.assignments| == |c.assignments| && StandsSwept(c, x, k, now, i)
      ensures StandsSwept(c, SweepOne(x, k, now), k + 1, now, i)
    {
      SweptNext(x, k, now, i, SweepOne(x, k, now));
    }
    SweepInduction(c, n, now, (x: Campaign, k: nat) => StandsSwept(c, x, k, now, i));
  }

  lemma SweptNext(c: Campaign, k: nat, now: int, i: nat, c': Campaign)
    requires k < |c.assignments| && i < |c.assignments| && c' == SweepOne(c, k, now)
    ensures |c'.assignments| == |c.assignments|
    ensures c'.assignments[i] == if i == k then Swept(c.assignments[i], now) else c.assignments[i]
  {
    SweepOneSwept(c, k, now);
  }

  lemma SweepIsPointwise(c: Campaign, n: nat, now: int)
    requires n <= |c.assignments|
    ensures forall i :: 0 <= i < n ==> SweepUpTo(c, n, now).assignments[i] == Swept(c.assignments[i], now)
    ensures forall i :: n <= i < |c.assignments| ==> SweepUpTo(c, n, now).assignments[i] == c.assignments[i]
  {
    forall i | 0 <= i < |c.assignments|
      ensures SweepUpTo(c, n, now).assignments[i] == if i < n then Swept(c.assignments[i], now) else c.assignments[i]
    {
      SweepAt(c, n, now, i);
    }
  }

  /** The first n assignments have been swept: the events of assignment i, and that the rest is as it was. */
  predicate EventsStand(c: Campaign, x: Campaign, n: nat, now: int, i: nat)
  {
    && n <= |c.assignments| == |x.assignments|
    && (forall j :: n <= j < |c.assignments| ==> x.assignments[j] == c.assignments[j])
    && EventsFor(x.noShows, i) == EventsFor(c.noShows, i) + (if i < n then NewlyMissed(c.assignments[i], now) else 0)
  }

  lemma SweepEvents(c: Campaign, n: nat, now: int, i: nat)
    requires n <= |c.assignments|
    ensures EventsStand(c, SweepUpTo(c, n, now), n, now, i)
  {
    forall x: Campaign, k: nat | k < n && |x.assignments| == |c.assignments| && EventsStand(c, x, k, now, i)
      ensures EventsStand(c, SweepOne(x, k, now), k + 1, now, i)
    {
      SweepOneEvents(x, k, now, i);
      SweepOneSwept(x, k, now);
    }
    SweepInduction(c, n, now, (x: Campaign, k: nat) => EventsStand(c, x, k, now, i));
  }

  lemma {:induction false} NoneOverdue(posts: seq<DeliverySlot>, now: int)
    requires forall p :: 0 <= p < |posts| ==> !Overdue(posts[p], now)
    ensures OverdueCount(posts, now) == 0
    decreases |posts|
  {
    if posts != [] {
      assert forall p :: 0 <= p < |posts| - 1 ==> posts[..|posts| - 1][p] == posts[p];
      NoneOverdue(posts[..|posts| - 1], now);
    }
  }

  lemma {:induction false} SomeOverdue(posts: seq<DeliverySlot>, p: nat, now: int)
    requires p < |posts| && Overdue(posts[p], now)
    ensures 0 < OverdueCount(posts, now)
    decreases |posts|
  {
    if p < |posts| - 1 {
      SomeOverdue(posts[..|posts| - 1], p, now);
    }
  }

  /** After the sweep nothing overdue is left on an assignment that is neither CANCELLED nor PAID. */
  lemma SweptIsClear(a: Assignment, now: int)
    ensures NewlyMissed(Swept(a, now), now) == 0
    ensures var a' := Swept(a, now);
            a'.status.Cancelled? || a'.status.Paid? || forall p :: 0 <= p < |a'.posts| ==> !Overdue(a'.posts[p], now)
  {
    var a' := Swept(a, now);
    if NewlyMissed(a, now) == 0 {
      forall p | 0 <= p < |a.posts| && !a.status.Cancelled? && !a.status.Paid? ensures !Overdue(a.posts[p], now) {
        if Overdue(a.posts[p], now) {
          SomeOverdue(a.posts, p, now);
        }
      }
    } else if !ShouldPull(Views(FlipPosts(a.posts, now))) {
      NoneOverdue(a'.posts, now);
    }
  }

  // ---- In terms of what the rows say ----

  /** A post still waiting for a proof, or for a new one, whose deadline has passed. */
  predicate Lapsed(q: DeliverySlot, now: int)
  {
    (q.status == Pending || q.status == Rejected) && q.dueAt < now
  }

  function LapsedAt(posts: seq<DeliverySlot>, now: int): set<nat>
  {
    set p: nat | p < |posts| && Lapsed(posts[p], now)
  }

  predicate Closed(a: Assignment) { a.status == Cancelled || a.status == Paid }

  lemma {:induction false} OverdueIsLapsed(posts: seq<DeliverySlot>, now: int)
    ensures OverdueCount(posts, now) == |LapsedAt(posts, now)|
    decreases |posts|
  {
    if posts == [] {
      assert LapsedAt(posts, now) == {};
    } else {
      var n := |posts| - 1;
      OverdueIsLapsed(posts[..n], now);
      assert LapsedAt(posts, now)
             == if Lapsed(posts[n], now) then LapsedAt(posts[..n], now) + {n} else LapsedAt(posts[..n], now);
    }
  }

  lemma MissedAreLapsed(a: Assignment, now: int)
    ensures NewlyMissed(a, now) == if Closed(a) then 0 else |LapsedAt(a.posts, now)|
    ensures NewlyMissed(a, now) == 0 <==> Closed(a) || forall p :: 0 <= p < |a.posts| ==> !Lapsed(a.posts[p], now)
  {
    OverdueIsLapsed(a.posts, now);
    if forall p :: 0 <= p < |a.posts| ==> !Lapsed(a.posts[p], now) {
      assert LapsedAt(a.posts, now) == {};
    } else {
      var p: nat :| p < |a.posts| && Lapsed(a.posts[p], now);
      assert p in LapsedAt(a.posts, now);
    }
  }

  predicate MissedOrLapsed(posts: seq<DeliverySlot>, p: int, now: int)
  {
    0 <= p < |posts| && (posts[p].status == Missed || Lapsed(posts[p], now))
  }

  /**
   * The promoter is taken off: a post lapsed, something is left to deliver, and it was the only post or two neighbours
   * are missed by now.
   */
  predicate TakenOff(a: Assignment, now: int)
  {
    && !Closed(a)
    && (exists p :: 0 <= p < |a.posts| && Lapsed(a.posts[p], now))
    && (|a.posts| == 1
        || exists p :: 0 <= p < |a.posts| - 1 && MissedOrLapsed(a.posts, p, now) && MissedOrLapsed(a.posts, p + 1, now))
  }

  lemma FlippedViews(posts: seq<DeliverySlot>, now: int)
    requires PostsOk(posts, if posts == [] then 0 else posts[0].gross)
    ensures var vs := Views(FlipPosts(posts, now));
            && |vs| == |posts| && SortedByIndex(vs)
            && (forall p :: 0 <= p < |posts| ==> (MissedAt(vs, p) <==> MissedOrLapsed(posts, p, now)))
            && forall p :: 0 <= p < |posts| ==> (vs[p].status == Approved <==> posts[p].status == Approved)
  {
  }

  lemma TakenOffIsPulled(a: Assignment, now: int)
    requires exists unit: nat :: PostsOk(a.posts, unit)
    ensures WillBePulled(a, now) <==> TakenOff(a, now)
  {
    var vs := Views(FlipPosts(a.posts, now));
    var unit: nat :| PostsOk(a.posts, unit);
    assert unit == a.posts[0].gross;
    FlippedViews(a.posts, now);
    MissedAreLapsed(a, now);
    PullIsDue(vs);
    if p :| 0 <= p < |a.posts| && Lapsed(a.posts[p], now) {
      assert vs[p].status != Approved;
    }
    NeighboursAre(a.posts, now, vs);
  }

  lemma NeighboursAre(posts: seq<DeliverySlot>, now: int, vs: seq<PostView>)
    requires |vs| == |posts|
    requires forall p :: 0 <= p < |posts| ==> (MissedAt(vs, p) <==> MissedOrLapsed(posts, p, now))
    ensures NeighboursMissed(vs)
            <==> exists p :: 0 <= p < |posts| - 1 && MissedOrLapsed(posts, p, now) && MissedOrLapsed(posts, p + 1, now)
  {
    if p :| 0 <= p < |posts| - 1 && MissedOrLapsed(posts, p, now) && MissedOrLapsed(posts, p + 1, now) {
      assert MissedAt(vs, p) && MissedAt(vs, p + 1);
    }
    if NeighboursMissed(vs) {
      var p :| 0 <= p < |vs| - 1 && MissedAt(vs, p) && MissedAt(vs, p + 1);
      assert MissedOrLapsed(posts, p, now) && MissedOrLapsed(posts, p + 1, now);
    }
  }

  /** Which posts a sweep turns to MISSED: the lapsed ones, and whatever else was open on an assignment it pulls. */
  lemma SweptPosts(a: Assignment, now: int, p: nat)
    requires p < |a.posts|
    ensures var (q, q') := (a.posts[p], Swept(a, now).posts[p]);
            |Swept(a, now).posts| == |a.posts| &&
            q' == if a.status != Cancelled && a.status != Paid
                     && (q.status == Pending || q.status == Rejected) && (q.dueAt < now || WillBePulled(a, now))
                  then q.(status := Missed) else q
  {
    if Overdue(a.posts[p], now) {
      SomeOverdue(a.posts, p, now);
    }
  }

  lemma {:induction false} NothingToSweep(c: Campaign, n: nat, now: int)
    requires n <= |c.assignments| && forall i :: 0 <= i < |c.assignments| ==> NewlyMissed(c.assignments[i], now) == 0
    ensures SweepUpTo(c, n, now) == c
  {
    if n > 0 {
      NothingToSweep(c, n - 1, now);
    }
  }

  lemma SweptIsFree(a: Assignment, now: int, p: nat)
    requires p < |Swept(a, now).posts| && !Closed(Swept(a, now))
    ensures !Lapsed(Swept(a, now).posts[p], now)
  {
    SweptIsClear(a, now);
    assert Overdue(Swept(a, now).posts[p], now) <==> Lapsed(Swept(a, now).posts[p], now);
  }

  /**
   * Sweep exactness: no post past its deadline is left waiting for a proof on an assignment that is neither CANCELLED
   * nor PAID; each that was is MISSED now and one NO_SHOW event; and a second sweep at the same time changes nothing.
   */
  lemma SweepIsExact(w: World, now: int)
    ensures var c, c' := w.campaign, Sweep(w, now).campaign;
            && |c'.assignments| == |c.assignments|
            && (forall i :: 0 <= i < |c.assignments| ==>
                  var (a, a') := (c.assignments[i], c'.assignments[i]);
                  && a' == Swept(a, now)
                  && (a'.status == Cancelled || a'.status == Paid
                      || forall p :: 0 <= p < |a'.posts| ==> !Lapsed(a'.posts[p], now))
                  && (a.status == Cancelled || a.status == Paid
                      || forall p :: 0 <= p < |a.posts| && Lapsed(a.posts[p], now) ==>
                           p < |a'.posts| && a'.posts[p] == a.posts[p].(status := Missed))
                  && EventsFor(c'.noShows, i)
                     == EventsFor(c.noShows, i) + (if Closed(a) then 0 else |LapsedAt(a.posts, now)|))
            && Sweep(Sweep(w, now), now) == Sweep(w, now)
  {
    var c, c' := w.campaign, Sweep(w, now).campaign;
    SweepIsPointwise(c, |c.assignments|, now);
    forall i | 0 <= i < |c.assignments|
      ensures NewlyMissed(c'.assignments[i], now) == 0
      ensures Closed(c'.assignments[i])
              || forall p :: 0 <= p < |c'.assignments[i].posts| ==> !Lapsed(c'.assignments[i].posts[p], now)
    {
      SweptIsClear(c.assignments[i], now);
      forall p | 0 <= p < |c'.assignments[i].posts| && !Closed(c'.assignments[i])
        ensures !Lapsed(c'.assignments[i].posts[p], now)
      {
        SweptIsFree(c.assignments[i], now, p);
      }
    }
    forall i | 0 <= i < |c.assignments|
      ensures EventsFor(c'.noShows, i)
              == EventsFor(c.noShows, i)
                 + (if Closed(c.assignments[i]) then 0 else |LapsedAt(c.assignments[i].posts, now)|)
    {
      SweepEvents(c, |c.assignments|, now, i);
      MissedAreLapsed(c.assignments[i], now);
    }
    forall i, p | 0 <= i < |c.assignments| && 0 <= p < |c.assignments[i].posts| && !Closed(c.assignments[i])
                  && Lapsed(c.assignments[i].posts[p], now)
      ensures p < |c'.assignments[i].posts|
              && c'.assignments[i].posts[p] == c.assignments[i].posts[p].(status := Missed)
    {
      SweptPosts(c.assignments[i], now, p);
    }
    NothingToSweep(c', |c'.assignments|, now);
  }

  /** Everything a sweep does to one assignment, told from the rows before it. */
  lemma SweptInFull(c: Campaign, now: int, i: nat)
    requires RowsOk(c) && i < |c.assignments|
    ensures var a := c.assignments[i];
            var a' := SweepUpTo(c, |c.assignments|, now).assignments[i];
            && |a'.posts| == |a.posts| && a'.offer == a.offer && a'.promoter == a.promoter
            && (if TakenOff(a, now) then
                  && a'.status == Cancelled && a'.slot == None
                  && forall p :: 0 <= p < |a.posts| ==>
                       a'.posts[p] == if a.posts[p].status == Pending || a.posts[p].status == Rejected
                                      then a.posts[p].(status := Missed) else a.posts[p]
                else if !Closed(a) && exists p :: 0 <= p < |a.posts| && Lapsed(a.posts[p], now) then
                  && a'.slot == a.slot && a'.status == RollupOf(a'.posts)
                  && forall p :: 0 <= p < |a.posts| ==>
                       a'.posts[p] == if Lapsed(a.posts[p], now) then a.posts[p].(status := Missed) else a.posts[p]
                else a' == a)
  {
    var a := c.assignments[i];
    SweepIsPointwise(c, |c.assignments|, now);
    assert AssignmentOk(c, a) && PostsOk(a.posts, UnitOf(c));
    TakenOffIsPulled(a, now);
    MissedAreLapsed(a, now);
    forall p | 0 <= p < |a.posts|
      ensures Swept(a, now).posts[p]
              == if !Closed(a) && (a.posts[p].status == Pending || a.posts[p].status == Rejected)
                    && (a.posts[p].dueAt < now || WillBePulled(a, now))
                 then a.posts[p].(status := Missed) else a.posts[p]
    {
      SweptPosts(a, now, p);
    }
  }

  /** Assignment i holds slot k and is pulled by a sweep. */
  predicate Loses(c: Campaign, i: nat, now: int, k: nat)
  {
    i < |c.assignments| && c.assignments[i].slot == Some(k) && WillBePulled(c.assignments[i], now)
  }

  /** A slot let go by an assignment: open again, for the posts its promoter did not deliver. */
  function Reopened(s: Slot, a: Assignment): Slot { s.(status := Open, posts := Max(0, Deficit(a.posts))) }

  lemma SweepOneLeavesSlots(c: Campaign, i: nat, now: int)
    requires i < |c.assignments| && !(WillBePulled(c.assignments[i], now) && c.assignments[i].slot.Some?)
    ensures SweepOne(c, i, now).slots == c.slots
  {
  }

  /** What sweeping assignment i does to slot k. */
  lemma SweepOneSlot(c: Campaign, i: nat, now: int, k: nat)
    requires i < |c.assignments| && k < |c.slots| && AssignmentOk(c, c.assignments[i])
    ensures |SweepOne(c, i, now).slots| == |c.slots|
    ensures SweepOne(c, i, now).slots[k] == if Loses(c, i, now, k) then Reopened(c.slots[k], c.assignments[i])
                                            else c.slots[k]
  {
    var a := c.assignments[i];
    if WillBePulled(a, now) && a.slot.Some? {
      PulledShape(c, i, now);
      FlippedCounts(a.posts, now);
    } else {
      SweepOneLeavesSlots(c, i, now);
    }
  }

  /** Slot k after the first n assignments have been swept. */
  function SlotAfter(c: Campaign, n: nat, now: int, k: nat): Slot
    requires n <= |c.assignments| && k < |c.slots|
  {
    if n == 0 then c.slots[k]
    else if Loses(c, n - 1, now, k) then Reopened(SlotAfter(c, n - 1, now, k), c.assignments[n - 1])
    else SlotAfter(c, n - 1, now, k)
  }

  /** Slot k stands as the first i assignments have left it, and from assignment i on nothing has changed. */
  predicate TracksSlot(c: Campaign, x: Campaign, i: nat, now: int, k: nat)
    requires i <= |c.assignments| && k < |c.slots|
  {
    && RowsOk(x) && |x.slots| == |c.slots| && |x.assignments| == |c.assignments|
    && x.slots[k] == SlotAfter(c, i, now, k)
    && forall j :: i <= j < |c.assignments| ==> x.assignments[j] == c.assignments[j]
  }

  lemma SweepOneTracksSlot(c: Campaign, x: Campaign, i: nat, now: int, k: nat)
    requires i < |c.assignments| && k < |c.slots| && TracksSlot(c, x, i, now, k)
    ensures TracksSlot(c, SweepOne(x, i, now), i + 1, now, k)
  {
    assert AssignmentOk(x, x.assignments[i]);
    SweepOneSlot(x, i, now, k);
    SweepOneKeepsRows(x, i, now);
    SweepOneLeavesOthers(x, i, now);
  }

  lemma SweepTracksSlot(c: Campaign, n: nat, now: int, k: nat)
    requires RowsOk(c) && n <= |c.assignments| && k < |c.slots|
    ensures |SweepUpTo(c, n, now).slots| == |c.slots| && SweepUpTo(c, n, now).slots[k] == SlotAfter(c, n, now, k)
  {
    forall x: Campaign, i: nat | i < n && |x.assignments| == |c.assignments| && TracksSlot(c, x, i, now, k)
      ensures TracksSlot(c, SweepOne(x, i, now), i + 1, now, k)
    {
      SweepOneTracksSlot(c, x, i, now, k);
    }
    SweepInduction(c, n, now, (x: Campaign, i: nat) => i <= |c.assignments| && TracksSlot(c, x, i, now, k));
  }

  lemma {:induction false} SlotKept(c: Campaign, n: nat, now: int, k: nat)
    requires n <= |c.assignments| && k < |c.slots| && forall i :: 0 <= i < n ==> !Loses(c, i, now, k)
    ensures SlotAfter(c, n, now, k) == c.slots[k]
  {
    if n > 0 {
      SlotKept(c, n - 1, now, k);
    }
  }

  lemma OnlyOneLoses(c: Campaign, now: int, k: nat, i: nat, j: nat)
    requires Distinct(c) && i != j && Loses(c, i, now, k)
    ensures !Loses(c, j, now, k)
  {
  }

  lemma {:induction false} SlotLost(c: Campaign, n: nat, now: int, k: nat, i: nat)
    requires Distinct(c) && i < n <= |c.assignments| && k < |c.slots| && Loses(c, i, now, k)
    ensures SlotAfter(c, n, now, k) == Reopened(c.slots[k], c.assignments[i])
  {
    if i < n - 1 {
      OnlyOneLoses(c, now, k, i, n - 1);
      SlotLost(c, n - 1, now, k, i);
    } else {
      forall j | 0 <= j < n - 1 ensures !Loses(c, j, now, k) {
        OnlyOneLoses(c, now, k, i, j);
      }
      SlotKept(c, n - 1, now, k);
    }
  }

  /**
   * The slots on the other side: exactly those of pulled assignments open again, each for the posts its promoter did
   * not deliver.
   */
  lemma SweepReopensPulled(w: World, now: int, k: nat)
    requires RowsOk(w.campaign) && k < |w.campaign.slots|
    ensures var c, c' := w.campaign, Sweep(w, now).campaign;
            && |c'.slots| == |c.slots|
            && (forall i :: 0 <= i < |c.assignments| && Loses(c, i, now, k) ==>
               c'.slots[k] == Reopened(c.slots[k], c.assignments[i]))
            && ((forall i :: 0 <= i < |c.assignments| ==> !Loses(c, i, now, k)) ==> c'.slots[k] == c.slots[k])
  {
    var c := w.campaign;
    var n := |c.assignments|;
    SweepTracksSlot(c, n, now, k);
    forall i | 0 <= i < n && Loses(c, i, now, k)
      ensures SlotAfter(c, n, now, k) == Reopened(c.slots[k], c.assignments[i])
    {
      SlotLost(c, n, now, k, i);
    }
    if forall i :: 0 <= i < n ==> !Loses(c, i, now, k) {
      SlotKept(c, n, now, k);
    }
  }

  function NotApproved(posts: seq<DeliverySlot>): set<nat>
  {
    set p: nat | p < |posts| && posts[p].status != Approved
  }

  lemma {:induction false} DeficitIsCount(posts: seq<DeliverySlot>)
    ensures Deficit(posts) == |NotApproved(posts)|
    decreases |posts|
  {
    if posts == [] {
      assert NotApproved(posts) == {};
    } else {
      var n := |posts| - 1;
      DeficitIsCount(posts[..n]);
      assert Views(posts)[..n] == Views(posts[..n]);
      assert NotApproved(posts)
             == if posts[n].status != Approved then NotApproved(posts[..n]) + {n} else NotApproved(posts[..n]);
    }
  }

  /** A slot changes in a sweep only when its promoter is taken off: it opens again for the posts not approved. */
  lemma SweptSlot(w: World, now: int, k: nat)
    requires RowsOk(w.campaign) && k < |w.campaign.slots|
    ensures var c, s := w.campaign, w.campaign.slots[k];
            && |Sweep(w, now).campaign.slots| == |c.slots|
            && (forall i :: 0 <= i < |c.assignments|
                            && c.assignments[i].slot == Some(k) && TakenOff(c.assignments[i], now) ==>
                  Sweep(w, now).campaign.slots[k] == Slot(Open, s.unitPrice, |NotApproved(c.assignments[i].posts)|))
            && ((forall i :: 0 <= i < |c.assignments| ==>
                   !(c.assignments[i].slot == Some(k) && TakenOff(c.assignments[i], now))) ==>
                  Sweep(w, now).campaign.slots[k] == s)
  {
    var c := w.campaign;
    SweepReopensPulled(w, now, k);
    forall i | 0 <= i < |c.assignments|
      ensures Loses(c, i, now, k) <==> c.assignments[i].slot == Some(k) && TakenOff(c.assignments[i], now)
      ensures Deficit(c.assignments[i].posts) == |NotApproved(c.assignments[i].posts)|
    {
      assert AssignmentOk(c, c.assignments[i]) && PostsOk(c.assignments[i].posts, UnitOf(c));
      TakenOffIsPulled(c.assignments[i], now);
      DeficitIsCount(c.assignments[i].posts);
    }
  }
}
