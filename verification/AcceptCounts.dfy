/**
 * When nothing aborts: N accepts of live offers on M open slots end with exactly min(N, M) successes, and they do end.
 */
module AcceptCounts {
  import opened Common
  import opened Campaigns
  import opened CampaignRows
  import opened Allocation
  import opened ConcurrentAccepts

  function WonOne(p: Phase): int { if p.Won? then 1 else 0 }

  function Winners(s: System): int { Sum(WonOne, s.phases) }

  function OpenSlots(c: Campaign): int { Sum(OpenOne, c.slots) }

  /** Slot k is no longer there to be taken: filled, or locked by an accept on its way to filling it. */
  predicate Taken(s: System, k: nat)
  {
    k < |s.world.campaign.slots| ==> !s.world.campaign.slots[k].status.Open? || SlotLocked(s, k)
  }

  predicate Acceptable(c: Campaign, r: Request, deadline: int)
  {
    r.offer < |c.offers| && c.offers[r.offer].promoter == r.promoter && c.offers[r.offer].status.Sent?
      && deadline <= c.offers[r.offer].expiresAt
  }

  predicate Progressing(s: System, r: Request, p: Phase, deadline: int)
  {
    match p
    case Arrived => Acceptable(s.world.campaign, r, deadline)
    case Scanning(cursor) => forall k :: 0 <= k < cursor ==> Taken(s, k)
    case Refused(why) => why.CampaignFull? && forall k :: 0 <= k < |s.world.campaign.slots| ==> Taken(s, k)
    case Aborted => false
    case _ => true
  }

  predicate DistinctOffers(requests: seq<Request>)
  {
    forall i, j :: 0 <= i < j < |requests| ==> requests[i].offer != requests[j].offer
  }

  ghost predicate QuietInv(s: System, open: int, deadline: int)
  {
    && Inv(s) && DistinctOffers(s.requests) && s.world.campaign.status.Live?
    && (forall t :: 0 <= t < |s.phases| ==> Progressing(s, s.requests[t], s.phases[t], deadline))
    && OpenSlots(s.world.campaign) + Winners(s) == open
  }

  // ---- One move ----

  lemma TakenStays(s: System, t: nat, phase: Phase, k: nat)
    requires t < |s.phases| && Taken(s, k)
    requires forall j :: HoldsSlot(s.phases[t], j) ==> HoldsSlot(phase, j)
    ensures Taken(MoveTo(s, t, phase), k)
  {
    if SlotLocked(s, k) {
      var u :| 0 <= u < |s.phases| && HoldsSlot(s.phases[u], k);
      assert HoldsSlot(MoveTo(s, t, phase).phases[u], k);
    }
  }

  /** A move of one thread that leaves the rows alone. */
  lemma PhaseMove(s: System, t: nat, phase: Phase, open: int, deadline: int)
    requires QuietInv(s, open, deadline) && t < |s.phases| && Inv(MoveTo(s, t, phase))
    requires forall j :: HoldsSlot(s.phases[t], j) ==> HoldsSlot(phase, j)
    requires !s.phases[t].Won? && !phase.Won? && Progressing(MoveTo(s, t, phase), s.requests[t], phase, deadline)
    ensures QuietInv(MoveTo(s, t, phase), open, deadline)
  {
    var s' := MoveTo(s, t, phase);
    SumUpdate(WonOne, s.phases, t, phase);
    forall u | 0 <= u < |s.phases| ensures Progressing(s', s.requests[u], s'.phases[u], deadline) {
      if u != t {
        assert Progressing(s, s.requests[u], s.phases[u], deadline);
        forall k: nat | Taken(s, k) ensures Taken(s', k) {
          TakenStays(s, t, phase, k);
        }
      }
    }
  }

  lemma ScanPasses(s: System, t: nat, clock: Clock, open: int, deadline: int)
    requires QuietInv(s, open, deadline) && t < |s.phases| && s.phases[t].Scanning?
    ensures QuietInv(Move(s, t, clock), open, deadline)
  {
    var cursor := s.phases[t].cursor;
    ScanMove(s, t, clock);
    assert ThreadOk(s.world.campaign, s.requests[t], s.phases[t]);
    assert Progressing(s, s.requests[t], s.phases[t], deadline);
    var phase := Move(s, t, clock).phases[t];
    assert Move(s, t, clock) == MoveTo(s, t, phase);
    forall k: nat | Taken(s, k) ensures Taken(MoveTo(s, t, phase), k) {
      TakenStays(s, t, phase, k);
    }
    PhaseMove(s, t, phase, open, deadline);
  }

  lemma CommitTakes(s: System, t: nat, clock: Clock, open: int, deadline: int)
    requires QuietInv(s, open, deadline) && t < |s.phases| && s.phases[t].Counting?
    ensures QuietInv(Move(s, t, clock), open, deadline)
  {
    var c, r, p, s' := s.world.campaign, s.requests[t], s.phases[t], Move(s, t, clock);
    CommitMove(s, t, clock);
    assert ThreadOk(c, r, p);
    SumUpdate(WonOne, s.phases, t, s'.phases[t]);
    SumUpdate(OpenOne, c.slots, p.slot, s'.world.campaign.slots[p.slot]);
    forall k: nat | Taken(s, k) ensures Taken(s', k) {
      TakenByCommit(s, s', t, k);
    }
    forall u | 0 <= u < |s.phases| ensures Progressing(s', s.requests[u], s'.phases[u], deadline) {
      if u != t {
        assert Progressing(s, s.requests[u], s.phases[u], deadline);
        assert s.requests[u].offer != r.offer;
      }
    }
  }

  lemma TakenByCommit(s: System, s': System, t: nat, k: nat)
    requires t < |s.phases| && s.phases[t].Counting? && s.phases[t].slot < |s.world.campaign.slots| && Taken(s, k)
    requires |s'.phases| == |s.phases| && forall u :: 0 <= u < |s.phases| && u != t ==> s'.phases[u] == s.phases[u]
    requires s'.world.campaign.slots
             == s.world.campaign.slots[s.phases[t].slot := s.world.campaign.slots[s.phases[t].slot].(status := Filled)]
    ensures Taken(s', k)
  {
    if k < |s.world.campaign.slots| && s.world.campaign.slots[k].status.Open? && k != s.phases[t].slot {
      var u :| 0 <= u < |s.phases| && HoldsSlot(s.phases[u], k);
      assert HoldsSlot(s'.phases[u], k);
    }
  }

  lemma QuietMove(s: System, t: nat, clock: Clock, open: int, deadline: int)
    requires QuietInv(s, open, deadline) && clock.now <= deadline
    ensures QuietInv(Move(s, t, clock), open, deadline)
  {
    if t < |s.phases| {
      MoveKeepsInv(s, t, clock);
      assert Progressing(s, s.requests[t], s.phases[t], deadline);
      match s.phases[t]
      case Arrived =>
        if !OfferLocked(s, s.requests[t].offer) {
          PhaseMove(s, t, Scanning(0), open, deadline);
        }
      case Scanning(_) => ScanPasses(s, t, clock, open, deadline);
      case Holding(k, picked) =>
        if !CampaignLocked(s) {
          PhaseMove(s, t, Counting(k, picked, s.world.campaign.slotsFilled), open, deadline);
        }
      case Counting(_, _, _) => CommitTakes(s, t, clock, open, deadline);
      case _ =>
    }
  }

  /** Only accepts run, none fails, and no offer's deadline passes. */
  predicate QuietSchedule(schedule: seq<Event>, deadline: int)
  {
    forall i :: 0 <= i < |schedule| ==> schedule[i].Advance? && schedule[i].clock.now <= deadline
  }

  lemma {:induction false} QuietRun(s: System, schedule: seq<Event>, open: int, deadline: int)
    requires QuietInv(s, open, deadline) && QuietSchedule(schedule, deadline)
    ensures QuietInv(Execute(s, schedule), open, deadline)
    decreases |schedule|
  {
    if schedule != [] {
      var front, e := schedule[..|schedule| - 1], schedule[|schedule| - 1];
      assert forall i :: 0 <= i < |front| ==> front[i] == schedule[i];
      QuietRun(s, front, open, deadline);
      QuietMove(Execute(s, front), e.thread, e.clock, open, deadline);
    }
  }

  predicate AllAnswered(s: System)
  {
    forall t :: 0 <= t < |s.phases| ==> s.phases[t].Won? || s.phases[t].Refused? || s.phases[t].Aborted?
  }

  lemma NobodyLocks(s: System, k: nat)
    requires AllAnswered(s)
    ensures !SlotLocked(s, k)
  {
  }

  lemma AnsweredCount(s: System, open: int, deadline: int)
    requires QuietInv(s, open, deadline) && AllAnswered(s)
    ensures Winners(s) == Min(|s.requests|, open)
  {
    SumNonNegative(OpenOne, s.world.campaign.slots);
    SumOfBits(WonOne, s.phases);
    if forall t :: 0 <= t < |s.phases| ==> s.phases[t].Won? {
      SumConstant(WonOne, s.phases, 1);
    } else {
      var t :| 0 <= t < |s.phases| && !s.phases[t].Won?;
      assert Progressing(s, s.requests[t], s.phases[t], deadline);
      forall k | 0 <= k < |s.world.campaign.slots| ensures OpenOne(s.world.campaign.slots[k]) == 0 {
        NobodyLocks(s, k);
        assert Taken(s, k);
      }
      SumConstant(OpenOne, s.world.campaign.slots, 0);
    }
  }

  /** Exactly min(N, M): N live offers accepted at once, M open slots, any interleaving that runs to the end. */
  lemma ExactlyMinSucceed(w: World, requests: seq<Request>, schedule: seq<Event>, deadline: int)
    requires RowsOk(w.campaign) && w.campaign.status.Live? && DistinctOffers(requests)
    requires forall t :: 0 <= t < |requests| ==> Acceptable(w.campaign, requests[t], deadline)
    requires QuietSchedule(schedule, deadline) && AllAnswered(Execute(Start(w, requests), schedule))
    ensures Winners(Execute(Start(w, requests), schedule)) == Min(|requests|, OpenSlots(w.campaign))
  {
    var s := Start(w, requests);
    SumConstant(WonOne, s.phases, 0);
    QuietRun(s, schedule, OpenSlots(w.campaign), deadline);
    AnsweredCount(Execute(s, schedule), OpenSlots(w.campaign), deadline);
  }

  // ---- They do run to the end ----

  predicate Answered(p: Phase) { p.Won? || p.Refused? || p.Aborted? }

  /**
   * Whatever the interleaving, failures and other handlers included: while an accept is unanswered, some accept can
   * move.
   */
  lemma SomeAcceptCanMove(s: System, t: nat, clock: Clock)
    requires Inv(s) && t < |s.phases| && !Answered(s.phases[t])
    ensures exists u :: 0 <= u < |s.phases| && !Answered(s.phases[u]) && Move(s, u, clock).phases[u] != s.phases[u]
  {
    if u :| 0 <= u < |s.phases| && s.phases[u].Counting? {
      assert ThreadOk(s.world.campaign, s.requests[u], s.phases[u]);
      assert Move(s, u, clock).phases[u].Won?;
    } else if u :| 0 <= u < |s.phases| && s.phases[u].Holding? {
      assert Move(s, u, clock).phases[u].Counting?;
    } else if u :| 0 <= u < |s.phases| && s.phases[u].Scanning? {
      assert Move(s, u, clock).phases[u] != s.phases[u];
    } else {
      assert s.phases[t].Arrived? && !OfferLocked(s, s.requests[t].offer);
      assert Move(s, t, clock).phases[t] != s.phases[t];
    }
  }

  /** How far a thread is from its answer. */
  function Distance(slots: nat): Phase -> int
  {
    (p: Phase) => match p
                  case Arrived => slots + 4
                  case Scanning(k) => Max(0, slots - k) + 3
                  case Holding(_, _) => 2
                  case Counting(_, _, _) => 1
                  case _ => 0
  }

  function TotalDistance(s: System): int { Sum(Distance(|s.world.campaign.slots|), s.phases) }

  lemma MoveTouchesOne(s: System, t: nat, clock: Clock)
    requires |s.phases| == |s.requests|
    ensures var s' := Move(s, t, clock);
            && |s'.world.campaign.slots| == |s.world.campaign.slots|
            && (s' != s ==> t < |s.phases| && s'.phases == s.phases[t := s'.phases[t]])
  {
  }

  lemma MoveAdvances(s: System, t: nat, clock: Clock)
    requires |s.phases| == |s.requests| && t < |s.phases| && Move(s, t, clock) != s
    ensures var f := Distance(|s.world.campaign.slots|);
            0 <= f(Move(s, t, clock).phases[t]) < f(s.phases[t])
  {
  }

  /** Every move that is not a wait brings the whole nearer to being answered, so a fair run answers everyone. */
  lemma MovesApproachTheEnd(s: System, t: nat, clock: Clock)
    requires |s.phases| == |s.requests|
    ensures Move(s, t, clock) != s ==> 0 <= TotalDistance(Move(s, t, clock)) < TotalDistance(s)
  {
    MoveTouchesOne(s, t, clock);
    if Move(s, t, clock) != s {
      var phase, f := Move(s, t, clock).phases[t], Distance(|s.world.campaign.slots|);
      MoveAdvances(s, t, clock);
      SumUpdate(f, s.phases, t, phase);
      SumNonNegative(f, s.phases[t := phase]);
    }
  }

  lemma ExecuteLast(s: System, front: seq<Event>, last: Event)
    requires |s.phases| == |s.requests|
    ensures Execute(s, front + [last]) == Take(Execute(s, front), last)
  {
    assert (front + [last])[..|front|] == front;
  }

  lemma {:induction false} ExecuteFirst(s: System, e: Event, rest: seq<Event>)
    requires |s.phases| == |s.requests|
    ensures Execute(s, [e] + rest) == Execute(Take(s, e), rest)
    decreases |rest|
  {
    if rest == [] {
      assert [e] + rest == [] + [e] && Execute(s, []) == s;
      ExecuteLast(s, [], e);
    } else {
      var front, last := rest[..|rest| - 1], rest[|rest| - 1];
      assert [e] + rest == [e] + front + [last] && rest == front + [last];
      ExecuteFirst(s, e, front);
      ExecuteLast(s, [e] + front, last);
      ExecuteLast(Take(s, e), front, last);
    }
  }

  /** From any reachable moment every accept can be brought to an answer, with no failure and before any deadline. */
  lemma {:induction false} EveryAcceptCanBeAnswered(s: System, deadline: int) returns (schedule: seq<Event>)
    requires Inv(s)
    ensures QuietSchedule(schedule, deadline) && AllAnswered(Execute(s, schedule))
    decreases TotalDistance(s)
  {
    if AllAnswered(s) {
      schedule := [];
    } else {
      var e := NextMove(s, Clock(deadline, 0, 0));
      var rest := EveryAcceptCanBeAnswered(Take(s, e), deadline);
      schedule := [e] + rest;
      ExecuteFirst(s, e, rest);
      QuietPrefix(e, rest, deadline);
    }
  }

  lemma NextMove(s: System, clock: Clock) returns (e: Event)
    requires Inv(s) && !AllAnswered(s)
    ensures e.Advance? && e.clock == clock && Inv(Take(s, e)) && 0 <= TotalDistance(Take(s, e)) < TotalDistance(s)
  {
    var u := Mover(s, clock);
    MoveKeepsInv(s, u, clock);
    MovesApproachTheEnd(s, u, clock);
    e := Advance(u, clock);
  }

  lemma Mover(s: System, clock: Clock) returns (u: nat)
    requires Inv(s) && !AllAnswered(s)
    ensures u < |s.phases| && Move(s, u, clock) != s
  {
    var t :| 0 <= t < |s.phases| && !Answered(s.phases[t]);
    SomeAcceptCanMove(s, t, clock);
    u :| 0 <= u < |s.phases| && !Answered(s.phases[u]) && Move(s, u, clock).phases[u] != s.phases[u];
  }

  lemma QuietPrefix(e: Event, rest: seq<Event>, deadline: int)
    requires e.Advance? && e.clock.now <= deadline && QuietSchedule(rest, deadline)
    ensures QuietSchedule([e] + rest, deadline)
  {
  }

  /** So such a schedule exists, and it ends with exactly min(N, M) successes. */
  lemma MinSucceedHappens(w: World, requests: seq<Request>, deadline: int) returns (schedule: seq<Event>)
    requires RowsOk(w.campaign) && w.campaign.status.Live? && DistinctOffers(requests)
    requires forall t :: 0 <= t < |requests| ==> Acceptable(w.campaign, requests[t], deadline)
    ensures QuietSchedule(schedule, deadline)
    ensures AllAnswered(Execute(Start(w, requests), schedule))
    ensures Winners(Execute(Start(w, requests), schedule)) == Min(|requests|, OpenSlots(w.campaign))
  {
    schedule := EveryAcceptCanBeAnswered(Start(w, requests), deadline);
    ExactlyMinSucceed(w, requests, schedule, deadline);
  }
}
