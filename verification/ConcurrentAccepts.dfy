/**
 * Many calls of accept at once, one database step at a time, over a campaign the other handlers keep working on.
 * A transaction locks its offer row, scans the slots skipping those another transaction holds, and writes at commit;
 * a handler of another kind is one step, which waits while it would change a row some accept has locked.
 */
module ConcurrentAccepts {
  import opened Common
  import opened Delivery
  import opened Campaigns
  import opened CampaignRows
  import opened CampaignRuns
  import Ledger

  datatype Request = Request(offer: nat, promoter: nat)

  datatype Refusal = NoSuchOffer | NotAcceptable | CampaignFull

  datatype Phase =
    | Arrived
    | Scanning(cursor: nat)                             // offer row locked, slots before the cursor passed over
    | Holding(slot: nat, clock: Clock)                  // slot row locked, schedule fixed, writes buffered
    | Counting(slot: nat, clock: Clock, filled: int)    // campaign row locked, its counter read
    | Won(assignment: nat)
    | Refused(why: Refusal)
    | Aborted

  datatype System = System(world: World, requests: seq<Request>, phases: seq<Phase>)

  predicate InTransaction(p: Phase) { p.Scanning? || p.Holding? || p.Counting? }

  predicate HoldsSlot(p: Phase, k: nat) { (p.Holding? || p.Counting?) && p.slot == k }

  predicate SlotLocked(s: System, k: nat)
  {
    exists t :: 0 <= t < |s.phases| && HoldsSlot(s.phases[t], k)
  }

  predicate OfferLocked(s: System, offer: nat)
    requires |s.phases| == |s.requests|
  {
    exists t :: 0 <= t < |s.phases| && InTransaction(s.phases[t]) && s.requests[t].offer == offer
  }

  predicate CampaignLocked(s: System)
  {
    exists t :: 0 <= t < |s.phases| && s.phases[t].Counting?
  }

  function MoveTo(s: System, t: nat, phase: Phase): System
    requires t < |s.phases|
  {
    s.(phases := s.phases[t := phase])
  }

  /** The checks of accept after it has locked the offer row. */
  function Checked(c: Campaign, r: Request, now: int): Phase
  {
    if r.offer >= |c.offers| || c.offers[r.offer].promoter != r.promoter then Refused(NoSuchOffer)
    else if !c.offers[r.offer].status.Sent? || c.offers[r.offer].expiresAt < now || !c.status.Live? then
      Refused(NotAcceptable)
    else Scanning(0)
  }

  /** Everything an accept writes, with the counter value it read under the campaign row's lock. */
  function Committed(c: Campaign, r: Request, slot: nat, clock: Clock, filled: int): Campaign
    requires r.offer < |c.offers| && slot < |c.slots|
  {
    var posts := NewPosts(c, c.offers[r.offer], Max(1, c.slots[slot].posts), clock);
    c.(slots := c.slots[slot := c.slots[slot].(status := Filled)],
       offers := c.offers[r.offer := c.offers[r.offer].(status := Accepted)],
       assignments := c.assignments + [Assignment(r.offer, r.promoter, Some(slot), InProgress, posts)],
       slotsFilled := filled + 1)
  }

  /** One step of accept t; a step that has to wait for a lock does nothing. */
  function Move(s: System, t: nat, clock: Clock): System
    requires |s.phases| == |s.requests|
  {
    var c := s.world.campaign;
    if t >= |s.phases| then s
    else
      var r := s.requests[t];
      match s.phases[t]
      case Arrived => if OfferLocked(s, r.offer) then s else MoveTo(s, t, Checked(c, r, clock.now))
      case Scanning(k) =>
        if k >= |c.slots| then MoveTo(s, t, Refused(CampaignFull))
        else if c.slots[k].status.Open? && !SlotLocked(s, k) && r.offer < |c.offers| then
          MoveTo(s, t, Holding(k, clock))
        else MoveTo(s, t, Scanning(k + 1))
      case Holding(k, picked) => if CampaignLocked(s) then s else MoveTo(s, t, Counting(k, picked, c.slotsFilled))
      case Counting(k, picked, filled) =>
        if r.offer < |c.offers| && k < |c.slots| then
          MoveTo(s, t, Won(|c.assignments|)).(world := s.world.(campaign := Committed(c, r, k, picked, filled)))
        else s
      case _ => s
  }

  function Abort(s: System, t: nat): System
  {
    if t < |s.phases| && InTransaction(s.phases[t]) then MoveTo(s, t, Aborted) else s
  }

  /** The rows thread t has locked are the same in c and c'. */
  predicate Spares(c: Campaign, c': Campaign, r: Request, p: Phase)
  {
    && (InTransaction(p) ==> r.offer < |c.offers| && r.offer < |c'.offers| && c'.offers[r.offer] == c.offers[r.offer])
    && (p.Holding? || p.Counting? ==> p.slot < |c.slots| && p.slot < |c'.slots| && c'.slots[p.slot] == c.slots[p.slot])
    && (p.Counting? ==> c'.slotsFilled == c.slotsFilled && c'.slotsTotal == c.slotsTotal && c'.status == c.status)
  }

  predicate LocksRespected(s: System, c': Campaign)
    requires |s.phases| == |s.requests|
  {
    forall t :: 0 <= t < |s.phases| ==> Spares(s.world.campaign, c', s.requests[t], s.phases[t])
  }

  /** Another handler: the sweep, an approval that reopens slots, a submission, ... */
  function Handle(s: System, action: Action): System
    requires |s.phases| == |s.requests|
  {
    var w' := Step(s.world, action);
    if LocksRespected(s, w'.campaign) then s.(world := w') else s
  }

  datatype Event = Advance(thread: nat, clock: Clock) | Fail(failed: nat) | Handler(action: Action)

  function Take(s: System, e: Event): (r: System)
    requires |s.phases| == |s.requests|
    ensures r.requests == s.requests && |r.phases| == |r.requests|
  {
    match e
    case Advance(t, clock) => Move(s, t, clock)
    case Fail(t) => Abort(s, t)
    case Handler(action) => Handle(s, action)
  }

  function Execute(s: System, schedule: seq<Event>): (r: System)
    requires |s.phases| == |s.requests|
    ensures r.requests == s.requests && |r.phases| == |r.requests|
  {
    if schedule == [] then s else Take(Execute(s, schedule[..|schedule| - 1]), schedule[|schedule| - 1])
  }

  function Start(w: World, requests: seq<Request>): System { System(w, requests, seq(|requests|, i => Arrived)) }

  // ---- The invariant ----

  predicate ThreadOk(c: Campaign, r: Request, p: Phase)
  {
    && (InTransaction(p) ==>
       OnAir(c) && r.offer < |c.offers| && c.offers[r.offer].status.Sent? && c.offers[r.offer].promoter == r.promoter)
    && (p.Holding? || p.Counting? ==> p.slot < |c.slots| && c.slots[p.slot].status.Open?)
    && (p.Counting? ==> p.filled == c.slotsFilled)
    && (p.Won? ==> p.assignment < |c.assignments| && c.assignments[p.assignment].offer == r.offer)
  }

  /** No two transactions hold one offer, one slot or the campaign row, and no two committed the same assignment. */
  ghost predicate Exclusive(s: System)
    requires |s.phases| == |s.requests|
  {
    forall t, u :: 0 <= t < |s.phases| && 0 <= u < |s.phases| && t != u ==>
      Compatible(s.requests[t], s.phases[t], s.requests[u], s.phases[u])
  }

  predicate Compatible(r: Request, p: Phase, r': Request, p': Phase)
  {
    && (InTransaction(p) && InTransaction(p') ==> r.offer != r'.offer)
    && ((p.Holding? || p.Counting?) && (p'.Holding? || p'.Counting?) ==> p.slot != p'.slot)
    && !(p.Counting? && p'.Counting?)
    && (p.Won? && p'.Won? ==> p.assignment != p'.assignment)
  }

  ghost predicate Inv(s: System)
  {
    && |s.phases| == |s.requests|
    && RowsOk(s.world.campaign)
    && (forall t :: 0 <= t < |s.phases| ==> ThreadOk(s.world.campaign, s.requests[t], s.phases[t]))
    && Exclusive(s)
  }

  // ---- A move keeps it ----

  lemma PhaseChange(s: System, t: nat, phase: Phase)
    requires Inv(s) && t < |s.phases| && ThreadOk(s.world.campaign, s.requests[t], phase)
    requires forall u :: 0 <= u < |s.phases| && u != t ==>
               Compatible(s.requests[t], phase, s.requests[u], s.phases[u])
                 && Compatible(s.requests[u], s.phases[u], s.requests[t], phase)
    ensures Inv(MoveTo(s, t, phase))
  {
  }

  lemma ArrivalMove(s: System, t: nat, clock: Clock)
    requires Inv(s) && t < |s.phases| && s.phases[t].Arrived?
    ensures Inv(Move(s, t, clock))
  {
    if !OfferLocked(s, s.requests[t].offer) {
      PhaseChange(s, t, Checked(s.world.campaign, s.requests[t], clock.now));
    }
  }

  lemma ScanMove(s: System, t: nat, clock: Clock)
    requires Inv(s) && t < |s.phases| && s.phases[t].Scanning?
    ensures Inv(Move(s, t, clock))
  {
    var c, r, k := s.world.campaign, s.requests[t], s.phases[t].cursor;
    assert ThreadOk(c, r, s.phases[t]);
    if k >= |c.slots| {
      PhaseChange(s, t, Refused(CampaignFull));
    } else if c.slots[k].status.Open? && !SlotLocked(s, k) {
      PhaseChange(s, t, Holding(k, clock));
    } else {
      PhaseChange(s, t, Scanning(k + 1));
    }
  }

  lemma CountMove(s: System, t: nat, clock: Clock)
    requires Inv(s) && t < |s.phases| && s.phases[t].Holding?
    ensures Inv(Move(s, t, clock))
  {
    var p := s.phases[t];
    assert ThreadOk(s.world.campaign, s.requests[t], p);
    if !CampaignLocked(s) {
      PhaseChange(s, t, Counting(p.slot, p.clock, s.world.campaign.slotsFilled));
    }
  }

  /** A commit is what accept does run alone at the moment of the commit, on the slot this accept picked. */
  lemma CommitIsAccept(w: World, r: Request, p: Phase)
    requires p.Counting? && ThreadOk(w.campaign, r, p)
    requires w.campaign.status.Live? && p.clock.now <= w.campaign.offers[r.offer].expiresAt
    ensures AcceptOn(w, r.offer, r.promoter, p.clock, p.slot)
            == (w.(campaign := Committed(w.campaign, r, p.slot, p.clock, p.filled)), Ledger.Success)
  {
  }

  lemma CommitKeepsRows(c: Campaign, r: Request, p: Phase)
    requires RowsOk(c) && p.Counting? && ThreadOk(c, r, p)
    ensures RowsOk(Committed(c, r, p.slot, p.clock, p.filled))
    ensures UnitOf(Committed(c, r, p.slot, p.clock, p.filled)) == UnitOf(c)
  {
    var c' := Committed(c, r, p.slot, p.clock, p.filled);
    var posts := NewPosts(c, c.offers[r.offer], Max(1, c.slots[p.slot].posts), p.clock);
    NewPostsOk(c, c.offers[r.offer], Max(1, c.slots[p.slot].posts), p.clock);
    AcceptKeepsTables(c, p.slot, r.offer, Assignment(r.offer, r.promoter, Some(p.slot), InProgress, posts), c');
    forall i | 0 <= i < |c'.submissions| ensures SubmissionOk(c', c'.submissions[i]) {
      assert SubmissionOk(c, c.submissions[i]);
    }
  }

  lemma CommitMove(s: System, t: nat, clock: Clock)
    requires Inv(s) && t < |s.phases| && s.phases[t].Counting?
    ensures Inv(Move(s, t, clock))
  {
    var c, r, p, s' := s.world.campaign, s.requests[t], s.phases[t], Move(s, t, clock);
    assert ThreadOk(c, r, p);
    CommitKeepsRows(c, r, p);
    forall u | 0 <= u < |s.phases| ensures ThreadOk(s'.world.campaign, s.requests[u], s'.phases[u]) {
      assert ThreadOk(c, s.requests[u], s.phases[u]);
      if u != t {
        assert Compatible(r, p, s.requests[u], s.phases[u]);
      }
    }
    forall u, v | 0 <= u < |s.phases| && 0 <= v < |s.phases| && u != v
      ensures Compatible(s.requests[u], s'.phases[u], s.requests[v], s'.phases[v])
    {
      assert Compatible(s.requests[u], s.phases[u], s.requests[v], s.phases[v]);
      assert ThreadOk(c, s.requests[u], s.phases[u]) && ThreadOk(c, s.requests[v], s.phases[v]);
    }
  }

  lemma MoveKeepsInv(s: System, t: nat, clock: Clock)
    requires Inv(s)
    ensures Inv(Move(s, t, clock))
  {
    if t < |s.phases| {
      match s.phases[t]
      case Arrived => ArrivalMove(s, t, clock);
      case Scanning(_) => ScanMove(s, t, clock);
      case Holding(_, _) => CountMove(s, t, clock);
      case Counting(_, _, _) => CommitMove(s, t, clock);
      case _ =>
    }
  }

  // ---- So does every other handler ----

  lemma HandleKeepsInv(s: System, action: Action)
    requires Inv(s)
    ensures Inv(Handle(s, action))
  {
    var c, c' := s.world.campaign, Step(s.world, action).campaign;
    if LocksRespected(s, c') {
      StepKeepsRows(s.world, action);
      forall t | 0 <= t < |s.phases| ensures ThreadOk(c', s.requests[t], s.phases[t]) {
        assert ThreadOk(c, s.requests[t], s.phases[t]) && Spares(c, c', s.requests[t], s.phases[t]);
        if InTransaction(s.phases[t]) || s.phases[t].Won? {
          OnAirStep(s.world, action);
        }
      }
    }
  }

  lemma {:induction false} ExecuteKeepsInv(s: System, schedule: seq<Event>)
    requires Inv(s)
    ensures Inv(Execute(s, schedule))
    decreases |schedule|
  {
    if schedule != [] {
      var mid, e := Execute(s, schedule[..|schedule| - 1]), schedule[|schedule| - 1];
      ExecuteKeepsInv(s, schedule[..|schedule| - 1]);
      match e
      case Advance(t, clock) => MoveKeepsInv(mid, t, clock);
      case Fail(t) =>
        if t < |mid.phases| && InTransaction(mid.phases[t]) {
          PhaseChange(mid, t, Aborted);
        }
      case Handler(action) => HandleKeepsInv(mid, action);
    }
  }

  /** Never oversold: however accepts interleave with each other, with failures and with every other handler. */
  lemma NeverOversold(w: World, requests: seq<Request>, schedule: seq<Event>)
    requires RowsOk(w.campaign)
    ensures var s := Execute(Start(w, requests), schedule);
            var c := s.world.campaign;
            && RowsOk(c)
            && c.slotsFilled == Sum(FilledOne, c.slots) == Sum(HoldingOne, c.assignments)
            && (!c.status.Draft? ==> c.slotsTotal == |c.slots|)
            && (forall i, j :: 0 <= i < j < |c.assignments| ==>
                  c.assignments[i].offer != c.assignments[j].offer
                  && (c.assignments[i].slot.Some? ==> c.assignments[i].slot != c.assignments[j].slot))
            && (forall t :: 0 <= t < |requests| && s.phases[t].Won? ==>
                  s.phases[t].assignment < |c.assignments|
                    && c.assignments[s.phases[t].assignment].offer == requests[t].offer)
            && (forall t, u :: 0 <= t < u < |requests| && s.phases[t].Won? && s.phases[u].Won? ==>
               requests[t].offer != requests[u].offer)
  {
    var s := Execute(Start(w, requests), schedule);
    assert Inv(Start(w, requests));
    ExecuteKeepsInv(Start(w, requests), schedule);
    forall t | 0 <= t < |requests| && s.phases[t].Won?
      ensures s.phases[t].assignment < |s.world.campaign.assignments|
              && s.world.campaign.assignments[s.phases[t].assignment].offer == requests[t].offer
    {
      assert ThreadOk(s.world.campaign, s.requests[t], s.phases[t]);
    }
    forall t, u | 0 <= t < u < |requests| && s.phases[t].Won? && s.phases[u].Won?
      ensures requests[t].offer != requests[u].offer
    {
      assert Compatible(s.requests[t], s.phases[t], s.requests[u], s.phases[u]);
    }
  }
}
