/**
 * Many calls of LedgerService.post at once, each a thread taking one database step at a time:
 * unique-key inserts block on an uncommitted claim, row locks are held to the end of the transaction,
 * and a read sees what is committed plus the thread's own writes.
 */
module ConcurrentPosting {
  import opened Ledger

  datatype Phase =
    | Arrived
    | Claiming                    // about to insert the idempotency key
    | Locking(held: nat)          // key claimed, the first `held` accounts of the lock order locked
    | Checking(done: nat)         // entries written, the first `done` balances verified
    | LostRace                    // the insert failed: someone else committed the key
    | Finished(outcome: Outcome)
    | Crashed                     // the connection died; the database rolled everything back

  /** `committed` lists the threads whose transaction committed, in commit order. */
  datatype System = System(books: Books, requests: seq<Posting>, phases: seq<Phase>, committed: seq<nat>)

  function Start(books: Books, requests: seq<Posting>): System
  {
    System(books, requests, seq(|requests|, i => Arrived), [])
  }

  function Ids(s: System, t: nat): seq<nat>
    requires t < |s.requests|
  {
    LockOrder(s.requests[t].entries)
  }

  predicate InTransaction(s: System, t: nat)
  {
    t < |s.phases| && (s.phases[t].Locking? || s.phases[t].Checking?)
  }

  predicate HoldsKey(s: System, t: nat, key: Key)
  {
    t < |s.requests| && InTransaction(s, t) && s.requests[t].key == key
  }

  predicate Locked(phase: Phase, ids: seq<nat>, a: nat)
  {
    match phase
    case Locking(held) => exists j :: 0 <= j < held && j < |ids| && ids[j] == a
    case Checking(_) => a in ids
    case _ => false
  }

  predicate HoldsAccount(s: System, t: nat, a: nat)
  {
    t < |s.requests| && t < |s.phases| && Locked(s.phases[t], Ids(s, t), a)
  }

  /** t cannot move until u ends its transaction. */
  predicate WaitsFor(s: System, t: nat, u: nat)
  {
    t < |s.requests| && t < |s.phases| && t != u &&
    match s.phases[t]
    case Claiming => HoldsKey(s, u, s.requests[t].key)
    case Locking(held) => held < |Ids(s, t)| && Ids(s, t)[held] < |s.books.accounts|
      && HoldsAccount(s, u, Ids(s, t)[held])
    case _ => false
  }

  predicate Blocked(s: System, t: nat)
  {
    exists u :: 0 <= u < |s.phases| && WaitsFor(s, t, u)
  }

  function MoveTo(s: System, t: nat, phase: Phase): System
    requires t < |s.phases|
  {
    s.(phases := s.phases[t := phase])
  }

  /** How a key found committed answers this request. */
  function ReplayAnswer(b: Books, p: Posting): Outcome
  {
    FindFinds(b.log, p.key);
    var i := Find(b.log, p.key);
    if i < |b.log| && SameIntent(b.log[i], p) then Posted(i, true) else Refused(KeyReused)
  }

  /** One step of thread t; a thread that is blocked or done does not move. */
  function Step(s: System, t: nat): System
    requires |s.phases| == |s.requests|
  {
    if t >= |s.phases| || Blocked(s, t) then s
    else
      var p, log := s.requests[t], s.books.log;
      match s.phases[t]
      case Arrived =>
        MoveTo(s, t, if Checked(p).Some? then Finished(Refused(Checked(p).value))
                     else if Has(log, p.key) then Finished(ReplayAnswer(s.books, p))
                     else Claiming)
      case Claiming => MoveTo(s, t, if Has(log, p.key) then LostRace else Locking(0))
      case Locking(held) =>
        var ids := Ids(s, t);
        MoveTo(s, t, if held >= |ids| then Checking(0)
                     else if ids[held] >= |s.books.accounts| then Finished(Refused(NoSuchAccount))
                     else Locking(held + 1))
      case Checking(done) =>
        var ids := Ids(s, t);
        if done >= |ids| then
          MoveTo(s, t, Finished(Posted(|log|, false))).(books := Append(s.books, p), committed := s.committed + [t])
        else if ids[done] < |s.books.accounts| && RuleOf(s.books.accounts[ids[done]].kind).nonNegative
                && Balance(Append(s.books, p), ids[done]) < 0 then
          MoveTo(s, t, Finished(Refused(InsufficientFunds)))
        else MoveTo(s, t, Checking(done + 1))
      case LostRace => MoveTo(s, t, Finished(ReplayAnswer(s.books, p)))
      case _ => s
  }

  predicate Done(s: System, t: nat)
    requires t < |s.phases|
  {
    s.phases[t].Finished? || s.phases[t].Crashed?
  }

  function Crash(s: System, t: nat): System
  {
    if t < |s.phases| && !Done(s, t) then MoveTo(s, t, Crashed) else s
  }

  datatype Event = Event(thread: nat, crash: bool)

  /** One event: a step of a thread, or the loss of its connection. */
  function Take(s: System, e: Event): (r: System)
    requires |s.phases| == |s.requests|
    ensures r.requests == s.requests && |r.phases| == |r.requests|
  {
    if e.crash then Crash(s, e.thread) else Step(s, e.thread)
  }

  function Execute(s: System, schedule: seq<Event>): (r: System)
    requires |s.phases| == |s.requests|
    ensures r.requests == s.requests && |r.phases| == |r.requests|
  {
    if schedule == [] then s
    else
      Take(Execute(s, schedule[..|schedule| - 1]), schedule[|schedule| - 1])
  }

  // ---- The invariant ----

  /** No key is claimed twice and no account is locked twice. */
  ghost predicate Exclusive(s: System)
    requires |s.phases| == |s.requests|
  {
    && (forall t, u ::
       0 <= t < |s.phases| && 0 <= u < |s.phases| && t != u && InTransaction(s, t) && InTransaction(s, u) ==>
          s.requests[t].key != s.requests[u].key)
    && (forall t, u, a ::
       0 <= t < |s.phases| && 0 <= u < |s.phases| && HoldsAccount(s, t, a) && HoldsAccount(s, u, a) ==>
          t == u)
  }

  predicate ThreadOk(s: System, t: nat)
    requires t < |s.phases| == |s.requests|
  {
    var p, ids, n, log := s.requests[t], Ids(s, t), |s.books.accounts|, s.books.log;
    match s.phases[t]
    case Arrived => true
    case Claiming => Checked(p).None?
    case Locking(held) =>
      Checked(p).None? && !Has(log, p.key) && held <= |ids| && (forall j :: 0 <= j < held ==> ids[j] < n)
    case Checking(done) =>
      Checked(p).None? && !Has(log, p.key) && done <= |ids| && (forall j :: 0 <= j < |ids| ==> ids[j] < n)
      && (forall j :: 0 <= j < done && RuleOf(s.books.accounts[ids[j]].kind).nonNegative ==>
         0 <= Balance(Append(s.books, p), ids[j]))
    case LostRace => Checked(p).None? && Has(log, p.key)
    case Finished(Posted(i, replayed)) => i < |log| && log[i].key == p.key && SameIntent(log[i], p)
      && (!replayed ==> log[i] == p)
    case _ => true
  }

  function CommittedRequests(s: System): seq<Posting>
    requires forall i :: 0 <= i < |s.committed| ==> s.committed[i] < |s.requests|
  {
    seq(|s.committed|, i requires 0 <= i < |s.committed| => s.requests[s.committed[i]])
  }

  ghost predicate Inv(init: Books, s: System)
  {
    && |s.phases| == |s.requests|
    && Sound(init) && Sound(s.books)
    && Exclusive(s)
    && (forall t :: 0 <= t < |s.phases| ==> ThreadOk(s, t))
    && (forall i :: 0 <= i < |s.committed| ==> s.committed[i] < |s.requests|)
    && s.books == Run(init, CommittedRequests(s))
  }

  lemma StartIsGood(init: Books, requests: seq<Posting>)
    requires Sound(init)
    ensures Inv(init, Start(init, requests))
  {
    assert CommittedRequests(Start(init, requests)) == [];
  }

  /** A step that neither commits nor gains a claim keeps everyone else where they were. */
  lemma QuietStep(init: Books, s: System, t: nat, phase: Phase)
    requires Inv(init, s) && t < |s.phases|
    requires phase.Locking? || phase.Checking? ==> InTransaction(s, t)
    requires forall a :: HoldsAccount(MoveTo(s, t, phase), t, a) ==> HoldsAccount(s, t, a)
    requires ThreadOk(MoveTo(s, t, phase), t)
    ensures Inv(init, MoveTo(s, t, phase))
  {
    var s' := MoveTo(s, t, phase);
    assert CommittedRequests(s') == CommittedRequests(s);
    OthersUnmoved(s, t, phase);
  }

  lemma OthersUnmoved(s: System, t: nat, phase: Phase)
    requires |s.phases| == |s.requests| && t < |s.phases|
    ensures var s' := MoveTo(s, t, phase);
            && (forall u :: 0 <= u < |s.phases| && u != t ==> InTransaction(s', u) == InTransaction(s, u))
            && (forall u, a :: 0 <= u < |s.phases| && u != t ==> HoldsAccount(s', u, a) == HoldsAccount(s, u, a))
            && (forall u :: 0 <= u < |s.phases| && u != t ==> ThreadOk(s', u) == ThreadOk(s, u))
  {
  }

  lemma ClaimStep(init: Books, s: System, t: nat)
    requires Inv(init, s) && t < |s.phases| && s.phases[t].Claiming? && !Blocked(s, t)
             && !Has(s.books.log, s.requests[t].key)
    ensures Inv(init, MoveTo(s, t, Locking(0)))
  {
    var s' := MoveTo(s, t, Locking(0));
    assert CommittedRequests(s') == CommittedRequests(s);
    OthersUnmoved(s, t, Locking(0));
    assert ThreadOk(s, t) && ThreadOk(s', t);
    forall u | 0 <= u < |s.phases| ensures ThreadOk(s', u) {
      assert ThreadOk(s, u);
    }
    forall u | 0 <= u < |s.phases| && u != t && InTransaction(s', u) ensures s.requests[u].key != s.requests[t].key {
      assert !WaitsFor(s, t, u);
    }
    assert forall a :: !HoldsAccount(s', t, a);
  }

  lemma LockStep(init: Books, s: System, t: nat)
    requires Inv(init, s) && t < |s.phases| && s.phases[t].Locking? && !Blocked(s, t)
    requires s.phases[t].held < |Ids(s, t)| && Ids(s, t)[s.phases[t].held] < |s.books.accounts|
    ensures Inv(init, MoveTo(s, t, Locking(s.phases[t].held + 1)))
  {
    var held, ids := s.phases[t].held, Ids(s, t);
    var s' := MoveTo(s, t, Locking(held + 1));
    assert ThreadOk(s, t) && Ids(s', t) == ids;
    assert CommittedRequests(s') == CommittedRequests(s);
    OthersUnmoved(s, t, Locking(held + 1));
    forall a | HoldsAccount(s', t, a) ensures HoldsAccount(s, t, a) || a == ids[held] {
      var j :| 0 <= j < held + 1 && j < |ids| && ids[j] == a;
      if j < held {
        assert HoldsAccount(s, t, a);
      }
    }
    forall u, a | 0 <= u < |s.phases| && u != t && HoldsAccount(s', u, a) ensures !HoldsAccount(s', t, a) {
      assert !WaitsFor(s, t, u);
    }
  }

  /** The balance another thread verified under lock is not moved by this commit. */
  lemma CommitLeavesLocked(init: Books, s: System, t: nat, u: nat)
    requires Inv(init, s) && t < |s.phases| && u < |s.phases| && t != u
    requires s.phases[t].Checking? && s.phases[t].done >= |Ids(s, t)|
    ensures ThreadOk(Step(s, t), u)
  {
    assert !Blocked(s, t) && ThreadOk(s, u);
    var s', p, q := Step(s, t), s.requests[t], s.requests[u];
    assert s'.phases[u] == s.phases[u] && Ids(s', u) == Ids(s, u);
    assert forall key :: Has(s'.books.log, key) <==> Has(s.books.log, key) || key == p.key by {
      HasSnoc(s.books.log, p);
    }
    assert InTransaction(s, u) ==> q.key != p.key by {
      assert InTransaction(s, t);
    }
    if s.phases[u].Checking? {
      var ids := Ids(s, u);
      forall j | 0 <= j < s.phases[u].done && RuleOf(s.books.accounts[ids[j]].kind).nonNegative
        ensures 0 <= Balance(Append(s'.books, q), ids[j])
      {
        var a := ids[j];
        assert HoldsAccount(s, u, a);
        assert !HoldsAccount(s, t, a);
        LockOrderIsExact(p.entries);
        UntouchedIsZero(p.entries, a, Credit);
        UntouchedIsZero(p.entries, a, Debit);
        LogSnoc(s.books.log, q, a);
        LogSnoc(s.books.log, p, a);
        LogSnoc(s'.books.log, q, a);
      }
    }
  }

  lemma HasSnoc(log: seq<Posting>, p: Posting)
    ensures forall key :: Has(log + [p], key) <==> Has(log, key) || key == p.key
  {
    forall key ensures Has(log + [p], key) <==> Has(log, key) || key == p.key {
      assert (log + [p])[|log|] == p;
      if Has(log, key) {
        var i :| 0 <= i < |log| && log[i].key == key;
        assert (log + [p])[i].key == key;
      }
    }
  }

  /** A commit is one accepted sequential posting, and nobody else's guarantees move. */
  lemma CommitStep(init: Books, s: System, t: nat)
    requires Inv(init, s) && t < |s.phases| && s.phases[t].Checking? && s.phases[t].done >= |Ids(s, t)|
    ensures Inv(init, Step(s, t))
    ensures Post(s.books, s.requests[t]) == (Step(s, t).books, Posted(|s.books.log|, false))
  {
    assert !Blocked(s, t);
    var s', p := Step(s, t), s.requests[t];
    CheckedGoesThrough(s, t);
    PostKeepsSound(s.books, p);
    OthersUnmoved(s, t, Finished(Posted(|s.books.log|, false)));
    forall u | 0 <= u < |s.phases| ensures ThreadOk(s', u) {
      if u != t {
        CommitLeavesLocked(init, s, t, u);
      }
    }
    assert CommittedRequests(s') == CommittedRequests(s) + [p];
    assert CommittedRequests(s')[..|s.committed|] == CommittedRequests(s);
    CommitStaysExclusive(s, t, s');
  }

  lemma CommitStaysExclusive(s: System, t: nat, s': System)
    requires |s.phases| == |s.requests| && t < |s.phases| && Exclusive(s)
    requires s'.requests == s.requests && |s'.phases| == |s.phases| && s'.phases == s.phases[t := s'.phases[t]]
             && s'.phases[t].Finished?
    ensures Exclusive(s')
  {
    forall u | 0 <= u < |s.phases| && u != t ensures InTransaction(s', u) == InTransaction(s, u) {}
    forall u, a | 0 <= u < |s.phases| && u != t ensures HoldsAccount(s', u, a) == HoldsAccount(s, u, a) {}
  }

  lemma CheckedGoesThrough(s: System, t: nat)
    requires |s.phases| == |s.requests| && t < |s.phases| && ThreadOk(s, t) && Sound(s.books)
    requires s.phases[t].Checking? && s.phases[t].done >= |Ids(s, t)|
    ensures Post(s.books, s.requests[t]) == (Append(s.books, s.requests[t]), Posted(|s.books.log|, false))
  {
    var p, ids := s.requests[t], Ids(s, t);
    FindFinds(s.books.log, p.key);
    LockOrderIsExact(p.entries);
    forall i | 0 <= i < |p.entries|
      ensures p.entries[i].account < |s.books.accounts|
      ensures RuleOf(s.books.accounts[p.entries[i].account].kind).nonNegative ==>
              0 <= Balance(Append(s.books, p), p.entries[i].account)
    {
      assert Touches(p.entries, p.entries[i].account);
      var j :| 0 <= j < |ids| && ids[j] == p.entries[i].account;
    }
  }

  /** A thread that reads its answer off the committed transactions. */
  lemma ReadStep(init: Books, s: System, t: nat)
    requires Inv(init, s) && t < |s.phases| && (s.phases[t].Arrived? || s.phases[t].LostRace?)
    ensures Inv(init, Step(s, t))
  {
    FindFinds(s.books.log, s.requests[t].key);
    assert ThreadOk(s, t);
    if !Blocked(s, t) {
      QuietStep(init, s, t, Step(s, t).phases[t]);
    }
  }

  lemma LockingStep(init: Books, s: System, t: nat)
    requires Inv(init, s) && t < |s.phases| && s.phases[t].Locking?
    ensures Inv(init, Step(s, t))
  {
    assert ThreadOk(s, t);
    var held, ids := s.phases[t].held, Ids(s, t);
    if !Blocked(s, t) {
      if held < |ids| && ids[held] < |s.books.accounts| {
        LockStep(init, s, t);
      } else {
        if held >= |ids| {
          assert forall a :: Locked(Checking(0), ids, a) ==> Locked(Locking(held), ids, a);
        }
        QuietStep(init, s, t, Step(s, t).phases[t]);
      }
    }
  }

  lemma CheckingStep(init: Books, s: System, t: nat)
    requires Inv(init, s) && t < |s.phases| && s.phases[t].Checking?
    ensures Inv(init, Step(s, t))
  {
    assert ThreadOk(s, t);
    assert !Blocked(s, t);
    if s.phases[t].done >= |Ids(s, t)| {
      CommitStep(init, s, t);
    } else {
      QuietStep(init, s, t, Step(s, t).phases[t]);
    }
  }

  /** Every step keeps the invariant. */
  lemma StepKeepsInv(init: Books, s: System, t: nat)
    requires Inv(init, s)
    ensures Inv(init, Step(s, t))
  {
    if t < |s.phases| && !Blocked(s, t) {
      match s.phases[t]
      case Arrived => ReadStep(init, s, t);
      case LostRace => ReadStep(init, s, t);
      case Claiming =>
        assert ThreadOk(s, t);
        if Has(s.books.log, s.requests[t].key) {
          QuietStep(init, s, t, LostRace);
        } else {
          ClaimStep(init, s, t);
        }
      case Locking(_) => LockingStep(init, s, t);
      case Checking(_) => CheckingStep(init, s, t);
      case _ =>
    }
  }

  lemma CrashKeepsInv(init: Books, s: System, t: nat)
    requires Inv(init, s)
    ensures Inv(init, Crash(s, t))
  {
    if t < |s.phases| && !Done(s, t) {
      QuietStep(init, s, t, Crashed);
    }
  }

  lemma {:induction false} RunsKeepInv(init: Books, s: System, schedule: seq<Event>)
    requires Inv(init, s)
    ensures Inv(init, Execute(s, schedule))
    decreases |schedule|
  {
    if schedule != [] {
      var front, e := schedule[..|schedule| - 1], schedule[|schedule| - 1];
      RunsKeepInv(init, s, front);
      if e.crash {
        CrashKeepsInv(init, Execute(s, front), e.thread);
      } else {
        StepKeepsInv(init, Execute(s, front), e.thread);
      }
    }
  }

  // ---- What the interleaving guarantees ----

  predicate FreshlyPosted(phase: Phase) { phase.Finished? && phase.outcome.Posted? && !phase.outcome.replayed }

  /** Transactions and the calls that were told "posted" go together one to one, in commit order. */
  ghost predicate Credited(init: Books, s: System)
  {
    && |s.books.log| == |init.log| + |s.committed|
    && (forall k :: 0 <= k < |s.committed| ==>
          s.committed[k] < |s.phases| && s.phases[s.committed[k]] == Finished(Posted(|init.log| + k, false)))
    && (forall t :: 0 <= t < |s.phases| && FreshlyPosted(s.phases[t]) ==>
          |init.log| <= s.phases[t].outcome.transaction < |s.books.log|
          && s.committed[s.phases[t].outcome.transaction - |init.log|] == t)
  }

  lemma MoveKeepsCredit(init: Books, s: System, t: nat, phase: Phase)
    requires Credited(init, s) && t < |s.phases| && !s.phases[t].Finished? && !FreshlyPosted(phase)
    ensures Credited(init, MoveTo(s, t, phase))
  {
  }

  lemma CommitKeepsCredit(init: Books, s: System, t: nat, s': System)
    requires Credited(init, s) && t < |s.phases| && !s.phases[t].Finished? && |s'.books.log| == |s.books.log| + 1
    requires s'.phases == s.phases[t := Finished(Posted(|s.books.log|, false))] && s'.committed == s.committed + [t]
    ensures Credited(init, s')
  {
    var n := |s.committed|;
    forall k | 0 <= k < |s'.committed|
      ensures s'.committed[k] < |s'.phases| && s'.phases[s'.committed[k]] == Finished(Posted(|init.log| + k, false))
    {
      if k < n {
        assert s.committed[k] != t;
      }
    }
    forall u | 0 <= u < |s'.phases| && FreshlyPosted(s'.phases[u])
      ensures |init.log| <= s'.phases[u].outcome.transaction < |s'.books.log|
      ensures s'.committed[s'.phases[u].outcome.transaction - |init.log|] == u
    {
      if u != t {
        assert FreshlyPosted(s.phases[u]);
      }
    }
  }

  lemma StepKeepsCredit(init: Books, s: System, t: nat)
    requires |s.phases| == |s.requests| && Credited(init, s)
    ensures Credited(init, Step(s, t))
  {
    if t < |s.phases| && !Blocked(s, t) && !s.phases[t].Finished? && !s.phases[t].Crashed? {
      if s.phases[t].Checking? && s.phases[t].done >= |Ids(s, t)| {
        CommitKeepsCredit(init, s, t, Step(s, t));
      } else {
        MoveKeepsCredit(init, s, t, Step(s, t).phases[t]);
      }
    }
  }

  lemma {:induction false} RunsKeepCredit(init: Books, s: System, schedule: seq<Event>)
    requires |s.phases| == |s.requests| && Credited(init, s)
    ensures Credited(init, Execute(s, schedule))
    decreases |schedule|
  {
    if schedule != [] {
      var mid, e := Execute(s, schedule[..|schedule| - 1]), schedule[|schedule| - 1];
      RunsKeepCredit(init, s, schedule[..|schedule| - 1]);
      if !e.crash {
        StepKeepsCredit(init, mid, e.thread);
      } else if e.thread < |mid.phases| && !Done(mid, e.thread) {
        MoveKeepsCredit(init, mid, e.thread, Crashed);
      }
    }
  }

  /**
   * In every interleaving, with crashes, the committed books are those of posting the committed requests one after
   * another; every one of them added its own transaction, and no two calls with the same key both posted.
   */
  lemma InterleavingsAreSerial(init: Books, requests: seq<Posting>, schedule: seq<Event>)
    requires Sound(init)
    ensures var s := Execute(Start(init, requests), schedule);
            && Sound(s.books)
            && (forall i :: 0 <= i < |s.committed| ==> s.committed[i] < |requests|)
            && s.books == Run(init, CommittedRequests(s))
            && Credited(init, s)
            && (forall t, u :: 0 <= t < |requests| && 0 <= u < |requests| && requests[t].key == requests[u].key
                               && FreshlyPosted(s.phases[t]) && FreshlyPosted(s.phases[u]) ==>
                  t == u)
  {
    StartIsGood(init, requests);
    RunsKeepInv(init, Start(init, requests), schedule);
    RunsKeepCredit(init, Start(init, requests), schedule);
    var s := Execute(Start(init, requests), schedule);
    forall t, u | 0 <= t < |requests| && 0 <= u < |requests| && requests[t].key == requests[u].key
                  && FreshlyPosted(s.phases[t]) && FreshlyPosted(s.phases[u])
      ensures t == u
    {
      OnePerKey(init, s, t, u);
    }
  }

  lemma OnePerKey(init: Books, s: System, t: nat, u: nat)
    requires |s.phases| == |s.requests| && t < |s.phases| && u < |s.phases| && s.requests[t].key == s.requests[u].key
    requires DistinctKeys(s.books.log) && ThreadOk(s, t) && ThreadOk(s, u) && Credited(init, s)
    requires FreshlyPosted(s.phases[t]) && FreshlyPosted(s.phases[u])
    ensures t == u
  {
    var i, j := s.phases[t].outcome.transaction, s.phases[u].outcome.transaction;
    assert s.books.log[i].key == s.books.log[j].key;
    assert i == j;
    assert s.committed[i - |init.log|] == t && s.committed[j - |init.log|] == u;
  }

  /**
   * Every answer is the one the sequential post gives on the books committed at that moment; no other step touches the
   * books.
   */
  lemma AnswersAreSequential(init: Books, s: System, t: nat)
    requires Inv(init, s) && t < |s.phases|
    ensures var s' := Step(s, t);
            if s'.phases[t].Finished? && !s.phases[t].Finished?
            then Post(s.books, s.requests[t]) == (s'.books, s'.phases[t].outcome)
            else s'.books == s.books
  {
    var p, ids := s.requests[t], Ids(s, t);
    FindFinds(s.books.log, p.key);
    LockOrderIsExact(p.entries);
    if !Blocked(s, t) {
      assert ThreadOk(s, t);
      match s.phases[t]
      case Locking(held) =>
        if held < |ids| && ids[held] >= |s.books.accounts| {
          assert Touches(p.entries, ids[held]);
          assert !KnownAccounts(s.books.accounts, p.entries);
        }
      case Checking(done) =>
        if done >= |ids| {
          CommitStep(init, s, t);
        } else {
          assert Touches(p.entries, ids[done]);
          forall i | 0 <= i < |p.entries| ensures p.entries[i].account < |s.books.accounts| {
            assert Touches(p.entries, p.entries[i].account);
          }
          if Step(s, t).phases[t].Finished? {
            assert Overdrawn(Append(s.books, p), p.entries);
          }
        }
      case _ =>
    }
  }

  // ---- No deadlock ----

  /** What t is waiting for: the key before any account, accounts in their order. */
  function Rank(s: System, t: nat): nat
    requires t < |s.phases| == |s.requests|
  {
    match s.phases[t]
    case Locking(held) => if held < |Ids(s, t)| then 1 + Ids(s, t)[held] else 0
    case _ => 0
  }

  lemma WaitingRises(init: Books, s: System, t: nat, u: nat, v: nat)
    requires Inv(init, s) && t < |s.phases| && u < |s.phases| && WaitsFor(s, t, u) && WaitsFor(s, u, v)
    ensures Rank(s, t) < Rank(s, u)
  {
    LockOrderIsExact(s.requests[u].entries);
    if s.phases[t].Locking? {
      var a := Ids(s, t)[s.phases[t].held];
      var j :| 0 <= j < s.phases[u].held && j < |Ids(s, u)| && Ids(s, u)[j] == a;
    }
  }

  predicate WaitPath(s: System, path: seq<nat>)
  {
    && path != []
    && (forall i :: 0 <= i < |path| ==> path[i] < |s.phases|)
    && (forall i :: 0 <= i < |path| - 1 ==> WaitsFor(s, path[i], path[i + 1]))
  }

  lemma {:induction false} RankAlongPath(init: Books, s: System, path: seq<nat>, v: nat)
    requires Inv(init, s) && WaitPath(s, path) && WaitsFor(s, path[|path| - 1], v)
    ensures Rank(s, path[0]) + |path| - 1 <= Rank(s, path[|path| - 1])
    decreases |path|
  {
    if |path| > 1 {
      var front := path[..|path| - 1];
      RankAlongPath(init, s, front, path[|path| - 1]);
      WaitingRises(init, s, front[|front| - 1], path[|path| - 1], v);
    }
  }

  /** The wait-for graph has no cycle. */
  lemma NoDeadlockCycle(init: Books, s: System, path: seq<nat>)
    requires Inv(init, s) && WaitPath(s, path) && 2 <= |path|
    ensures path[0] != path[|path| - 1]
  {
    if path[0] == path[|path| - 1] {
      RankAlongPath(init, s, path, path[1]);
    }
  }

  /** While anyone is unfinished, someone can move. */
  lemma {:induction false} SomeoneCanMove(init: Books, s: System, t: nat) returns (u: nat)
    requires Inv(init, s) && t < |s.phases| && !Done(s, t)
    ensures u < |s.phases| && !Done(s, u) && !Blocked(s, u) && Step(s, u) != s
    decreases |s.books.accounts| + 1 - Rank(s, t), if Blocked(s, t) then 1 else 0
  {
    if !Blocked(s, t) {
      u := t;
      assert Step(s, t).phases[t] != s.phases[t];
    } else {
      var v :| 0 <= v < |s.phases| && WaitsFor(s, t, v);
      if Blocked(s, v) {
        var w :| 0 <= w < |s.phases| && WaitsFor(s, v, w);
        WaitingRises(init, s, t, v, w);
        u := SomeoneCanMove(init, s, v);
      } else {
        u := v;
        assert Step(s, v).phases[v] != s.phases[v];
      }
    }
  }

  /** Steps a thread may still take. */
  function Remaining(s: System, t: nat): int
    requires t < |s.phases| == |s.requests|
  {
    var n := |Ids(s, t)|;
    match s.phases[t]
    case Arrived => 2 * n + 4
    case Claiming => 2 * n + 3
    case Locking(held) => 2 * n - held + 2
    case Checking(done) => n - done + 1
    case LostRace => 1
    case _ => 0
  }

  /**
   * Every move uses up one of finitely many steps, so a schedule that never moves a blocked thread ends with everyone
   * answered.
   */
  lemma MovesAreFinite(init: Books, s: System, t: nat)
    requires Inv(init, s) && t < |s.phases| && !Done(s, t) && !Blocked(s, t)
    ensures 0 <= Remaining(Step(s, t), t) < Remaining(s, t)
    ensures forall u :: 0 <= u < |s.phases| && u != t ==> Remaining(Step(s, t), u) == Remaining(s, u)
  {
    assert ThreadOk(s, t);
  }

  /** Steps left to the first n threads together. */
  function Work(s: System, n: nat): int
    requires n <= |s.phases| == |s.requests|
  {
    if n == 0 then 0 else Work(s, n - 1) + Remaining(s, n - 1)
  }

  lemma {:induction false} WorkIsNonNegative(init: Books, s: System, n: nat)
    requires Inv(init, s) && n <= |s.phases|
    ensures 0 <= Work(s, n)
  {
    if n > 0 {
      WorkIsNonNegative(init, s, n - 1);
      assert ThreadOk(s, n - 1);
    }
  }

  lemma {:induction false} MoveLowersWork(init: Books, s: System, t: nat, n: nat)
    requires Inv(init, s) && t < |s.phases| && n <= |s.phases| && !Done(s, t) && !Blocked(s, t)
    ensures if t < n then Work(Step(s, t), n) < Work(s, n) else Work(Step(s, t), n) == Work(s, n)
    decreases n
  {
    if n > 0 {
      MovesAreFinite(init, s, t);
      MoveLowersWork(init, s, t, n - 1);
    }
  }

  lemma ExecuteLast(s: System, front: seq<Event>, last: Event)
    requires |s.phases| == |s.requests|
    ensures Execute(s, front + [last]) == Take(Execute(s, front), last)
  {
    assert (front + [last])[..|front|] == front;
  }

  lemma {:induction false} ExecuteFirst(s: System, e: Event, rest: seq<Event>)
    requires |s.phases| == |s.requests|
    ensures Execute(s, [e] + rest) == Execute(Execute(s, [e]), rest)
    decreases |rest|
  {
    if rest == [] {
      assert [e] + rest == [e];
    } else {
      var front, last := rest[..|rest| - 1], rest[|rest| - 1];
      assert [e] + rest == [e] + front + [last] && rest == front + [last];
      ExecuteFirst(s, e, front);
      ExecuteLast(s, [e] + front, last);
      ExecuteLast(Execute(s, [e]), front, last);
    }
  }

  /** From any reachable moment the calls can all be brought to an answer, without crashing anyone. */
  lemma {:induction false} EveryoneCanBeAnswered(init: Books, s: System) returns (schedule: seq<Event>)
    requires Inv(init, s)
    ensures forall t :: 0 <= t < |s.phases| ==> Done(Execute(s, schedule), t)
    ensures forall i :: 0 <= i < |schedule| ==> !schedule[i].crash
    decreases Work(s, |s.phases|)
  {
    if forall t :: 0 <= t < |s.phases| ==> Done(s, t) {
      schedule := [];
    } else {
      var t :| 0 <= t < |s.phases| && !Done(s, t);
      var u := SomeoneCanMove(init, s, t);
      var e := Event(u, false);
      var s' := Step(s, u);
      assert [e][..0] == [] && Execute(s, []) == s;
      assert Execute(s, [e]) == s';
      StepKeepsInv(init, s, u);
      MoveLowersWork(init, s, u, |s.phases|);
      WorkIsNonNegative(init, s', |s.phases|);
      var rest := EveryoneCanBeAnswered(init, s');
      schedule := [e] + rest;
      ExecuteFirst(s, e, rest);
    }
  }
}
