/**
 * src/modules/ledger: double-entry, append-only books. A balance is never stored; it is derived from the entries.
 * Accounts are named by their position in the accounts table, which also gives the order their rows are locked in.
 */
module Ledger {
  import opened Common

  // ---- Rows ----

  datatype AccountKind = ClientWallet | CampaignEscrow | PromoterAvailable | RaliaRevenue | BankClearing

  datatype Direction = Debit | Credit

  datatype AccountRule = AccountRule(normal: Direction, nonNegative: bool)

  /** account-rules.ts: which direction raises an account, and whether it may go below zero. */
  function RuleOf(kind: AccountKind): AccountRule
  {
    match kind
    case ClientWallet => AccountRule(Credit, true)
    case CampaignEscrow => AccountRule(Credit, true)
    case PromoterAvailable => AccountRule(Credit, true)
    case RaliaRevenue => AccountRule(Credit, false)
    case BankClearing => AccountRule(Debit, false)
  }

  datatype TransactionKind =
    CampaignFunding | SubmissionPayout | WithdrawalPaid | WithdrawalReversed | CampaignRefund | Adjustment

  datatype Reference = CampaignRef(id: nat) | SubmissionRef(id: nat) | WithdrawalRef(id: nat)

  /** Idempotency keys. A client's key is a UUID (idempotency.guard.ts), so it never collides with a prefixed one. */
  datatype Key =
    ClientKey(uuid: string) | PaystackKey(reference: string) | RefundKey(campaign: nat) | RetainKey(campaign: nat)

  predicate Blank(key: Key) { key.ClientKey? && key.uuid == "" }

  datatype Entry = Entry(account: nat, direction: Direction, amount: int)

  /** A posting request, and the transaction row it becomes. */
  datatype Posting = Posting(kind: TransactionKind, reference: Reference, key: Key, entries: seq<Entry>)

  datatype Account = Account(kind: AccountKind, owner: Option<nat>)

  datatype Books = Books(accounts: seq<Account>, log: seq<Posting>)

  datatype Refusal =
    TooFewEntries | MissingKey | NonPositiveAmount | Unbalanced | KeyReused | NoSuchAccount | InsufficientFunds
    | NoPlatformAccount

  datatype Outcome = Posted(transaction: nat, replayed: bool) | Refused(why: Refusal)

  /** What a handler answers; only the posting it may make can be refused by the books. */
  datatype Reply = Success | AlreadyRecorded | NotFound | WrongState | BadRequest | LedgerRefused(why: Refusal)

  // ---- Sums of entries ----

  function Total(es: seq<Entry>, dir: Direction): int
  {
    if es == [] then 0
    else Total(es[..|es| - 1], dir) + (if es[|es| - 1].direction == dir then es[|es| - 1].amount else 0)
  }

  function TotalOn(es: seq<Entry>, a: nat, dir: Direction): int
  {
    if es == [] then 0
    else
      var e := es[|es| - 1];
      TotalOn(es[..|es| - 1], a, dir) + (if e.direction == dir && e.account == a then e.amount else 0)
  }

  function LogTotal(log: seq<Posting>, a: nat, dir: Direction): int
  {
    if log == [] then 0 else LogTotal(log[..|log| - 1], a, dir) + TotalOn(log[|log| - 1].entries, a, dir)
  }

  function Net(log: seq<Posting>, a: nat): int { LogTotal(log, a, Credit) - LogTotal(log, a, Debit) }

  function BalanceIn(log: seq<Posting>, a: nat, kind: AccountKind): int
  {
    if RuleOf(kind).normal.Credit? then Net(log, a) else -Net(log, a)
  }

  function Balance(b: Books, a: nat): int
    requires a < |b.accounts|
  {
    BalanceIn(b.log, a, b.accounts[a].kind)
  }

  predicate Touches(es: seq<Entry>, a: nat) { exists i :: 0 <= i < |es| && es[i].account == a }

  lemma {:induction false} UntouchedIsZero(es: seq<Entry>, a: nat, dir: Direction)
    requires !Touches(es, a)
    ensures TotalOn(es, a, dir) == 0
    decreases |es|
  {
    if es != [] {
      assert !Touches(es[..|es| - 1], a) by {
        assert forall i :: 0 <= i < |es| - 1 ==> es[..|es| - 1][i] == es[i];
      }
      UntouchedIsZero(es[..|es| - 1], a, dir);
    }
  }

  lemma LogSnoc(log: seq<Posting>, p: Posting, a: nat)
    ensures forall dir :: LogTotal(log + [p], a, dir) == LogTotal(log, a, dir) + TotalOn(p.entries, a, dir)
    ensures Net(log + [p], a) == Net(log, a) + TotalOn(p.entries, a, Credit) - TotalOn(p.entries, a, Debit)
  {
    assert (log + [p])[..|log|] == log;
  }

  // ---- The posting primitive ----

  predicate AllPositive(es: seq<Entry>) { forall i :: 0 <= i < |es| ==> 0 < es[i].amount }

  /** validate: what is wrong with a request on its face. */
  function Checked(p: Posting): Option<Refusal>
  {
    if |p.entries| < 2 then Some(TooFewEntries)
    else if Blank(p.key) then Some(MissingKey)
    else if !AllPositive(p.entries) then Some(NonPositiveAmount)
    else if Total(p.entries, Debit) != Total(p.entries, Credit) then Some(Unbalanced)
    else None
  }

  /** The transaction holding a key, or the length of the log. */
  function Find(log: seq<Posting>, key: Key): nat
  {
    if log == [] then 0
    else if log[0].key == key then 0
    else 1 + Find(log[1..], key)
  }

  predicate Has(log: seq<Posting>, key: Key) { exists i :: 0 <= i < |log| && log[i].key == key }

  lemma {:induction false} FindFinds(log: seq<Posting>, key: Key)
    ensures Find(log, key) <= |log|
    ensures Find(log, key) < |log| ==> log[Find(log, key)].key == key
    ensures forall i :: 0 <= i < |log| && log[i].key == key ==> Find(log, key) <= i
    ensures Find(log, key) < |log| <==> Has(log, key)
    decreases |log|
  {
    if log != [] && log[0].key != key {
      FindFinds(log[1..], key);
      forall i | 0 <= i < |log| && log[i].key == key ensures Find(log, key) <= i {
        assert log[1..][i - 1].key == key;
      }
      if Find(log, key) < |log| {
        assert log[Find(log, key)] == log[1..][Find(log[1..], key)];
      }
    }
  }

  /** assertReplayMatches: the fields a repeated key must agree on. */
  predicate SameIntent(existing: Posting, p: Posting)
  {
    && existing.kind == p.kind
    && existing.reference == p.reference
    && Total(existing.entries, Debit) == Total(p.entries, Debit)
  }

  predicate KnownAccounts(accounts: seq<Account>, es: seq<Entry>)
  {
    forall i :: 0 <= i < |es| ==> es[i].account < |accounts|
  }

  /** Some account of the posting that may not go negative is negative. */
  predicate Overdrawn(b: Books, es: seq<Entry>)
    requires KnownAccounts(b.accounts, es)
  {
    exists i :: 0 <= i < |es| && RuleOf(b.accounts[es[i].account].kind).nonNegative && Balance(b, es[i].account) < 0
  }

  function Append(b: Books, p: Posting): Books { b.(log := b.log + [p]) }

  /** What post does, one request at a time. */
  function Post(b: Books, p: Posting): (Books, Outcome)
  {
    if Checked(p).Some? then (b, Refused(Checked(p).value))
    else
      FindFinds(b.log, p.key);
      var i := Find(b.log, p.key);
      if i < |b.log| then (b, if SameIntent(b.log[i], p) then Posted(i, true) else Refused(KeyReused))
      else if !KnownAccounts(b.accounts, p.entries) then (b, Refused(NoSuchAccount))
      else if Overdrawn(Append(b, p), p.entries) then (b, Refused(InsufficientFunds))
      else (Append(b, p), Posted(|b.log|, false))
  }

  // ---- What every posting keeps ----

  predicate DistinctKeys(log: seq<Posting>)
  {
    forall i, j :: 0 <= i < j < |log| ==> log[i].key != log[j].key
  }

  ghost predicate Sound(b: Books)
  {
    && DistinctKeys(b.log)
    && (forall i :: 0 <= i < |b.log| ==> Checked(b.log[i]).None? && KnownAccounts(b.accounts, b.log[i].entries))
    && (forall a :: 0 <= a < |b.accounts| && RuleOf(b.accounts[a].kind).nonNegative ==> 0 <= Balance(b, a))
  }

  /** Every transaction balances, no key is used twice and no constrained account is negative, whatever is posted. */
  lemma PostKeepsSound(b: Books, p: Posting)
    requires Sound(b)
    ensures Sound(Post(b, p).0)
  {
    FindFinds(b.log, p.key);
    var (b', o) := Post(b, p);
    if b' != b {
      forall a | 0 <= a < |b'.accounts| && RuleOf(b'.accounts[a].kind).nonNegative ensures 0 <= Balance(b', a) {
        LogSnoc(b.log, p, a);
        if !Touches(p.entries, a) {
          UntouchedIsZero(p.entries, a, Credit);
          UntouchedIsZero(p.entries, a, Debit);
        } else {
          var i :| 0 <= i < |p.entries| && p.entries[i].account == a;
          assert !Overdrawn(b', p.entries);
        }
      }
      forall i, j | 0 <= i < j < |b'.log| ensures b'.log[i].key != b'.log[j].key {
        if j == |b.log| {
          assert b.log[i].key == b'.log[i].key;
        }
      }
    }
  }

  /**
   * The outcome tells the whole story: a refusal or a replay leaves no trace, a fresh posting appends exactly itself.
   */
  lemma OutcomeTellsChange(b: Books, p: Posting)
    requires Sound(b)
    ensures var (b', o) := Post(b, p);
            match o
            case Refused(_) => b' == b
            case Posted(t, replayed) =>
              t < |b'.log| && b'.log[t].key == p.key
              && (forall j :: 0 <= j < |b'.log| && b'.log[j].key == p.key ==> j == t)
              && (if replayed then b' == b && SameIntent(b.log[t], p)
                  else b' == Append(b, p) && t == |b.log| && !Has(b.log, p.key))
  {
    FindFinds(b.log, p.key);
    PostKeepsSound(b, p);
  }

  /**
   * A repeated key returns the first transaction, or is refused with nothing changed, exactly by whether it says the
   * same thing.
   */
  lemma RepeatIsAnswered(b: Books, t: nat, p: Posting)
    requires Sound(b) && t < |b.log| && b.log[t].key == p.key && Checked(p).None?
    ensures Post(b, p) == (b, if b.log[t].kind == p.kind && b.log[t].reference == p.reference
                                 && Total(b.log[t].entries, Debit) == Total(p.entries, Debit)
                              then Posted(t, true) else Refused(KeyReused))
  {
    FindFinds(b.log, p.key);
  }

  /** Money of somebody else's: it may not be overdrawn. */
  predicate HeldForOthers(kind: AccountKind)
  {
    kind == ClientWallet || kind == CampaignEscrow || kind == PromoterAvailable
  }

  /** What an account holds: credits less debits, and the other way round for the bank. */
  lemma BalanceIsNet(b: Books, a: nat)
    requires a < |b.accounts|
    ensures Balance(b, a) == if b.accounts[a].kind == BankClearing
                             then LogTotal(b.log, a, Debit) - LogTotal(b.log, a, Credit)
                             else LogTotal(b.log, a, Credit) - LogTotal(b.log, a, Debit)
  {
  }

  /**
   * A request under a new key goes through exactly when it has two legs or more, a key, positive amounts that balance,
   * accounts that exist, and leaves none of the accounts it touches that are held for others below zero.
   */
  lemma FreshPostExactly(b: Books, p: Posting)
    requires !Has(b.log, p.key)
    ensures Post(b, p).1.Posted?
            <==> 2 <= |p.entries| && p.key != ClientKey("") && Total(p.entries, Debit) == Total(p.entries, Credit)
                 && forall i :: 0 <= i < |p.entries| ==>
                      && 0 < p.entries[i].amount && p.entries[i].account < |b.accounts|
                      && (HeldForOthers(b.accounts[p.entries[i].account].kind) ==>
                            LogTotal(b.log, p.entries[i].account, Debit)
                              + TotalOn(p.entries, p.entries[i].account, Debit)
                            <= LogTotal(b.log, p.entries[i].account, Credit)
                               + TotalOn(p.entries, p.entries[i].account, Credit))
    ensures Post(b, p).1.Posted? ==> Post(b, p) == (b.(log := b.log + [p]), Posted(|b.log|, false))
    ensures !Post(b, p).1.Posted? ==> Post(b, p).0 == b
  {
    FindFinds(b.log, p.key);
    if KnownAccounts(b.accounts, p.entries) {
      forall i | 0 <= i < |p.entries|
        ensures RuleOf(b.accounts[p.entries[i].account].kind).nonNegative
                <==> HeldForOthers(b.accounts[p.entries[i].account].kind)
        ensures Balance(Append(b, p), p.entries[i].account) < 0
                && HeldForOthers(b.accounts[p.entries[i].account].kind)
                <==> LogTotal(b.log, p.entries[i].account, Credit) + TotalOn(p.entries, p.entries[i].account, Credit)
                     < LogTotal(b.log, p.entries[i].account, Debit) + TotalOn(p.entries, p.entries[i].account, Debit)
                     && HeldForOthers(b.accounts[p.entries[i].account].kind)
      {
        LogSnoc(b.log, p, p.entries[i].account);
      }
    }
  }

  // ---- Histories ----

  function Run(b: Books, h: seq<Posting>): Books
  {
    if h == [] then b else Post(Run(b, h[..|h| - 1]), h[|h| - 1]).0
  }

  /** The answer request i of the history got. */
  function Answer(b: Books, h: seq<Posting>, i: nat): Outcome
    requires i < |h|
  {
    Post(Run(b, h[..i]), h[i]).1
  }

  /** The history without the requests whose key had been committed by the time they came. */
  function Erase(b: Books, h: seq<Posting>): seq<Posting>
  {
    if h == [] then []
    else
      var front, last := h[..|h| - 1], h[|h| - 1];
      Erase(b, front) + (if Has(Run(b, front).log, last.key) then [] else [last])
  }

  lemma {:induction false} RunKeepsSound(b: Books, h: seq<Posting>)
    requires Sound(b)
    ensures Sound(Run(b, h))
    decreases |h|
  {
    if h != [] {
      RunKeepsSound(b, h[..|h| - 1]);
      PostKeepsSound(Run(b, h[..|h| - 1]), h[|h| - 1]);
    }
  }

  /** Replay erasure: deleting every repeat from a history leaves the same books. */
  lemma {:induction false} RepeatsCanBeErased(b: Books, h: seq<Posting>)
    requires Sound(b)
    ensures Run(b, Erase(b, h)) == Run(b, h)
    decreases |h|
  {
    if h != [] {
      var front, last := h[..|h| - 1], h[|h| - 1];
      RepeatsCanBeErased(b, front);
      RunKeepsSound(b, front);
      OutcomeTellsChange(Run(b, front), last);
      FindFinds(Run(b, front).log, last.key);
      if !Has(Run(b, front).log, last.key) {
        assert (Erase(b, front) + [last])[..|Erase(b, front)|] == Erase(b, front);
      } else {
        assert Erase(b, h) == Erase(b, front);
      }
    }
  }

  lemma {:induction false} RunOnlyGrows(b: Books, h: seq<Posting>)
    requires Sound(b)
    ensures b.log <= Run(b, h).log && Run(b, h).accounts == b.accounts
    decreases |h|
  {
    if h != [] {
      RunOnlyGrows(b, h[..|h| - 1]);
      RunKeepsSound(b, h[..|h| - 1]);
      OutcomeTellsChange(Run(b, h[..|h| - 1]), h[|h| - 1]);
    }
  }

  /** Every transaction a history adds was added by a request that was told so. */
  lemma {:induction false} TransactionHasItsRequest(b: Books, h: seq<Posting>, t: nat)
    requires Sound(b) && |b.log| <= t < |Run(b, h).log|
    ensures exists j :: 0 <= j < |h| && Answer(b, h, j) == Posted(t, false) && Run(b, h).log[t] == h[j]
    decreases |h|
  {
    assert h != [];
    var front, last := h[..|h| - 1], h[|h| - 1];
    var mid := Run(b, front);
    RunKeepsSound(b, front);
    OutcomeTellsChange(mid, last);
    if t < |mid.log| {
      TransactionHasItsRequest(b, front, t);
      var j :| 0 <= j < |front| && Answer(b, front, j) == Posted(t, false) && mid.log[t] == front[j];
      assert h[..j] == front[..j];
      assert Answer(b, h, j) == Posted(t, false) && Run(b, h).log[t] == h[j];
    } else {
      assert h[..|h| - 1] == front;
      assert Answer(b, h, |h| - 1) == Posted(t, false);
    }
  }

  /**
   * An accepted repeat is answered with the very transaction an earlier request of the history created (or the books
   * held).
   */
  lemma RepeatReturnsTheFirst(b: Books, h: seq<Posting>, i: nat)
    requires Sound(b) && i < |h| && Answer(b, h, i).Posted? && Answer(b, h, i).replayed
    ensures var t := Answer(b, h, i).transaction;
            && (t < |b.log| ==> b.log[t].key == h[i].key)
            && (|b.log| <= t ==> exists j :: 0 <= j < i && Answer(b, h, j) == Posted(t, false) && h[j].key == h[i].key)
  {
    var t := Answer(b, h, i).transaction;
    var mid := Run(b, h[..i]);
    RunKeepsSound(b, h[..i]);
    RunOnlyGrows(b, h[..i]);
    OutcomeTellsChange(mid, h[i]);
    if |b.log| <= t {
      TransactionHasItsRequest(b, h[..i], t);
      var j :| 0 <= j < |h[..i]| && Answer(b, h[..i], j) == Posted(t, false) && mid.log[t] == h[..i][j];
      assert h[..i][..j] == h[..j];
      assert Answer(b, h, j) == Posted(t, false) && h[j].key == h[i].key;
    }
  }

  // ---- The books close ----

  /** Credits less debits over accounts 0 .. n - 1. */
  function NetSum(log: seq<Posting>, n: nat): int
  {
    if n == 0 then 0 else NetSum(log, n - 1) + Net(log, n - 1)
  }

  function EntryNetSum(es: seq<Entry>, n: nat): int
  {
    if n == 0 then 0 else EntryNetSum(es, n - 1) + TotalOn(es, n - 1, Credit) - TotalOn(es, n - 1, Debit)
  }

  lemma {:induction false} EntryNetSumSnoc(es: seq<Entry>, e: Entry, n: nat)
    ensures EntryNetSum(es + [e], n) == EntryNetSum(es, n)
                                        + (if e.account < n then (if e.direction.Credit? then e.amount else -e.amount)
                                           else 0)
    decreases n
  {
    if n > 0 {
      EntryNetSumSnoc(es, e, n - 1);
      assert (es + [e])[..|es|] == es;
    }
  }

  lemma {:induction false} EntryNetSumIsTotal(es: seq<Entry>, n: nat)
    requires forall i :: 0 <= i < |es| ==> es[i].account < n
    ensures EntryNetSum(es, n) == Total(es, Credit) - Total(es, Debit)
    decreases |es|
  {
    if es == [] {
      EntryNetSumEmpty(n);
    } else {
      var front, e := es[..|es| - 1], es[|es| - 1];
      assert es == front + [e];
      EntryNetSumIsTotal(front, n);
      EntryNetSumSnoc(front, e, n);
    }
  }

  lemma {:induction false} EntryNetSumEmpty(n: nat)
    ensures EntryNetSum([], n) == 0
  {
    if n > 0 {
      EntryNetSumEmpty(n - 1);
    }
  }

  lemma {:induction false} NetSumSnoc(log: seq<Posting>, p: Posting, n: nat)
    ensures NetSum(log + [p], n) == NetSum(log, n) + EntryNetSum(p.entries, n)
    decreases n
  {
    if n > 0 {
      NetSumSnoc(log, p, n - 1);
      LogSnoc(log, p, n - 1);
    }
  }

  lemma {:induction false} NetSumEmpty(n: nat)
    ensures NetSum([], n) == 0
  {
    if n > 0 {
      NetSumEmpty(n - 1);
    }
  }

  lemma {:induction false} NetSumIsZero(accounts: seq<Account>, log: seq<Posting>)
    requires forall i :: 0 <= i < |log| ==> Checked(log[i]).None? && KnownAccounts(accounts, log[i].entries)
    ensures NetSum(log, |accounts|) == 0
    decreases |log|
  {
    if log == [] {
      NetSumEmpty(|accounts|);
    } else {
      var front, p := log[..|log| - 1], log[|log| - 1];
      assert log == front + [p];
      forall i | 0 <= i < |front| ensures Checked(front[i]).None? && KnownAccounts(accounts, front[i].entries) {
        assert front[i] == log[i];
      }
      NetSumIsZero(accounts, front);
      NetSumSnoc(front, p, |accounts|);
      EntryNetSumIsTotal(p.entries, |accounts|);
    }
  }

  /** The balances of the first n accounts, those of one kind. */
  function KindTotalUpTo(b: Books, kind: AccountKind, n: nat): int
    requires n <= |b.accounts|
  {
    if n == 0 then 0
    else KindTotalUpTo(b, kind, n - 1) + (if b.accounts[n - 1].kind == kind then Balance(b, n - 1) else 0)
  }

  function KindTotal(b: Books, kind: AccountKind): int { KindTotalUpTo(b, kind, |b.accounts|) }

  lemma {:induction false} KindsPartitionNet(b: Books, n: nat)
    requires n <= |b.accounts|
    ensures NetSum(b.log, n) == KindTotalUpTo(b, CampaignEscrow, n) + KindTotalUpTo(b, PromoterAvailable, n)
                                + KindTotalUpTo(b, ClientWallet, n) + KindTotalUpTo(b, RaliaRevenue, n)
                                - KindTotalUpTo(b, BankClearing, n)
    decreases n
  {
    if n > 0 {
      KindsPartitionNet(b, n - 1);
    }
  }

  lemma {:induction false} ConstrainedKindTotal(b: Books, kind: AccountKind, n: nat)
    requires Sound(b) && n <= |b.accounts| && RuleOf(kind).nonNegative
    ensures 0 <= KindTotalUpTo(b, kind, n)
    decreases n
  {
    if n > 0 {
      ConstrainedKindTotal(b, kind, n - 1);
    }
  }

  /** Trial balance: cash held is exactly what is owed to clients, campaigns and promoters plus what was earned. */
  lemma TrialBalance(b: Books)
    requires Sound(b)
    ensures KindTotal(b, BankClearing) == KindTotal(b, CampaignEscrow) + KindTotal(b, PromoterAvailable)
                                          + KindTotal(b, ClientWallet) + KindTotal(b, RaliaRevenue)
    ensures 0 <= KindTotal(b, PromoterAvailable) && 0 <= KindTotal(b, CampaignEscrow) && 0 <= KindTotal(b, ClientWallet)
  {
    NetSumIsZero(b.accounts, b.log);
    KindsPartitionNet(b, |b.accounts|);
    ConstrainedKindTotal(b, PromoterAvailable, |b.accounts|);
    ConstrainedKindTotal(b, CampaignEscrow, |b.accounts|);
    ConstrainedKindTotal(b, ClientWallet, |b.accounts|);
  }

  /** The books close after any history of postings on empty books. */
  lemma TrialBalanceOnEveryRun(accounts: seq<Account>, h: seq<Posting>)
    ensures var b := Run(Books(accounts, []), h);
            Sound(b) && KindTotal(b, BankClearing) == KindTotal(b, CampaignEscrow) + KindTotal(b, PromoterAvailable)
                                                      + KindTotal(b, ClientWallet) + KindTotal(b, RaliaRevenue)
  {
    assert Sound(Books(accounts, []));
    RunKeepsSound(Books(accounts, []), h);
    TrialBalance(Run(Books(accounts, []), h));
  }

  // ---- Accounts and the money commands ----

  predicate IsAccount(b: Books, a: nat, kind: AccountKind, owner: Option<nat>)
  {
    a < |b.accounts| && b.accounts[a] == Account(kind, owner)
  }

  /** The first account of a kind and owner, or the number of accounts. */
  function FindAccount(accounts: seq<Account>, kind: AccountKind, owner: Option<nat>): (a: nat)
    ensures a <= |accounts|
    ensures a < |accounts| ==> accounts[a] == Account(kind, owner)
    ensures a == |accounts| ==> Account(kind, owner) !in accounts
  {
    if accounts == [] then 0
    else if accounts[0] == Account(kind, owner) then 0
    else 1 + FindAccount(accounts[1..], kind, owner)
  }

  /** getOrCreateAccount. */
  function GetOrCreate(b: Books, kind: AccountKind, owner: nat): (Books, nat)
  {
    var a := FindAccount(b.accounts, kind, Some(owner));
    (if a < |b.accounts| then b else b.(accounts := b.accounts + [Account(kind, Some(owner))]), a)
  }

  lemma {:induction false} UnknownAccountIsEmpty(log: seq<Posting>, a: nat)
    requires forall i :: 0 <= i < |log| ==> !Touches(log[i].entries, a)
    ensures LogTotal(log, a, Credit) == 0 && LogTotal(log, a, Debit) == 0
    decreases |log|
  {
    if log != [] {
      var front := log[..|log| - 1];
      assert forall i :: 0 <= i < |front| ==> front[i] == log[i];
      UnknownAccountIsEmpty(front, a);
      UntouchedIsZero(log[|log| - 1].entries, a, Credit);
      UntouchedIsZero(log[|log| - 1].entries, a, Debit);
    }
  }

  /** Opening an account moves no money and asking again returns the same one. */
  lemma GetOrCreateIsQuiet(b: Books, kind: AccountKind, owner: nat)
    requires Sound(b)
    ensures var (b', a) := GetOrCreate(b, kind, owner);
            && Sound(b') && b'.log == b.log && b.accounts <= b'.accounts
            && IsAccount(b', a, kind, Some(owner))
            && GetOrCreate(b', kind, owner) == (b', a)
            && (forall x :: 0 <= x < |b.accounts| ==> Balance(b', x) == Balance(b, x))
            && (|b.accounts| <= a ==> Net(b'.log, a) == 0)
  {
    var (b', a) := GetOrCreate(b, kind, owner);
    if b' != b {
      UnknownAccountIsEmpty(b.log, |b.accounts|);
      FindAppended(b.accounts, kind, owner);
    }
  }

  lemma {:induction false} FindAppended(accounts: seq<Account>, kind: AccountKind, owner: nat)
    requires Account(kind, Some(owner)) !in accounts
    ensures FindAccount(accounts + [Account(kind, Some(owner))], kind, Some(owner)) == |accounts|
    decreases |accounts|
  {
    var t := accounts + [Account(kind, Some(owner))];
    if accounts != [] {
      assert t[1..] == accounts[1..] + [Account(kind, Some(owner))];
      assert t[0] == accounts[0];
      FindAppended(accounts[1..], kind, owner);
    }
  }

  /** getPlatformAccountId: the singleton without an owner. */
  function Platform(b: Books, kind: AccountKind): Option<nat>
  {
    var a := FindAccount(b.accounts, kind, None);
    if a < |b.accounts| then Some(a) else None
  }

  function Transfer(from: nat, to: nat, amount: int): seq<Entry>
  {
    [Entry(from, Debit, amount), Entry(to, Credit, amount)]
  }

  function FundPosting(campaign: nat, bank: nat, escrow: nat, amount: int, key: Key): Posting
  {
    Posting(CampaignFunding, CampaignRef(campaign), key, Transfer(bank, escrow, amount))
  }

  /** settleSubmission: fee and take leave escrow together; a zero credit is dropped. */
  function SettlePosting(submission: nat, escrow: nat, promoter: nat, revenue: nat, fee: int, take: int,
                         key: Key): Posting
  {
    Posting(SubmissionPayout, SubmissionRef(submission), key,
            [Entry(escrow, Debit, fee + take)]
            + (if 0 < fee then [Entry(promoter, Credit, fee)] else [])
            + (if 0 < take then [Entry(revenue, Credit, take)] else []))
  }

  function PayWithdrawalPosting(withdrawal: nat, promoter: nat, bank: nat, amount: int, key: Key): Posting
  {
    Posting(WithdrawalPaid, WithdrawalRef(withdrawal), key, Transfer(promoter, bank, amount))
  }

  function ReverseWithdrawalPosting(withdrawal: nat, promoter: nat, bank: nat, amount: int, key: Key): Posting
  {
    Posting(WithdrawalReversed, WithdrawalRef(withdrawal), key, Transfer(bank, promoter, amount))
  }

  function RetainPosting(campaign: nat, escrow: nat, revenue: nat, amount: int): Posting
  {
    Posting(Adjustment, CampaignRef(campaign), RetainKey(campaign), Transfer(escrow, revenue, amount))
  }

  function RefundPosting(campaign: nat, escrow: nat, wallet: nat, amount: int): Posting
  {
    Posting(CampaignRefund, CampaignRef(campaign), RefundKey(campaign), Transfer(escrow, wallet, amount))
  }

  lemma TransferTotals(from: nat, to: nat, amount: int)
    ensures var es := Transfer(from, to, amount);
            && Total(es, Debit) == Total(es, Credit) == amount
            && (forall a: nat :: TotalOn(es, a, Debit) == if a == from then amount else 0)
            && (forall a: nat :: TotalOn(es, a, Credit) == if a == to then amount else 0)
  {
    var es := Transfer(from, to, amount);
    var one := [es[0]];
    assert es[..1] == one && one[..0] == [];
    forall dir ensures Total(one, dir) == (if dir == Debit then amount else 0) {}
    forall a: nat, dir ensures TotalOn(one, a, dir) == (if dir == Debit && a == from then amount else 0) {}
  }

  /**
   * A fresh two-legged posting goes through exactly when it is positive and a constrained debited account can bear it.
   */
  lemma TransferGoesThrough(b: Books, p: Posting, from: nat, to: nat, amount: int)
    requires Sound(b) && p.entries == Transfer(from, to, amount) && from != to
    requires from < |b.accounts| && to < |b.accounts|
    requires !Has(b.log, p.key) && !Blank(p.key)
    ensures Post(b, p).1 == (if amount <= 0 then Refused(NonPositiveAmount)
                             else if HeldForOthers(b.accounts[from].kind) && Balance(b, from) < amount
                             then Refused(InsufficientFunds)
                             else Posted(|b.log|, false))
  {
    FindFinds(b.log, p.key);
    TransferTotals(from, to, amount);
    assert p.entries[0] == Entry(from, Debit, amount) && p.entries[1] == Entry(to, Credit, amount);
    LogSnoc(b.log, p, from);
    LogSnoc(b.log, p, to);
    if 0 < amount {
      var b' := Append(b, p);
      assert RuleOf(b.accounts[from].kind).nonNegative ==> Balance(b', from) == Balance(b, from) - amount;
      assert RuleOf(b.accounts[to].kind).nonNegative ==> 0 <= Balance(b', to);
      assert Overdrawn(b', p.entries) <==> RuleOf(b.accounts[from].kind).nonNegative && Balance(b, from) < amount by {
        if RuleOf(b.accounts[from].kind).nonNegative && Balance(b', from) < 0 {
          assert RuleOf(b'.accounts[p.entries[0].account].kind).nonNegative;
        }
      }
    }
  }

  // ---- The rows a balance query groups ----

  predicate HasRow(log: seq<Posting>, a: nat, dir: Direction)
  {
    exists i, k ::
      0 <= i < |log| && 0 <= k < |log[i].entries| && log[i].entries[k].account == a
      && log[i].entries[k].direction == dir
  }

  datatype Group = Group(account: nat, direction: Direction, sum: int)

  /** SELECT direction, sum(amount) WHERE account = a GROUP BY direction: a row only where there are entries. */
  function GroupRow(log: seq<Posting>, a: nat, dir: Direction): seq<Group>
  {
    if HasRow(log, a, dir) then [Group(a, dir, LogTotal(log, a, dir))] else []
  }

  function GroupByDirection(log: seq<Posting>, a: nat): seq<Group>
  {
    GroupRow(log, a, Debit) + GroupRow(log, a, Credit)
  }

  function GroupByAccount(log: seq<Posting>, n: nat): seq<Group>
  {
    if n == 0 then [] else GroupByAccount(log, n - 1) + GroupByDirection(log, n - 1)
  }

  lemma {:induction false} NoRowIsZero(log: seq<Posting>, a: nat, dir: Direction)
    requires !HasRow(log, a, dir)
    ensures LogTotal(log, a, dir) == 0
    decreases |log|
  {
    if log != [] {
      var front, p := log[..|log| - 1], log[|log| - 1];
      assert !HasRow(front, a, dir) by {
        assert forall i :: 0 <= i < |front| ==> front[i] == log[i];
      }
      NoRowIsZero(front, a, dir);
      NoEntryIsZero(p.entries, a, dir);
    }
  }

  lemma {:induction false} NoEntryIsZero(es: seq<Entry>, a: nat, dir: Direction)
    requires forall k :: 0 <= k < |es| ==> !(es[k].account == a && es[k].direction == dir)
    ensures TotalOn(es, a, dir) == 0
    decreases |es|
  {
    if es != [] {
      assert forall k :: 0 <= k < |es| - 1 ==> es[..|es| - 1][k] == es[k];
      NoEntryIsZero(es[..|es| - 1], a, dir);
    }
  }

  /** What grouped rows say about one kind and direction. */
  function GroupTotal(rows: seq<Group>, accounts: seq<Account>, kind: AccountKind, dir: Direction): int
  {
    if rows == [] then 0
    else
      var g := rows[|rows| - 1];
      GroupTotal(rows[..|rows| - 1], accounts, kind, dir)
      + (if g.account < |accounts| && accounts[g.account].kind == kind && g.direction == dir then g.sum else 0)
  }

  lemma GroupTotalSnoc(rows: seq<Group>, g: Group, accounts: seq<Account>, kind: AccountKind, dir: Direction)
    ensures GroupTotal(rows + [g], accounts, kind, dir)
            == GroupTotal(rows, accounts, kind, dir)
               + (if g.account < |accounts| && accounts[g.account].kind == kind && g.direction == dir then g.sum else 0)
  {
    assert (rows + [g])[..|rows|] == rows;
  }

  lemma GroupTotalDirection(rows: seq<Group>, log: seq<Posting>, a: nat, accounts: seq<Account>, kind: AccountKind,
                            dir: Direction)
    ensures GroupTotal(rows + GroupByDirection(log, a), accounts, kind, dir)
            == GroupTotal(rows, accounts, kind, dir)
               + (if a < |accounts| && accounts[a].kind == kind then LogTotal(log, a, dir) else 0)
  {
    if !HasRow(log, a, dir) {
      NoRowIsZero(log, a, dir);
    }
    var ds := GroupRow(log, a, Debit);
    var cs := GroupRow(log, a, Credit);
    if ds != [] {
      GroupTotalSnoc(rows, ds[0], accounts, kind, dir);
      assert rows + [ds[0]] == rows + ds;
    } else {
      assert rows + ds == rows;
    }
    if cs != [] {
      GroupTotalSnoc(rows + ds, cs[0], accounts, kind, dir);
      assert rows + GroupByDirection(log, a) == rows + ds + [cs[0]];
    } else {
      assert rows + GroupByDirection(log, a) == rows + ds;
    }
  }

  lemma NextAccountTotal(b: Books, n: nat, kind: AccountKind, dir: Direction)
    requires 0 < n <= |b.accounts|
    ensures GroupTotal(GroupByAccount(b.log, n), b.accounts, kind, dir)
            == GroupTotal(GroupByAccount(b.log, n - 1), b.accounts, kind, dir)
               + (if b.accounts[n - 1].kind == kind then LogTotal(b.log, n - 1, dir) else 0)
  {
    GroupTotalDirection(GroupByAccount(b.log, n - 1), b.log, n - 1, b.accounts, kind, dir);
  }

  /** Grouping entries by account and then by kind loses nothing: it is the sum of the derived balances. */
  lemma {:induction false} GroupedTotalsAreBalances(b: Books, kind: AccountKind, n: nat)
    requires n <= |b.accounts|
    ensures var rows := GroupByAccount(b.log, n);
            KindTotalUpTo(b, kind, n)
            == if kind.BankClearing?
               then GroupTotal(rows, b.accounts, kind, Debit) - GroupTotal(rows, b.accounts, kind, Credit)
               else GroupTotal(rows, b.accounts, kind, Credit) - GroupTotal(rows, b.accounts, kind, Debit)
    decreases n
  {
    if n > 0 {
      GroupedTotalsAreBalances(b, kind, n - 1);
      NextAccountTotal(b, n, kind, Debit);
      NextAccountTotal(b, n, kind, Credit);
    }
  }

  // ---- Lock order ----

  predicate Ascending(ids: seq<nat>) { forall i, j :: 0 <= i < j < |ids| ==> ids[i] < ids[j] }

  function AddId(ids: seq<nat>, a: nat): seq<nat>
  {
    if ids == [] || ids[|ids| - 1] < a then ids + [a]
    else if ids[|ids| - 1] == a then ids
    else AddId(ids[..|ids| - 1], a) + [ids[|ids| - 1]]
  }

  /** The distinct accounts of a posting in ascending order: the order their rows are locked in. */
  function LockOrder(es: seq<Entry>): seq<nat>
  {
    if es == [] then [] else AddId(LockOrder(es[..|es| - 1]), es[|es| - 1].account)
  }

  lemma {:induction false} AddIdAdds(ids: seq<nat>, a: nat)
    requires Ascending(ids)
    ensures Ascending(AddId(ids, a))
    ensures forall x :: x in AddId(ids, a) <==> x in ids || x == a
    decreases |ids|
  {
    if ids != [] && a < ids[|ids| - 1] {
      var front, last := ids[..|ids| - 1], ids[|ids| - 1];
      AddIdAdds(front, a);
      assert ids == front + [last];
      var t := AddId(front, a);
      forall i | 0 <= i < |t| ensures t[i] < last {
        assert t[i] in t;
        if t[i] != a {
          var k :| 0 <= k < |front| && front[k] == t[i];
          assert ids[k] < ids[|ids| - 1];
        }
      }
    }
  }

  lemma {:induction false} LockOrderIsExact(es: seq<Entry>)
    ensures Ascending(LockOrder(es))
    ensures forall a: nat :: a in LockOrder(es) <==> Touches(es, a)
    decreases |es|
  {
    if es != [] {
      var front, last := es[..|es| - 1], es[|es| - 1];
      LockOrderIsExact(front);
      AddIdAdds(LockOrder(front), last.account);
      forall a: nat ensures Touches(es, a) <==> Touches(front, a) || a == last.account {
        if Touches(es, a) {
          var i :| 0 <= i < |es| && es[i].account == a;
          if i < |front| {
            assert front[i].account == a;
          }
        }
        if Touches(front, a) {
          var i :| 0 <= i < |front| && front[i].account == a;
          assert es[i].account == a;
        }
        assert es[|es| - 1].account == last.account;
      }
    }
  }
}
