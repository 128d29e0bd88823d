/**
 * Withdrawals (wallet.service.ts, admin.service.ts): a promise against a promoter's balance, turned into a posting once
 * the transfer is sent.
 */
module Withdrawals {
  import opened Common
  import opened Ledger
  import opened CampaignMoney

  datatype WithdrawalStatus = Requested | ApprovedForPayment | PaidOff | FailedToPay | Reversed

  datatype Withdrawal = Withdrawal(promoter: nat, amount: int, status: WithdrawalStatus)

  datatype Desk = Desk(books: Books, rows: seq<Withdrawal>)

  predicate InFlight(s: WithdrawalStatus) { s.Requested? || s.ApprovedForPayment? }

  function ReservedOne(promoter: nat): Withdrawal -> int
  {
    (r: Withdrawal) => if r.promoter == promoter && InFlight(r.status) then r.amount else 0
  }

  function PaidOne(promoter: nat): Withdrawal -> int
  {
    (r: Withdrawal) => if r.promoter == promoter && r.status.PaidOff? then r.amount else 0
  }

  /** Already asked for and not yet settled either way. */
  function Reserved(d: Desk, promoter: nat): int { Sum(ReservedOne(promoter), d.rows) }

  function PaidTo(d: Desk, promoter: nat): int { Sum(PaidOne(promoter), d.rows) }

  function AccountOf(b: Books, promoter: nat): nat { FindAccount(b.accounts, PromoterAvailable, Some(promoter)) }

  function Available(b: Books, promoter: nat): int
  {
    if AccountOf(b, promoter) < |b.accounts| then Balance(b, AccountOf(b, promoter)) else 0
  }

  function EarnedOf(p: Posting, a: nat): int { if p.kind.SubmissionPayout? then TotalOn(p.entries, a, Credit) else 0 }

  /** Fees settled to an account for approved work. */
  function EarnedIn(log: seq<Posting>, a: nat): int
  {
    if log == [] then 0 else EarnedIn(log[..|log| - 1], a) + EarnedOf(log[|log| - 1], a)
  }

  function Earned(b: Books, promoter: nat): int { EarnedIn(b.log, AccountOf(b, promoter)) }

  // ---- The handlers ----

  /** requestWithdrawal: at most what is available and not asked for already. */
  function Request(d: Desk, promoter: nat, hasBankAccount: bool, minimum: nat, amount: int): (Desk, Reply)
  {
    if !hasBankAccount || amount < minimum then (d, BadRequest)
    else
      var (b, a) := GetOrCreate(d.books, PromoterAvailable, promoter);
      if Available(b, promoter) - Reserved(d, promoter) < amount then (d.(books := b), BadRequest)
      else (Desk(b, d.rows + [Withdrawal(promoter, amount, Requested)]), Success)
  }

  function SetStatus(d: Desk, i: nat, status: WithdrawalStatus): Desk
    requires i < |d.rows|
  {
    d.(rows := d.rows[i := d.rows[i].(status := status)])
  }

  function ApproveWithdrawal(d: Desk, i: nat, verified: bool): (Desk, Reply)
  {
    if i >= |d.rows| then (d, NotFound)
    else if !d.rows[i].status.Requested? then (d, WrongState)
    else if !verified then (d, BadRequest)
    else (SetStatus(d, i, ApprovedForPayment), Success)
  }

  /** Post, and record the new status only when the posting is fresh. */
  function Settle(d: Desk, i: nat, p: Posting, status: WithdrawalStatus): (Desk, Reply)
    requires i < |d.rows|
  {
    var (b, o) := Post(d.books, p);
    match o
    case Refused(why) => (d.(books := b), LedgerRefused(why))
    case Posted(_, true) => (d.(books := b), Success)
    case Posted(_, false) => (SetStatus(d.(books := b), i, status), Success)
  }

  /** recordWithdrawalPaid: the bank transfer has been sent. */
  function RecordPaid(d: Desk, i: nat, key: Key): (Desk, Reply)
  {
    if i >= |d.rows| then (d, NotFound)
    else if Has(d.books.log, key) then (d, AlreadyRecorded)
    else if !d.rows[i].status.ApprovedForPayment? then (d, WrongState)
    else
      var (b, a) := GetOrCreate(d.books, PromoterAvailable, d.rows[i].promoter);
      match Platform(b, BankClearing)
      case None => (d.(books := b), LedgerRefused(NoPlatformAccount))
      case Some(bank) => Settle(d.(books := b), i, PayWithdrawalPosting(i, a, bank, d.rows[i].amount, key), PaidOff)
  }

  function Fail(d: Desk, i: nat): (Desk, Reply)
  {
    if i >= |d.rows| then (d, NotFound)
    else if !InFlight(d.rows[i].status) then (d, WrongState)
    else (SetStatus(d, i, FailedToPay), Success)
  }

  /** reverseWithdrawal: a transfer that bounced comes back to the promoter's balance. */
  function Reverse(d: Desk, i: nat, key: Key): (Desk, Reply)
  {
    if i >= |d.rows| then (d, NotFound)
    else if Has(d.books.log, key) then (d, AlreadyRecorded)
    else if !d.rows[i].status.PaidOff? then (d, WrongState)
    else
      var (b, a) := GetOrCreate(d.books, PromoterAvailable, d.rows[i].promoter);
      match Platform(b, BankClearing)
      case None => (d.(books := b), LedgerRefused(NoPlatformAccount))
      case Some(bank) =>
        Settle(d.(books := b), i, ReverseWithdrawalPosting(i, a, bank, d.rows[i].amount, key), Reversed)
  }

  datatype Action =
    | DoRequest(promoter: nat, hasBankAccount: bool, minimum: nat, amount: int)
    | DoApprove(i: nat, verified: bool)
    | DoPay(paid: nat, key: Key)
    | DoFail(failed: nat)
    | DoReverse(reversed: nat, reverseKey: Key)
    | Elsewhere(posting: Posting)
    | AccountElsewhere(kind: AccountKind, owner: nat)

  /** The other handlers touch a promoter's balance only to credit a settled submission. */
  predicate Benign(b: Books, p: Posting)
  {
    && !p.kind.WithdrawalPaid? && !p.kind.WithdrawalReversed?
    && forall k ::
       0 <= k < |p.entries| && p.entries[k].account < |b.accounts|
       && b.accounts[p.entries[k].account].kind.PromoterAvailable? ==>
         p.entries[k].direction.Credit? && p.kind.SubmissionPayout?
  }

  function Respond(d: Desk, action: Action): (Desk, Reply)
  {
    match action
    case DoRequest(promoter, bank, minimum, amount) => Request(d, promoter, bank, minimum, amount)
    case DoApprove(i, verified) => ApproveWithdrawal(d, i, verified)
    case DoPay(i, key) => RecordPaid(d, i, key)
    case DoFail(i) => Fail(d, i)
    case DoReverse(i, key) => Reverse(d, i, key)
    case Elsewhere(p) => if Benign(d.books, p) then (d.(books := Post(d.books, p).0), Success) else (d, BadRequest)
    case AccountElsewhere(kind, owner) => (d.(books := GetOrCreate(d.books, kind, owner).0), Success)
  }

  function RunDesk(d: Desk, actions: seq<Action>): Desk
  {
    if actions == [] then d else Respond(RunDesk(d, actions[..|actions| - 1]), actions[|actions| - 1]).0
  }

  // ---- The invariant ----

  predicate RowOk(b: Books, r: Withdrawal)
  {
    && 0 <= r.amount && AccountOf(b, r.promoter) < |b.accounts|
    && (r.status.PaidOff? || r.status.Reversed? ==> 0 < r.amount)
  }

  predicate PromoterOk(d: Desk, promoter: nat)
  {
    && Reserved(d, promoter) <= Available(d.books, promoter)
    && Available(d.books, promoter) + PaidTo(d, promoter) == Earned(d.books, promoter)
  }

  ghost predicate Inv(d: Desk)
  {
    && Sound(d.books) && Platform(d.books, BankClearing).Some?
    && (forall i :: 0 <= i < |d.rows| ==> RowOk(d.books, d.rows[i]))
    && (forall promoter: nat :: PromoterOk(d, promoter))
  }

  lemma EarnedSnoc(log: seq<Posting>, p: Posting, a: nat)
    ensures EarnedIn(log + [p], a) == EarnedIn(log, a) + EarnedOf(p, a)
  {
    assert (log + [p])[..|log|] == log;
  }

  lemma {:induction false} UntouchedEarnsNothing(log: seq<Posting>, a: nat)
    requires Untouched(log, a)
    ensures EarnedIn(log, a) == 0
    decreases |log|
  {
    if log != [] {
      assert forall i :: 0 <= i < |log| - 1 ==> log[..|log| - 1][i] == log[i];
      UntouchedEarnsNothing(log[..|log| - 1], a);
      UntouchedIsZero(log[|log| - 1].entries, a, Credit);
    }
  }

  /** Opening an account, whosever it is, changes nobody's figures. */
  lemma OpeningKeepsFigures(b: Books, kind: AccountKind, owner: nat, promoter: nat)
    requires Sound(b)
    ensures var b' := GetOrCreate(b, kind, owner).0;
            && Available(b', promoter) == Available(b, promoter) && Earned(b', promoter) == Earned(b, promoter)
            && (AccountOf(b, promoter) < |b.accounts| ==> AccountOf(b', promoter) == AccountOf(b, promoter))
            && Platform(b', BankClearing) == Platform(b, BankClearing)
  {
    var b' := GetOrCreate(b, kind, owner).0;
    GetOrCreateIsQuiet(b, kind, owner);
    if b' != b {
      FindAfterAppend(b.accounts, Account(kind, Some(owner)), PromoterAvailable, Some(promoter));
      FindAfterAppend(b.accounts, Account(kind, Some(owner)), BankClearing, None);
      if AccountOf(b, promoter) == |b.accounts| {
        assert Untouched(b.log, |b.accounts|) && Untouched(b.log, |b.accounts| + 1);
        UntouchedEarnsNothing(b.log, |b.accounts|);
        UntouchedEarnsNothing(b.log, |b.accounts| + 1);
        UnknownAccountIsEmpty(b.log, |b.accounts|);
      }
    }
  }

  lemma OpeningKeepsInv(d: Desk, kind: AccountKind, owner: nat)
    requires Inv(d)
    ensures Inv(d.(books := GetOrCreate(d.books, kind, owner).0))
  {
    var d' := d.(books := GetOrCreate(d.books, kind, owner).0);
    GetOrCreateIsQuiet(d.books, kind, owner);
    OpeningKeepsFigures(d.books, kind, owner, 0);
    forall i | 0 <= i < |d.rows| ensures RowOk(d'.books, d.rows[i]) {
      assert RowOk(d.books, d.rows[i]);
      OpeningKeepsFigures(d.books, kind, owner, d.rows[i].promoter);
    }
    forall promoter: nat ensures PromoterOk(d', promoter) {
      assert PromoterOk(d, promoter);
      OpeningKeepsFigures(d.books, kind, owner, promoter);
    }
  }

  lemma OpenedIsFound(b: Books, promoter: nat)
    ensures var (b', a) := GetOrCreate(b, PromoterAvailable, promoter);
            a == AccountOf(b', promoter) < |b'.accounts|
  {
    FindAfterAppend(b.accounts, Account(PromoterAvailable, Some(promoter)), PromoterAvailable, Some(promoter));
  }

  // ---- Each handler ----

  lemma RequestKeepsInv(d: Desk, promoter: nat, bank: bool, minimum: nat, amount: int)
    requires Inv(d)
    ensures Inv(Request(d, promoter, bank, minimum, amount).0)
  {
    if bank && minimum <= amount {
      var (b, a) := GetOrCreate(d.books, PromoterAvailable, promoter);
      OpeningKeepsInv(d, PromoterAvailable, promoter);
      OpenedIsFound(d.books, promoter);
      var d1, d' := d.(books := b), Request(d, promoter, bank, minimum, amount).0;
      if d'.rows != d.rows {
        var r := Withdrawal(promoter, amount, Requested);
        forall p: nat ensures PromoterOk(d', p) {
          assert PromoterOk(d1, p);
          SumSnoc(ReservedOne(p), d.rows, r);
          SumSnoc(PaidOne(p), d.rows, r);
        }
      }
    }
  }

  /** A status change that moves no money and reserves nothing new. */
  lemma StatusKeepsInv(d: Desk, i: nat, status: WithdrawalStatus)
    requires Inv(d) && i < |d.rows| && InFlight(d.rows[i].status) && (status.ApprovedForPayment? || status.FailedToPay?)
    ensures Inv(SetStatus(d, i, status))
  {
    var d' := SetStatus(d, i, status);
    assert RowOk(d.books, d.rows[i]);
    forall p: nat ensures PromoterOk(d', p) {
      assert PromoterOk(d, p);
      SumUpdate(ReservedOne(p), d.rows, i, d'.rows[i]);
      SumUpdate(PaidOne(p), d.rows, i, d'.rows[i]);
    }
  }

  lemma RowIsReserved(d: Desk, i: nat)
    requires Inv(d) && i < |d.rows| && InFlight(d.rows[i].status)
    ensures d.rows[i].amount <= Reserved(d, d.rows[i].promoter)
  {
    var p := d.rows[i].promoter;
    forall k | 0 <= k < |d.rows| ensures 0 <= ReservedOne(p)(d.rows[k]) {
      assert RowOk(d.books, d.rows[k]);
    }
    SumNonNegative(ReservedOne(p), d.rows);
    assert ReservedOne(p)(d.rows[i]) == d.rows[i].amount;
  }

  lemma TransferKeepsPromoter(d: Desk, i: nat, p: Posting, from: nat, to: nat, status: WithdrawalStatus, q: nat)
    requires Inv(d) && i < |d.rows|
    requires p.entries == Transfer(from, to, d.rows[i].amount) && !p.kind.SubmissionPayout?
    requires 0 < d.rows[i].amount
    requires var (a, bank) := (AccountOf(d.books, d.rows[i].promoter), Platform(d.books, BankClearing).value);
             if status.PaidOff? then d.rows[i].status.ApprovedForPayment? && from == a && to == bank
             else status.Reversed? && d.rows[i].status.PaidOff? && from == bank && to == a
    ensures PromoterOk(SetStatus(d.(books := Append(d.books, p)), i, status), q)
  {
    var row := d.rows[i].(status := status);
    assert PromoterOk(d, q) && RowOk(d.books, d.rows[i]);
    TransferTotals(from, to, d.rows[i].amount);
    SumUpdate(ReservedOne(q), d.rows, i, row);
    SumUpdate(PaidOne(q), d.rows, i, row);
    LogSnoc(d.books.log, p, AccountOf(d.books, q));
    EarnedSnoc(d.books.log, p, AccountOf(d.books, q));
  }

  /** A transfer between a promoter's account and the bank, with the row's status to match. */
  lemma TransferKeepsInv(d: Desk, i: nat, p: Posting, from: nat, to: nat, status: WithdrawalStatus)
    requires Inv(d) && i < |d.rows| && p.entries == Transfer(from, to, d.rows[i].amount) && !p.kind.SubmissionPayout?
    requires 0 < d.rows[i].amount && Post(d.books, p).0 == Append(d.books, p)
    requires var (a, bank) := (AccountOf(d.books, d.rows[i].promoter), Platform(d.books, BankClearing).value);
             if status.PaidOff? then d.rows[i].status.ApprovedForPayment? && from == a && to == bank
             else status.Reversed? && d.rows[i].status.PaidOff? && from == bank && to == a
    ensures Inv(SetStatus(d.(books := Append(d.books, p)), i, status))
  {
    var d' := SetStatus(d.(books := Append(d.books, p)), i, status);
    PostKeepsSound(d.books, p);
    TransferTotals(from, to, d.rows[i].amount);
    assert RowOk(d.books, d.rows[i]);
    forall k | 0 <= k < |d'.rows| ensures RowOk(d'.books, d'.rows[k]) {
      assert RowOk(d.books, d.rows[k]);
    }
    forall q: nat ensures PromoterOk(d', q) {
      TransferKeepsPromoter(d, i, p, from, to, status, q);
    }
  }

  /** Paying an approved withdrawal under a fresh key is never refused: the money is there. */
  lemma PayIsNeverShort(d: Desk, i: nat, key: Key)
    requires Inv(d) && i < |d.rows| && d.rows[i].status.ApprovedForPayment? && !Has(d.books.log, key) && !Blank(key)
    ensures RecordPaid(d, i, key).1 == if d.rows[i].amount == 0 then LedgerRefused(NonPositiveAmount) else Success
    ensures Inv(RecordPaid(d, i, key).0)
    ensures 0 < d.rows[i].amount ==> RecordPaid(d, i, key).0.rows[i].status.PaidOff?
  {
    var promoter, amount := d.rows[i].promoter, d.rows[i].amount;
    var (b, a) := GetOrCreate(d.books, PromoterAvailable, promoter);
    OpeningKeepsInv(d, PromoterAvailable, promoter);
    OpenedIsFound(d.books, promoter);
    var d1 := d.(books := b);
    var bank := Platform(b, BankClearing).value;
    var p := PayWithdrawalPosting(i, a, bank, amount, key);
    RowIsReserved(d1, i);
    assert PromoterOk(d1, promoter) && RowOk(d1.books, d1.rows[i]);
    TransferGoesThrough(b, p, a, bank, amount);
    OutcomeTellsChange(b, p);
    if 0 < amount {
      TransferKeepsInv(d1, i, p, a, bank, PaidOff);
    }
  }

  /** Nor is reversing a paid one. */
  lemma ReverseGoesThrough(d: Desk, i: nat, key: Key)
    requires Inv(d) && i < |d.rows| && d.rows[i].status.PaidOff? && !Has(d.books.log, key) && !Blank(key)
    ensures Reverse(d, i, key).1.Success? && Inv(Reverse(d, i, key).0) && Reverse(d, i, key).0.rows[i].status.Reversed?
  {
    var promoter, amount := d.rows[i].promoter, d.rows[i].amount;
    var (b, a) := GetOrCreate(d.books, PromoterAvailable, promoter);
    OpeningKeepsInv(d, PromoterAvailable, promoter);
    OpenedIsFound(d.books, promoter);
    var d1 := d.(books := b);
    var bank := Platform(b, BankClearing).value;
    var p := ReverseWithdrawalPosting(i, a, bank, amount, key);
    assert RowOk(d1.books, d1.rows[i]);
    TransferGoesThrough(b, p, bank, a, amount);
    OutcomeTellsChange(b, p);
    TransferKeepsInv(d1, i, p, bank, a, Reversed);
  }

  lemma BlankKeepsInv(d: Desk, i: nat, key: Key, pay: bool)
    requires Inv(d) && Blank(key)
    ensures Inv(if pay then RecordPaid(d, i, key).0 else Reverse(d, i, key).0)
  {
    if i < |d.rows| {
      OpeningKeepsInv(d, PromoterAvailable, d.rows[i].promoter);
    }
  }

  lemma PayKeepsInv(d: Desk, i: nat, key: Key)
    requires Inv(d)
    ensures Inv(RecordPaid(d, i, key).0)
  {
    if Blank(key) {
      BlankKeepsInv(d, i, key, true);
    } else if i < |d.rows| && d.rows[i].status.ApprovedForPayment? && !Has(d.books.log, key) {
      PayIsNeverShort(d, i, key);
    }
  }

  lemma ReverseKeepsInv(d: Desk, i: nat, key: Key)
    requires Inv(d)
    ensures Inv(Reverse(d, i, key).0)
  {
    if Blank(key) {
      BlankKeepsInv(d, i, key, false);
    } else if i < |d.rows| && d.rows[i].status.PaidOff? && !Has(d.books.log, key) {
      ReverseGoesThrough(d, i, key);
    }
  }

  lemma {:induction false} BenignTotals(b: Books, p: Posting, es: seq<Entry>, a: nat)
    requires a < |b.accounts| && b.accounts[a].kind.PromoterAvailable?
    requires forall k :: 0 <= k < |es| && es[k].account == a ==> es[k].direction.Credit? && p.kind.SubmissionPayout?
    ensures TotalOn(es, a, Debit) == 0
    ensures !p.kind.SubmissionPayout? ==> TotalOn(es, a, Credit) == 0
    ensures AllPositive(es) ==> 0 <= TotalOn(es, a, Credit)
    decreases |es|
  {
    if es != [] {
      assert forall k :: 0 <= k < |es| - 1 ==> es[..|es| - 1][k] == es[k];
      BenignTotals(b, p, es[..|es| - 1], a);
    }
  }

  lemma ElsewhereKeepsInv(d: Desk, p: Posting)
    requires Inv(d) && Benign(d.books, p)
    ensures Inv(d.(books := Post(d.books, p).0))
  {
    var d' := d.(books := Post(d.books, p).0);
    PostKeepsSound(d.books, p);
    OutcomeTellsChange(d.books, p);
    if d'.books != d.books {
      forall k | 0 <= k < |d.rows| ensures RowOk(d'.books, d.rows[k]) {
        assert RowOk(d.books, d.rows[k]);
      }
      forall q: nat ensures PromoterOk(d', q) {
        assert PromoterOk(d, q);
        var a := AccountOf(d.books, q);
        LogSnoc(d.books.log, p, a);
        EarnedSnoc(d.books.log, p, a);
        if a < |d.books.accounts| {
          BenignTotals(d.books, p, p.entries, a);
        } else {
          assert !Touches(p.entries, a);
          UntouchedIsZero(p.entries, a, Credit);
        }
      }
    }
  }

  lemma RespondKeepsInv(d: Desk, action: Action)
    requires Inv(d)
    ensures Inv(Respond(d, action).0)
  {
    match action
    case DoRequest(promoter, bank, minimum, amount) => RequestKeepsInv(d, promoter, bank, minimum, amount);
    case DoApprove(i, verified) =>
      if i < |d.rows| && d.rows[i].status.Requested? {
        StatusKeepsInv(d, i, ApprovedForPayment);
      }
    case DoPay(i, key) => PayKeepsInv(d, i, key);
    case DoFail(i) =>
      if i < |d.rows| && InFlight(d.rows[i].status) {
        StatusKeepsInv(d, i, FailedToPay);
      }
    case DoReverse(i, key) => ReverseKeepsInv(d, i, key);
    case Elsewhere(p) =>
      if Benign(d.books, p) {
        ElsewhereKeepsInv(d, p);
      }
    case AccountElsewhere(kind, owner) => OpeningKeepsInv(d, kind, owner);
  }

  lemma {:induction false} RunKeepsInv(d: Desk, actions: seq<Action>)
    requires Inv(d)
    ensures Inv(RunDesk(d, actions))
    decreases |actions|
  {
    if actions != [] {
      RunKeepsInv(d, actions[..|actions| - 1]);
      RespondKeepsInv(RunDesk(d, actions[..|actions| - 1]), actions[|actions| - 1]);
    }
  }

  // ---- What it means ----

  /**
   * A request is granted exactly up to the unencumbered balance; granting it encumbers that much more and moves no
   * money.
   */
  lemma RequestIsExact(d: Desk, promoter: nat, bank: bool, minimum: nat, amount: int)
    requires Inv(d)
    ensures var (d', reply) := Request(d, promoter, bank, minimum, amount);
            && (reply.Success? <==> bank && minimum <= amount <= Available(d.books, promoter) - Reserved(d, promoter))
            && Reserved(d', promoter) == Reserved(d, promoter) + (if reply.Success? then amount else 0)
            && (forall p: nat :: Available(d'.books, p) == Available(d.books, p))
            && d'.books.log == d.books.log
            && d'.rows == d.rows + (if reply.Success? then [Withdrawal(promoter, amount, Requested)] else [])
  {
    if bank && minimum <= amount {
      OpeningKeepsFigures(d.books, PromoterAvailable, promoter, promoter);
      GetOrCreateIsQuiet(d.books, PromoterAvailable, promoter);
      forall p: nat ensures Available(GetOrCreate(d.books, PromoterAvailable, promoter).0, p) == Available(d.books, p) {
        OpeningKeepsFigures(d.books, PromoterAvailable, promoter, p);
      }
      SumSnoc(ReservedOne(promoter), d.rows, Withdrawal(promoter, amount, Requested));
    }
  }

  /**
   * On every run from empty books: requested and approved amounts never exceed the balance, and what was earned is what
   * is left plus what was paid out.
   */
  lemma WithdrawalsStayBacked(accounts: seq<Account>, actions: seq<Action>, promoter: nat)
    requires Platform(Books(accounts, []), BankClearing).Some?
    ensures var d := RunDesk(Desk(Books(accounts, []), []), actions);
            && 0 <= Reserved(d, promoter) <= Available(d.books, promoter)
            && Available(d.books, promoter) + PaidTo(d, promoter) == Earned(d.books, promoter)
  {
    var d0 := Desk(Books(accounts, []), []);
    assert Inv(d0);
    RunKeepsInv(d0, actions);
    var d := RunDesk(d0, actions);
    assert PromoterOk(d, promoter);
    forall k | 0 <= k < |d.rows| ensures 0 <= ReservedOne(promoter)(d.rows[k]) {
      assert RowOk(d.books, d.rows[k]);
    }
    SumNonNegative(ReservedOne(promoter), d.rows);
  }

  /** On every run, paying an approved withdrawal under a fresh key succeeds unless it is for nothing. */
  lemma ApprovedCanBePaid(accounts: seq<Account>, actions: seq<Action>, i: nat, key: Key)
    requires Platform(Books(accounts, []), BankClearing).Some?
    requires var d := RunDesk(Desk(Books(accounts, []), []), actions);
             i < |d.rows| && d.rows[i].status.ApprovedForPayment? && !Has(d.books.log, key) && !Blank(key)
    ensures var d := RunDesk(Desk(Books(accounts, []), []), actions);
            RecordPaid(d, i, key).1.Success? <==> 0 < d.rows[i].amount
  {
    var d0 := Desk(Books(accounts, []), []);
    assert Inv(d0);
    RunKeepsInv(d0, actions);
    PayIsNeverShort(RunDesk(d0, actions), i, key);
    assert RowOk(RunDesk(d0, actions).books, RunDesk(d0, actions).rows[i]);
  }

  /** The posting a payment makes when it goes through. */
  lemma PayPosts(d: Desk, i: nat, key: Key, bank: nat)
    requires Inv(d) && i < |d.rows| && d.rows[i].status.ApprovedForPayment? && !Has(d.books.log, key) && !Blank(key)
    requires 0 < d.rows[i].amount && Platform(d.books, BankClearing) == Some(bank)
    ensures var a := AccountOf(d.books, d.rows[i].promoter);
            RecordPaid(d, i, key)
            == (SetStatus(d.(books := Append(d.books, PayWithdrawalPosting(i, a, bank, d.rows[i].amount, key))), i,
               PaidOff), Success)
  {
    assert RowOk(d.books, d.rows[i]);
    PayIsNeverShort(d, i, key);
    OutcomeTellsChange(d.books,
      PayWithdrawalPosting(i, AccountOf(d.books, d.rows[i].promoter), bank, d.rows[i].amount, key));
  }

  lemma ReversePosts(d: Desk, i: nat, key: Key, bank: nat)
    requires Inv(d) && i < |d.rows| && d.rows[i].status.PaidOff? && !Has(d.books.log, key) && !Blank(key)
    requires Platform(d.books, BankClearing) == Some(bank)
    ensures var a := AccountOf(d.books, d.rows[i].promoter);
            Reverse(d, i, key)
            == (SetStatus(d.(books := Append(d.books, ReverseWithdrawalPosting(i, a, bank, d.rows[i].amount, key))), i,
               Reversed), Success)
  {
    assert RowOk(d.books, d.rows[i]);
    ReverseGoesThrough(d, i, key);
    OutcomeTellsChange(d.books,
      ReverseWithdrawalPosting(i, AccountOf(d.books, d.rows[i].promoter), bank, d.rows[i].amount, key));
  }

  /** Row i has a new status and nothing else of the table differs. */
  predicate RowMoves(d: Desk, d': Desk, i: nat, status: WithdrawalStatus)
  {
    i < |d.rows| && d'.rows == d.rows[i := Withdrawal(d.rows[i].promoter, d.rows[i].amount, status)]
  }

  /** One transaction was added: `amount` from one account to the other, for withdrawal i. */
  predicate Moved(d: Desk, d': Desk, kind: TransactionKind, i: nat, key: Key, from: nat, to: nat, amount: int)
  {
    d'.books.log
    == d.books.log + [Posting(kind, WithdrawalRef(i), key, [Entry(from, Debit, amount), Entry(to, Credit, amount)])]
  }

  /**
   * What moves a withdrawal, and where to: approval only what is requested, by a verified promoter; failing whatever is
   * in flight, without money; payment only what is approved, with the amount from the promoter to the bank; reversal
   * only what was paid, with the amount back.
   */
  lemma MovesInFull(d: Desk, i: nat, verified: bool, key: Key)
    requires Inv(d)
    ensures var r := ApproveWithdrawal(d, i, verified);
            && (r.1.Success? <==> i < |d.rows| && d.rows[i].status == Requested && verified)
            && (if r.1.Success? then RowMoves(d, r.0, i, ApprovedForPayment) && r.0.books == d.books else r.0 == d)
    ensures var r := Fail(d, i);
            && (r.1.Success?
               <==> i < |d.rows| && (d.rows[i].status == Requested || d.rows[i].status == ApprovedForPayment))
            && (if r.1.Success? then RowMoves(d, r.0, i, FailedToPay) && r.0.books == d.books else r.0 == d)
    ensures var r := RecordPaid(d, i, key);
            && (r.1.Success? <==> i < |d.rows| && d.rows[i].status == ApprovedForPayment && 0 < d.rows[i].amount
                                  && key != ClientKey("") && !Has(d.books.log, key))
            && (if r.1.Success? then
                  && RowMoves(d, r.0, i, PaidOff) && Platform(d.books, BankClearing).Some?
                  && Moved(d, r.0, WithdrawalPaid, i, key, AccountOf(d.books, d.rows[i].promoter),
                           Platform(d.books, BankClearing).value, d.rows[i].amount)
                else r.0.rows == d.rows && r.0.books.log == d.books.log)
    ensures var r := Reverse(d, i, key);
            && (r.1.Success? <==> i < |d.rows| && d.rows[i].status == PaidOff
                                  && key != ClientKey("") && !Has(d.books.log, key))
            && (if r.1.Success? then
                  && RowMoves(d, r.0, i, Reversed) && Platform(d.books, BankClearing).Some?
                  && Moved(d, r.0, WithdrawalReversed, i, key, Platform(d.books, BankClearing).value,
                           AccountOf(d.books, d.rows[i].promoter), d.rows[i].amount)
                else r.0.rows == d.rows && r.0.books.log == d.books.log)
  {
    PaymentInFull(d, i, key);
    ReversalInFull(d, i, key);
  }

  lemma PaymentInFull(d: Desk, i: nat, key: Key)
    requires Inv(d)
    ensures var r := RecordPaid(d, i, key);
            && (r.1.Success? <==> i < |d.rows| && d.rows[i].status == ApprovedForPayment && 0 < d.rows[i].amount
                                  && key != ClientKey("") && !Has(d.books.log, key))
            && (if r.1.Success? then
                  && RowMoves(d, r.0, i, PaidOff) && Platform(d.books, BankClearing).Some?
                  && Moved(d, r.0, WithdrawalPaid, i, key, AccountOf(d.books, d.rows[i].promoter),
                           Platform(d.books, BankClearing).value, d.rows[i].amount)
                else r.0.rows == d.rows && r.0.books.log == d.books.log)
  {
    if i < |d.rows| && d.rows[i].status.ApprovedForPayment? && !Has(d.books.log, key) {
      assert RowOk(d.books, d.rows[i]);
      if !Blank(key) {
        PayIsNeverShort(d, i, key);
        if 0 < d.rows[i].amount {
          PayPosts(d, i, key, Platform(d.books, BankClearing).value);
        }
      }
    }
  }

  lemma ReversalInFull(d: Desk, i: nat, key: Key)
    requires Inv(d)
    ensures var r := Reverse(d, i, key);
            && (r.1.Success? <==> i < |d.rows| && d.rows[i].status == PaidOff
                                  && key != ClientKey("") && !Has(d.books.log, key))
            && (if r.1.Success? then
                  && RowMoves(d, r.0, i, Reversed) && Platform(d.books, BankClearing).Some?
                  && Moved(d, r.0, WithdrawalReversed, i, key, Platform(d.books, BankClearing).value,
                           AccountOf(d.books, d.rows[i].promoter), d.rows[i].amount)
                else r.0.rows == d.rows && r.0.books.log == d.books.log)
  {
    if i < |d.rows| && d.rows[i].status.PaidOff? && !Has(d.books.log, key) {
      assert RowOk(d.books, d.rows[i]);
      if !Blank(key) {
        ReverseGoesThrough(d, i, key);
        ReversePosts(d, i, key, Platform(d.books, BankClearing).value);
      }
    }
  }

  /** A payment and its reversal cancel: every account is back where it was. */
  lemma BouncedTransferRestores(d: Desk, i: nat, payKey: Key, reverseKey: Key)
    requires Inv(d) && i < |d.rows| && d.rows[i].status.ApprovedForPayment? && 0 < d.rows[i].amount
    requires !Has(d.books.log, payKey) && !Has(d.books.log, reverseKey) && payKey != reverseKey && !Blank(payKey)
             && !Blank(reverseKey)
    ensures var (d1, paid) := RecordPaid(d, i, payKey);
            var (d2, reversed) := Reverse(d1, i, reverseKey);
            && paid.Success? && reversed.Success? && d2.rows == d.rows[i := d.rows[i].(status := Reversed)]
            && d2.books.accounts == d.books.accounts
            && forall a :: 0 <= a < |d.books.accounts| ==> Balance(d2.books, a) == Balance(d.books, a)
  {
    var bank, a := Platform(d.books, BankClearing).value, AccountOf(d.books, d.rows[i].promoter);
    PayPosts(d, i, payKey, bank);
    PayIsNeverShort(d, i, payKey);
    var d1 := RecordPaid(d, i, payKey).0;
    var p, r :=
      PayWithdrawalPosting(i, a, bank, d.rows[i].amount, payKey),
      ReverseWithdrawalPosting(i, a, bank, d.rows[i].amount, reverseKey);
    HasAfterAppend(d.books.log, p, reverseKey);
    ReversePosts(d1, i, reverseKey, bank);
    TransferTotals(a, bank, d.rows[i].amount);
    TransferTotals(bank, a, d.rows[i].amount);
    forall x | 0 <= x < |d.books.accounts|
      ensures Balance(Reverse(d1, i, reverseKey).0.books, x) == Balance(d.books, x)
    {
      LogSnoc(d.books.log, p, x);
      LogSnoc(d1.books.log, r, x);
    }
  }

  /**
   * Funding, settling, retaining and refunding are what the rest of the system posts; none of them takes from a
   * promoter.
   */
  lemma OtherCommandsAreBenign(b: Books, campaign: nat, submission: nat, escrow: nat, promoter: nat, wallet: nat,
                               amount: int, fee: int, take: int, key: Key)
    requires IsAccount(b, escrow, CampaignEscrow, Some(campaign)) && wallet < |b.accounts|
             && b.accounts[wallet].kind.ClientWallet?
    requires Platform(b, BankClearing).Some? && Platform(b, RaliaRevenue).Some?
    ensures var (bank, revenue) := (Platform(b, BankClearing).value, Platform(b, RaliaRevenue).value);
            && Benign(b, FundPosting(campaign, bank, escrow, amount, key))
            && Benign(b, SettlePosting(submission, escrow, promoter, revenue, fee, take, key))
            && Benign(b, RetainPosting(campaign, escrow, revenue, amount))
            && Benign(b, RefundPosting(campaign, escrow, wallet, amount))
  {
  }

  // ---- The platform's position ----

  function InFlightOne(r: Withdrawal): int { if InFlight(r.status) then r.amount else 0 }

  /** in_flight_withdrawals of the exposure report. */
  function InFlightTotal(d: Desk): int { Sum(InFlightOne, d.rows) }

  function BelowOne(b: Books, n: nat): Withdrawal -> int
  {
    (r: Withdrawal) => if InFlight(r.status) && AccountOf(b, r.promoter) < n then r.amount else 0
  }

  function AtOne(b: Books, n: nat): Withdrawal -> int
  {
    (r: Withdrawal) => if InFlight(r.status) && AccountOf(b, r.promoter) == n then r.amount else 0
  }

  /** The requests against one account fit its balance. */
  lemma AccountCoversItsRequests(d: Desk, n: nat)
    requires Inv(d) && n < |d.books.accounts|
    ensures Sum(AtOne(d.books, n), d.rows)
            <= if d.books.accounts[n].kind.PromoterAvailable? then Balance(d.books, n) else 0
  {
    var x, f := d.books.accounts[n], AtOne(d.books, n);
    if x.kind.PromoterAvailable? && x.owner.Some? && AccountOf(d.books, x.owner.value) == n {
      var q := x.owner.value;
      assert PromoterOk(d, q);
      forall k | 0 <= k < |d.rows| ensures f(d.rows[k]) <= ReservedOne(q)(d.rows[k]) {
        assert RowOk(d.books, d.rows[k]);
      }
      SumMonotone(f, d.rows, ReservedOne(q), d.rows);
    } else {
      forall k | 0 <= k < |d.rows| ensures f(d.rows[k]) == 0 {
        assert RowOk(d.books, d.rows[k]);
      }
      SumConstant(f, d.rows, 0);
    }
  }

  lemma {:induction false} AccountsCoverRequests(d: Desk, n: nat)
    requires Inv(d) && n <= |d.books.accounts|
    ensures Sum(BelowOne(d.books, n), d.rows) <= KindTotalUpTo(d.books, PromoterAvailable, n)
    decreases n
  {
    if n == 0 {
      SumConstant(BelowOne(d.books, 0), d.rows, 0);
    } else {
      AccountsCoverRequests(d, n - 1);
      AccountCoversItsRequests(d, n - 1);
      SumSplits(BelowOne(d.books, n), BelowOne(d.books, n - 1), AtOne(d.books, n - 1), d.rows);
    }
  }

  /**
   * Obligations never exceed settled funds: everything in flight is covered by what promoters are owed, and that by
   * cash.
   */
  lemma InFlightIsBacked(accounts: seq<Account>, actions: seq<Action>)
    requires Platform(Books(accounts, []), BankClearing).Some?
    ensures var d := RunDesk(Desk(Books(accounts, []), []), actions);
            && 0 <= InFlightTotal(d) <= KindTotal(d.books, PromoterAvailable)
            && KindTotal(d.books, PromoterAvailable)
               <= KindTotal(d.books, BankClearing) - KindTotal(d.books, RaliaRevenue)
  {
    var d0 := Desk(Books(accounts, []), []);
    assert Inv(d0);
    RunKeepsInv(d0, actions);
    var d := RunDesk(d0, actions);
    forall k | 0 <= k < |d.rows|
      ensures InFlightOne(d.rows[k]) == BelowOne(d.books, |d.books.accounts|)(d.rows[k]) && 0 <= InFlightOne(d.rows[k])
    {
      assert RowOk(d.books, d.rows[k]);
    }
    SumNonNegative(InFlightOne, d.rows);
    SumMonotone(InFlightOne, d.rows, BelowOne(d.books, |d.books.accounts|), d.rows);
    AccountsCoverRequests(d, |d.books.accounts|);
    TrialBalance(d.books);
  }
}
