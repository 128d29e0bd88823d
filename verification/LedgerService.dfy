/** src/modules/ledger/ledger.service.ts as it runs: a service over the account and transaction tables. */
module LedgerServices {
  import opened Common
  import opened Ledger

  datatype ExposureReport = ExposureReport(
    promoterPayable: int, inFlightWithdrawals: int, escrowHeld: int, clientWallet: int,
    platformRevenue: int, bankClearingNet: int, fullyBacked: bool)

  class LedgerService {
    var accounts: seq<Account>
    var log: seq<Posting>

    function State(): Books
      reads this
    {
      Books(accounts, log)
    }

    /** The seed: the two platform accounts and no transactions. */
    constructor ()
      ensures State() == Books([Account(RaliaRevenue, None), Account(BankClearing, None)], [])
      ensures Sound(State())
    {
      accounts := [Account(RaliaRevenue, None), Account(BankClearing, None)];
      log := [];
    }

    // ---- Balances ----

    /** balanceOf: the grouped sums of one account, read row by row. */
    method BalanceOf(a: nat, kind: AccountKind) returns (balance: int)
      ensures balance == BalanceIn(log, a, kind)
    {
      var rows := GroupByDirection(log, a);
      var debits, credits := 0, 0;
      for i := 0 to |rows|
        invariant debits == (if exists j :: 0 <= j < i && rows[j].direction.Debit? then LogTotal(log, a, Debit) else 0)
        invariant credits
                  == (if exists j :: 0 <= j < i && rows[j].direction.Credit? then LogTotal(log, a, Credit) else 0)
      {
        if rows[i].direction.Debit? {
          debits := rows[i].sum;
        } else {
          credits := rows[i].sum;
        }
      }
      if HasRow(log, a, Debit) {
        assert rows[0].direction.Debit?;
      } else {
        NoRowIsZero(log, a, Debit);
      }
      if HasRow(log, a, Credit) {
        assert rows[|rows| - 1].direction.Credit?;
      } else {
        NoRowIsZero(log, a, Credit);
      }
      balance := if RuleOf(kind).normal.Credit? then credits - debits else debits - credits;
    }

    method GetBalance(a: nat) returns (balance: Option<int>)
      ensures balance == if a < |accounts| then Some(Balance(State(), a)) else None
    {
      if a >= |accounts| {
        return None;
      }
      var amount := BalanceOf(a, accounts[a].kind);
      return Some(amount);
    }

    // ---- post ----

    method Validate(p: Posting) returns (problem: Option<Refusal>)
      ensures problem == Checked(p)
    {
      var es := p.entries;
      if |es| < 2 {
        return Some(TooFewEntries);
      }
      if Blank(p.key) {
        return Some(MissingKey);
      }
      var debits, credits := 0, 0;
      for i := 0 to |es|
        invariant debits == Total(es[..i], Debit) && credits == Total(es[..i], Credit)
        invariant forall j :: 0 <= j < i ==> 0 < es[j].amount
      {
        if es[i].amount <= 0 {
          return Some(NonPositiveAmount);
        }
        assert es[..i + 1][..i] == es[..i];
        if es[i].direction.Debit? {
          debits := debits + es[i].amount;
        } else {
          credits := credits + es[i].amount;
        }
      }
      assert es[..|es|] == es;
      if debits != credits {
        return Some(Unbalanced);
      }
      return None;
    }

    /** filter(DEBIT).reduce(+). */
    method DebitTotal(es: seq<Entry>) returns (sum: int)
      ensures sum == Total(es, Debit)
    {
      sum := 0;
      for i := 0 to |es|
        invariant sum == Total(es[..i], Debit)
      {
        assert es[..i + 1][..i] == es[..i];
        if es[i].direction.Debit? {
          sum := sum + es[i].amount;
        }
      }
      assert es[..|es|] == es;
    }

    method AssertReplayMatches(existing: Posting, p: Posting) returns (same: bool)
      ensures same == SameIntent(existing, p)
    {
      var existingTotal := DebitTotal(existing.entries);
      var incomingTotal := DebitTotal(p.entries);
      same := existing.kind == p.kind && existing.reference == p.reference && existingTotal == incomingTotal;
    }

    /** Post first, then verify; a failed check rolls the whole transaction back. */
    method Post(p: Posting) returns (outcome: Outcome)
      modifies this
      ensures (State(), outcome) == Ledger.Post(old(State()), p)
    {
      var problem := Validate(p);
      if problem.Some? {
        return Refused(problem.value);
      }
      var accountIds := LockOrder(p.entries);
      LockOrderIsExact(p.entries);
      FindFinds(log, p.key);
      var existing := Find(log, p.key);
      if existing < |log| {
        var same := AssertReplayMatches(log[existing], p);
        return if same then Posted(existing, true) else Refused(KeyReused);
      }
      var committed := log;
      ghost var before := State();
      for i := 0 to |accountIds|
        invariant forall j :: 0 <= j < i ==> accountIds[j] < |accounts|
        invariant State() == before
      {
        if accountIds[i] >= |accounts| {
          assert !KnownAccounts(accounts, p.entries) by {
            assert accountIds[i] in accountIds;
          }
          return Refused(NoSuchAccount);
        }
      }
      forall k | 0 <= k < |p.entries| ensures p.entries[k].account < |accounts| {
        assert Touches(p.entries, p.entries[k].account);
      }
      log := log + [p];
      for i := 0 to |accountIds|
        invariant State() == Append(before, p)
        invariant forall j :: 0 <= j < i && RuleOf(accounts[accountIds[j]].kind).nonNegative
                    ==> 0 <= Balance(State(), accountIds[j])
      {
        var a := accountIds[i];
        if RuleOf(accounts[a].kind).nonNegative {
          var balance := BalanceOf(a, accounts[a].kind);
          if balance < 0 {
            assert Touches(p.entries, a) by {
              assert a in accountIds;
            }
            assert Overdrawn(State(), p.entries);
            log := committed;
            return Refused(InsufficientFunds);
          }
        }
      }
      forall k | 0 <= k < |p.entries| && RuleOf(accounts[p.entries[k].account].kind).nonNegative
        ensures 0 <= Balance(State(), p.entries[k].account)
      {
        assert Touches(p.entries, p.entries[k].account);
        var j :| 0 <= j < |accountIds| && accountIds[j] == p.entries[k].account;
      }
      return Posted(|committed|, false);
    }

    method AlreadyPosted(key: Key) returns (yes: bool)
      ensures yes == Has(log, key)
    {
      FindFinds(log, key);
      yes := Find(log, key) < |log|;
    }

    // ---- Accounts and money commands ----

    method GetOrCreateAccount(kind: AccountKind, owner: nat) returns (a: nat)
      modifies this`accounts
      ensures (State(), a) == GetOrCreate(old(State()), kind, owner)
    {
      a := FindAccount(accounts, kind, Some(owner));
      if a < |accounts| {
        return;
      }
      accounts := accounts + [Account(kind, Some(owner))];
    }

    method GetPlatformAccountId(kind: AccountKind) returns (a: Option<nat>)
      ensures a == Platform(State(), kind)
    {
      var i := FindAccount(accounts, kind, None);
      a := if i < |accounts| then Some(i) else None;
    }

    method FundCampaign(campaign: nat, escrow: nat, amount: int, key: Key) returns (outcome: Outcome)
      modifies this
      ensures (State(), outcome) == match Platform(old(State()), BankClearing)
                                    case None => (old(State()), Refused(NoPlatformAccount))
                                    case Some(bank) =>
                                      Ledger.Post(old(State()), FundPosting(campaign, bank, escrow, amount, key))
    {
      var bank := GetPlatformAccountId(BankClearing);
      if bank.None? {
        return Refused(NoPlatformAccount);
      }
      outcome := Post(FundPosting(campaign, bank.value, escrow, amount, key));
    }

    method SettleSubmission(submission: nat, escrow: nat, promoter: nat, fee: int, take: int, key: Key)
                            returns (outcome: Outcome)
      modifies this
      ensures (State(), outcome) == match Platform(old(State()), RaliaRevenue)
                                    case None => (old(State()), Refused(NoPlatformAccount))
                                    case Some(revenue) =>
                                      Ledger.Post(old(State()),
                                        SettlePosting(submission, escrow, promoter, revenue, fee, take, key))
    {
      var revenue := GetPlatformAccountId(RaliaRevenue);
      if revenue.None? {
        return Refused(NoPlatformAccount);
      }
      var credits: seq<Entry> := [];
      if 0 < fee {
        credits := credits + [Entry(promoter, Credit, fee)];
      }
      if 0 < take {
        credits := credits + [Entry(revenue.value, Credit, take)];
      }
      var p := Posting(SubmissionPayout, SubmissionRef(submission), key, [Entry(escrow, Debit, fee + take)] + credits);
      assert p.entries == SettlePosting(submission, escrow, promoter, revenue.value, fee, take, key).entries;
      outcome := Post(p);
    }

    method RetainCampaignRemainder(campaign: nat, escrow: nat, amount: int) returns (outcome: Outcome)
      modifies this
      ensures (State(), outcome) == match Platform(old(State()), RaliaRevenue)
                                    case None => (old(State()), Refused(NoPlatformAccount))
                                    case Some(revenue) =>
                                      Ledger.Post(old(State()), RetainPosting(campaign, escrow, revenue, amount))
    {
      var revenue := GetPlatformAccountId(RaliaRevenue);
      if revenue.None? {
        return Refused(NoPlatformAccount);
      }
      outcome := Post(RetainPosting(campaign, escrow, revenue.value, amount));
    }

    method RefundCampaign(campaign: nat, escrow: nat, wallet: nat, amount: int) returns (outcome: Outcome)
      modifies this
      ensures (State(), outcome) == Ledger.Post(old(State()), RefundPosting(campaign, escrow, wallet, amount))
    {
      outcome := Post(RefundPosting(campaign, escrow, wallet, amount));
    }

    method PayWithdrawal(withdrawal: nat, promoter: nat, amount: int, key: Key) returns (outcome: Outcome)
      modifies this
      ensures (State(), outcome) == match Platform(old(State()), BankClearing)
                                    case None => (old(State()), Refused(NoPlatformAccount))
                                    case Some(bank) =>
                                      Ledger.Post(old(State()),
                                      PayWithdrawalPosting(withdrawal, promoter, bank, amount, key))
    {
      var bank := GetPlatformAccountId(BankClearing);
      if bank.None? {
        return Refused(NoPlatformAccount);
      }
      outcome := Post(PayWithdrawalPosting(withdrawal, promoter, bank.value, amount, key));
    }

    method ReverseWithdrawal(withdrawal: nat, promoter: nat, amount: int, key: Key) returns (outcome: Outcome)
      modifies this
      ensures (State(), outcome) == match Platform(old(State()), BankClearing)
                                    case None => (old(State()), Refused(NoPlatformAccount))
                                    case Some(bank) =>
                                      Ledger.Post(old(State()),
                                      ReverseWithdrawalPosting(withdrawal, promoter, bank, amount, key))
    {
      var bank := GetPlatformAccountId(BankClearing);
      if bank.None? {
        return Refused(NoPlatformAccount);
      }
      outcome := Post(ReverseWithdrawalPosting(withdrawal, promoter, bank.value, amount, key));
    }

    // ---- exposureReport (admin.service.ts) ----

    /**
     * The money position by account kind: grouped sums accumulated kind by kind are the sums of the derived balances.
     */
    method Exposure(inFlight: int) returns (report: ExposureReport)
      requires Sound(State())
      ensures report.promoterPayable == KindTotal(State(), PromoterAvailable)
      ensures report.escrowHeld == KindTotal(State(), CampaignEscrow)
      ensures report.clientWallet == KindTotal(State(), ClientWallet)
      ensures report.platformRevenue == KindTotal(State(), RaliaRevenue)
      ensures report.bankClearingNet == KindTotal(State(), BankClearing)
      ensures report.bankClearingNet
              == report.promoterPayable + report.escrowHeld + report.clientWallet + report.platformRevenue
      ensures report.inFlightWithdrawals == inFlight
      ensures report.fullyBacked
    {
      var grouped := GroupByAccount(log, |accounts|);
      var debit: map<AccountKind, int> := map[];
      var credit: map<AccountKind, int> := map[];
      for i := 0 to |grouped|
        invariant Accumulated(debit, grouped[..i], accounts, Debit)
        invariant Accumulated(credit, grouped[..i], accounts, Credit)
      {
        var g := grouped[i];
        assert grouped[..i + 1] == grouped[..i] + [g];
        AccumulatedSnoc(debit, grouped[..i], g, accounts, Debit);
        AccumulatedSnoc(credit, grouped[..i], g, accounts, Credit);
        if g.account < |accounts| {
          var kind := accounts[g.account].kind;
          if g.direction.Debit? {
            debit := debit[kind := AmountOf(debit, kind) + g.sum];
          } else {
            credit := credit[kind := AmountOf(credit, kind) + g.sum];
          }
        }
      }
      assert grouped[..|grouped|] == grouped;
      AccumulatedIsKindTotals(State(), debit, credit);
      TrialBalance(State());
      var payable := AmountOf(credit, PromoterAvailable) - AmountOf(debit, PromoterAvailable);
      report := ExposureReport(
        payable,
        inFlight,
        AmountOf(credit, CampaignEscrow) - AmountOf(debit, CampaignEscrow),
        AmountOf(credit, ClientWallet) - AmountOf(debit, ClientWallet),
        AmountOf(credit, RaliaRevenue) - AmountOf(debit, RaliaRevenue),
        AmountOf(debit, BankClearing) - AmountOf(credit, BankClearing),
        payable >= 0);
    }
  }

  function AmountOf(m: map<AccountKind, int>, k: AccountKind): int { if k in m then m[k] else 0 }

  /** m holds, kind by kind, what the rows add up to on one side. */
  ghost predicate Accumulated(m: map<AccountKind, int>, rows: seq<Group>, accounts: seq<Account>, dir: Direction)
  {
    forall k: AccountKind :: AmountOf(m, k) == GroupTotal(rows, accounts, k, dir)
  }

  lemma AccumulatedSnoc(m: map<AccountKind, int>, rows: seq<Group>, g: Group, accounts: seq<Account>, dir: Direction)
    requires Accumulated(m, rows, accounts, dir)
    ensures g.account < |accounts| && g.direction == dir ==>
              var kind := accounts[g.account].kind;
              Accumulated(m[kind := AmountOf(m, kind) + g.sum], rows + [g], accounts, dir)
    ensures |accounts| <= g.account || g.direction != dir ==> Accumulated(m, rows + [g], accounts, dir)
  {
    forall k: AccountKind
      ensures GroupTotal(rows + [g], accounts, k, dir)
              == GroupTotal(rows, accounts, k, dir)
                 + (if g.account < |accounts| && accounts[g.account].kind == k && g.direction == dir then g.sum else 0)
    {
      GroupTotalSnoc(rows, g, accounts, k, dir);
    }
  }

  lemma AccumulatedIsKindTotals(b: Books, debit: map<AccountKind, int>, credit: map<AccountKind, int>)
    requires Accumulated(debit, GroupByAccount(b.log, |b.accounts|), b.accounts, Debit)
    requires Accumulated(credit, GroupByAccount(b.log, |b.accounts|), b.accounts, Credit)
    ensures forall k: AccountKind ::
              KindTotal(b, k) == if k.BankClearing? then AmountOf(debit, k) - AmountOf(credit, k)
                                 else AmountOf(credit, k) - AmountOf(debit, k)
  {
    forall k: AccountKind
      ensures KindTotal(b, k) == if k.BankClearing? then AmountOf(debit, k) - AmountOf(credit, k)
                                 else AmountOf(credit, k) - AmountOf(debit, k)
    {
      GroupedTotalsAreBalances(b, k, |b.accounts|);
    }
  }
}
