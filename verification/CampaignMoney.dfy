/**
 * Where a campaign's money is: funded once with its price, and from then on the price is the escrow balance plus
 * everything that left it.
 */
module CampaignMoney {
  import opened Common
  import opened Ledger
  import opened Campaigns
  import opened CampaignRows
  import Pricing

  // ---- What left an account ----

  function CreditsTo(accounts: seq<Account>, es: seq<Entry>, to: AccountKind): int
  {
    if es == [] then 0
    else
      var e := es[|es| - 1];
      CreditsTo(accounts, es[..|es| - 1], to)
      + (if e.direction.Credit? && e.account < |accounts| && accounts[e.account].kind == to then e.amount else 0)
  }

  function OutflowOf(accounts: seq<Account>, p: Posting, e: nat, kind: TransactionKind, to: AccountKind): int
  {
    if p.kind == kind && TotalOn(p.entries, e, Debit) != 0 then CreditsTo(accounts, p.entries, to) else 0
  }

  /** What the postings of one kind that debit account e credited to accounts of one kind. */
  function Outflow(accounts: seq<Account>, log: seq<Posting>, e: nat, kind: TransactionKind, to: AccountKind): int
  {
    if log == [] then 0
    else Outflow(accounts, log[..|log| - 1], e, kind, to) + OutflowOf(accounts, log[|log| - 1], e, kind, to)
  }

  function Fees(b: Books, e: nat): int { Outflow(b.accounts, b.log, e, SubmissionPayout, PromoterAvailable) }

  function Takes(b: Books, e: nat): int { Outflow(b.accounts, b.log, e, SubmissionPayout, RaliaRevenue) }

  function Retained(b: Books, e: nat): int { Outflow(b.accounts, b.log, e, Adjustment, RaliaRevenue) }

  function Refunded(b: Books, e: nat): int { Outflow(b.accounts, b.log, e, CampaignRefund, ClientWallet) }

  lemma OutflowSnoc(accounts: seq<Account>, log: seq<Posting>, p: Posting, e: nat, kind: TransactionKind,
                    to: AccountKind)
    ensures Outflow(accounts, log + [p], e, kind, to)
            == Outflow(accounts, log, e, kind, to) + OutflowOf(accounts, p, e, kind, to)
  {
    assert (log + [p])[..|log|] == log;
  }

  lemma {:induction false} CreditsSurviveGrowth(accounts: seq<Account>, more: seq<Account>, es: seq<Entry>,
                                                to: AccountKind)
    requires KnownAccounts(accounts, es) && accounts <= more
    ensures CreditsTo(more, es, to) == CreditsTo(accounts, es, to)
    decreases |es|
  {
    if es != [] {
      assert KnownAccounts(accounts, es[..|es| - 1]) by {
        assert forall i :: 0 <= i < |es| - 1 ==> es[..|es| - 1][i] == es[i];
      }
      CreditsSurviveGrowth(accounts, more, es[..|es| - 1], to);
    }
  }

  lemma {:induction false} OutflowSurvivesGrowth(accounts: seq<Account>, more: seq<Account>, log: seq<Posting>, e: nat,
                                                 kind: TransactionKind, to: AccountKind)
    requires accounts <= more && forall i :: 0 <= i < |log| ==> KnownAccounts(accounts, log[i].entries)
    ensures Outflow(more, log, e, kind, to) == Outflow(accounts, log, e, kind, to)
    decreases |log|
  {
    if log != [] {
      assert forall i :: 0 <= i < |log| - 1 ==> log[..|log| - 1][i] == log[i];
      OutflowSurvivesGrowth(accounts, more, log[..|log| - 1], e, kind, to);
      CreditsSurviveGrowth(accounts, more, log[|log| - 1].entries, to);
    }
  }

  // ---- The shapes that touch an escrow account ----

  lemma TransferCredits(accounts: seq<Account>, from: nat, to: nat, amount: int, kind: AccountKind)
    requires to < |accounts|
    ensures CreditsTo(accounts, Transfer(from, to, amount), kind) == if accounts[to].kind == kind then amount else 0
  {
    var es := Transfer(from, to, amount);
    assert es[..1] == [es[0]] && es[..1][..0] == [];
    assert CreditsTo(accounts, es[..1], kind) == 0;
  }

  lemma OneEntry(accounts: seq<Account>, e: Entry)
    ensures forall dir :: Total([e], dir) == if e.direction == dir then e.amount else 0
    ensures forall a: nat, dir :: TotalOn([e], a, dir) == if e.direction == dir && e.account == a then e.amount else 0
    ensures forall k :: CreditsTo(accounts, [e], k)
                        == if e.direction.Credit? && e.account < |accounts| && accounts[e.account].kind == k then
                             e.amount else 0
  {
    assert [e][..0] == [];
  }

  lemma MoreEntry(accounts: seq<Account>, es: seq<Entry>, e: Entry)
    ensures forall dir :: Total(es + [e], dir) == Total(es, dir) + Total([e], dir)
    ensures forall a: nat, dir :: TotalOn(es + [e], a, dir) == TotalOn(es, a, dir) + TotalOn([e], a, dir)
    ensures forall k :: CreditsTo(accounts, es + [e], k) == CreditsTo(accounts, es, k) + CreditsTo(accounts, [e], k)
  {
    assert (es + [e])[..|es|] == es;
    OneEntry(accounts, e);
  }

  lemma SettleTotals(accounts: seq<Account>, s: nat, e: nat, promoter: nat, revenue: nat, fee: nat, take: nat, key: Key)
    requires e < |accounts| && promoter < |accounts| && revenue < |accounts|
    requires accounts[e].kind.CampaignEscrow? && accounts[promoter].kind.PromoterAvailable?
             && accounts[revenue].kind.RaliaRevenue?
    ensures var es := SettlePosting(s, e, promoter, revenue, fee, take, key).entries;
            && Total(es, Debit) == Total(es, Credit) == fee + take
            && (forall a: nat :: TotalOn(es, a, Debit) == if a == e then fee + take else 0)
            && (forall a: nat ::
                  TotalOn(es, a, Credit) == if a == promoter then fee else if a == revenue then take else 0)
            && CreditsTo(accounts, es, PromoterAvailable) == fee && CreditsTo(accounts, es, RaliaRevenue) == take
            && KnownAccounts(accounts, es)
            && (AllPositive(es) && 2 <= |es| <==> 0 < fee + take)
            && (fee + take == 0 ==> |es| == 1)
            && !Touches(es, |accounts|)
  {
    SettleSums(accounts, s, e, promoter, revenue, fee, take, key);
    SettleShape(accounts, s, e, promoter, revenue, fee, take, key);
  }

  lemma SettleShape(accounts: seq<Account>, s: nat, e: nat, promoter: nat, revenue: nat, fee: nat, take: nat, key: Key)
    requires e < |accounts| && promoter < |accounts| && revenue < |accounts|
    ensures var es := SettlePosting(s, e, promoter, revenue, fee, take, key).entries;
            && KnownAccounts(accounts, es)
            && (AllPositive(es) && 2 <= |es| <==> 0 < fee + take)
            && (fee + take == 0 ==> |es| == 1)
            && !Touches(es, |accounts|)
  {
    var es := SettlePosting(s, e, promoter, revenue, fee, take, key).entries;
    if fee + take == 0 {
      assert es[0].amount == 0;
    }
  }

  lemma SettleSums(accounts: seq<Account>, s: nat, e: nat, promoter: nat, revenue: nat, fee: nat, take: nat, key: Key)
    requires e < |accounts| && promoter < |accounts| && revenue < |accounts|
    requires accounts[e].kind.CampaignEscrow? && accounts[promoter].kind.PromoterAvailable?
             && accounts[revenue].kind.RaliaRevenue?
    ensures var es := SettlePosting(s, e, promoter, revenue, fee, take, key).entries;
            && Total(es, Debit) == Total(es, Credit) == fee + take
            && (forall a: nat :: TotalOn(es, a, Debit) == if a == e then fee + take else 0)
            && (forall a: nat ::
                  TotalOn(es, a, Credit) == if a == promoter then fee else if a == revenue then take else 0)
            && CreditsTo(accounts, es, PromoterAvailable) == fee && CreditsTo(accounts, es, RaliaRevenue) == take
  {
    var d := Entry(e, Debit, fee + take);
    var f := Entry(promoter, Credit, fee);
    var t := Entry(revenue, Credit, take);
    OneEntry(accounts, d);
    OneEntry(accounts, f);
    OneEntry(accounts, t);
    MoreEntry(accounts, [d], f);
    MoreEntry(accounts, [d], t);
    MoreEntry(accounts, [d] + [f], t);
    var es := SettlePosting(s, e, promoter, revenue, fee, take, key).entries;
    if 0 < fee && 0 < take {
      assert es == [d] + [f] + [t];
    } else if 0 < fee {
      assert es == [d] + [f];
    } else if 0 < take {
      assert es == [d] + [t];
    } else {
      assert es == [d];
    }
  }

  /** A posting that debits one constrained account is covered exactly when that account can bear it. */
  lemma OneDebitDecides(b: Books, p: Posting, e: nat, debit: int)
    requires Sound(b) && KnownAccounts(b.accounts, p.entries) && e < |b.accounts| && Touches(p.entries, e)
    requires RuleOf(b.accounts[e].kind) == AccountRule(Credit, true)
    requires TotalOn(p.entries, e, Debit) == debit && TotalOn(p.entries, e, Credit) == 0
    requires forall a: nat :: a != e ==> TotalOn(p.entries, a, Debit) == 0 && 0 <= TotalOn(p.entries, a, Credit)
    ensures Overdrawn(Append(b, p), p.entries) <==> Balance(b, e) < debit
  {
    LogSnoc(b.log, p, e);
    assert Balance(Append(b, p), e) == Balance(b, e) - debit;
    var k :| 0 <= k < |p.entries| && p.entries[k].account == e;
    forall a | 0 <= a < |b.accounts| && a != e && RuleOf(b.accounts[a].kind).nonNegative
      ensures 0 <= Balance(Append(b, p), a)
    {
      CreditKeepsUp(b, p, a);
    }
  }

  lemma CreditKeepsUp(b: Books, p: Posting, a: nat)
    requires a < |b.accounts| && 0 <= Balance(b, a) && RuleOf(b.accounts[a].kind) == AccountRule(Credit, true)
    requires TotalOn(p.entries, a, Debit) == 0 && 0 <= TotalOn(p.entries, a, Credit)
    ensures 0 <= Balance(Append(b, p), a)
  {
    LogSnoc(b.log, p, a);
  }

  lemma FreshPostIsDecided(b: Books, p: Posting)
    requires Checked(p).None? && !Has(b.log, p.key) && KnownAccounts(b.accounts, p.entries)
    ensures Post(b, p).1 == if Overdrawn(Append(b, p), p.entries) then Refused(InsufficientFunds)
                            else Posted(|b.log|, false)
  {
    FindFinds(b.log, p.key);
  }

  lemma SettlementIsChecked(b: Books, s: nat, e: nat, promoter: nat, revenue: nat, fee: nat, take: nat, key: Key)
    requires e < |b.accounts| && promoter < |b.accounts| && revenue < |b.accounts|
    requires b.accounts[e].kind.CampaignEscrow? && b.accounts[promoter].kind.PromoterAvailable?
             && b.accounts[revenue].kind.RaliaRevenue?
    ensures Checked(SettlePosting(s, e, promoter, revenue, fee, take, key))
            == if fee + take == 0 then Some(TooFewEntries) else if Blank(key) then Some(MissingKey) else None
    ensures KnownAccounts(b.accounts, SettlePosting(s, e, promoter, revenue, fee, take, key).entries)
  {
    SettleTotals(b.accounts, s, e, promoter, revenue, fee, take, key);
  }

  lemma SettlementOverdraws(b: Books, s: nat, e: nat, promoter: nat, revenue: nat, fee: nat, take: nat, key: Key)
    requires Sound(b) && e < |b.accounts| && promoter < |b.accounts| && revenue < |b.accounts|
    requires b.accounts[e].kind.CampaignEscrow? && b.accounts[promoter].kind.PromoterAvailable?
             && b.accounts[revenue].kind.RaliaRevenue?
    ensures var p := SettlePosting(s, e, promoter, revenue, fee, take, key);
            KnownAccounts(b.accounts, p.entries) && (Overdrawn(Append(b, p), p.entries) <==> Balance(b, e) < fee + take)
  {
    var p := SettlePosting(s, e, promoter, revenue, fee, take, key);
    SettleTotals(b.accounts, s, e, promoter, revenue, fee, take, key);
    assert p.entries[0] == Entry(e, Debit, fee + take);
    OneDebitDecides(b, p, e, fee + take);
  }

  /** A fresh settlement is refused only when it moves nothing, or when escrow cannot bear it. */
  lemma SettleGoesThrough(b: Books, s: nat, e: nat, promoter: nat, revenue: nat, fee: nat, take: nat, key: Key)
    requires Sound(b) && !Has(b.log, key)
    requires e < |b.accounts| && promoter < |b.accounts| && revenue < |b.accounts|
    requires b.accounts[e].kind.CampaignEscrow? && b.accounts[promoter].kind.PromoterAvailable?
             && b.accounts[revenue].kind.RaliaRevenue?
    ensures Post(b, SettlePosting(s, e, promoter, revenue, fee, take, key)).1
            == if fee + take == 0 then Refused(TooFewEntries)
               else if Blank(key) then Refused(MissingKey)
               else if Balance(b, e) < fee + take then Refused(InsufficientFunds)
               else Posted(|b.log|, false)
  {
    SettlementIsChecked(b, s, e, promoter, revenue, fee, take, key);
    if 0 < fee + take && !Blank(key) {
      FreshPostIsDecided(b, SettlePosting(s, e, promoter, revenue, fee, take, key));
      SettlementOverdraws(b, s, e, promoter, revenue, fee, take, key);
    }
  }

  // ---- The invariant ----

  function EscrowOf(w: World): nat { FindAccount(w.books.accounts, CampaignEscrow, Some(w.campaign.id)) }

  predicate Untouched(log: seq<Posting>, e: nat) { forall i :: 0 <= i < |log| ==> !Touches(log[i].entries, e) }

  predicate Funded(c: Campaign)
  {
    c.status.UnderReview? || c.status.ChangesNeeded? || c.status.Live? || c.status.Fulfilled? || c.status.CalledOff?
  }

  /** Exactly one posting ever credited the account: this campaign's funding, with exactly the amount. */
  predicate FundedOnce(log: seq<Posting>, e: nat, campaign: nat, amount: nat)
  {
    exists i :: 0 <= i < |log| && OnlyCredit(log, e, i)
                && log[i].kind.CampaignFunding? && log[i].reference == CampaignRef(campaign)
                && TotalOn(log[i].entries, e, Credit) == amount
  }

  predicate OnlyCredit(log: seq<Posting>, e: nat, i: nat)
  {
    forall j :: 0 <= j < |log| && j != i ==> TotalOn(log[j].entries, e, Credit) == 0
  }

  predicate FundedOk(b: Books, c: Campaign, e: nat)
  {
    && e < |b.accounts| && c.escrow == Some(e) && c.price.Some? && 0 < c.price.value
    && FundedOnce(b.log, e, c.id, c.price.value)
    && c.price.value == Balance(b, e) + Fees(b, e) + Takes(b, e) + Retained(b, e) + Refunded(b, e)
    && (c.status.UnderReview? || c.status.ChangesNeeded? ==> Balance(b, e) == c.price.value)
    && (c.status.CalledOff? ==> Balance(b, e) == 0 && Refunded(b, e) == c.price.value)
  }

  ghost predicate MoneyOk(w: World)
  {
    var b, c, e := w.books, w.campaign, EscrowOf(w);
    && Sound(b) && Platform(b, RaliaRevenue).Some? && Platform(b, BankClearing).Some?
    && (Has(b.log, RefundKey(c.id)) ==> c.status.CalledOff?)
    && (Has(b.log, RetainKey(c.id)) ==> c.status.Fulfilled?)
    && (if Funded(c) then FundedOk(b, c, e) else c.escrow.None? && Untouched(b.log, e))
  }

  // ---- Books grow ----

  lemma {:induction false} FindAfterAppend(accounts: seq<Account>, x: Account, kind: AccountKind, owner: Option<nat>)
    ensures FindAccount(accounts + [x], kind, owner)
            == if FindAccount(accounts, kind, owner) < |accounts| then FindAccount(accounts, kind, owner)
               else if x == Account(kind, owner) then |accounts| else |accounts| + 1
    decreases |accounts|
  {
    if accounts == [] {
      assert (accounts + [x])[1..] == [];
    } else {
      assert (accounts + [x])[1..] == accounts[1..] + [x];
      FindAfterAppend(accounts[1..], x, kind, owner);
    }
  }

  /** Opening an account, this campaign's escrow account included, leaves its money where it was. */
  lemma OpeningKeepsMoney(w: World, kind: AccountKind, owner: nat)
    requires MoneyOk(w)
    ensures var (b, a) := GetOrCreate(w.books, kind, owner);
            && MoneyOk(w.(books := b)) && b.log == w.books.log && w.books.accounts <= b.accounts
            && IsAccount(b, a, kind, Some(owner))
            && (EscrowOf(w) < |w.books.accounts| ==> EscrowOf(w.(books := b)) == EscrowOf(w)
                                                     && Balance(b, EscrowOf(w)) == Balance(w.books, EscrowOf(w))
                                                     && Fees(b, EscrowOf(w)) == Fees(w.books, EscrowOf(w))
                                                     && Takes(b, EscrowOf(w)) == Takes(w.books, EscrowOf(w)))
  {
    var (b, a) := GetOrCreate(w.books, kind, owner);
    GetOrCreateIsQuiet(w.books, kind, owner);
    if b != w.books {
      var x := Account(kind, Some(owner));
      FindAfterAppend(w.books.accounts, x, CampaignEscrow, Some(w.campaign.id));
      FindAfterAppend(w.books.accounts, x, RaliaRevenue, None);
      FindAfterAppend(w.books.accounts, x, BankClearing, None);
      var e := EscrowOf(w);
      OutflowSurvivesGrowth(w.books.accounts, b.accounts, b.log, e, SubmissionPayout, PromoterAvailable);
      OutflowSurvivesGrowth(w.books.accounts, b.accounts, b.log, e, SubmissionPayout, RaliaRevenue);
      OutflowSurvivesGrowth(w.books.accounts, b.accounts, b.log, e, Adjustment, RaliaRevenue);
      OutflowSurvivesGrowth(w.books.accounts, b.accounts, b.log, e, CampaignRefund, ClientWallet);
      assert Untouched(b.log, |w.books.accounts|) && Untouched(b.log, |w.books.accounts| + 1);
    }
  }

  lemma HasAfterAppend(log: seq<Posting>, p: Posting, key: Key)
    ensures Has(log + [p], key) <==> Has(log, key) || p.key == key
  {
    if Has(log, key) {
      var i :| 0 <= i < |log| && log[i].key == key;
      assert (log + [p])[i].key == key;
    }
    assert (log + [p])[|log|] == p;
  }

  /** One more posting: the escrow balance and the four outflows move by what it says. */
  lemma PostingMovesMoney(b: Books, p: Posting, e: nat)
    requires e < |b.accounts| && b.accounts[e].kind.CampaignEscrow?
    ensures var b' := Append(b, p);
            && Balance(b', e) == Balance(b, e) + TotalOn(p.entries, e, Credit) - TotalOn(p.entries, e, Debit)
            && Fees(b', e) == Fees(b, e) + OutflowOf(b.accounts, p, e, SubmissionPayout, PromoterAvailable)
            && Takes(b', e) == Takes(b, e) + OutflowOf(b.accounts, p, e, SubmissionPayout, RaliaRevenue)
            && Retained(b', e) == Retained(b, e) + OutflowOf(b.accounts, p, e, Adjustment, RaliaRevenue)
            && Refunded(b', e) == Refunded(b, e) + OutflowOf(b.accounts, p, e, CampaignRefund, ClientWallet)
  {
    LogSnoc(b.log, p, e);
    OutflowSnoc(b.accounts, b.log, p, e, SubmissionPayout, PromoterAvailable);
    OutflowSnoc(b.accounts, b.log, p, e, SubmissionPayout, RaliaRevenue);
    OutflowSnoc(b.accounts, b.log, p, e, Adjustment, RaliaRevenue);
    OutflowSnoc(b.accounts, b.log, p, e, CampaignRefund, ClientWallet);
  }

  lemma FundedOnceStays(log: seq<Posting>, p: Posting, e: nat, campaign: nat, amount: nat)
    requires FundedOnce(log, e, campaign, amount) && TotalOn(p.entries, e, Credit) == 0
    ensures FundedOnce(log + [p], e, campaign, amount)
  {
    var i :| 0 <= i < |log| && OnlyCredit(log, e, i)
             && log[i].kind.CampaignFunding? && log[i].reference == CampaignRef(campaign)
             && TotalOn(log[i].entries, e, Credit) == amount;
    assert (log + [p])[i] == log[i];
    assert OnlyCredit(log + [p], e, i);
  }

  // ---- Each handler ----

  /** Handlers that leave the books alone and keep the campaign on the same side of funding. */
  lemma RowsOnlyKeepsMoney(w: World, c': Campaign)
    requires MoneyOk(w) && c'.id == w.campaign.id && c'.escrow == w.campaign.escrow
    requires Funded(c') == Funded(w.campaign) && (Funded(c') ==> c'.price == w.campaign.price)
    requires w.campaign.status == c'.status
             || (w.campaign.status.UnderReview? && (c'.status.ChangesNeeded? || c'.status.Live?))
             || (w.campaign.status.ChangesNeeded? && c'.status.UnderReview?)
             || (w.campaign.status.Live? && c'.status.Fulfilled?)
             || !Funded(c')
    ensures MoneyOk(w.(campaign := c'))
  {
  }

  lemma FundingPosted(w: World, p: Posting, e: nat, bank: nat, price: nat)
    requires MoneyOk(w) && !Funded(w.campaign) && 0 < price && w.campaign.price == Some(price)
    requires e == EscrowOf(w) < |w.books.accounts| && bank != e
    requires p == FundPosting(w.campaign.id, bank, e, price, p.key) && (p.key.ClientKey? || p.key.PaystackKey?)
    requires Ledger.Post(w.books, p).0 == Append(w.books, p)
    ensures MoneyOk(World(Append(w.books, p), w.campaign.(status := UnderReview, escrow := Some(e))))
  {
    var b, c := w.books, w.campaign;
    var b' := Append(b, p);
    TransferTotals(bank, e, price);
    PostKeepsSound(b, p);
    UnknownAccountIsEmpty(b.log, e);
    UntouchedHasNoOutflow(b.accounts, b.log, e);
    PostingMovesMoney(b, p, e);
    HasAfterAppend(b.log, p, RefundKey(c.id));
    HasAfterAppend(b.log, p, RetainKey(c.id));
    forall j | 0 <= j < |b.log| ensures TotalOn(b.log[j].entries, e, Credit) == 0 {
      UntouchedIsZero(b.log[j].entries, e, Credit);
    }
    assert b'.log[|b.log|] == p && OnlyCredit(b'.log, e, |b.log|);
    assert FundedOnce(b'.log, e, c.id, price);
  }

  /** Funding a quoted campaign under a fresh key: the price is credited once and the campaign goes to review. */
  lemma FundKeepsMoney(w: World, price: nat, key: Key)
    requires MoneyOk(w) && Fundable(w.campaign) && w.campaign.price == Some(price) && !Has(w.books.log, key)
    requires key.ClientKey? || key.PaystackKey?
    ensures MoneyOk(FundEscrow(w, price, key).0)
    ensures FundEscrow(w, price, key).1 == if Blank(key) then LedgerRefused(MissingKey)
                                           else if price == 0 then LedgerRefused(NonPositiveAmount) else Success
    ensures FundEscrow(w, price, key).1.Success? ==> FundEscrow(w, price, key).0.campaign.status.UnderReview?
  {
    var c := w.campaign;
    var (b, e) := GetOrCreate(w.books, CampaignEscrow, c.id);
    OpeningKeepsMoney(w, CampaignEscrow, c.id);
    OpeningFindsEscrow(w);
    var w1 := w.(books := b);
    var bank := Platform(b, BankClearing).value;
    var p := FundPosting(c.id, bank, e, price, key);
    OutcomeTellsChange(b, p);
    if Blank(key) {
      BlankIsRefused(b, p, bank, e, price);
    } else {
      TransferGoesThrough(b, p, bank, e, price);
      if 0 < price {
        FundingPosted(w1, p, e, bank, price);
      }
    }
  }

  lemma OpeningFindsEscrow(w: World)
    ensures var (b, e) := GetOrCreate(w.books, CampaignEscrow, w.campaign.id);
            e == EscrowOf(w.(books := b))
  {
    FindAfterAppend(w.books.accounts, Account(CampaignEscrow, Some(w.campaign.id)), CampaignEscrow,
      Some(w.campaign.id));
  }

  lemma BlankIsRefused(b: Books, p: Posting, from: nat, to: nat, amount: int)
    requires Blank(p.key) && p.entries == Transfer(from, to, amount)
    ensures Ledger.Post(b, p) == (b, Refused(MissingKey))
  {
  }

  lemma {:induction false} UntouchedHasNoOutflow(accounts: seq<Account>, log: seq<Posting>, e: nat)
    requires Untouched(log, e)
    ensures forall kind, to :: Outflow(accounts, log, e, kind, to) == 0
    decreases |log|
  {
    if log != [] {
      var front := log[..|log| - 1];
      assert forall i :: 0 <= i < |front| ==> front[i] == log[i];
      UntouchedHasNoOutflow(accounts, front, e);
      UntouchedIsZero(log[|log| - 1].entries, e, Debit);
    }
  }

  lemma RefundPosted(w: World, p: Posting, wallet: nat)
    requires MoneyOk(w) && w.campaign.status.UnderReview?
    requires wallet < |w.books.accounts| && w.books.accounts[wallet].kind.ClientWallet?
    requires p == RefundPosting(w.campaign.id, EscrowOf(w), wallet, w.campaign.price.value)
    ensures Ledger.Post(w.books, p) == (Append(w.books, p), Posted(|w.books.log|, false))
    ensures MoneyOk(World(Append(w.books, p), w.campaign.(status := CalledOff)))
  {
    var b, c, e := w.books, w.campaign, EscrowOf(w);
    var price := c.price.value;
    TransferTotals(e, wallet, price);
    TransferGoesThrough(b, p, e, wallet, price);
    OutcomeTellsChange(b, p);
    TransferCredits(b.accounts, e, wallet, price, ClientWallet);
    PostKeepsSound(b, p);
    PostingMovesMoney(b, p, e);
    FundedOnceStays(b.log, p, e, c.id, price);
    HasAfterAppend(b.log, p, RefundKey(c.id));
    HasAfterAppend(b.log, p, RetainKey(c.id));
    FeesAreNonNegative(b, e);
  }

  /** A terminal rejection of a funded campaign is never refused: the whole price goes back to the client. */
  lemma TerminalRejectionRefunds(w: World)
    requires MoneyOk(w) && w.campaign.status.UnderReview?
    ensures var (w', reply) := RejectCampaign(w, true);
            && reply.Success? && w'.campaign.status.CalledOff? && MoneyOk(w')
            && Balance(w'.books, EscrowOf(w')) == 0 && Refunded(w'.books, EscrowOf(w')) == w.campaign.price.value
  {
    var c, e := w.campaign, EscrowOf(w);
    var (b, wallet) := GetOrCreate(w.books, ClientWallet, c.client);
    OpeningKeepsMoney(w, ClientWallet, c.client);
    var w1 := w.(books := b);
    RefundPosted(w1, RefundPosting(c.id, e, wallet, c.price.value), wallet);
  }

  lemma {:induction false} CreditsAreNonNegative(accounts: seq<Account>, es: seq<Entry>, to: AccountKind)
    requires AllPositive(es)
    ensures 0 <= CreditsTo(accounts, es, to)
    decreases |es|
  {
    if es != [] {
      assert AllPositive(es[..|es| - 1]);
      CreditsAreNonNegative(accounts, es[..|es| - 1], to);
    }
  }

  lemma {:induction false} OutflowIsNonNegative(accounts: seq<Account>, log: seq<Posting>, e: nat,
                                                kind: TransactionKind, to: AccountKind)
    requires forall i :: 0 <= i < |log| ==> Checked(log[i]).None?
    ensures 0 <= Outflow(accounts, log, e, kind, to)
    decreases |log|
  {
    if log != [] {
      assert forall i :: 0 <= i < |log| - 1 ==> log[..|log| - 1][i] == log[i];
      OutflowIsNonNegative(accounts, log[..|log| - 1], e, kind, to);
      CreditsAreNonNegative(accounts, log[|log| - 1].entries, to);
    }
  }

  lemma FeesAreNonNegative(b: Books, e: nat)
    requires Sound(b)
    ensures 0 <= Fees(b, e) && 0 <= Takes(b, e) && 0 <= Retained(b, e) && 0 <= Refunded(b, e)
  {
    OutflowIsNonNegative(b.accounts, b.log, e, SubmissionPayout, PromoterAvailable);
    OutflowIsNonNegative(b.accounts, b.log, e, SubmissionPayout, RaliaRevenue);
    OutflowIsNonNegative(b.accounts, b.log, e, Adjustment, RaliaRevenue);
    OutflowIsNonNegative(b.accounts, b.log, e, CampaignRefund, ClientWallet);
  }

  /** From w to w' the escrow account paid out `paid`, as fees and takes. */
  predicate PaidOut(w: World, w': World, paid: nat)
  {
    var e := EscrowOf(w);
    e < |w.books.accounts| ==>
      && EscrowOf(w') == e && e < |w'.books.accounts|
      && w'.books.accounts[e] == w.books.accounts[e]
      && Balance(w'.books, e) == Balance(w.books, e) - paid
      && Fees(w'.books, e) + Takes(w'.books, e) == Fees(w.books, e) + Takes(w.books, e) + paid
  }

  lemma SettlementPosted(w: World, s: nat, verified: nat, key: Key, promoter: nat, settled: Pricing.Settlement)
    requires MoneyOk(w) && OnAir(w.campaign) && GoodSubmission(w.campaign, s) && key.ClientKey?
             && !Has(w.books.log, key)
    requires promoter < |w.books.accounts| && w.books.accounts[promoter].kind.PromoterAvailable?
    requires 0 <= settled.take && settled.delivered == settled.fee + settled.take
    ensures var paid := PostSettlement(w, s, verified, key, promoter, settled);
            && MoneyOk(paid.world)
            && (paid.paidNow <==> 0 < settled.delivered <= Balance(w.books, EscrowOf(w)) && !Blank(key))
            && PaidOut(w, paid.world, if paid.paidNow then settled.delivered else 0)
            && paid.world.campaign == (if paid.paidNow then MarkApproved(w.campaign, s, verified) else w.campaign)
            && (paid.reply == LedgerRefused(InsufficientFunds)
               <==> !Blank(key) && 0 < settled.delivered && Balance(w.books, EscrowOf(w)) < settled.delivered)
            && (paid.paidNow ==> paid.reply.Success?)
  {
    var b, c, e := w.books, w.campaign, EscrowOf(w);
    var revenue := Platform(b, RaliaRevenue).value;
    var p := SettlePosting(s, e, promoter, revenue, settled.fee, settled.take, key);
    SettleGoesThrough(b, s, e, promoter, revenue, settled.fee, settled.take, key);
    OutcomeTellsChange(b, p);
    if Ledger.Post(b, p).1.Posted? {
      PaidKeepsMoney(w, p, s, promoter, revenue, settled.fee, settled.take, key);
      MarkKeepsHeader(c, s, verified);
      RowsOnlyKeepsMoney(World(Append(b, p), c), MarkApproved(c, s, verified));
    }
  }

  /** The guards of an approval before any money moves. */
  predicate MayPay(w: World, s: nat, verified: int, key: Key, settlement: Pricing.SettlementConfig)
  {
    && GoodSubmission(w.campaign, s) && !Has(w.books.log, key) && w.campaign.submissions[s].verdict.Undecided?
    && w.campaign.escrow.Some?
    && var post := JudgedPost(w.campaign, s);
       var settled := Pricing.SettleDelivery(post.gross, verified, post.promised, settlement);
       settled.Ok? && settled.value.meetsThreshold
  }

  lemma PayUnfolds(w: World, s: nat, verified: int, key: Key, settlement: Pricing.SettlementConfig)
    ensures var paid := PayForPost(w, s, verified, key, settlement);
            if MayPay(w, s, verified, key, settlement) then
              var post := JudgedPost(w.campaign, s);
              var (b, a) :=
                GetOrCreate(w.books, PromoterAvailable,
                            w.campaign.assignments[w.campaign.submissions[s].assignment].promoter);
              paid == PostSettlement(w.(books := b), s, verified, key, a,
                                     Pricing.SettleDelivery(post.gross, verified, post.promised, settlement).value)
            else !paid.paidNow && paid.world == w && paid.reply != LedgerRefused(InsufficientFunds)
  {
  }

  /** What paying for a post does to the books: its delivered gross leaves escrow as fee and take, or nothing moves. */
  lemma PayMovesDelivered(w: World, s: nat, verified: int, key: Key, settlement: Pricing.SettlementConfig)
    requires MoneyOk(w) && RowsOk(w.campaign) && key.ClientKey?
    ensures var paid := PayForPost(w, s, verified, key, settlement);
            && MoneyOk(paid.world)
            && (if paid.paidNow then
                  GoodSubmission(w.campaign, s) && w.campaign.submissions[s].verdict.Undecided? && 0 <= verified &&
                  var post := JudgedPost(w.campaign, s);
                  0 < post.promised && settlement.threshold * post.promised <= verified * 100 &&
                  var delivered := Pricing.Delivered(post.gross, verified, post.promised);
                  0 < delivered && PaidOut(w, paid.world, delivered)
                    && paid.world.campaign == MarkApproved(w.campaign, s, verified)
                else PaidOut(w, paid.world, 0) && paid.world.campaign == w.campaign)
  {
    PayUnfolds(w, s, verified, key, settlement);
    if MayPay(w, s, verified, key, settlement) {
      PermittedPayMoves(w, s, verified, key, settlement);
    }
  }

  lemma PermittedPayMoves(w: World, s: nat, verified: int, key: Key, settlement: Pricing.SettlementConfig)
    requires MoneyOk(w) && RowsOk(w.campaign) && key.ClientKey? && MayPay(w, s, verified, key, settlement)
    ensures var post := JudgedPost(w.campaign, s);
            var settled := Pricing.SettleDelivery(post.gross, verified, post.promised, settlement).value;
            var (b, a) :=
              GetOrCreate(w.books, PromoterAvailable,
                          w.campaign.assignments[w.campaign.submissions[s].assignment].promoter);
            var paid := PostSettlement(w.(books := b), s, verified, key, a, settled);
            && MoneyOk(paid.world)
            && PaidOut(w, paid.world, if paid.paidNow then settled.delivered else 0)
            && (paid.paidNow ==> 0 < settled.delivered)
            && paid.world.campaign == (if paid.paidNow then MarkApproved(w.campaign, s, verified) else w.campaign)
  {
    var c := w.campaign;
    var post := JudgedPost(c, s);
    var settled := Pricing.SettleDelivery(post.gross, verified, post.promised, settlement).value;
    var promoter := c.assignments[c.submissions[s].assignment].promoter;
    var (b, a) := GetOrCreate(w.books, PromoterAvailable, promoter);
    OpeningKeepsMoney(w, PromoterAvailable, promoter);
    Pricing.FeeWithinPrice(settled.delivered, settlement.takeRate);
    assert c.submissions != [];
    SettlementPosted(w.(books := b), s, verified, key, a, settled);
  }

  lemma MarkKeepsHeader(c: Campaign, s: nat, verified: nat)
    requires GoodSubmission(c, s)
    ensures var c' := MarkApproved(c, s, verified);
            c'.id == c.id && c'.status == c.status && c'.price == c.price && c'.escrow == c.escrow
  {
  }

  /** A posting that only takes fees and takes out of escrow. */
  lemma OutgoingKeepsMoney(w: World, p: Posting, fee: int, take: int)
    requires MoneyOk(w) && OnAir(w.campaign) && Post(w.books, p).0 == Append(w.books, p)
    requires p.key != RefundKey(w.campaign.id) && p.key != RetainKey(w.campaign.id) && p.kind.SubmissionPayout?
    requires TotalOn(p.entries, EscrowOf(w), Credit) == 0 && TotalOn(p.entries, EscrowOf(w), Debit) == fee + take
    requires OutflowOf(w.books.accounts, p, EscrowOf(w), SubmissionPayout, PromoterAvailable) == fee
    requires OutflowOf(w.books.accounts, p, EscrowOf(w), SubmissionPayout, RaliaRevenue) == take
    ensures var b' := Append(w.books, p);
            && MoneyOk(w.(books := b'))
            && Balance(b', EscrowOf(w)) == Balance(w.books, EscrowOf(w)) - (fee + take)
            && Fees(b', EscrowOf(w)) == Fees(w.books, EscrowOf(w)) + fee
            && Takes(b', EscrowOf(w)) == Takes(w.books, EscrowOf(w)) + take
  {
    var b, c, e := w.books, w.campaign, EscrowOf(w);
    PostKeepsSound(b, p);
    PostingMovesMoney(b, p, e);
    FundedOnceStays(b.log, p, e, c.id, c.price.value);
    HasAfterAppend(b.log, p, RefundKey(c.id));
    HasAfterAppend(b.log, p, RetainKey(c.id));
  }

  lemma PaidKeepsMoney(w: World, p: Posting, s: nat, promoter: nat, revenue: nat, fee: nat, take: nat, key: Key)
    requires MoneyOk(w) && w.campaign.escrow.Some? && key.ClientKey?
    requires promoter < |w.books.accounts| && w.books.accounts[promoter].kind.PromoterAvailable?
    requires revenue < |w.books.accounts| && w.books.accounts[revenue].kind.RaliaRevenue?
    requires p == SettlePosting(s, EscrowOf(w), promoter, revenue, fee, take, key)
             && Post(w.books, p).0 == Append(w.books, p)
    requires 0 < fee + take && OnAir(w.campaign)
    ensures var b' := Append(w.books, p);
            && MoneyOk(w.(books := b'))
            && Balance(b', EscrowOf(w)) == Balance(w.books, EscrowOf(w)) - (fee + take)
            && Fees(b', EscrowOf(w)) == Fees(w.books, EscrowOf(w)) + fee
            && Takes(b', EscrowOf(w)) == Takes(w.books, EscrowOf(w)) + take
  {
    SettleTotals(w.books.accounts, s, EscrowOf(w), promoter, revenue, fee, take, key);
    OutgoingKeepsMoney(w, p, fee, take);
  }

  lemma RetainPosted(w: World, p: Posting, revenue: nat, remaining: nat)
    requires MoneyOk(w) && w.campaign.status.Live? && 0 < remaining == Balance(w.books, EscrowOf(w))
    requires revenue < |w.books.accounts| && w.books.accounts[revenue].kind.RaliaRevenue?
    requires p == RetainPosting(w.campaign.id, EscrowOf(w), revenue, remaining)
    ensures Ledger.Post(w.books, p) == (Append(w.books, p), Posted(|w.books.log|, false))
    ensures var w' := World(Append(w.books, p), w.campaign.(status := Fulfilled));
            MoneyOk(w') && Balance(w'.books, EscrowOf(w)) == 0 && EscrowOf(w') == EscrowOf(w)
            && Fees(w'.books, EscrowOf(w)) == Fees(w.books, EscrowOf(w))
            && Takes(w'.books, EscrowOf(w)) == Takes(w.books, EscrowOf(w))
  {
    var b, c, e := w.books, w.campaign, EscrowOf(w);
    TransferTotals(e, revenue, remaining);
    TransferGoesThrough(b, p, e, revenue, remaining);
    OutcomeTellsChange(b, p);
    TransferCredits(b.accounts, e, revenue, remaining, RaliaRevenue);
    PostKeepsSound(b, p);
    PostingMovesMoney(b, p, e);
    FundedOnceStays(b.log, p, e, c.id, c.price.value);
    HasAfterAppend(b.log, p, RefundKey(c.id));
    HasAfterAppend(b.log, p, RetainKey(c.id));
  }

  /** Deciding is never refused: it moves money only to book a finished campaign's whole remainder to revenue. */
  lemma DecideKeepsMoney(w: World, reachPerPost: nat)
    requires MoneyOk(w) && w.campaign.status.Live?
    ensures var (w', reply) := Decide(w, EscrowOf(w), reachPerPost);
            && MoneyOk(w') && reply.Success? && EscrowOf(w') == EscrowOf(w)
            && Fees(w'.books, EscrowOf(w)) == Fees(w.books, EscrowOf(w))
            && Takes(w'.books, EscrowOf(w)) == Takes(w.books, EscrowOf(w))
            && EscrowOf(w) < |w'.books.accounts|
            && Balance(w'.books, EscrowOf(w)) == (if w'.campaign.status.Fulfilled? && !WorkInFlight(w.campaign) then 0
                                                  else Balance(w.books, EscrowOf(w)))
  {
    var c, e := w.campaign, EscrowOf(w);
    var reopen := ReopenCount(c, Balance(w.books, e), reachPerPost);
    if 0 < reopen {
      RowsOnlyKeepsMoney(w, Decide(w, e, reachPerPost).0.campaign);
    } else if ReachMet(c) || !WorkInFlight(c) {
      RowsOnlyKeepsMoney(w, c.(status := Fulfilled));
      var remaining := Balance(w.books, e);
      if !WorkInFlight(c) && 0 < remaining {
        var revenue := Platform(w.books, RaliaRevenue).value;
        RetainPosted(w, RetainPosting(c.id, e, revenue, remaining), revenue, remaining);
      }
    }
  }

  lemma ApproveKeepsMoney(w: World, s: nat, verified: int, key: Key, terms: ApprovalTerms)
    requires MoneyOk(w) && RowsOk(w.campaign) && key.ClientKey?
    ensures MoneyOk(ApproveSubmission(w, s, verified, key, terms).0)
  {
    var paid := PayForPost(w, s, verified, key, terms.settlement);
    PayMovesDelivered(w, s, verified, key, terms.settlement);
    if paid.paidNow && w.campaign.status.Live? {
      assert paid.world.campaign.status.Live?;
      DecideKeepsMoney(paid.world, terms.reachPerPost);
    }
  }

  /** A posting of someone else's leaves this campaign's money alone. */
  lemma ForeignKeepsMoney(w: World, p: Posting)
    requires MoneyOk(w) && Foreign(w, p)
    ensures var w' := w.(books := Ledger.Post(w.books, p).0);
            && MoneyOk(w') && PaidOut(w, w', 0) && EscrowOf(w') == EscrowOf(w)
  {
    var b, c, e := w.books, w.campaign, EscrowOf(w);
    PostKeepsSound(b, p);
    OutcomeTellsChange(b, p);
    if Ledger.Post(b, p).0 != b {
      HasAfterAppend(b.log, p, RefundKey(c.id));
      HasAfterAppend(b.log, p, RetainKey(c.id));
      if e < |b.accounts| {
        ForeignMovesNothing(b, p, e);
        if Funded(c) {
          FundedOnceStays(b.log, p, e, c.id, c.price.value);
        }
      }
    }
  }

  /** A posting that does not touch an escrow account leaves what went in and out of it. */
  lemma ForeignMovesNothing(b: Books, p: Posting, e: nat)
    requires e < |b.accounts| && b.accounts[e].kind.CampaignEscrow? && !Touches(p.entries, e)
    ensures var b' := Append(b, p);
            && TotalOn(p.entries, e, Debit) == 0 && TotalOn(p.entries, e, Credit) == 0
            && Balance(b', e) == Balance(b, e) && Fees(b', e) == Fees(b, e) && Takes(b', e) == Takes(b, e)
            && Retained(b', e) == Retained(b, e) && Refunded(b', e) == Refunded(b, e)
  {
    UntouchedIsZero(p.entries, e, Debit);
    UntouchedIsZero(p.entries, e, Credit);
    PostingMovesMoney(b, p, e);
  }

  lemma {:induction false} OfferEachKeepsHeader(c: Campaign, promoters: seq<nat>, terms: OfferTerms)
    ensures OfferEach(c, promoters, terms).0 == c.(offers := OfferEach(c, promoters, terms).0.offers)
    decreases |promoters|
  {
    if promoters != [] && promoters[0] in terms.qualified {
      if AlreadyOffered(c, promoters[0]) {
        OfferEachKeepsHeader(c, promoters[1..], terms);
      } else {
        OfferEachKeepsHeader(c.(offers := c.offers + [NewOffer(c, promoters[0], terms)]), promoters[1..], terms);
      }
    }
  }

  lemma SweepOneKeepsHeader(c: Campaign, i: nat, now: int)
    requires i < |c.assignments|
    ensures var c' := SweepOne(c, i, now);
            c' == c.(assignments := c'.assignments, slots := c'.slots, slotsFilled := c'.slotsFilled,
              noShows := c'.noShows)
            && |c'.slots| == |c.slots|
  {
  }

  /** What a sweep never touches. */
  predicate SameBut(c: Campaign, c': Campaign)
  {
    c'.id == c.id && c'.status == c.status && c'.price == c.price && c'.escrow == c.escrow && c'.posts == c.posts
    && c'.submissions == c.submissions && c'.offers == c.offers && |c'.slots| == |c.slots| && c'.target == c.target
  }

  lemma SweepKeepsHeader(c: Campaign, n: nat, now: int)
    requires n <= |c.assignments|
    ensures SameBut(c, SweepUpTo(c, n, now))
  {
    forall x: Campaign, i: nat | i < n && |x.assignments| == |c.assignments| && SameBut(c, x)
      ensures SameBut(c, SweepOne(x, i, now))
    {
      SweepOneKeepsHeader(x, i, now);
    }
    SweepInduction(c, n, now, (x: Campaign, i: nat) => SameBut(c, x));
  }

  lemma BriefKeepsMoney(w: World, action: Action)
    requires MoneyOk(w) && RowsOk(w.campaign) && IsBriefWork(action)
    ensures MoneyOk(Step(w, action))
  {
    BriefLeavesMoney(w, action);
    RowsOnlyKeepsMoney(w, Step(w, action).campaign);
  }

  lemma BriefLeavesMoney(w: World, action: Action)
    requires IsBriefWork(action)
    ensures var c, c' := w.campaign, Step(w, action).campaign;
            && Step(w, action) == w.(campaign := c') && c'.id == c.id && c'.escrow == c.escrow
            && (c' == c || (!Funded(c) && !Funded(c')))
  {
  }

  predicate SameHeader(c: Campaign, c': Campaign)
  {
    c'.id == c.id && c'.status == c.status && c'.price == c.price && c'.escrow == c.escrow
  }

  lemma OfferWorkKeepsHeader(w: World, action: Action)
    requires IsOfferWork(action)
    ensures Step(w, action).books == w.books && SameHeader(w.campaign, Step(w, action).campaign)
  {
    if action.DoSendOffers? {
      OfferEachKeepsHeader(w.campaign, action.promoters, action.offerTerms);
    }
  }

  lemma ProofWorkKeepsHeader(w: World, action: Action)
    requires IsProofWork(action)
    ensures Step(w, action).books == w.books && SameHeader(w.campaign, Step(w, action).campaign)
  {
    if action.DoSweep? {
      SweepKeepsHeader(w.campaign, |w.campaign.assignments|, action.now);
    }
  }

  lemma EscrowIsNonNegative(w: World)
    requires MoneyOk(w) && EscrowOf(w) < |w.books.accounts|
    ensures 0 <= Balance(w.books, EscrowOf(w))
  {
    assert w.books.accounts[EscrowOf(w)].kind.CampaignEscrow?;
  }

  lemma WorkKeepsHeader(w: World, action: Action)
    requires IsWork(action)
    ensures Step(w, action).books == w.books && SameHeader(w.campaign, Step(w, action).campaign)
  {
    if IsProofWork(action) {
      ProofWorkKeepsHeader(w, action);
    } else {
      OfferWorkKeepsHeader(w, action);
    }
  }

  lemma WorkKeepsMoney(w: World, action: Action)
    requires MoneyOk(w)
    requires IsWork(action)
    ensures MoneyOk(Step(w, action))
  {
    WorkKeepsHeader(w, action);
    RowsOnlyKeepsMoney(w, Step(w, action).campaign);
  }

  lemma FundingStepKeepsMoney(w: World, action: Action)
    requires MoneyOk(w) && IsFunding(action)
    ensures MoneyOk(Step(w, action))
  {
    var key := if action.DoFund? then action.key else PaystackKey(action.reference);
    if w.campaign.price.Some? && Fundable(w.campaign) && !Has(w.books.log, key)
      && (key.ClientKey? || key.PaystackKey?) {
      FundKeepsMoney(w, w.campaign.price.value, key);
    }
  }

  lemma ReviewKeepsMoney(w: World, action: Action)
    requires MoneyOk(w) && IsReview(action)
    ensures MoneyOk(Step(w, action))
  {
    if action == DoRejectCampaign(true) {
      if w.campaign.status.UnderReview? {
        TerminalRejectionRefunds(w);
      }
    } else {
      RowsOnlyKeepsMoney(w, Step(w, action).campaign);
    }
  }

  lemma ApproveStepMoney(w: World, action: Action)
    requires MoneyOk(w) && RowsOk(w.campaign) && action.DoApprove?
    ensures MoneyOk(Step(w, action))
  {
    StepIsHandler(w, action);
    if action.key.ClientKey? {
      ApproveKeepsMoney(w, action.submission, action.verified, action.key, action.terms);
    }
  }

  lemma ElsewhereStepMoney(w: World, action: Action)
    requires MoneyOk(w) && IsElsewhere(action)
    ensures MoneyOk(Step(w, action))
  {
    if action.AccountElsewhere? {
      OpeningKeepsMoney(w, action.kind, action.owner);
    } else if Foreign(w, action.posting) {
      ForeignKeepsMoney(w, action.posting);
    }
  }

  /** Every step keeps the account of the money. */
  lemma StepKeepsMoney(w: World, action: Action)
    requires MoneyOk(w) && RowsOk(w.campaign)
    ensures MoneyOk(Step(w, action))
  {
    if IsBriefWork(action) {
      BriefKeepsMoney(w, action);
    } else if IsFunding(action) {
      FundingStepKeepsMoney(w, action);
    } else if IsReview(action) {
      ReviewKeepsMoney(w, action);
    } else if action.DoApprove? {
      ApproveStepMoney(w, action);
    } else if IsElsewhere(action) {
      ElsewhereStepMoney(w, action);
    } else {
      WorkKeepsMoney(w, action);
    }
  }

  lemma {:induction false} RunKeepsMoney(w: World, actions: seq<Action>)
    requires MoneyOk(w) && RowsOk(w.campaign)
    ensures MoneyOk(RunWorld(w, actions)) && RowsOk(RunWorld(w, actions).campaign)
    decreases |actions|
  {
    if actions != [] {
      var front := actions[..|actions| - 1];
      RunKeepsMoney(w, front);
      StepKeepsMoney(RunWorld(w, front), actions[|actions| - 1]);
      StepKeepsRows(RunWorld(w, front), actions[|actions| - 1]);
    }
  }

  /** A campaign fresh from creation over books that know nothing of it. */
  ghost predicate FreshStart(w: World)
  {
    && (exists id, client, slots, recurring, posts, starts, ends ::
          w.campaign == NewCampaign(id, client, slots, recurring, posts, starts, ends))
    && Sound(w.books) && Platform(w.books, RaliaRevenue).Some? && Platform(w.books, BankClearing).Some?
    && !Has(w.books.log, RefundKey(w.campaign.id)) && !Has(w.books.log, RetainKey(w.campaign.id))
    && Untouched(w.books.log, EscrowOf(w))
  }

  lemma FreshStartIsOk(w: World)
    requires FreshStart(w)
    ensures MoneyOk(w) && RowsOk(w.campaign)
  {
  }

  /**
   * Conservation on every run: once in review a campaign has been funded exactly once with its price, and every kobo of
   * it is accounted for.
   */
  lemma PriceIsConserved(w: World, actions: seq<Action>)
    requires FreshStart(w)
    ensures var w' := RunWorld(w, actions);
            var (b, c, e) := (w'.books, w'.campaign, EscrowOf(w'));
            Funded(c) ==>
              && e < |b.accounts| && c.price.Some? && FundedOnce(b.log, e, c.id, c.price.value)
              && c.price.value == Balance(b, e) + Fees(b, e) + Takes(b, e) + Retained(b, e) + Refunded(b, e)
              && 0 <= Balance(b, e) && 0 <= Fees(b, e) && 0 <= Takes(b, e) && 0 <= Retained(b, e) && 0 <= Refunded(b, e)
  {
    FreshStartIsOk(w);
    RunKeepsMoney(w, actions);
    FeesAreNonNegative(RunWorld(w, actions).books, EscrowOf(RunWorld(w, actions)));
  }

  /** On every run a campaign reaching review can be rejected outright and refunded in full. */
  lemma RefundIsNeverRefused(w: World, actions: seq<Action>)
    requires FreshStart(w) && RunWorld(w, actions).campaign.status.UnderReview?
    ensures var w1 := RunWorld(w, actions);
            var (w2, reply) := RejectCampaign(w1, true);
            reply.Success? && EscrowOf(w2) < |w2.books.accounts| && Balance(w2.books, EscrowOf(w2)) == 0
            && w1.campaign.price.Some? && Refunded(w2.books, EscrowOf(w2)) == w1.campaign.price.value
  {
    FreshStartIsOk(w);
    RunKeepsMoney(w, actions);
    TerminalRejectionRefunds(RunWorld(w, actions));
  }
}
