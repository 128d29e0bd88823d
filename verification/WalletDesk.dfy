/** The withdrawal handlers as they run: the withdrawals table, updated in place, over the shared ledger service. */
module WalletDesks {
  import opened Common
  import opened Ledger
  import opened LedgerServices
  import opened Withdrawals

  class WalletDesk {
    const ledger: LedgerService
    var rows: seq<Withdrawal>

    function State(): Desk
      reads this, ledger
    {
      Desk(ledger.State(), rows)
    }

    constructor (ledger: LedgerService)
      ensures this.ledger == ledger && State() == Desk(ledger.State(), [])
    {
      this.ledger, rows := ledger, [];
    }

    method RequestWithdrawal(promoter: nat, hasBankAccount: bool, minimum: nat, amount: int) returns (reply: Reply)
      modifies this, ledger
      ensures (State(), reply) == Request(old(State()), promoter, hasBankAccount, minimum, amount)
    {
      if !hasBankAccount || amount < minimum {
        return BadRequest;
      }
      OpenedIsFound(ledger.State(), promoter);
      var account := ledger.GetOrCreateAccount(PromoterAvailable, promoter);
      var available := ledger.GetBalance(account);
      var pending := Sum(ReservedOne(promoter), rows);
      if available.value - pending < amount {
        return BadRequest;
      }
      rows := rows + [Withdrawal(promoter, amount, Requested)];
      return Success;
    }

    method Approve(i: nat, verified: bool) returns (reply: Reply)
      modifies this
      ensures (State(), reply) == ApproveWithdrawal(old(State()), i, verified)
    {
      if i >= |rows| {
        return NotFound;
      }
      if !rows[i].status.Requested? {
        return WrongState;
      }
      if !verified {
        return BadRequest;
      }
      rows := rows[i := rows[i].(status := ApprovedForPayment)];
      return Success;
    }

    method RecordPaid(i: nat, key: Key) returns (reply: Reply)
      modifies this, ledger
      ensures (State(), reply) == Withdrawals.RecordPaid(old(State()), i, key)
    {
      if i >= |rows| {
        return NotFound;
      }
      var posted := ledger.AlreadyPosted(key);
      if posted {
        return AlreadyRecorded;
      }
      if !rows[i].status.ApprovedForPayment? {
        return WrongState;
      }
      var account := ledger.GetOrCreateAccount(PromoterAvailable, rows[i].promoter);
      var outcome := ledger.PayWithdrawal(i, account, rows[i].amount, key);
      if outcome.Refused? {
        return LedgerRefused(outcome.why);
      }
      if !outcome.replayed {
        rows := rows[i := rows[i].(status := PaidOff)];
      }
      return Success;
    }

    method Fail(i: nat) returns (reply: Reply)
      modifies this
      ensures (State(), reply) == Withdrawals.Fail(old(State()), i)
    {
      if i >= |rows| {
        return NotFound;
      }
      if !rows[i].status.Requested? && !rows[i].status.ApprovedForPayment? {
        return WrongState;
      }
      rows := rows[i := rows[i].(status := FailedToPay)];
      return Success;
    }

    method Reverse(i: nat, key: Key) returns (reply: Reply)
      modifies this, ledger
      ensures (State(), reply) == Withdrawals.Reverse(old(State()), i, key)
    {
      if i >= |rows| {
        return NotFound;
      }
      var posted := ledger.AlreadyPosted(key);
      if posted {
        return AlreadyRecorded;
      }
      if !rows[i].status.PaidOff? {
        return WrongState;
      }
      var account := ledger.GetOrCreateAccount(PromoterAvailable, rows[i].promoter);
      var outcome := ledger.ReverseWithdrawal(i, account, rows[i].amount, key);
      if outcome.Refused? {
        return LedgerRefused(outcome.why);
      }
      if !outcome.replayed {
        rows := rows[i := rows[i].(status := Reversed)];
      }
      return Success;
    }
  }
}
