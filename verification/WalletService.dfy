/** The money-in half of internal/service/wallet_service.go as it is written, proved to run its tasks alone. */
module WalletService {
  import opened Sums
  import opened Ledger
  import opened MoneyIn

  ghost predicate FundRefsUnique(funds: seq<FundRow>) {
    forall i, j :: 0 <= i < j < |funds| ==> funds[i].ref != funds[j].ref
  }

  lemma FoundAt(funds: seq<FundRow>, id: nat)
    requires FundRefsUnique(funds) && id < |funds|
    ensures FindFund(funds, funds[id].ref, |funds|) == Some(id)
  {
    var r := FindFund(funds, funds[id].ref, |funds|);
    assert funds[id].ref == funds[id].ref;
  }

  lemma RunOn(b: Book, m: Money, k: Task, b': Book, m': Money, k': Task)
    requires !Over(k) && TaskStep(b, m, k) == (b', m', k')
    ensures RunTask(b, m, k) == RunTask(b', m', k')
  {
  }

  lemma AskedStep(b: Book, m: Money, c: FundCall)
    ensures var at := CheckFund(m, c);
            RunTask(b, m, FundTask(c, Asked))
            == if at == Checked then RunTask(b, m, FundTask(c, Checked)) else (b, m, FundTask(c, at))
  {
    var k := FundTask(c, CheckFund(m, c));
    RunOn(b, m, FundTask(c, Asked), b, m, k);
    assert Over(k) ==> RunTask(b, m, k) == (b, m, k);
  }

  lemma CheckedStep(b: Book, m: Money, c: FundCall)
    ensures RunTask(b, m, FundTask(c, Checked))
            == if !c.create || FundRefUsed(m.funds, c.ref) then (b, m, FundTask(c, FundOver(RequestRefused)))
               else RunTask(b, m.(funds := m.funds + [FundRow(c.user, c.ref, c.amount, FundPending, m.now, None, [], 0)]),
                            FundTask(c, Created(|m.funds|)))
  {
    var (b', m', k') := TaskStep(b, m, FundTask(c, Checked));
    RunOn(b, m, FundTask(c, Checked), b', m', k');
    assert Over(k') ==> RunTask(b', m', k') == (b', m', k');
  }

  lemma CreatedStep(b: Book, m: Money, c: FundCall, id: nat)
    ensures var (s, r) := CloseAnswer(c);
            RunTask(b, m, FundTask(c, Created(id)))
            == (b, m.(funds := FundStatusSet(m.funds, id, s, m.now, c.write)), FundTask(c, FundOver(r)))
  {
    var (b', m', k') := TaskStep(b, m, FundTask(c, Created(id)));
    RunOn(b, m, FundTask(c, Created(id)), b', m', k');
  }

  lemma AdmittedStep(b: Book, m: Money, c: TopUpCall, u: User, id: nat, r: MoneyResult)
    requires r == CreditOutcome(b, u, c.amount, c.walletRead, c.credit)
    ensures r != Credited ==> RunTask(b, m, TopUpTask(c, Admitted(u, id))) == (b, m, TopUpTask(c, TopUpOver(r)))
    ensures r == Credited ==>
              RunTask(b, m, TopUpTask(c, Admitted(u, id)))
              == RunTask(CreditedBook(b, u, c.amount, r), m.(funds := FundCredited(m.funds, id, c.amount)),
                         TopUpTask(c, Unmarked(id)))
  {
    if r != Credited {
      RunOn(b, m, TopUpTask(c, Admitted(u, id)), b, m, TopUpTask(c, TopUpOver(r)));
    }
  }

  lemma UnmarkedStep(b: Book, m: Money, c: TopUpCall, id: nat, funds: seq<FundRow>)
    requires funds == if c.mark then FundStatusSet(m.funds, id, FundCompleted, m.now, true) else MarkLost(m.funds, id)
    ensures RunTask(b, m, TopUpTask(c, Unmarked(id))) == (b, m.(funds := funds), TopUpTask(c, TopUpOver(Credited)))
  {
    RunOn(b, m, TopUpTask(c, Unmarked(id)), b, m.(funds := funds), TopUpTask(c, TopUpOver(Credited)));
  }

  /** internal/repository/bank_fund_repo.go, with the table as a field. */
  class BankFundRepo {
    var funds: seq<FundRow>

    constructor ()
      ensures funds == []
    {
      funds := [];
    }

    method Create(r: FundRow, up: bool) returns (ok: bool)
      requires FundRefsUnique(funds)
      modifies this
      ensures FundRefsUnique(funds)
      ensures ok == (up && !FundRefUsed(old(funds), r.ref))
      ensures funds == if ok then old(funds) + [r] else old(funds)
    {
      if !up || FundRefUsed(funds, r.ref) {
        return false;
      }
      funds := funds + [r];
      return true;
    }

    method GetByReference(ref: string) returns (id: Option<nat>)
      ensures id == FindFund(funds, ref, |funds|)
    {
      id := None;
      for i := 0 to |funds|
        invariant id == FindFund(funds, ref, i)
      {
        if id == None && funds[i].ref == ref {
          id := Some(i);
        }
      }
    }

    method UpdateStatus(ref: string, s: FundStatus, now: int, up: bool) returns (ok: bool)
      requires FundRefsUnique(funds)
      modifies this
      ensures ok == up && FundRefsUnique(funds)
      ensures var id := FindFund(old(funds), ref, |old(funds)|);
              funds == if id.Some? then FundStatusSet(old(funds), id.value, s, now, up) else old(funds)
    {
      if !up {
        return false;
      }
      var id := GetByReference(ref);
      if id.Some? {
        var r := funds[id.value];
        var slips := if r.status == FundCompleted then r.slips + 1 else r.slips;
        if s == FundCompleted {
          funds := funds[id.value := r.(status := s, completedAt := Some(now), slips := slips)];
        } else {
          funds := funds[id.value := r.(status := s, completedAt := None, slips := slips)];
        }
      }
      return true;
    }

    method SumCompletedToday(u: User, now: int) returns (sum: int)
      ensures sum == MoneyIn.SumCompletedToday(funds, u, now, |funds|)
    {
      sum := 0;
      for i := 0 to |funds|
        invariant sum == MoneyIn.SumCompletedToday(funds, u, now, i)
      {
        var r := funds[i];
        if r.user == u && r.status == FundCompleted && r.createdAt > now - DAY {
          sum := sum + r.amount;
        }
      }
    }
  }

  class WalletService {
    const wallets: WalletRepo
    const bankFunds: BankFundRepo
    const accounts: map<string, User>
    var deposits: seq<DepositRow>
    var now: int

    constructor (wallets: WalletRepo, bankFunds: BankFundRepo, accounts: map<string, User>, now: int)
      ensures this.wallets == wallets && this.bankFunds == bankFunds && this.accounts == accounts
      ensures deposits == [] && this.now == now
    {
      this.wallets, this.bankFunds, this.accounts, deposits, this.now := wallets, bankFunds, accounts, [], now;
    }

    ghost function Now(): Money
      reads this, bankFunds
    {
      Money(accounts, deposits, bankFunds.funds, now)
    }

    /** The call leaves the tables as its task leaves them when nobody else takes a step. */
    ghost predicate Ran(b: Book, m: Money, start: Task, b': Book, m': Money, r: MoneyResult) {
      var (b1, m1, k1) := RunTask(b, m, start);
      b' == b1 && m' == m1 && r == ResultOf(k1)
    }

    /** Reads the wallet, refuses amounts that are not positive, and credits. */
    method CreditWallet(u: User, amount: int, walletRead: bool, up: bool) returns (r: MoneyResult)
      modifies wallets
      ensures r == CreditOutcome(old(wallets.rows), u, amount, walletRead, up)
      ensures wallets.rows == CreditedBook(old(wallets.rows), u, amount, r)
    {
      if !walletRead {
        return WalletUnread;
      }
      if u !in wallets.rows {
        return WalletMissing;
      }
      if amount <= 0 {
        return BadCredit;
      }
      var o := wallets.Update(u, Op.Credit(amount), up);
      return if o == Applied then Credited else CreditDown;
    }

    method ProcessDepositWebhook(c: DepositCall) returns (r: MoneyResult)
      modifies this`deposits, wallets
      ensures Ran(old(wallets.rows), old(Now()), DepositTask(c, DepositArrived), wallets.rows, Now(), r)
    {
      if !c.lookup {
        return LookupUnread;
      }
      if c.account !in accounts {
        return UnknownAccount;
      }
      var u := accounts[c.account];
      if !c.insert || DepositRefUsed(deposits, c.ref) {
        return DepositRefused;
      }
      var id := |deposits|;
      deposits := deposits + [DepositRow(u, c.amount, c.fee, c.ref, [])];
      ghost var k := DepositTask(c, DepositRecorded(u, id));
      assert RunTask(old(wallets.rows), old(Now()), DepositTask(c, DepositArrived)) == RunTask(wallets.rows, Now(), k);
      var net := c.amount - c.fee;
      if net < 0 {
        net := 0;
      }
      ghost var m1 := Now();
      r := CreditWallet(u, net, c.walletRead, c.credit);
      if r == Credited {
        deposits := DepositCredited(deposits, id, net);
      }
      assert TaskStep(old(wallets.rows), m1, k) == (wallets.rows, Now(), DepositTask(c, DepositOver(r)));
    }

    /** The checks before anything is written; None if they all pass. */
    method RefuseFund(c: FundCall) returns (refusal: Option<MoneyResult>)
      ensures CheckFund(Now(), c) == if refusal.Some? then FundOver(refusal.value) else Checked
    {
      if c.amount < MIN_TOP_UP {
        return Some(TooSmall);
      }
      if c.amount > MAX_TOP_UP {
        return Some(TooLarge);
      }
      if c.bank.BankUnread? {
        return Some(BankDown);
      }
      if c.bank.NoSuchBank? || c.bank.owner != c.user {
        return Some(Forbidden);
      }
      if !c.bank.active || !c.bank.verified {
        return Some(BankNotActive);
      }
      if !c.sumRead {
        return Some(SumUnread);
      }
      var today := bankFunds.SumCompletedToday(c.user, now);
      return if today + c.amount > DAILY_LIMIT then Some(OverDailyLimit) else None;
    }

    method FundFromBank(c: FundCall) returns (r: MoneyResult)
      requires FundRefsUnique(bankFunds.funds)
      modifies bankFunds
      ensures FundRefsUnique(bankFunds.funds)
      ensures Ran(wallets.rows, old(Now()), FundTask(c, Asked), wallets.rows, Now(), r)
    {
      var refusal := RefuseFund(c);
      AskedStep(wallets.rows, Now(), c);
      if refusal.Some? {
        return refusal.value;
      }
      CheckedStep(wallets.rows, Now(), c);
      ghost var id := |bankFunds.funds|;
      var ok := bankFunds.Create(FundRow(c.user, c.ref, c.amount, FundPending, now, None, [], 0), c.create);
      if !ok {
        return RequestRefused;
      }
      r := CloseFund(c, id);
    }

    /** Everything after the row exists: start the debit, and write what came of it. */
    method CloseFund(c: FundCall, ghost id: nat) returns (r: MoneyResult)
      requires FundRefsUnique(bankFunds.funds) && id < |bankFunds.funds| && bankFunds.funds[id].ref == c.ref
      modifies bankFunds
      ensures FundRefsUnique(bankFunds.funds)
      ensures Ran(wallets.rows, old(Now()), FundTask(c, Created(id)), wallets.rows, Now(), r)
    {
      FoundAt(bankFunds.funds, id);
      CreatedStep(wallets.rows, Now(), c, id);
      var written;
      match c.initiation {
        case NoMono =>
          written := bankFunds.UpdateStatus(c.ref, FundFailed, now, c.write);
          return MonoUnavailable;
        case NoUser =>
          written := bankFunds.UpdateStatus(c.ref, FundFailed, now, c.write);
          return UserMissing;
        case Rejected =>
          written := bankFunds.UpdateStatus(c.ref, FundFailed, now, c.write);
          return DirectDebitFailed;
        case Initiated =>
          written := bankFunds.UpdateStatus(c.ref, FundPending, now, c.write);
          return Waiting(c.ref);
      }
    }

    method CompleteFundFromBank(c: TopUpCall) returns (r: MoneyResult)
      requires FundRefsUnique(bankFunds.funds)
      modifies wallets, bankFunds
      ensures FundRefsUnique(bankFunds.funds)
      ensures Ran(old(wallets.rows), old(Now()), TopUpTask(c, TopUpArrived), wallets.rows, Now(), r)
    {
      if !c.lookup {
        return LookupUnread;
      }
      var hit := bankFunds.GetByReference(c.ref);
      if hit.None? {
        return UnknownRef;
      }
      var id, u := hit.value, bankFunds.funds[hit.value].user;
      if bankFunds.funds[id].status == FundCompleted {
        return AlreadyCompleted;
      }
      RunOn(wallets.rows, Now(), TopUpTask(c, TopUpArrived), wallets.rows, Now(), TopUpTask(c, Admitted(u, id)));
      r := CreditWallet(u, c.amount, c.walletRead, c.credit);
      AdmittedStep(old(wallets.rows), old(Now()), c, u, id, r);
      if r != Credited {
        return;
      }
      bankFunds.funds := FundCredited(bankFunds.funds, id, c.amount);
      MarkCompleted(c, id);
    }

    /** The mark after the credit; that it may be lost is only logged. */
    method MarkCompleted(c: TopUpCall, id: nat)
      requires FundRefsUnique(bankFunds.funds) && id < |bankFunds.funds| && bankFunds.funds[id].ref == c.ref
      modifies bankFunds
      ensures FundRefsUnique(bankFunds.funds)
      ensures Ran(wallets.rows, old(Now()), TopUpTask(c, Unmarked(id)), wallets.rows, Now(), Credited)
    {
      ghost var m := Now();
      FoundAt(bankFunds.funds, id);
      var marked := bankFunds.UpdateStatus(c.ref, FundCompleted, now, c.mark);
      if !marked {
        bankFunds.funds := MarkLost(bankFunds.funds, id);
      }
      UnmarkedStep(wallets.rows, m, c, id, bankFunds.funds);
    }
  }
}
