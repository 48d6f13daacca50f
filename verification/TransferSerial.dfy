/** Transfers one after the other: exits, settlement, and idempotency over whole runs. */
module TransferSerial {
  import opened Sums
  import opened Ledger
  import opened Sourcing
  import opened SourcingLaws
  import opened Transactions
  import opened Transfer
  import opened TransferLaws

  datatype Call = Call(user: User, req: Request, env: Env)

  function RunCall(t: Tables, c: Call): (Tables, Run) {
    Finish(t, Begin(c.user, c.req, c.env))
  }

  // ---------------------------------------------------------------------------------------------
  // Exits

  /** Seen from the tables t0 it started on, a transfer that runs alone has done what its counters say. */
  ghost predicate Alone(t0: Tables, t: Tables, l: Run) {
    && Covered(t, l)
    && Moved(t0.book, t.book, l.user, l.held, l.settled)
    && (HasPlan(l.pc) ==> l.env.balanceRead && WalletShare(l.legs) == Available(t0, l))
    && SettledRight(t0, l)
  }

  /** What the wallet can contribute to the amount. */
  function Available(t: Tables, l: Run): int {
    Min(l.req.amount, WalletCap(ReadWallet(t.book, l.user, l.env.balanceRead)))
  }

  /** The debit goes through exactly when what is left after the hold covers the leg once more. */
  ghost predicate SettledRight(t0: Tables, l: Run) {
    AfterSettling(l.pc) && l.env.settleRead && l.env.settle && l.user in t0.book ==>
      l.settled == if t0.book[l.user].ledger >= 2 * WalletShare(l.legs) then WalletShare(l.legs) else 0
  }

  lemma WalletSharePlanned(w: WalletRead, amount: int, accounts: Option<seq<Account>>, f: Fetches)
    requires 0 <= amount && PlanFor(w, amount, accounts, f).Planned?
    ensures WalletShare(PlanFor(w, amount, accounts, f).plan.legs) == Min(amount, WalletCap(w))
  {
    if amount > WalletCap(w) && amount > 0 {
      var caps := Caps(w, accounts.value, f);
      var first := LegsUpTo(accounts.value, caps, amount, 1);
      var caps' := WalletFirst(w, amount, accounts.value, f);
      LegsExtend(accounts.value, caps, amount, 1, |caps|);
    }
  }

  lemma StepStaysCovered(t: Tables, l: Run)
    requires Covered(t, l)
    ensures Covered(Step(t, l).0, Step(t, l).1)
  {
    StepKeepsAccounts(t, l);
    StepMoves(t, l);
  }

  /** The first leg is settled when the wallet can still pay it after the hold. */
  lemma SettleIsRight(t0: Tables, t: Tables, l: Run, i: nat)
    requires Alone(t0, t, l) && l.pc == Settle(i)
    ensures SettledRight(t0, SettleStep(t, l, i).1)
  {
    if i < |l.legs| && l.legs[i].source.Wallet? {
      assert i == 0 && l.settled == 0 && l.legs[0].fee == 0 && l.held == WalletShare(l.legs) == l.legs[0].amount;
      if l.user in t0.book {
        assert t.book[l.user].ledger == t0.book[l.user].ledger - l.legs[0].amount;
      }
    } else if i == 0 {
      assert WalletShare(l.legs) == 0 && l.settled == 0;
    }
  }

  lemma StepIsRight(t0: Tables, t: Tables, l: Run)
    requires Alone(t0, t, l)
    ensures SettledRight(t0, Step(t, l).1)
  {
    if l.pc.Settle? {
      SettleIsRight(t0, t, l, l.pc.i);
    } else {
      SettledStays(t, l);
    }
  }

  lemma SettledStays(t: Tables, l: Run)
    requires !l.pc.Settle?
    ensures Step(t, l).1.settled == l.settled
    ensures Step(t, l).1.env == l.env && Step(t, l).1.user == l.user
    ensures AfterSettling(Step(t, l).1.pc) ==> AfterSettling(l.pc) && Step(t, l).1.legs == l.legs
  {
    if Stage(l.pc) >= 4 {
      BeforeSettling(t, l);
    }
  }

  lemma BeforeSettling(t: Tables, l: Run)
    requires Stage(l.pc) >= 4 && !l.pc.Settle?
    ensures !AfterSettling(Step(t, l).1.pc)
  {
  }

  lemma PlanIsAvailable(t0: Tables, t: Tables, l: Run)
    requires Alone(t0, t, l) && l.pc.Planning?
    ensures var l' := PlanStep(t, l).1;
            HasPlan(l'.pc) ==> l'.env.balanceRead && WalletShare(l'.legs) == Available(t0, l')
  {
    var w := ReadWallet(t.book, l.user, l.env.balanceRead);
    assert w == ReadWallet(t0.book, l.user, l.env.balanceRead);
    if PlanFor(w, l.req.amount, l.env.accounts, l.env.fetches).Planned? {
      WalletSharePlanned(w, l.req.amount, l.env.accounts, l.env.fetches);
    }
  }

  lemma LegsStay(t: Tables, l: Run)
    requires !l.pc.Planning?
    ensures var l' := Step(t, l).1;
            && l'.legs == l.legs && l'.req == l.req && l'.env == l.env && l'.user == l.user
            && (HasPlan(l'.pc) ==> HasPlan(l.pc))
  {
  }

  lemma AloneStep(t0: Tables, t: Tables, l: Run)
    requires Alone(t0, t, l)
    ensures Alone(t0, Step(t, l).0, Step(t, l).1)
  {
    var (t', l') := Step(t, l);
    StepStaysCovered(t, l);
    StepMoves(t, l);
    MovesAdd(t0.book, t.book, t'.book, l.user, l.held, l.settled, l'.held - l.held, l'.settled - l.settled);
    StepIsRight(t0, t, l);
    if l.pc.Planning? {
      PlanIsAvailable(t0, t, l);
    } else {
      LegsStay(t, l);
    }
  }

  lemma {:induction false} AloneToTheEnd(t0: Tables, t: Tables, l: Run)
    requires Alone(t0, t, l)
    ensures Alone(t0, Finish(t, l).0, Finish(t, l).1)
    decreases Stage(l.pc), StepsLeft(l)
  {
    if !l.pc.Exit? {
      AloneStep(t0, t, l);
      StepDescends(t, l);
      AloneToTheEnd(t0, Step(t, l).0, Step(t, l).1);
    }
  }

  lemma AloneFromTheStart(t: Tables, c: Call)
    requires AllChecks(t.book) && 0 <= c.req.amount
    ensures Alone(t, t, Begin(c.user, c.req, c.env))
  {
    if c.user in t.book {
      assert Checks(t.book[c.user]);
    }
  }

  /**
   Exit accounting.  However a transfer that runs alone ends, it holds exactly HeldAtExit more of the
   wallet than before, the balance fell by exactly what was settled, which is the wallet leg or nothing
   and nothing unless the payout went out, no other wallet changed and the constraints still hold.
   */
  lemma ExitAccounting(t: Tables, c: Call)
    requires AllChecks(t.book) && 0 <= c.req.amount
    ensures var (t', l') := RunCall(t, c);
            && Moved(t.book, t'.book, c.user, HeldAtExit(l', l'.pc.result), l'.settled)
            && (l'.settled == 0 || (l'.settled == WalletShare(l'.legs) && AfterSettling(l'.pc)))
            && (HasPlan(l'.pc) ==> WalletShare(l'.legs) == Available(t, l'))
            && AllChecks(t'.book)
  {
    AloneFromTheStart(t, c);
    AloneToTheEnd(t, t, Begin(c.user, c.req, c.env));
    FinishMoves(t, Begin(c.user, c.req, c.env));
  }

  /** A failed payout whose release gets through leaves every wallet as it was. */
  lemma FailedPayoutIsUndone(t: Tables, c: Call)
    requires AllChecks(t.book) && 0 <= c.req.amount && c.env.undoRead && c.env.undo
    requires RunCall(t, c).1.pc == Exit(PayoutFailed)
    ensures RunCall(t, c).0.book == t.book
  {
    ExitAccounting(t, c);
    EnvStays(t, Begin(c.user, c.req, c.env));
    var b := RunCall(t, c).0.book;
    assert forall u :: u in t.book ==> b[u] == t.book[u];
  }

  lemma EnvStep(t: Tables, l: Run)
    ensures var l' := Step(t, l).1;
            l'.env == l.env && l'.req == l.req && l'.user == l.user
  {
    if !l.pc.Planning? {
      LegsStay(t, l);
    }
  }

  lemma {:induction false} EnvStays(t: Tables, l: Run)
    ensures var l' := Finish(t, l).1;
            l'.env == l.env && l'.req == l.req && l'.user == l.user
    decreases Stage(l.pc), StepsLeft(l)
  {
    if !l.pc.Exit? {
      StepDescends(t, l);
      EnvStep(t, l);
      EnvStays(Step(t, l).0, Step(t, l).1);
    }
  }

  /**
   A completed transfer whose settlement reaches the database: it keeps L = min(amount, available) on
   hold for good, and takes L off the balance exactly when the wallet had at least 2L available.
   */
  lemma CompletedSettlement(t: Tables, c: Call)
    requires AllChecks(t.book) && 0 <= c.req.amount && c.user in t.book && c.env.settleRead && c.env.settle
    requires RunCall(t, c).1.pc.result.Done?
    ensures var share := Min(c.req.amount, t.book[c.user].ledger);
            Moved(t.book, RunCall(t, c).0.book, c.user, share,
                  if t.book[c.user].ledger >= 2 * share then share else 0)
  {
    var l0 := Begin(c.user, c.req, c.env);
    assert Checks(t.book[c.user]);
    AloneFromTheStart(t, c);
    AloneToTheEnd(t, t, l0);
    FinishMoves(t, l0);
    EnvStays(t, l0);
  }

  // ---------------------------------------------------------------------------------------------
  // Runs of completed transfers

  function RunAll(t: Tables, calls: seq<Call>): Tables
    decreases calls
  {
    if calls == [] then t else RunAll(RunCall(t, calls[0]).0, calls[1..])
  }

  /** What a call puts on hold of u's wallet if it completes. */
  function ShareOf(t: Tables, c: Call, u: User): int {
    if c.user == u && u in t.book then Min(c.req.amount, t.book[u].ledger) else 0
  }

  function TotalShares(t: Tables, calls: seq<Call>, u: User): int
    decreases calls
  {
    if calls == [] then 0 else ShareOf(t, calls[0], u) + TotalShares(RunCall(t, calls[0]).0, calls[1..], u)
  }

  /** The shares whose wallet had at least twice as much available before the hold. */
  function CoveredShares(t: Tables, calls: seq<Call>, u: User): int
    decreases calls
  {
    if calls == [] then 0
    else
      (if u in t.book && t.book[u].ledger >= 2 * ShareOf(t, calls[0], u) then ShareOf(t, calls[0], u) else 0)
      + CoveredShares(RunCall(t, calls[0]).0, calls[1..], u)
  }

  /** Every call is made for a wallet that exists, completes, and settles without losing the connection. */
  ghost predicate AllComplete(t: Tables, calls: seq<Call>)
    decreases calls
  {
    calls == [] || (
      var c := calls[0];
      && 0 <= c.req.amount && c.user in t.book && c.env.settleRead && c.env.settle
      && RunCall(t, c).1.pc.result.Done?
      && AllComplete(RunCall(t, c).0, calls[1..]))
  }

  /**
   After any number of completed transfers and no credits, what is held of a wallet has grown by all
   the wallet legs, and its balance has fallen by those legs only that the wallet could cover twice.
   */
  lemma {:induction false} CompletedRun(t: Tables, calls: seq<Call>, u: User)
    requires AllChecks(t.book) && AllComplete(t, calls) && u in t.book
    ensures var b := RunAll(t, calls).book;
            && u in b
            && Gap(b[u]) == Gap(t.book[u]) + TotalShares(t, calls, u)
            && b[u].balance == t.book[u].balance - CoveredShares(t, calls, u)
    decreases calls
  {
    if calls != [] {
      CompletedSettlement(t, calls[0]);
      ExitAccounting(t, calls[0]);
      CompletedRun(RunCall(t, calls[0]).0, calls[1..], u);
    }
  }

  // ---------------------------------------------------------------------------------------------
  // Idempotency

  ghost predicate KeysUnique(txns: seq<Txn>) {
    forall i, j :: 0 <= i < j < |txns| && txns[i].key == txns[j].key ==> txns[i].key == []
  }

  predicate Recorded(txns: seq<Txn>, key: string) {
    key != [] && exists i :: 0 <= i < |txns| && txns[i].key == key
  }

  /** Between looking its key up and recording it, a transfer that runs alone keeps it unused. */
  ghost predicate KeyHeld(t: Tables, l: Run) {
    KeysUnique(t.txns) && (l.pc.Planning? || l.pc.MakeParent? ==> !Recorded(t.txns, l.req.key))
  }

  lemma MarkKeepsKeys(txns: seq<Txn>, id: nat, s: Status, now: int, up: bool)
    requires KeysUnique(txns)
    ensures KeysUnique(StatusSet(txns, id, s, now, up))
  {
    var r := StatusSet(txns, id, s, now, up);
    assert forall i :: 0 <= i < |txns| ==> r[i].key == txns[i].key;
  }

  /** How a step changes the table: not at all, by one new row, or by one status. */
  ghost predicate TxnsAfter(t: Tables, l: Run, txns: seq<Txn>) {
    || txns == t.txns
    || (l.pc.MakeParent? && txns == t.txns + [ParentTxn(l)])
    || (exists row: Txn :: row.key == [] && txns == t.txns + [row])
    || (exists id: nat, s :: txns == StatusSet(t.txns, id, s, l.env.now, true))
  }

  lemma StepTxns(t: Tables, l: Run)
    ensures TxnsAfter(t, l, Step(t, l).0.txns)
  {
    match l.pc
    case LegAt(i) =>
      if i < |l.legs| && l.legs[i].source.Bank? {
        var id := l.legs[i].source.id;
        var b := BankOf(l.env, id);
        if b.Usable? {
          assert BankTxn(l, l.legs[i], id, b.provider).key == [];
        }
      }
    case WalletChild(i) => assert WalletTxn(l, l.legs[i]).key == [];
    case MakePayout => assert PayoutTxn(l).key == [];
    case MarkProcessing =>
      assert l.env.processing ==> Step(t, l).0.txns == StatusSet(t.txns, l.parent.value, Processing, l.env.now, true);
    case MarkPayoutFailed =>
      assert l.env.payoutFailed ==> Step(t, l).0.txns == StatusSet(t.txns, l.payout.value, Failed, l.env.now, true);
    case MarkParentFailed =>
      assert l.env.parentFailed ==> Step(t, l).0.txns == StatusSet(t.txns, l.parent.value, Failed, l.env.now, true);
    case MarkParentDone =>
      assert l.env.parentDone ==> Step(t, l).0.txns == StatusSet(t.txns, l.parent.value, Completed, l.env.now, true);
    case MarkPayoutDone =>
      assert l.env.payoutDone ==> Step(t, l).0.txns == StatusSet(t.txns, l.payout.value, Completed, l.env.now, true);
    case _ =>
  }

  lemma KeysAfter(t: Tables, l: Run, txns: seq<Txn>)
    requires KeyHeld(t, l) && TxnsAfter(t, l, txns)
    ensures KeysUnique(txns)
  {
    if exists row: Txn :: row.key == [] && txns == t.txns + [row] {
      var row: Txn :| row.key == [] && txns == t.txns + [row];
    } else if exists id: nat, s :: txns == StatusSet(t.txns, id, s, l.env.now, true) {
      var id: nat, s :| txns == StatusSet(t.txns, id, s, l.env.now, true);
      MarkKeepsKeys(t.txns, id, s, l.env.now, true);
    }
  }

  lemma KeyHeldStep(t: Tables, l: Run)
    requires KeyHeld(t, l)
    ensures KeyHeld(Step(t, l).0, Step(t, l).1)
  {
    StepTxns(t, l);
    KeysAfter(t, l, Step(t, l).0.txns);
  }

  lemma {:induction false} KeyHeldToTheEnd(t: Tables, l: Run)
    requires KeyHeld(t, l)
    ensures KeysUnique(Finish(t, l).0.txns)
    decreases Stage(l.pc), StepsLeft(l)
  {
    if !l.pc.Exit? {
      KeyHeldStep(t, l);
      StepDescends(t, l);
      KeyHeldToTheEnd(Step(t, l).0, Step(t, l).1);
    }
  }

  /** In every serial run a non-empty key labels at most one row. */
  lemma {:induction false} SerialKeysUnique(t: Tables, calls: seq<Call>)
    requires KeysUnique(t.txns)
    ensures KeysUnique(RunAll(t, calls).txns)
    decreases calls
  {
    if calls != [] {
      KeyHeldToTheEnd(t, Begin(calls[0].user, calls[0].req, calls[0].env));
      SerialKeysUnique(RunCall(t, calls[0]).0, calls[1..]);
    }
  }

  /** A call with a recorded key changes nothing and answers with the row the key labels. */
  lemma RecordedKeyStutters(t: Tables, c: Call, i: nat)
    requires KeysUnique(t.txns) && i < |t.txns| && c.req.key != [] && t.txns[i].key == c.req.key
    ensures RunCall(t, c).0 == t
    ensures RunCall(t, c).1.pc
            == Exit(if c.env.keyRead then Hit(i, t.txns[i].ref, t.txns[i].status) else LookupFailed)
  {
    var l := Begin(c.user, c.req, c.env);
    var (t1, l1) := LookupStep(t, l);
    assert Step(t, l) == (t1, l1);
    var hit := FindKey(t.txns, c.req.key, |t.txns|);
    assert hit == Some(i);
    assert Finish(t1, l1) == (t1, l1);
  }

  /** Keys belong to no user: whoever calls with a recorded key changes nothing and is answered with that row. */
  lemma KeysAreShared(t: Tables, owner: User, caller: User, req: Request, env: Env, i: nat)
    requires KeysUnique(t.txns) && i < |t.txns| && req.key != [] && t.txns[i].key == req.key && env.keyRead
    requires t.txns[i].user == owner && caller != owner
    ensures RunCall(t, Call(caller, req, env)).0 == t
    ensures RunCall(t, Call(caller, req, env)).1.pc == Exit(Hit(i, t.txns[i].ref, t.txns[i].status))
    ensures RunCall(t, Call(caller, req, env)).1.pc == RunCall(t, Call(owner, req, env)).1.pc
  {
    RecordedKeyStutters(t, Call(caller, req, env), i);
    RecordedKeyStutters(t, Call(owner, req, env), i);
  }

  /** The calls whose key was not recorded when they came. */
  function Fresh(t: Tables, calls: seq<Call>): seq<Call>
    decreases calls
  {
    if calls == [] then []
    else if Recorded(t.txns, calls[0].req.key) then Fresh(t, calls[1..])
    else [calls[0]] + Fresh(RunCall(t, calls[0]).0, calls[1..])
  }

  /** Deleting the repeated calls from a serial run leaves the same tables. */
  lemma {:induction false} RepeatsDoNotMatter(t: Tables, calls: seq<Call>)
    requires KeysUnique(t.txns)
    ensures RunAll(t, Fresh(t, calls)) == RunAll(t, calls)
    decreases calls
  {
    if calls != [] {
      var c := calls[0];
      KeyHeldToTheEnd(t, Begin(c.user, c.req, c.env));
      RepeatsDoNotMatter(RunCall(t, c).0, calls[1..]);
      if Recorded(t.txns, c.req.key) {
        var i :| 0 <= i < |t.txns| && t.txns[i].key == c.req.key;
        RecordedKeyStutters(t, c, i);
      } else {
        var rest := Fresh(RunCall(t, c).0, calls[1..]);
        assert ([c] + rest)[0] == c && ([c] + rest)[1..] == rest;
      }
    }
  }
}
