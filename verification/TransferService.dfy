/** internal/service/transfer_service.go: InitiateTransfer as it is written, proved to run the steps of a transfer alone. */
module TransferService {
  import opened Sums
  import opened Ledger
  import opened Sourcing
  import opened Transactions
  import opened Transfer

  /** What follows once a step has been taken. */
  function FinishFrom(s: (Tables, Run)): (Tables, Run) {
    Finish(s.0, s.1)
  }

  // One lemma for each kind of step: a transfer at this point finishes as it does after the step.

  lemma FromLookup(t: Tables, l: Run)
    requires l.pc == Lookup
    ensures Finish(t, l) == FinishFrom(LookupStep(t, l))
  {
  }

  lemma FromPlanning(t: Tables, l: Run)
    requires l.pc == Planning
    ensures Finish(t, l) == FinishFrom(PlanStep(t, l))
  {
  }

  lemma FromMakeParent(t: Tables, l: Run)
    requires l.pc == MakeParent
    ensures Finish(t, l) == FinishFrom(InsertStep(t, ParentTxn(l), l.env.parentRow,
                                                  l.(pc := LegAt(0), parent := Some(|t.txns|)),
                                                  l.(pc := Exit(ParentRefused))))
  {
  }

  lemma FromLeg(t: Tables, l: Run, i: nat)
    requires l.pc == LegAt(i)
    ensures Finish(t, l) == FinishFrom(LegStep(t, l, i))
  {
  }

  lemma FromWalletChild(t: Tables, l: Run, i: nat)
    requires l.pc == WalletChild(i)
    ensures Finish(t, l) == FinishFrom(InsertStep(t, WalletTxn(l, l.legs[i]), l.env.wallet.row,
                                                  l.(pc := LegAt(i + 1)), l.(pc := UndoChild(i))))
  {
  }

  lemma FromUndoChild(t: Tables, l: Run, i: nat)
    requires l.pc == UndoChild(i)
    ensures Finish(t, l) == FinishFrom(ReleaseStep(t, l, l.legs[i].amount + l.legs[i].fee, l.env.wallet.release,
                                                   Exit(WalletRowRefused(i))))
  {
  }

  lemma FromAskBank(t: Tables, l: Run, i: nat)
    requires l.pc == AskBank(i) && l.legs[i].source.Bank?
    ensures !BankAccepts(l.env, l.legs[i].source.id) ==> Finish(t, l) == Finish(t, l.(pc := Exit(BankRefused(i))))
    ensures BankAccepts(l.env, l.legs[i].source.id) ==>
              Finish(t, l) == Finish(t.(pulls := t.pulls + [PullOf(l, i)]),
                                     l.(pc := LegAt(i + 1)))
  {
  }

  lemma FromMarkProcessing(t: Tables, l: Run)
    requires l.pc == MarkProcessing
    ensures Finish(t, l) == FinishFrom(MarkStep(t, l.parent.value, Processing, l, l.env.processing,
                                                l.(pc := MakePayout), l.(pc := Exit(ProcessingNotMarked))))
  {
  }

  lemma FromMakePayout(t: Tables, l: Run)
    requires l.pc == MakePayout
    ensures Finish(t, l) == FinishFrom(InsertStep(t, PayoutTxn(l), l.env.payoutRow,
                                                  l.(pc := Send, payout := Some(|t.txns|)),
                                                  l.(pc := Exit(PayoutRowRefused))))
  {
  }

  lemma FromSend(t: Tables, l: Run)
    requires l.pc == Send
    ensures Finish(t, l) == FinishFrom(SendStep(t, l))
  {
  }

  lemma FromMarkPayoutFailed(t: Tables, l: Run)
    requires l.pc == MarkPayoutFailed
    ensures Finish(t, l) == FinishFrom(MarkStep(t, l.payout.value, Failed, l, l.env.payoutFailed,
                                                l.(pc := MarkParentFailed), l.(pc := MarkParentFailed)))
  {
  }

  lemma FromMarkParentFailed(t: Tables, l: Run)
    requires l.pc == MarkParentFailed
    ensures Finish(t, l) == FinishFrom(MarkStep(t, l.parent.value, Failed, l, l.env.parentFailed,
                                                l.(pc := Undo(0)), l.(pc := Undo(0))))
  {
  }

  lemma FromUndo(t: Tables, l: Run, i: nat)
    requires l.pc == Undo(i)
    ensures Finish(t, l) == FinishFrom(UndoStep(t, l, i))
  {
  }

  lemma FromSettle(t: Tables, l: Run, i: nat)
    requires l.pc == Settle(i)
    ensures Finish(t, l) == FinishFrom(SettleStep(t, l, i))
  {
  }

  lemma FromMarkParentDone(t: Tables, l: Run)
    requires l.pc == MarkParentDone
    ensures Finish(t, l) == FinishFrom(MarkStep(t, l.parent.value, Completed, l, l.env.parentDone,
                                                l.(pc := MarkPayoutDone), l.(pc := Exit(CompletionNotMarked))))
  {
  }

  lemma FromMarkPayoutDone(t: Tables, l: Run)
    requires l.pc == MarkPayoutDone
    ensures Finish(t, l) == FinishFrom(MarkStep(t, l.payout.value, Completed, l, l.env.payoutDone,
                                                l.(pc := Exit(Done(l.parent.value, Ref(l.env.base, Root)))),
                                                l.(pc := Exit(PayoutNotMarked))))
  {
  }

  /** What holding a wallet leg comes to. */
  function HoldResult(t: Tables, l: Run, i: nat): Option<Result>
    requires i < |l.legs|
  {
    if !l.env.wallet.read || l.user !in t.book then Some(WalletUnreadable(i))
    else if OutcomeOf(t.book, l.user, Hold(l.legs[i].amount + l.legs[i].fee), l.env.wallet.hold) != Applied then
      Some(HoldRefused(i))
    else None
  }

  /** Holding what a wallet leg draws. */
  lemma HoldTurn(t: Tables, l: Run, i: nat) returns (t': Tables, l': Run)
    requires l.pc == LegAt(i) && i < |l.legs| && l.legs[i].source.Wallet?
    ensures Finish(t, l) == Finish(t', l')
    ensures HoldResult(t, l, i).Some? ==> t' == t && l'.pc == Exit(HoldResult(t, l, i).value)
    ensures HoldResult(t, l, i).None? ==>
              && l' == l.(pc := WalletChild(i), held := l'.held)
              && t' == t.(book := Exec(t.book, l.user, Hold(l.legs[i].amount + l.legs[i].fee), l.env.wallet.hold))
  {
    FromLeg(t, l, i);
    t', l' := LegStep(t, l, i).0, LegStep(t, l, i).1;
  }

  /** One turn of the loop that gives the holds back. */
  lemma UndoTurn(t: Tables, l: Run, i: nat) returns (t': Tables, l': Run)
    requires l.pc == Undo(i) && i < |l.legs|
    ensures l' == l.(pc := Undo(i + 1), held := l'.held) && Finish(t, l) == Finish(t', l')
    ensures t' == if l.legs[i].source.Wallet? && l.env.undoRead then
                    t.(book := Exec(t.book, l.user, ReleaseHold(l.legs[i].amount + l.legs[i].fee), l.env.undo))
                  else t
  {
    FromUndo(t, l, i);
    t', l' := UndoStep(t, l, i).0, UndoStep(t, l, i).1;
  }

  /** One turn of the loop that debits what was held. */
  lemma SettleTurn(t: Tables, l: Run, i: nat) returns (t': Tables, l': Run)
    requires l.pc == Settle(i) && i < |l.legs|
    ensures l' == l.(pc := Settle(i + 1), settled := l'.settled) && Finish(t, l) == Finish(t', l')
    ensures t' == if l.legs[i].source.Wallet? && l.env.settleRead then
                    t.(book := Exec(t.book, l.user, Debit(l.legs[i].amount + l.legs[i].fee), l.env.settle))
                  else t
  {
    FromSettle(t, l, i);
    t', l' := SettleStep(t, l, i).0, SettleStep(t, l, i).1;
  }

  class TransferService {
    const wallets: WalletRepo
    const txns: TransactionRepo
    var pulls: seq<Movement>
    var payouts: seq<Movement>

    constructor (wallets: WalletRepo, txns: TransactionRepo)
      ensures this.wallets == wallets && this.txns == txns && pulls == [] && payouts == []
    {
      this.wallets, this.txns, pulls, payouts := wallets, txns, [], [];
    }

    ghost function Now(): Tables
      reads this, wallets, txns
    {
      Tables(wallets.rows, txns.txns, pulls, payouts)
    }

    /** Whatever the outside answers, the call leaves the tables and returns the result of the transfer run alone. */
    method InitiateTransfer(u: User, req: Request, env: Env) returns (res: Result)
      requires env.accounts.Some? ==> Distinct(env.accounts.value)
      modifies this, wallets, txns
      ensures Finish(old(Now()), Begin(u, req, env)).0 == Now()
      ensures Finish(old(Now()), Begin(u, req, env)).1.pc == Exit(res)
    {
      ghost var l: Run := Begin(u, req, env);
      FromLookup(Now(), l);
      if req.key != [] {
        if !env.keyRead {
          return LookupFailed;
        }
        var hit := txns.GetByIdempotencyKey(req.key);
        if hit.Some? {
          var existing := txns.txns[hit.value];
          return Hit(hit.value, existing.ref, existing.status);
        }
      }
      l := l.(pc := Planning);
      FromPlanning(Now(), l);

      var r := BuildDebitPlan(ReadWallet(wallets.rows, u, env.balanceRead), req.amount, env.accounts, env.fetches);
      if !r.Planned? {
        return PlanFailed(r);
      }
      var plan := r.plan;
      l := l.(pc := MakeParent, legs := plan.legs, fees := plan.fees);
      FromMakeParent(Now(), l);

      var parent := txns.Create(
        Txn(u, None, DebitLeg, req.amount, plan.fees, Pending, OtherProvider, req.payee,
            Ref(env.base, Root), req.key, env.now, None), env.parentRow);
      if parent.None? {
        return ParentRefused;
      }
      l := l.(pc := LegAt(0), parent := parent);

      var failed;
      failed, l := DebitLegs(u, env, plan.legs, parent.value, l);
      if failed.Some? {
        return failed.value;
      }
      res := PayOut(u, req, env, plan.legs, parent.value, l);
    }

    /** The loop over the legs; None when all of them went through. */
    method DebitLegs(u: User, env: Env, legs: seq<Leg>, parent: nat, ghost l: Run)
      returns (failed: Option<Result>, ghost l': Run)
      requires l.user == u && l.env == env && l.legs == legs && l.parent == Some(parent) && l.pc == LegAt(0)
      modifies this`pulls, wallets, txns
      ensures Finish(old(Now()), l) == Finish(Now(), l')
      ensures failed.None? ==> l' == l.(pc := MarkProcessing, held := l'.held)
      ensures failed.Some? ==> l'.pc == Exit(failed.value)
    {
      l' := l;
      for i := 0 to |legs|
        invariant l' == l.(pc := LegAt(i), held := l'.held)
        invariant Finish(old(Now()), l) == Finish(Now(), l')
      {
        if legs[i].source.Wallet? {
          failed, l' := WalletLeg(u, env, legs, i, parent, l');
        } else {
          failed, l' := BankLeg(u, env, legs, i, parent, l');
        }
        if failed.Some? {
          return;
        }
      }
      FromLeg(Now(), l', |legs|);
      l' := l'.(pc := MarkProcessing);
      failed := None;
    }

    method WalletLeg(u: User, env: Env, legs: seq<Leg>, i: nat, parent: nat, ghost l: Run)
      returns (failed: Option<Result>, ghost l': Run)
      requires l.user == u && l.env == env && l.legs == legs && l.parent == Some(parent) && l.pc == LegAt(i)
      requires i < |legs| && legs[i].source.Wallet?
      modifies wallets, txns
      ensures Finish(old(Now()), l) == Finish(Now(), l')
      ensures failed.None? ==> l' == l.(pc := LegAt(i + 1), held := l'.held)
      ensures failed.Some? ==> l'.pc == Exit(failed.value)
    {
      failed, l' := HoldWalletLeg(u, env, legs, i, l);
      if failed.None? {
        failed, l' := RecordWalletLeg(u, env, legs, i, parent, l');
      }
    }

    method HoldWalletLeg(u: User, env: Env, legs: seq<Leg>, i: nat, ghost l: Run)
      returns (failed: Option<Result>, ghost l': Run)
      requires l.user == u && l.env == env && l.legs == legs && l.pc == LegAt(i)
      requires i < |legs| && legs[i].source.Wallet?
      modifies wallets
      ensures Finish(old(Now()), l) == Finish(Now(), l')
      ensures failed.None? ==> l' == l.(pc := WalletChild(i), held := l'.held)
      ensures failed.Some? ==> l'.pc == Exit(failed.value)
    {
      ghost var t';
      t', l' := HoldTurn(Now(), l, i);
      if !env.wallet.read || u !in wallets.rows {
        return Some(WalletUnreadable(i)), l';
      }
      var ok := wallets.Hold(u, legs[i].amount + legs[i].fee, env.wallet.hold);
      if !ok {
        return Some(HoldRefused(i)), l';
      }
      assert Now() == t';
      return None, l';
    }

    /** The child row of a wallet leg that is held; if it is refused the hold is released. */
    method RecordWalletLeg(u: User, env: Env, legs: seq<Leg>, i: nat, parent: nat, ghost l: Run)
      returns (failed: Option<Result>, ghost l': Run)
      requires l.user == u && l.env == env && l.legs == legs && l.parent == Some(parent) && l.pc == WalletChild(i)
      modifies wallets, txns
      ensures Finish(old(Now()), l) == Finish(Now(), l')
      ensures failed.None? ==> l' == l.(pc := LegAt(i + 1))
      ensures failed.Some? ==> l'.pc == Exit(failed.value)
    {
      var leg, amount := legs[i], legs[i].amount + legs[i].fee;
      FromWalletChild(Now(), l, i);
      var child := txns.Create(
        Txn(u, Some(parent), DebitLeg, leg.amount, leg.fee, Pending, WalletProvider, NOBODY,
            Ref(env.base, WalletPart), [], env.now, None), env.wallet.row);
      if child.Some? {
        return None, l.(pc := LegAt(i + 1));
      }
      l' := l.(pc := UndoChild(i));
      FromUndoChild(Now(), l', i);
      l' := ReleaseStep(Now(), l', amount, env.wallet.release, Exit(WalletRowRefused(i))).1;
      var released := wallets.ReleaseHold(u, amount, env.wallet.release);
      failed := Some(WalletRowRefused(i));
    }

    method BankLeg(u: User, env: Env, legs: seq<Leg>, i: nat, parent: nat, ghost l: Run)
      returns (failed: Option<Result>, ghost l': Run)
      requires l.user == u && l.env == env && l.legs == legs && l.parent == Some(parent) && l.pc == LegAt(i)
      requires i < |legs| && legs[i].source.Bank?
      modifies this`pulls, txns
      ensures Finish(old(Now()), l) == Finish(Now(), l')
      ensures failed.None? ==> l' == l.(pc := LegAt(i + 1))
      ensures failed.Some? ==> l'.pc == Exit(failed.value)
    {
      var leg, id := legs[i], legs[i].source.id;
      FromLeg(Now(), l, i);
      var bank := BankOf(env, id);
      if bank.Unusable? {
        return Some(BankUnusable(i)), l.(pc := Exit(BankUnusable(i)));
      }
      var child := txns.Create(
        Txn(u, Some(parent), DebitLeg, leg.amount, leg.fee, Pending, bank.provider, NOBODY,
            Ref(env.base, BankPart(Head8(id))), [], env.now, None), bank.row);
      if child.None? {
        return Some(BankRowRefused(i)), l.(pc := Exit(BankRowRefused(i)));
      }
      l' := l.(pc := AskBank(i));
      FromAskBank(Now(), l', i);
      if bank.token == [] || bank.provider != Mono || !env.mono || !bank.accepts {
        return Some(BankRefused(i)), l'.(pc := Exit(BankRefused(i)));
      }
      pulls := pulls + [Movement(parent, leg.amount, Ref(env.base, BankPart(Head8(id))), NOBODY)];
      return None, l'.(pc := LegAt(i + 1));
    }

    /** From the PROCESSING mark on: payout row, payout, and then failure handling or settlement. */
    method PayOut(u: User, req: Request, env: Env, legs: seq<Leg>, parent: nat, ghost l: Run) returns (res: Result)
      requires l.user == u && l.req == req && l.env == env && l.legs == legs && l.parent == Some(parent)
      requires l.pc == MarkProcessing
      modifies this`payouts, wallets, txns
      ensures Finish(old(Now()), l).0 == Now() && Finish(old(Now()), l).1.pc == Exit(res)
    {
      FromMarkProcessing(Now(), l);
      var ok := txns.UpdateStatus(parent, Processing, env.now, env.processing);
      if !ok {
        return ProcessingNotMarked;
      }
      ghost var l': Run := l.(pc := MakePayout);
      FromMakePayout(Now(), l');
      var payout := txns.Create(
        Txn(u, Some(parent), PayoutLeg, req.amount, 0, Pending, Paystack, req.payee,
            Ref(env.base, PayoutPart), [], env.now, None), env.payoutRow);
      if payout.None? {
        return PayoutRowRefused;
      }
      l' := l'.(pc := Send, payout := payout);
      FromSend(Now(), l');
      if env.payoutEnabled {
        if !env.payoutAccepted {
          res := Fail(u, env, legs, parent, payout.value, l'.(pc := MarkPayoutFailed));
          return;
        }
        payouts := payouts + [Movement(parent, req.amount, Ref(env.base, PayoutPart), req.payee)];
      }
      res := Complete(u, env, legs, parent, payout.value, l'.(pc := Settle(0)));
    }

    method Fail(u: User, env: Env, legs: seq<Leg>, parent: nat, payout: nat, ghost l: Run) returns (res: Result)
      requires l.user == u && l.env == env && l.legs == legs && l.parent == Some(parent) && l.payout == Some(payout)
      requires l.pc == MarkPayoutFailed
      modifies wallets, txns
      ensures Finish(old(Now()), l).0 == Now() && Finish(old(Now()), l).1.pc == Exit(res)
    {
      FromMarkPayoutFailed(Now(), l);
      var marked := txns.UpdateStatus(payout, Failed, env.now, env.payoutFailed);
      ghost var l': Run := l.(pc := MarkParentFailed);
      FromMarkParentFailed(Now(), l');
      marked := txns.UpdateStatus(parent, Failed, env.now, env.parentFailed);
      l' := ReleaseHolds(u, env, legs, l'.(pc := Undo(0)));
      return PayoutFailed;
    }

    /** Give the holds of all wallet legs back; nobody looks whether that worked. */
    method ReleaseHolds(u: User, env: Env, legs: seq<Leg>, ghost l: Run) returns (ghost l': Run)
      requires l.user == u && l.env == env && l.legs == legs && l.pc == Undo(0)
      modifies wallets
      ensures Finish(old(Now()), l) == Finish(Now(), l')
      ensures l'.pc == Exit(PayoutFailed)
    {
      l' := l;
      for i := 0 to |legs|
        invariant l' == l.(pc := Undo(i), held := l'.held)
        invariant Finish(old(Now()), l) == Finish(Now(), l')
      {
        l' := ReleaseOne(u, env, legs, i, l');
      }
      FromUndo(Now(), l', |legs|);
      l' := l'.(pc := Exit(PayoutFailed));
    }

    method ReleaseOne(u: User, env: Env, legs: seq<Leg>, i: nat, ghost l: Run) returns (ghost l': Run)
      requires l.user == u && l.env == env && l.legs == legs && i < |legs| && l.pc == Undo(i)
      modifies wallets
      ensures Finish(old(Now()), l) == Finish(Now(), l')
      ensures l' == l.(pc := Undo(i + 1), held := l'.held)
    {
      ghost var t';
      t', l' := UndoTurn(Now(), l, i);
      if legs[i].source.Wallet? && env.undoRead {
        var released := wallets.ReleaseHold(u, legs[i].amount + legs[i].fee, env.undo);
      }
      assert Now() == t';
    }

    method Complete(u: User, env: Env, legs: seq<Leg>, parent: nat, payout: nat, ghost l: Run) returns (res: Result)
      requires l.user == u && l.env == env && l.legs == legs && l.parent == Some(parent) && l.payout == Some(payout)
      requires l.pc == Settle(0)
      modifies wallets, txns
      ensures Finish(old(Now()), l).0 == Now() && Finish(old(Now()), l).1.pc == Exit(res)
    {
      ghost var l' := DebitHolds(u, env, legs, l);
      FromMarkParentDone(Now(), l');
      var ok := txns.UpdateStatus(parent, Completed, env.now, env.parentDone);
      if !ok {
        return CompletionNotMarked;
      }
      l' := l'.(pc := MarkPayoutDone);
      FromMarkPayoutDone(Now(), l');
      ok := txns.UpdateStatus(payout, Completed, env.now, env.payoutDone);
      if !ok {
        return PayoutNotMarked;
      }
      return Done(parent, Ref(env.base, Root));
    }

    /** Debit all wallet legs; the errors are dropped. */
    method DebitHolds(u: User, env: Env, legs: seq<Leg>, ghost l: Run) returns (ghost l': Run)
      requires l.user == u && l.env == env && l.legs == legs && l.pc == Settle(0)
      modifies wallets
      ensures Finish(old(Now()), l) == Finish(Now(), l')
      ensures l' == l.(pc := MarkParentDone, settled := l'.settled)
    {
      l' := l;
      for i := 0 to |legs|
        invariant l' == l.(pc := Settle(i), settled := l'.settled)
        invariant Finish(old(Now()), l) == Finish(Now(), l')
      {
        l' := DebitOne(u, env, legs, i, l');
      }
      FromSettle(Now(), l', |legs|);
      l' := l'.(pc := MarkParentDone);
    }

    method DebitOne(u: User, env: Env, legs: seq<Leg>, i: nat, ghost l: Run) returns (ghost l': Run)
      requires l.user == u && l.env == env && l.legs == legs && i < |legs| && l.pc == Settle(i)
      modifies wallets
      ensures Finish(old(Now()), l) == Finish(Now(), l')
      ensures l' == l.(pc := Settle(i + 1), settled := l'.settled)
    {
      ghost var t';
      t', l' := SettleTurn(Now(), l, i);
      if legs[i].source.Wallet? && env.settleRead {
        var debited := wallets.Debit(u, legs[i].amount + legs[i].fee, env.settle);
      }
      assert Now() == t';
    }
  }
}
