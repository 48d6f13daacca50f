/** When nothing stands in its way, a transfer that runs alone completes: no step refuses without a reason. */
module TransferSuccess {
  import opened Sums
  import opened Ledger
  import opened Sourcing
  import opened SourcingLaws
  import opened Transactions
  import opened Transfer
  import opened TransferLaws
  import opened TransferSerial
  import opened TransferTree
  import opened TransferAnswers

  /** The part of the reference that leg i uses. */
  function PartOf(leg: Leg): Part {
    match leg.source
    case Wallet => WalletPart
    case Bank(id) => BankPart(Head8(id))
  }

  /** Everything outside grants what it is asked for: reads, rows, marks, banks, and the payout. */
  predicate Willing(env: Env, legs: seq<Leg>) {
    && env.parentRow && env.processing && env.payoutRow && env.parentDone && env.payoutDone
    && (env.payoutEnabled ==> env.payoutAccepted)
    && forall i :: 0 <= i < |legs| ==> Grants(env, legs[i])
  }

  predicate Grants(env: Env, leg: Leg) {
    match leg.source
    case Wallet => env.wallet.read && env.wallet.hold && env.wallet.row
    case Bank(id) =>
      && id in env.banks && env.banks[id].Usable? && env.banks[id].row
      && |env.banks[id].token| > 0 && env.banks[id].provider == Mono && env.mono && env.banks[id].accepts
  }

  /** No two legs use the same reference. */
  ghost predicate PartsApart(legs: seq<Leg>) {
    forall i, j :: 0 <= i < j < |legs| ==> PartOf(legs[i]) != PartOf(legs[j])
  }

  /** Nothing stands in the way of c on the tables t, for which this plan is made. */
  ghost predicate Unhindered(t: Tables, c: Call, plan: Plan) {
    && AllChecks(t.book) && 0 <= c.req.amount
    && (|c.req.key| > 0 ==> c.env.keyRead && forall r :: 0 <= r < |t.txns| ==> t.txns[r].key != c.req.key)
    && PlanFor(ReadWallet(t.book, c.user, c.env.balanceRead), c.req.amount, c.env.accounts, c.env.fetches)
       == PlanResult.Planned(plan)
    && (forall r :: 0 <= r < |t.txns| ==> t.txns[r].ref.base != c.env.base)
    && PartsApart(plan.legs) && Willing(c.env, plan.legs)
  }

  // ---------------------------------------------------------------------------------------------
  // On the way

  function Rows(l: Run): nat {
    if RowsMade(l).Some? then RowsMade(l).value else 0
  }

  /** The parts of the reference that have a row by now. */
  ghost predicate Used(l: Run, part: Part) {
    match part
    case Root => l.parent.Some?
    case PayoutPart => l.payout.Some?
    case _ => exists k :: 0 <= k < Rows(l) && k < |l.legs| && PartOf(l.legs[k]) == part
  }

  ghost predicate RefsFree(t: Tables, l: Run) {
    forall r :: 0 <= r < |t.txns| && t.txns[r].ref.base == l.env.base ==> Used(l, t.txns[r].ref.part)
  }

  predicate OnTrack(pc: Pc) {
    match pc
    case UndoChild(_) => false
    case MarkPayoutFailed => false
    case MarkParentFailed => false
    case Undo(_) => false
    case Exit(r) => r.Done?
    case _ => true
  }

  ghost predicate Smooth(t0: Tables, t: Tables, l: Run, c: Call, plan: Plan) {
    && l.user == c.user && l.req == c.req && l.env == c.env
    && OnTrack(l.pc)
    && (BeforeParent(l.pc) ==> t.txns == t0.txns && t.book == t0.book && l.parent.None?)
    && (HasPlan(l.pc) ==> l.legs == plan.legs)
    && (l.pc.MarkProcessing? || l.pc.MakePayout? || InLegs(l.pc) || BeforeParent(l.pc) ==> l.payout.None?)
    && RefsFree(t, l)
  }

  lemma RefIsFree(t: Tables, l: Run, row: Txn)
    requires RefsFree(t, l) && row.ref.base == l.env.base && !Used(l, row.ref.part)
    ensures Insertable(t.txns, row, true)
  {
  }

  lemma LegPartIsFree(l: Run, k: nat)
    requires PartsApart(l.legs) && k < |l.legs| && Rows(l) <= k
    ensures !Used(l, PartOf(l.legs[k]))
  {
  }

  /** A row with a part that counts as used afterwards leaves the rest free. */
  lemma RowUsesPart(t: Tables, l: Run, l': Run, row: Txn)
    requires RefsFree(t, l) && l'.env == l.env && Used(l', row.ref.part)
    requires forall part: Part :: Used(l, part) ==> Used(l', part)
    ensures RefsFree(t.(txns := t.txns + [row]), l')
  {
  }

  lemma UsedGrows(l: Run, l': Run)
    requires l'.legs == l.legs && Rows(l) <= Rows(l')
    requires (l.parent.Some? ==> l'.parent.Some?) && (l.payout.Some? ==> l'.payout.Some?)
    ensures forall part: Part :: Used(l, part) ==> Used(l', part)
  {
    forall part: Part | Used(l, part)
      ensures Used(l', part)
    {
      if !part.Root? && !part.PayoutPart? {
        var k :| 0 <= k < Rows(l) && k < |l.legs| && PartOf(l.legs[k]) == part;
      }
    }
  }

  /** Steps that make no row, or change statuses only. */
  lemma RefsStayFree(t: Tables, t': Tables, l: Run, l': Run)
    requires RefsFree(t, l) && l'.env == l.env && l'.legs == l.legs && Rows(l) <= Rows(l')
    requires (l.parent.Some? ==> l'.parent.Some?) && (l.payout.Some? ==> l'.payout.Some?)
    requires |t'.txns| == |t.txns| && forall r :: 0 <= r < |t.txns| ==> t'.txns[r].ref == t.txns[r].ref
    ensures RefsFree(t', l')
  {
    UsedGrows(l, l');
  }

  // ---------------------------------------------------------------------------------------------
  // Each step goes on

  lemma LookupGoesOn(t0: Tables, t: Tables, l: Run, c: Call, plan: Plan)
    requires Unhindered(t0, c, plan) && Smooth(t0, t, l, c, plan) && l.pc.Lookup?
    ensures Smooth(t0, Step(t, l).0, Step(t, l).1, c, plan)
  {
  }

  lemma PlanningGoesOn(t0: Tables, t: Tables, l: Run, c: Call, plan: Plan)
    requires Unhindered(t0, c, plan) && Smooth(t0, t, l, c, plan) && l.pc.Planning?
    ensures Smooth(t0, Step(t, l).0, Step(t, l).1, c, plan)
  {
  }

  lemma ParentGoesOn(t0: Tables, t: Tables, l: Run, c: Call, plan: Plan)
    requires Unhindered(t0, c, plan) && Smooth(t0, t, l, c, plan) && l.pc.MakeParent?
    ensures Smooth(t0, Step(t, l).0, Step(t, l).1, c, plan)
  {
    var row := ParentTxn(l);
    RefIsFree(t, l, row);
    var l' := Step(t, l).1;
    UsedGrows(l, l');
    RowUsesPart(t, l, l', row);
  }

  /** The hold goes through: nothing has touched the wallet since the plan was made. */
  lemma HoldGoesThrough(t0: Tables, t: Tables, l: Run, c: Call, plan: Plan)
    requires Unhindered(t0, c, plan) && Smooth(t0, t, l, c, plan) && Alone(t0, t, l)
    requires l.pc == LegAt(0) && |l.legs| > 0 && l.legs[0].source.Wallet?
    ensures l.user in t.book && l.env.wallet.read && l.env.wallet.hold
    ensures OutcomeOf(t.book, l.user, Hold(l.legs[0].amount + l.legs[0].fee), l.env.wallet.hold) == Applied
  {
    var w := ReadWallet(t0.book, c.user, c.env.balanceRead);
    WalletLegExactly(w, c.req.amount, c.env.accounts, c.env.fetches);
    assert Grants(c.env, plan.legs[0]);
    assert l.held == 0 && l.settled == 0 && l.legs[0].fee == 0;
    assert WalletShare(l.legs) == Min(c.req.amount, WalletCap(w));
    StatementsMean(t.book, l.user, l.legs[0].amount, true);
  }

  lemma WalletLegGoesOn(t0: Tables, t: Tables, l: Run, c: Call, plan: Plan, i: nat)
    requires Unhindered(t0, c, plan) && Smooth(t0, t, l, c, plan) && Alone(t0, t, l)
    requires l.pc == LegAt(i) && i < |l.legs| && l.legs[i].source.Wallet?
    ensures Smooth(t0, LegStep(t, l, i).0, LegStep(t, l, i).1, c, plan)
  {
    assert i == 0;
    HoldGoesThrough(t0, t, l, c, plan);
    var (t', l') := LegStep(t, l, i);
    RefsStayFree(t, t', l, l');
  }

  lemma BankLegGoesOn(t0: Tables, t: Tables, l: Run, c: Call, plan: Plan, i: nat)
    requires Unhindered(t0, c, plan) && Smooth(t0, t, l, c, plan)
    requires l.pc == LegAt(i) && i < |l.legs| && l.legs[i].source.Bank?
    ensures Smooth(t0, LegStep(t, l, i).0, LegStep(t, l, i).1, c, plan)
  {
    var id := l.legs[i].source.id;
    assert Grants(c.env, plan.legs[i]);
    var row := BankTxn(l, l.legs[i], id, l.env.banks[id].provider);
    LegPartIsFree(l, i);
    RefIsFree(t, l, row);
    var l' := l.(pc := AskBank(i));
    UsedGrows(l, l');
    assert PartOf(l'.legs[i]) == row.ref.part;
    RowUsesPart(t, l, l', row);
  }

  lemma EndOfLegsGoesOn(t0: Tables, t: Tables, l: Run, c: Call, plan: Plan, i: nat)
    requires Unhindered(t0, c, plan) && Smooth(t0, t, l, c, plan) && l.pc == LegAt(i) && i == |l.legs|
    ensures Smooth(t0, LegStep(t, l, i).0, LegStep(t, l, i).1, c, plan)
  {
    var (t', l') := LegStep(t, l, i);
    RefsStayFree(t, t', l, l');
  }

  lemma WalletChildGoesOn(t0: Tables, t: Tables, l: Run, c: Call, plan: Plan, i: nat)
    requires Unhindered(t0, c, plan) && Smooth(t0, t, l, c, plan) && l.pc == WalletChild(i) && l.legs[i].source.Wallet?
    ensures Smooth(t0, Step(t, l).0, Step(t, l).1, c, plan)
  {
    var row := WalletTxn(l, l.legs[i]);
    assert Grants(c.env, plan.legs[i]);
    LegPartIsFree(l, i);
    RefIsFree(t, l, row);
    var l' := l.(pc := LegAt(i + 1));
    UsedGrows(l, l');
    assert PartOf(l'.legs[i]) == row.ref.part;
    RowUsesPart(t, l, l', row);
  }

  lemma AskBankGoesOn(t0: Tables, t: Tables, l: Run, c: Call, plan: Plan, i: nat)
    requires Unhindered(t0, c, plan) && Smooth(t0, t, l, c, plan) && l.pc == AskBank(i) && l.legs[i].source.Bank?
    ensures Smooth(t0, Step(t, l).0, Step(t, l).1, c, plan)
  {
    assert Grants(c.env, plan.legs[i]);
    var (t', l') := Step(t, l);
    RefsStayFree(t, t', l, l');
  }

  lemma PayoutRowGoesOn(t0: Tables, t: Tables, l: Run, c: Call, plan: Plan)
    requires Unhindered(t0, c, plan) && Smooth(t0, t, l, c, plan) && l.pc.MakePayout?
    ensures Smooth(t0, Step(t, l).0, Step(t, l).1, c, plan)
  {
    var row := PayoutTxn(l);
    RefIsFree(t, l, row);
    var l' := Step(t, l).1;
    UsedGrows(l, l');
    RowUsesPart(t, l, l', row);
  }

  lemma MarkGoesOn(t0: Tables, t: Tables, l: Run, c: Call, plan: Plan)
    requires Unhindered(t0, c, plan) && Smooth(t0, t, l, c, plan)
    requires l.pc.MarkProcessing? || l.pc.MarkParentDone? || l.pc.MarkPayoutDone?
    ensures Smooth(t0, Step(t, l).0, Step(t, l).1, c, plan)
  {
    var (t', l') := Step(t, l);
    RefsStayFree(t, t', l, l');
  }

  lemma SendGoesOn(t0: Tables, t: Tables, l: Run, c: Call, plan: Plan)
    requires Unhindered(t0, c, plan) && Smooth(t0, t, l, c, plan) && l.pc.Send?
    ensures Smooth(t0, Step(t, l).0, Step(t, l).1, c, plan)
  {
    var (t', l') := Step(t, l);
    RefsStayFree(t, t', l, l');
  }

  lemma SettleGoesOn(t0: Tables, t: Tables, l: Run, c: Call, plan: Plan, i: nat)
    requires Smooth(t0, t, l, c, plan) && l.pc == Settle(i)
    ensures Smooth(t0, Step(t, l).0, Step(t, l).1, c, plan)
  {
    var (t', l') := SettleStep(t, l, i);
    RefsStayFree(t, t', l, l');
  }

  lemma LegGoesOn(t0: Tables, t: Tables, l: Run, c: Call, plan: Plan, i: nat)
    requires Unhindered(t0, c, plan) && Smooth(t0, t, l, c, plan) && Alone(t0, t, l) && l.pc == LegAt(i)
    ensures Smooth(t0, LegStep(t, l, i).0, LegStep(t, l, i).1, c, plan)
  {
    if i == |l.legs| {
      EndOfLegsGoesOn(t0, t, l, c, plan, i);
    } else if l.legs[i].source.Wallet? {
      WalletLegGoesOn(t0, t, l, c, plan, i);
    } else {
      BankLegGoesOn(t0, t, l, c, plan, i);
    }
  }

  lemma EarlyGoesOn(t0: Tables, t: Tables, l: Run, c: Call, plan: Plan)
    requires Unhindered(t0, c, plan) && Smooth(t0, t, l, c, plan) && Alone(t0, t, l) && Stage(l.pc) >= 11
    ensures Smooth(t0, Step(t, l).0, Step(t, l).1, c, plan)
  {
    match l.pc
    case Lookup => LookupGoesOn(t0, t, l, c, plan);
    case Planning => PlanningGoesOn(t0, t, l, c, plan);
    case MakeParent => ParentGoesOn(t0, t, l, c, plan);
    case LegAt(i) => LegGoesOn(t0, t, l, c, plan, i);
    case WalletChild(i) => WalletChildGoesOn(t0, t, l, c, plan, i);
    case AskBank(i) => AskBankGoesOn(t0, t, l, c, plan, i);
  }

  lemma LateGoesOn(t0: Tables, t: Tables, l: Run, c: Call, plan: Plan)
    requires Unhindered(t0, c, plan) && Smooth(t0, t, l, c, plan) && Stage(l.pc) <= 10 && !l.pc.Exit?
    ensures Smooth(t0, Step(t, l).0, Step(t, l).1, c, plan)
  {
    match l.pc
    case MarkProcessing => MarkGoesOn(t0, t, l, c, plan);
    case MakePayout => PayoutRowGoesOn(t0, t, l, c, plan);
    case Send => SendGoesOn(t0, t, l, c, plan);
    case Settle(i) => SettleGoesOn(t0, t, l, c, plan, i);
    case MarkParentDone => MarkGoesOn(t0, t, l, c, plan);
    case MarkPayoutDone => MarkGoesOn(t0, t, l, c, plan);
  }

  lemma {:induction false} SmoothToTheEnd(t0: Tables, t: Tables, l: Run, c: Call, plan: Plan)
    requires Unhindered(t0, c, plan) && Smooth(t0, t, l, c, plan) && Alone(t0, t, l)
    ensures Finish(t, l).1.pc.result.Done?
    decreases Stage(l.pc), StepsLeft(l)
  {
    if !l.pc.Exit? {
      if Stage(l.pc) >= 11 {
        EarlyGoesOn(t0, t, l, c, plan);
      } else {
        LateGoesOn(t0, t, l, c, plan);
      }
      AloneStep(t0, t, l);
      StepDescends(t, l);
      SmoothToTheEnd(t0, Step(t, l).0, Step(t, l).1, c, plan);
    }
  }

  /**
   A transfer with a plan, a key and references that are free, whose reads, rows and marks get through,
   whose banks agree and whose payout is not refused, completes.
   */
  lemma UnhinderedCompletes(t: Tables, c: Call, plan: Plan)
    requires Unhindered(t, c, plan)
    ensures RunCall(t, c).1.pc.result.Done?
  {
    AloneFromTheStart(t, c);
    SmoothToTheEnd(t, t, Begin(c.user, c.req, c.env), c, plan);
  }
}
