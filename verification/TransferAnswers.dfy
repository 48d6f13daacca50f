/**
 What each point and each exit of a transfer says about the answers from outside: how a transfer ends
 is decided by its request, its plan, the tables it finds and these answers, and by nothing else.
 */
module TransferAnswers {
  import opened Sums
  import opened Ledger
  import opened Sourcing
  import opened SourcingLaws
  import opened Transactions
  import opened Transfer
  import opened TransferLaws
  import opened TransferSerial
  import opened TransferTree
  import opened Engine

  // ---------------------------------------------------------------------------------------------
  // What has been answered at each point

  /** The key, if there is one, could be looked up. */
  predicate KeyAsked(l: Local) {
    |l.req.key| > 0 ==> l.env.keyRead
  }

  /** The bank account of leg i was found again by its id, and its row got through. */
  predicate BankRecorded(l: Local, id: BankId) {
    id in l.env.banks && l.env.banks[id].Usable? && l.env.banks[id].row
  }

  /** The bank can be asked, and agrees. */
  predicate BankAgrees(l: Local, id: BankId) {
    && id in l.env.banks && l.env.banks[id].Usable?
    && |l.env.banks[id].token| > 0 && l.env.banks[id].provider == Mono && l.env.mono && l.env.banks[id].accepts
  }

  /** Leg i is the wallet's, which was read, and the hold got through. */
  predicate WalletHeld(l: Local, i: nat)
    requires i < |l.legs|
  {
    l.legs[i].source.Wallet? && l.env.wallet.read && l.env.wallet.hold
  }

  /** Everything asked for leg i was granted. */
  predicate LegGranted(l: Local, i: nat)
    requires i < |l.legs|
  {
    match l.legs[i].source
    case Wallet => l.env.wallet.read && l.env.wallet.hold && l.env.wallet.row
    case Bank(id) => BankRecorded(l, id) && BankAgrees(l, id)
  }

  ghost predicate LegsGranted(l: Local, n: nat) {
    l.env.parentRow && n <= |l.legs| && forall i :: 0 <= i < n ==> LegGranted(l, i)
  }

  /** Every leg was granted, the parent was marked, and the payout has its row. */
  ghost predicate ReadyToSend(l: Local) {
    LegsGranted(l, |l.legs|) && l.env.processing && l.env.payoutRow && l.payout.Some?
  }

  predicate ProviderRefused(l: Local) {
    l.env.payoutEnabled && !l.env.payoutAccepted
  }

  ghost predicate AnswersAtExit(l: Local, r: Result) {
    match r
    case LookupFailed => |l.req.key| > 0 && !l.env.keyRead
    case Hit(_, _, _) => |l.req.key| > 0 && l.env.keyRead
    case PlanFailed(why) => KeyAsked(l) && !why.Planned?
    case ParentRefused => KeyAsked(l)
    case WalletUnreadable(i) => LegsGranted(l, i) && i < |l.legs| && l.legs[i].source.Wallet?
    case HoldRefused(i) => LegsGranted(l, i) && i < |l.legs| && l.legs[i].source.Wallet? && l.env.wallet.read
    case WalletRowRefused(i) => LegsGranted(l, i) && i < |l.legs| && l.env.wallet.read && l.env.wallet.hold
    case BankUnusable(i) =>
      && LegsGranted(l, i) && i < |l.legs| && l.legs[i].source.Bank?
      && !(l.legs[i].source.id in l.env.banks && l.env.banks[l.legs[i].source.id].Usable?)
    case BankRowRefused(i) =>
      && LegsGranted(l, i) && i < |l.legs| && l.legs[i].source.Bank?
      && l.legs[i].source.id in l.env.banks && l.env.banks[l.legs[i].source.id].Usable?
    case BankRefused(i) =>
      && LegsGranted(l, i) && i < |l.legs| && l.legs[i].source.Bank?
      && BankRecorded(l, l.legs[i].source.id) && !BankAgrees(l, l.legs[i].source.id)
    case ProcessingNotMarked => LegsGranted(l, |l.legs|) && !l.env.processing
    case PayoutRowRefused => LegsGranted(l, |l.legs|) && l.env.processing
    case PayoutFailed => ReadyToSend(l) && ProviderRefused(l)
    case CompletionNotMarked => ReadyToSend(l) && !ProviderRefused(l) && !l.env.parentDone
    case PayoutNotMarked => ReadyToSend(l) && !ProviderRefused(l) && l.env.parentDone && !l.env.payoutDone
    case Done(id, ref) =>
      && ReadyToSend(l) && !ProviderRefused(l) && l.env.parentDone && l.env.payoutDone
      && l.parent == Some(id) && ref == Ref(l.env.base, Root)
  }

  /** Nothing after the payout row has been answered yet. */
  predicate BeforePayoutRow(r: Result) {
    !r.PayoutFailed? && !r.CompletionNotMarked? && !r.PayoutNotMarked? && !r.Done?
  }

  ghost predicate Answers(l: Run) {
    && (!l.pc.Lookup? && !l.pc.Exit? ==> KeyAsked(l))
    && match l.pc
       case Lookup => l.payout.None?
       case Planning => l.payout.None?
       case MakeParent => l.payout.None?
       case LegAt(i) => LegsGranted(l, i) && l.payout.None?
       case WalletChild(i) => LegsGranted(l, i) && WalletHeld(l, i) && l.payout.None?
       case UndoChild(i) => LegsGranted(l, i) && WalletHeld(l, i) && l.payout.None?
       case AskBank(i) =>
         LegsGranted(l, i) && l.legs[i].source.Bank? && BankRecorded(l, l.legs[i].source.id) && l.payout.None?
       case MarkProcessing => LegsGranted(l, |l.legs|) && l.payout.None?
       case MakePayout => LegsGranted(l, |l.legs|) && l.env.processing && l.payout.None?
       case Send => ReadyToSend(l)
       case MarkPayoutFailed => ReadyToSend(l) && ProviderRefused(l)
       case MarkParentFailed => ReadyToSend(l) && ProviderRefused(l)
       case Undo(_) => ReadyToSend(l) && ProviderRefused(l)
       case Settle(_) => ReadyToSend(l) && !ProviderRefused(l)
       case MarkParentDone => ReadyToSend(l) && !ProviderRefused(l)
       case MarkPayoutDone => ReadyToSend(l) && !ProviderRefused(l) && l.env.parentDone
       case Exit(r) => AnswersAtExit(l, r) && (BeforePayoutRow(r) ==> l.payout.None?)
  }

  // ---------------------------------------------------------------------------------------------
  // Every step keeps it

  /** l' has the same request, answers and legs. */
  predicate SameCall(l: Local, l': Local) {
    l'.req == l.req && l'.env == l.env && l'.legs == l.legs && l'.user == l.user
  }

  lemma GrantedOn(l: Local, l': Local, n: nat)
    requires LegsGranted(l, n) && SameCall(l, l')
    ensures LegsGranted(l', n)
  {
    forall i | 0 <= i < n
      ensures LegGranted(l', i)
    {
      assert LegGranted(l, i);
    }
  }

  lemma OneMoreGranted(l: Local, l': Local, n: nat)
    requires LegsGranted(l, n) && SameCall(l, l') && n < |l.legs| && LegGranted(l, n)
    ensures LegsGranted(l', n + 1)
  {
    forall i | 0 <= i < n + 1
      ensures LegGranted(l', i)
    {
      assert LegGranted(l, i);
    }
  }

  lemma EarlyAnswers(t: Tables, l: Run)
    requires Answers(l) && BeforeParent(l.pc)
    ensures Answers(Step(t, l).1)
  {
  }

  lemma WalletLegAnswers(t: Tables, l: Run, i: nat)
    requires Answers(l) && l.pc == LegAt(i) && i < |l.legs| && l.legs[i].source.Wallet?
    ensures Answers(LegStep(t, l, i).1)
  {
    GrantedOn(l, LegStep(t, l, i).1, i);
  }

  lemma BankLegAnswers(t: Tables, l: Run, i: nat)
    requires Answers(l) && l.pc == LegAt(i) && i < |l.legs| && l.legs[i].source.Bank?
    ensures Answers(LegStep(t, l, i).1)
  {
    GrantedOn(l, LegStep(t, l, i).1, i);
  }

  lemma LegAnswers(t: Tables, l: Run, i: nat)
    requires Answers(l) && l.pc == LegAt(i)
    ensures Answers(LegStep(t, l, i).1)
  {
    if i == |l.legs| {
      GrantedOn(l, LegStep(t, l, i).1, i);
    } else if l.legs[i].source.Wallet? {
      WalletLegAnswers(t, l, i);
    } else {
      BankLegAnswers(t, l, i);
    }
  }

  lemma WalletChildAnswers(t: Tables, l: Run, i: nat)
    requires Answers(l) && l.pc == WalletChild(i)
    ensures Answers(Step(t, l).1)
  {
    var l' := Step(t, l).1;
    if l'.pc.LegAt? {
      assert LegGranted(l, i);
      OneMoreGranted(l, l', i);
    } else {
      GrantedOn(l, l', i);
    }
  }

  lemma AskBankAnswers(t: Tables, l: Run, i: nat)
    requires Answers(l) && l.pc == AskBank(i)
    ensures Answers(Step(t, l).1)
  {
    var l' := Step(t, l).1;
    if l'.pc.LegAt? {
      assert LegGranted(l, i);
      OneMoreGranted(l, l', i);
    } else {
      GrantedOn(l, l', i);
    }
  }

  lemma UndoChildAnswers(t: Tables, l: Run, i: nat)
    requires Answers(l) && l.pc == UndoChild(i)
    ensures Answers(Step(t, l).1)
  {
    GrantedOn(l, Step(t, l).1, i);
  }

  lemma PayoutAnswers(t: Tables, l: Run)
    requires Answers(l) && (l.pc.MarkProcessing? || l.pc.MakePayout? || l.pc.Send?)
    ensures Answers(Step(t, l).1)
  {
    GrantedOn(l, Step(t, l).1, |l.legs|);
  }

  lemma FailureAnswers(t: Tables, l: Run)
    requires Answers(l) && (l.pc.MarkPayoutFailed? || l.pc.MarkParentFailed? || l.pc.Undo?)
    ensures Answers(Step(t, l).1)
  {
    GrantedOn(l, Step(t, l).1, |l.legs|);
  }

  lemma CompletionAnswers(t: Tables, l: Run)
    requires Answers(l) && (l.pc.Settle? || l.pc.MarkParentDone? || l.pc.MarkPayoutDone?)
    ensures Answers(Step(t, l).1)
  {
    GrantedOn(l, Step(t, l).1, |l.legs|);
  }

  lemma StepAnswers(t: Tables, l: Run)
    requires Answers(l)
    ensures Answers(Step(t, l).1)
  {
    match l.pc
    case LegAt(i) => LegAnswers(t, l, i);
    case WalletChild(i) => WalletChildAnswers(t, l, i);
    case UndoChild(i) => UndoChildAnswers(t, l, i);
    case AskBank(i) => AskBankAnswers(t, l, i);
    case Lookup => EarlyAnswers(t, l);
    case Planning => EarlyAnswers(t, l);
    case MakeParent => EarlyAnswers(t, l);
    case MarkProcessing => PayoutAnswers(t, l);
    case MakePayout => PayoutAnswers(t, l);
    case Send => PayoutAnswers(t, l);
    case MarkPayoutFailed => FailureAnswers(t, l);
    case MarkParentFailed => FailureAnswers(t, l);
    case Undo(_) => FailureAnswers(t, l);
    case Settle(_) => CompletionAnswers(t, l);
    case MarkParentDone => CompletionAnswers(t, l);
    case MarkPayoutDone => CompletionAnswers(t, l);
    case Exit(_) =>
  }

  // ---------------------------------------------------------------------------------------------
  // The legs are those of a plan

  /** A plan was made for the amount, on some state of the wallet and the accounts as answered. */
  ghost predicate Planned(l: Local) {
    && l.env.balanceRead
    && exists w: WalletRead ::
         !w.ReadFailed?
         && PlanFor(w, l.req.amount, l.env.accounts, l.env.fetches) == PlanResult.Planned(Plan(l.legs, l.req.amount, l.fees))
  }

  ghost predicate PlanOk(l: Run) {
    HasPlan(l.pc) ==> Planned(l)
  }

  lemma PlanningPlans(t: Tables, l: Run)
    requires l.pc.Planning?
    ensures PlanOk(PlanStep(t, l).1)
  {
    var w := ReadWallet(t.book, l.user, l.env.balanceRead);
    var r := PlanFor(w, l.req.amount, l.env.accounts, l.env.fetches);
    if r.Planned? {
      assert r == PlanResult.Planned(Plan(r.plan.legs, l.req.amount, r.plan.fees));
    }
  }

  lemma StepPlanOk(t: Tables, l: Run)
    requires PlanOk(l)
    ensures PlanOk(Step(t, l).1)
  {
    if l.pc.Planning? {
      PlanningPlans(t, l);
    } else {
      LegsStay(t, l);
      FeesStay(t, l);
    }
  }

  lemma FeesStay(t: Tables, l: Run)
    requires !l.pc.Planning?
    ensures Step(t, l).1.fees == l.fees
  {
  }

  /** So every bank a transfer asks is an active and verified account of those it was answered. */
  lemma AsksUsableBanks(l: Run, p: nat) returns (i: nat)
    requires PlanOk(l) && HasPlan(l.pc) && 0 < l.req.amount && p < |l.legs| && l.legs[p].source.Bank?
    requires l.env.accounts.Some? && Distinct(l.env.accounts.value)
    ensures i < |l.env.accounts.value| && l.legs[p].source == Bank(l.env.accounts.value[i].id)
    ensures l.env.accounts.value[i].isActive && l.env.accounts.value[i].isVerified
  {
    var w: WalletRead :| !w.ReadFailed?
      && PlanFor(w, l.req.amount, l.env.accounts, l.env.fetches) == PlanResult.Planned(Plan(l.legs, l.req.amount, l.fees));
    i := EveryBankIsListed(w, l.req.amount, l.env.accounts.value, l.env.fetches, l.legs, p);
  }

  // ---------------------------------------------------------------------------------------------
  // In every interleaving

  ghost predicate AllAnswer(s: System) {
    forall i :: 0 <= i < |s.runs| ==> Answers(s.runs[i]) && PlanOk(s.runs[i])
  }

  lemma EventAnswers(s: System, e: Event)
    requires AllAnswer(s)
    ensures AllAnswer(Apply(s, e))
  {
    if e.StepTransfer? && e.i < |s.runs| {
      StepAnswers(s.t, s.runs[e.i]);
      StepPlanOk(s.t, s.runs[e.i]);
    }
  }

  /** Every point and exit of every transfer agrees with the answers it got, after any events in any order. */
  lemma {:induction false} AlwaysAnswers(s0: System, es: seq<Event>, n: nat)
    requires s0.runs == [] && n <= |es|
    ensures AllAnswer(After(s0, es, n))
  {
    if n > 0 {
      AlwaysAnswers(s0, es, n - 1);
      EventAnswers(After(s0, es, n - 1), es[n - 1]);
    }
  }

  /**
   How a transfer that has its payout row ends.  In every interleaving it fails if and only if payouts
   are enabled and the provider refused this one; and it is done if and only if the provider did not
   refuse it and both completion marks got through.
   */
  lemma PayoutDecides(s0: System, es: seq<Event>, n: nat, i: nat)
    requires s0.runs == [] && n <= |es| && i < |After(s0, es, n).runs|
    requires var l := After(s0, es, n).runs[i]; l.pc.Exit? && l.payout.Some?
    ensures var l := After(s0, es, n).runs[i];
            && (l.pc.result == PayoutFailed <==> l.env.payoutEnabled && !l.env.payoutAccepted)
            && (l.pc.result.Done? <==>
                  (l.env.payoutEnabled ==> l.env.payoutAccepted) && l.env.parentDone && l.env.payoutDone)
  {
    AlwaysAnswers(s0, es, n);
    assert Answers(After(s0, es, n).runs[i]);
  }

  lemma {:induction false} FinishAnswers(t: Tables, l: Run)
    requires Answers(l) && PlanOk(l)
    ensures Answers(Finish(t, l).1) && PlanOk(Finish(t, l).1)
    decreases Stage(l.pc), StepsLeft(l)
  {
    if !l.pc.Exit? {
      StepAnswers(t, l);
      StepPlanOk(t, l);
      StepDescends(t, l);
      FinishAnswers(Step(t, l).0, Step(t, l).1);
    }
  }

  /** The same for a transfer that runs alone: each exit with what was answered, or not, to get there. */
  lemma CallAnswers(t: Tables, c: Call)
    ensures var l := RunCall(t, c).1;
            && l.env == c.env && l.req == c.req && l.user == c.user
            && AnswersAtExit(l, l.pc.result) && PlanOk(l)
            && (l.payout.Some? ==> (l.pc.result == PayoutFailed <==> c.env.payoutEnabled && !c.env.payoutAccepted))
  {
    FinishAnswers(t, Begin(c.user, c.req, c.env));
    EnvStays(t, Begin(c.user, c.req, c.env));
  }
}
