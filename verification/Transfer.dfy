/**
 A transfer as a sequence of atomic steps, one for each statement or provider call of InitiateTransfer,
 in the order of the Go code.  Whatever the outside answers during one transfer is fixed in its Env,
 so a step is a function; because environments are arbitrary nothing is lost.  Several transfers can
 take their steps in any order; one that runs alone is `Finish`.
 */
module Transfer {
  import opened Sums
  import opened Ledger
  import opened Sourcing
  import opened Transactions

  datatype Request = Request(amount: int, payee: Payee, key: string)

  // ---------------------------------------------------------------------------------------------
  // Answers from outside

  /** For the wallet leg: do the wallet read, the hold, the child row and the compensating release get through? */
  datatype WalletLegEnv = WalletLegEnv(read: bool, hold: bool, row: bool, release: bool)

  /** For a bank leg: the account as read again by id, whether its row gets through, whether the provider accepts. */
  datatype BankLegEnv = Unusable | Usable(provider: Provider, token: string, row: bool, accepts: bool)

  datatype Env = Env(
    keyRead: bool, balanceRead: bool, accounts: Option<seq<Account>>, fetches: Fetches, base: string, now: int,
    parentRow: bool, wallet: WalletLegEnv, banks: map<BankId, BankLegEnv>, mono: bool,
    processing: bool, payoutRow: bool, payoutEnabled: bool, payoutAccepted: bool,
    payoutFailed: bool, parentFailed: bool, undoRead: bool, undo: bool,
    settleRead: bool, settle: bool, parentDone: bool, payoutDone: bool)

  // ---------------------------------------------------------------------------------------------
  // State

  /** Money asked of a bank, or sent to the recipient, on behalf of a parent row. */
  datatype Movement = Movement(owner: nat, amount: int, ref: Ref, payee: Payee)

  datatype Tables = Tables(book: Book, txns: seq<Txn>, pulls: seq<Movement>, payouts: seq<Movement>)

  datatype Result =
    | LookupFailed
    | Hit(id: nat, ref: Ref, status: Status)
    | PlanFailed(why: PlanResult)
    | ParentRefused
    | WalletUnreadable(leg: nat)
    | HoldRefused(leg: nat)
    | WalletRowRefused(leg: nat)
    | BankUnusable(leg: nat)
    | BankRowRefused(leg: nat)
    | BankRefused(leg: nat)
    | ProcessingNotMarked
    | PayoutRowRefused
    | PayoutFailed
    | CompletionNotMarked
    | PayoutNotMarked
    | Done(id: nat, ref: Ref)

  datatype Pc =
    | Lookup
    | Planning
    | MakeParent
    | LegAt(i: nat)
    | WalletChild(i: nat)
    | UndoChild(i: nat)
    | AskBank(i: nat)
    | MarkProcessing
    | MakePayout
    | Send
    | MarkPayoutFailed
    | MarkParentFailed
    | Undo(i: nat)
    | Settle(i: nat)
    | MarkParentDone
    | MarkPayoutDone
    | Exit(result: Result)

  /** `held` is what this transfer's holds took minus what its releases gave back; `settled` what its debits took. */
  datatype Local = Local(
    user: User, req: Request, env: Env, pc: Pc, legs: seq<Leg>, fees: int,
    parent: Option<nat>, payout: Option<nat>, held: int, settled: int)

  predicate BeforeParent(pc: Pc) {
    pc.Lookup? || pc.Planning? || pc.MakeParent?
  }

  predicate InLegs(pc: Pc) {
    pc.LegAt? || pc.WalletChild? || pc.UndoChild? || pc.AskBank?
  }

  /** The program counter points at legs and rows that exist. */
  predicate WellFormed(l: Local) {
    && (l.pc.LegAt? || l.pc.Undo? || l.pc.Settle? ==> l.pc.i <= |l.legs|)
    && (l.pc.WalletChild? || l.pc.UndoChild? || l.pc.AskBank? ==> l.pc.i < |l.legs|)
    && (!BeforeParent(l.pc) && !l.pc.Exit? ==> l.parent.Some?)
    && (!BeforeParent(l.pc) && !InLegs(l.pc) && !l.pc.MarkProcessing? && !l.pc.MakePayout? && !l.pc.Exit?
        ==> l.payout.Some?)
    && (l.payout.Some? ==> l.parent.Some?)
  }

  const NO_FETCHES := Fetches(false, map[])
  const NO_ENV := Env(false, false, None, NO_FETCHES, [], 0, false, WalletLegEnv(false, false, false, false), map[], false,
                      false, false, false, false, false, false, false, false, false, false, false, false)
  const NOBODY := Payee([], [], [])

  type Run = l: Local | WellFormed(l)
    witness Local([], Request(0, NOBODY, []), NO_ENV, Lookup, [], 0, None, None, 0, 0)

  function Begin(u: User, req: Request, env: Env): Run {
    Local(u, req, env, Lookup, [], 0, None, None, 0, 0)
  }

  // ---------------------------------------------------------------------------------------------
  // Rows

  /** The first eight characters of an id. */
  function Head8(id: BankId): string {
    if |id| >= 8 then id[..8] else id
  }

  function ParentTxn(l: Local): Txn {
    Txn(l.user, None, DebitLeg, l.req.amount, l.fees, Pending, OtherProvider, l.req.payee,
        Ref(l.env.base, Root), l.req.key, l.env.now, None)
  }

  function WalletTxn(l: Local, leg: Leg): Txn {
    Txn(l.user, l.parent, DebitLeg, leg.amount, leg.fee, Pending, WalletProvider, NOBODY,
        Ref(l.env.base, WalletPart), [], l.env.now, None)
  }

  function BankTxn(l: Local, leg: Leg, id: BankId, provider: Provider): Txn {
    Txn(l.user, l.parent, DebitLeg, leg.amount, leg.fee, Pending, provider, NOBODY,
        Ref(l.env.base, BankPart(Head8(id))), [], l.env.now, None)
  }

  function PayoutTxn(l: Local): Txn {
    Txn(l.user, l.parent, PayoutLeg, l.req.amount, 0, Pending, Paystack, l.req.payee,
        Ref(l.env.base, PayoutPart), [], l.env.now, None)
  }

  /** What PaymentInitiate is asked for leg i. */
  function PullOf(l: Local, i: nat): Movement
    requires l.parent.Some? && i < |l.legs| && l.legs[i].source.Bank?
  {
    Movement(l.parent.value, l.legs[i].amount, Ref(l.env.base, BankPart(Head8(l.legs[i].source.id))), NOBODY)
  }

  /** What SendPayout is asked. */
  function PayoutOf(l: Local): Movement
    requires l.parent.Some?
  {
    Movement(l.parent.value, l.req.amount, Ref(l.env.base, PayoutPart), l.req.payee)
  }

  // ---------------------------------------------------------------------------------------------
  // Steps

  function ReadWallet(b: Book, u: User, up: bool): WalletRead {
    if !up then ReadFailed else if u in b then Found(b[u]) else NoWallet
  }

  function BankOf(env: Env, id: BankId): BankLegEnv {
    if id in env.banks then env.banks[id] else Unusable
  }

  /** executeBankDebit: a token, a provider that is supported and configured, and its consent. */
  predicate BankAccepts(env: Env, id: BankId) {
    var b := BankOf(env, id);
    b.Usable? && b.token != [] && b.provider == Mono && env.mono && b.accepts
  }

  function InsertStep(t: Tables, row: Txn, up: bool, yes: Run, no: Run): (Tables, Run) {
    if Insertable(t.txns, row, up) then (t.(txns := t.txns + [row]), yes) else (t, no)
  }

  function MarkStep(t: Tables, id: nat, s: Status, l: Run, up: bool, yes: Run, no: Run): (Tables, Run) {
    (t.(txns := StatusSet(t.txns, id, s, l.env.now, up)), if up then yes else no)
  }

  function LegStep(t: Tables, l: Run, i: nat): (Tables, Run)
    requires l.pc == LegAt(i)
  {
    if i == |l.legs| then (t, l.(pc := MarkProcessing))
    else
      var leg := l.legs[i];
      match leg.source
      case Wallet =>
        if !l.env.wallet.read || l.user !in t.book then (t, l.(pc := Exit(WalletUnreadable(i))))
        else
          var op := Hold(leg.amount + leg.fee);
          if OutcomeOf(t.book, l.user, op, l.env.wallet.hold) == Applied then
            (t.(book := Exec(t.book, l.user, op, l.env.wallet.hold)),
             l.(pc := WalletChild(i), held := l.held + leg.amount + leg.fee))
          else (t, l.(pc := Exit(HoldRefused(i))))
      case Bank(id) =>
        match BankOf(l.env, id)
        case Unusable => (t, l.(pc := Exit(BankUnusable(i))))
        case Usable(provider, _, row, _) =>
          InsertStep(t, BankTxn(l, leg, id, provider), row, l.(pc := AskBank(i)), l.(pc := Exit(BankRowRefused(i))))
  }

  function ReleaseStep(t: Tables, l: Run, amount: int, up: bool, next: Pc): (Tables, Local) {
    var applied := OutcomeOf(t.book, l.user, ReleaseHold(amount), up) == Applied;
    (t.(book := Exec(t.book, l.user, ReleaseHold(amount), up)),
     l.(pc := next, held := if applied then l.held - amount else l.held))
  }

  function UndoStep(t: Tables, l: Run, i: nat): (Tables, Run)
    requires l.pc == Undo(i)
  {
    if i == |l.legs| then (t, l.(pc := Exit(PayoutFailed)))
    else if l.legs[i].source.Wallet? && l.env.undoRead then
      ReleaseStep(t, l, l.legs[i].amount + l.legs[i].fee, l.env.undo, Undo(i + 1))
    else (t, l.(pc := Undo(i + 1)))
  }

  function SettleStep(t: Tables, l: Run, i: nat): (Tables, Run)
    requires l.pc == Settle(i)
  {
    if i == |l.legs| then (t, l.(pc := MarkParentDone))
    else if l.legs[i].source.Wallet? && l.env.settleRead then
      var amount := l.legs[i].amount + l.legs[i].fee;
      var applied := OutcomeOf(t.book, l.user, Debit(amount), l.env.settle) == Applied;
      (t.(book := Exec(t.book, l.user, Debit(amount), l.env.settle)),
       l.(pc := Settle(i + 1), settled := if applied then l.settled + amount else l.settled))
    else (t, l.(pc := Settle(i + 1)))
  }

  function PlanStep(t: Tables, l: Run): (Tables, Run)
    requires l.pc == Planning
  {
    var r := PlanFor(ReadWallet(t.book, l.user, l.env.balanceRead), l.req.amount, l.env.accounts, l.env.fetches);
    (t, if r.Planned? then l.(pc := MakeParent, legs := r.plan.legs, fees := r.plan.fees)
        else l.(pc := Exit(PlanFailed(r))))
  }

  function LookupStep(t: Tables, l: Run): (Tables, Run)
    requires l.pc == Lookup
  {
    if l.req.key == [] then (t, l.(pc := Planning))
    else if !l.env.keyRead then (t, l.(pc := Exit(LookupFailed)))
    else
      var hit := FindKey(t.txns, l.req.key, |t.txns|);
      if hit.Some? then (t, l.(pc := Exit(Hit(hit.value, t.txns[hit.value].ref, t.txns[hit.value].status))))
      else (t, l.(pc := Planning))
  }

  function SendStep(t: Tables, l: Run): (Tables, Run)
    requires l.pc == Send
  {
    if !l.env.payoutEnabled then (t, l.(pc := Settle(0)))
    else if l.env.payoutAccepted then
      (t.(payouts := t.payouts + [PayoutOf(l)]), l.(pc := Settle(0)))
    else (t, l.(pc := MarkPayoutFailed))
  }

  function Step(t: Tables, l: Run): (Tables, Run) {
    match l.pc
    case Lookup => LookupStep(t, l)
    case Planning => PlanStep(t, l)
    case MakeParent =>
      InsertStep(t, ParentTxn(l), l.env.parentRow,
                 l.(pc := LegAt(0), parent := Some(|t.txns|)), l.(pc := Exit(ParentRefused)))
    case LegAt(i) => LegStep(t, l, i)
    case WalletChild(i) =>
      InsertStep(t, WalletTxn(l, l.legs[i]), l.env.wallet.row, l.(pc := LegAt(i + 1)), l.(pc := UndoChild(i)))
    case UndoChild(i) =>
      ReleaseStep(t, l, l.legs[i].amount + l.legs[i].fee, l.env.wallet.release, Exit(WalletRowRefused(i)))
    case AskBank(i) =>
      if l.legs[i].source.Bank? && BankAccepts(l.env, l.legs[i].source.id) then
        (t.(pulls := t.pulls + [PullOf(l, i)]), l.(pc := LegAt(i + 1)))
      else (t, l.(pc := Exit(BankRefused(i))))
    case MarkProcessing =>
      MarkStep(t, l.parent.value, Processing, l, l.env.processing,
               l.(pc := MakePayout), l.(pc := Exit(ProcessingNotMarked)))
    case MakePayout =>
      InsertStep(t, PayoutTxn(l), l.env.payoutRow,
                 l.(pc := Send, payout := Some(|t.txns|)), l.(pc := Exit(PayoutRowRefused)))
    case Send => SendStep(t, l)
    case MarkPayoutFailed =>
      MarkStep(t, l.payout.value, Failed, l, l.env.payoutFailed, l.(pc := MarkParentFailed), l.(pc := MarkParentFailed))
    case MarkParentFailed =>
      MarkStep(t, l.parent.value, Failed, l, l.env.parentFailed, l.(pc := Undo(0)), l.(pc := Undo(0)))
    case Undo(i) => UndoStep(t, l, i)
    case Settle(i) => SettleStep(t, l, i)
    case MarkParentDone =>
      MarkStep(t, l.parent.value, Completed, l, l.env.parentDone,
               l.(pc := MarkPayoutDone), l.(pc := Exit(CompletionNotMarked)))
    case MarkPayoutDone =>
      MarkStep(t, l.payout.value, Completed, l, l.env.payoutDone,
               l.(pc := Exit(Done(l.parent.value, Ref(l.env.base, Root)))), l.(pc := Exit(PayoutNotMarked)))
    case Exit(_) => (t, l)
  }

  // ---------------------------------------------------------------------------------------------
  // Running alone

  function Stage(pc: Pc): nat {
    match pc
    case Lookup => 14
    case Planning => 13
    case MakeParent => 12
    case LegAt(_) => 11
    case WalletChild(_) => 11
    case UndoChild(_) => 11
    case AskBank(_) => 11
    case MarkProcessing => 10
    case MakePayout => 9
    case Send => 8
    case MarkPayoutFailed => 7
    case MarkParentFailed => 6
    case Undo(_) => 5
    case Settle(_) => 4
    case MarkParentDone => 3
    case MarkPayoutDone => 2
    case Exit(_) => 0
  }

  function StepsLeft(l: Run): nat {
    match l.pc
    case LegAt(i) => 3 * (|l.legs| - i) + 2
    case WalletChild(i) => 3 * (|l.legs| - i) + 1
    case AskBank(i) => 3 * (|l.legs| - i) + 1
    case Undo(i) => |l.legs| - i
    case Settle(i) => |l.legs| - i
    case _ => 0
  }

  /** The transfer run to its exit without anyone else taking a step. */
  function Finish(t: Tables, l: Run): (r: (Tables, Run))
    ensures r.1.pc.Exit?
    decreases Stage(l.pc), StepsLeft(l)
  {
    if l.pc.Exit? then (t, l)
    else
      var (t', l') := Step(t, l);
      Finish(t', l')
  }
}
