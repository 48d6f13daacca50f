/**
 Money coming in: deposits on issued accounts and top-ups from a linked bank.

 Each call is a task that takes its statements one at a time, so any number of webhook deliveries and
 top-up requests can overlap with each other and with transfers.  `RunTask` is a call that runs alone.
 The lists of credits and the counts of slips are histories: nothing in the program reads them.
 */
module MoneyIn {
  import opened Sums
  import opened Ledger

  const MIN_TOP_UP := 10_000
  const MAX_TOP_UP := 50_000_000
  const DAILY_LIMIT := 100_000_000
  const DAY := 24 * 60 * 60

  datatype DepositRow = DepositRow(user: User, amount: int, fee: int, ref: string, credits: seq<int>)

  datatype FundStatus = FundPending | FundCompleted | FundFailed

  /** `slips` counts what breaks the tie between credits and completion: see Tied. */
  datatype FundRow = FundRow(
    user: User, ref: string, amount: int, status: FundStatus, createdAt: int, completedAt: Option<int>,
    credits: seq<int>, slips: nat)

  datatype Money = Money(accounts: map<string, User>, deposits: seq<DepositRow>, funds: seq<FundRow>, now: int)

  // ---------------------------------------------------------------------------------------------
  // Calls

  datatype DepositCall = DepositCall(
    account: string, amount: int, fee: int, ref: string, lookup: bool, insert: bool, walletRead: bool, credit: bool)

  datatype BankAnswer = BankUnread | NoSuchBank | BankIs(owner: User, active: bool, verified: bool)

  datatype Initiation = NoMono | NoUser | Rejected | Initiated

  datatype FundCall = FundCall(
    user: User, bank: BankAnswer, amount: int, ref: string, sumRead: bool, create: bool, initiation: Initiation, write: bool)

  datatype TopUpCall = TopUpCall(ref: string, amount: int, lookup: bool, walletRead: bool, credit: bool, mark: bool)

  datatype MoneyResult =
    | LookupUnread | WalletUnread | WalletMissing | BadCredit | CreditDown | Credited
    | UnknownAccount | DepositRefused
    | TooSmall | TooLarge | BankDown | Forbidden | BankNotActive | SumUnread | OverDailyLimit | RequestRefused
    | MonoUnavailable | UserMissing | DirectDebitFailed | Waiting(ref: string)
    | UnknownRef | AlreadyCompleted

  datatype DepositPoint = DepositArrived | DepositRecorded(user: User, id: nat) | DepositOver(result: MoneyResult)

  datatype FundPoint = Asked | Checked | Created(id: nat) | FundOver(result: MoneyResult)

  datatype TopUpPoint = TopUpArrived | Admitted(user: User, id: nat) | Unmarked(id: nat) | TopUpOver(result: MoneyResult)

  datatype Task =
    | DepositTask(deposit: DepositCall, depositAt: DepositPoint)
    | FundTask(fund: FundCall, fundAt: FundPoint)
    | TopUpTask(topUp: TopUpCall, topUpAt: TopUpPoint)

  // ---------------------------------------------------------------------------------------------
  // Statements

  predicate DepositRefUsed(deposits: seq<DepositRow>, ref: string) {
    exists i :: 0 <= i < |deposits| && deposits[i].ref == ref
  }

  predicate FundRefUsed(funds: seq<FundRow>, ref: string) {
    exists i :: 0 <= i < |funds| && funds[i].ref == ref
  }

  function HasRef(ref: string): FundRow -> bool {
    (r: FundRow) => r.ref == ref
  }

  function FindFund(funds: seq<FundRow>, ref: string, n: nat): (r: Option<nat>)
    requires n <= |funds|
    ensures r.Some? ==> r.value < n && funds[r.value].ref == ref && forall i :: 0 <= i < r.value ==> funds[i].ref != ref
    ensures r.None? ==> forall i :: 0 <= i < n ==> funds[i].ref != ref
  {
    FindFirst(funds, HasRef(ref), n)
  }

  /**
   UpdateStatus looks at nothing: it sets the completion time on completion and clears it otherwise.
   Writing over a completed row is a slip.
   */
  function StatusWritten(r: FundRow, s: FundStatus, now: int): FundRow {
    r.(status := s, completedAt := if s == FundCompleted then Some(now) else None,
       slips := if r.status == FundCompleted then r.slips + 1 else r.slips)
  }

  function FundStatusSet(funds: seq<FundRow>, id: nat, s: FundStatus, now: int, up: bool): seq<FundRow> {
    if up && id < |funds| then funds[id := StatusWritten(funds[id], s, now)] else funds
  }

  /** A credit whose mark was lost is a slip too. */
  function MarkLost(funds: seq<FundRow>, id: nat): seq<FundRow> {
    if id < |funds| then funds[id := funds[id].(slips := funds[id].slips + 1)] else funds
  }

  function FundCredited(funds: seq<FundRow>, id: nat, amount: int): seq<FundRow> {
    if id < |funds| then funds[id := funds[id].(credits := funds[id].credits + [amount])] else funds
  }

  function DepositCredited(deposits: seq<DepositRow>, id: nat, amount: int): seq<DepositRow> {
    if id < |deposits| then deposits[id := deposits[id].(credits := deposits[id].credits + [amount])] else deposits
  }

  /** A row counts towards today's sum: completed, and created less than 24 hours ago. */
  predicate CountsToday(r: FundRow, u: User, now: int) {
    r.user == u && r.status == FundCompleted && r.createdAt > now - DAY
  }

  function SumCompletedToday(funds: seq<FundRow>, u: User, now: int, n: nat): int
    requires n <= |funds|
  {
    if n == 0 then 0
    else SumCompletedToday(funds, u, now, n - 1) + (if CountsToday(funds[n - 1], u, now) then funds[n - 1].amount else 0)
  }

  /** What a deposit is worth after its fee. */
  function Net(amount: int, fee: int): int {
    Max(0, amount - fee)
  }

  // ---------------------------------------------------------------------------------------------
  // Steps

  /** CreditWallet on the wallet of u that was just read: what it answers, and whether money was added. */
  function CreditOutcome(b: Book, u: User, amount: int, walletRead: bool, up: bool): MoneyResult {
    if !walletRead then WalletUnread
    else if u !in b then WalletMissing
    else if amount <= 0 then BadCredit
    else if OutcomeOf(b, u, Credit(amount), up) != Applied then CreditDown
    else Credited
  }

  function CreditedBook(b: Book, u: User, amount: int, r: MoneyResult): Book {
    if r == Credited then Exec(b, u, Credit(amount), true) else b
  }

  function DepositStep(b: Book, m: Money, c: DepositCall, at: DepositPoint): (Book, Money, DepositPoint) {
    match at
    case DepositArrived =>
      if !c.lookup then (b, m, DepositOver(LookupUnread))
      else if c.account !in m.accounts then (b, m, DepositOver(UnknownAccount))
      else if !c.insert || DepositRefUsed(m.deposits, c.ref) then (b, m, DepositOver(DepositRefused))
      else
        var u := m.accounts[c.account];
        (b, m.(deposits := m.deposits + [DepositRow(u, c.amount, c.fee, c.ref, [])]), DepositRecorded(u, |m.deposits|))
    case DepositRecorded(u, id) =>
      var net := Net(c.amount, c.fee);
      var r := CreditOutcome(b, u, net, c.walletRead, c.credit);
      if r == Credited then
        (CreditedBook(b, u, net, r), m.(deposits := DepositCredited(m.deposits, id, net)), DepositOver(r))
      else (b, m, DepositOver(r))
    case DepositOver(_) => (b, m, at)
  }

  function BankRefusal(c: FundCall): Option<MoneyResult> {
    match c.bank
    case BankUnread => Some(BankDown)
    case NoSuchBank => Some(Forbidden)
    case BankIs(owner, active, verified) =>
      if owner != c.user then Some(Forbidden) else if !active || !verified then Some(BankNotActive) else None
  }

  function CheckFund(m: Money, c: FundCall): FundPoint {
    if c.amount < MIN_TOP_UP then FundOver(TooSmall)
    else if c.amount > MAX_TOP_UP then FundOver(TooLarge)
    else if BankRefusal(c).Some? then FundOver(BankRefusal(c).value)
    else if !c.sumRead then FundOver(SumUnread)
    else if SumCompletedToday(m.funds, c.user, m.now, |m.funds|) + c.amount > DAILY_LIMIT then FundOver(OverDailyLimit)
    else Checked
  }

  /** The status that FundFromBank writes at its end, whatever the row holds by then, and its answer. */
  function CloseAnswer(c: FundCall): (FundStatus, MoneyResult) {
    match c.initiation
    case NoMono => (FundFailed, MonoUnavailable)
    case NoUser => (FundFailed, UserMissing)
    case Rejected => (FundFailed, DirectDebitFailed)
    case Initiated => (FundPending, Waiting(c.ref))
  }

  function FundStep(m: Money, c: FundCall, at: FundPoint): (Money, FundPoint) {
    match at
    case Asked => (m, CheckFund(m, c))
    case Checked =>
      if !c.create || FundRefUsed(m.funds, c.ref) then (m, FundOver(RequestRefused))
      else
        (m.(funds := m.funds + [FundRow(c.user, c.ref, c.amount, FundPending, m.now, None, [], 0)]), Created(|m.funds|))
    case Created(id) =>
      var (s, r) := CloseAnswer(c);
      (m.(funds := FundStatusSet(m.funds, id, s, m.now, c.write)), FundOver(r))
    case FundOver(_) => (m, at)
  }

  function TopUpStep(b: Book, m: Money, c: TopUpCall, at: TopUpPoint): (Book, Money, TopUpPoint) {
    match at
    case TopUpArrived =>
      if !c.lookup then (b, m, TopUpOver(LookupUnread))
      else
        var hit := FindFund(m.funds, c.ref, |m.funds|);
        if hit.None? then (b, m, TopUpOver(UnknownRef))
        else if m.funds[hit.value].status == FundCompleted then (b, m, TopUpOver(AlreadyCompleted))
        else (b, m, Admitted(m.funds[hit.value].user, hit.value))
    case Admitted(u, id) =>
      var r := CreditOutcome(b, u, c.amount, c.walletRead, c.credit);
      if r == Credited then
        (CreditedBook(b, u, c.amount, r), m.(funds := FundCredited(m.funds, id, c.amount)), Unmarked(id))
      else (b, m, TopUpOver(r))
    case Unmarked(id) =>
      var funds := if c.mark then FundStatusSet(m.funds, id, FundCompleted, m.now, true) else MarkLost(m.funds, id);
      (b, m.(funds := funds), TopUpOver(Credited))
    case TopUpOver(_) => (b, m, at)
  }

  function TaskStep(b: Book, m: Money, k: Task): (Book, Money, Task) {
    match k
    case DepositTask(c, at) =>
      var (b', m', at') := DepositStep(b, m, c, at);
      (b', m', DepositTask(c, at'))
    case FundTask(c, at) =>
      var (m', at') := FundStep(m, c, at);
      (b, m', FundTask(c, at'))
    case TopUpTask(c, at) =>
      var (b', m', at') := TopUpStep(b, m, c, at);
      (b', m', TopUpTask(c, at'))
  }

  // ---------------------------------------------------------------------------------------------
  // Running alone

  predicate Over(k: Task) {
    match k
    case DepositTask(_, at) => at.DepositOver?
    case FundTask(_, at) => at.FundOver?
    case TopUpTask(_, at) => at.TopUpOver?
  }

  predicate Unstarted(k: Task) {
    match k
    case DepositTask(_, at) => at.DepositArrived?
    case FundTask(_, at) => at.Asked?
    case TopUpTask(_, at) => at.TopUpArrived?
  }

  function TaskStepsLeft(k: Task): nat {
    match k
    case DepositTask(_, at) => if at.DepositArrived? then 2 else if at.DepositRecorded? then 1 else 0
    case FundTask(_, at) => if at.Asked? then 3 else if at.Checked? then 2 else if at.Created? then 1 else 0
    case TopUpTask(_, at) => if at.TopUpArrived? then 3 else if at.Admitted? then 2 else if at.Unmarked? then 1 else 0
  }

  function RunTask(b: Book, m: Money, k: Task): (r: (Book, Money, Task))
    ensures Over(r.2)
    decreases TaskStepsLeft(k)
  {
    if Over(k) then (b, m, k)
    else
      var (b', m', k') := TaskStep(b, m, k);
      RunTask(b', m', k')
  }

  function ResultOf(k: Task): MoneyResult
    requires Over(k)
  {
    match k
    case DepositTask(_, at) => at.result
    case FundTask(_, at) => at.result
    case TopUpTask(_, at) => at.result
  }
}
