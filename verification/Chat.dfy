/**
 internal/handler/chat*.go: staging an action, and confirming, cancelling or losing it.

 Each user has one slot in Redis.  The agent is any sequence of tool calls; keyword shortcuts reach the
 same steps by another way.  Whether Redis answers, and whatever else the outside says, comes with the
 command.
 */
module Chat {
  import opened Sums
  import opened Ledger
  import opened Sourcing
  import opened Transactions
  import opened Transfer
  import opened TransferSerial
  import opened TransferService

  /** The JSON arguments of initiate_transfer, and the digest of their text. */
  datatype TransferArgs = TransferArgs(naira: real, account: string, bank: string, name: string, digest: string)

  datatype Action =
    | TransferAction(amount: int, payee: Payee, key: string)
    | UnlinkAction(bank: BankId, name: string, number: string)

  datatype Command =
    | StageTransfer(args: Option<TransferArgs>, resolved: string, stored: bool)
    | StageUnlink(target: Option<Action>, stored: bool)
    | ConfirmTransfer(get: bool, env: Env, del: bool)
    | ConfirmUnlink(get: bool, deleted: bool, del: bool)
    | CancelAction(del: bool)
    | SayYes(first: bool, get: bool, env: Env, deleted: bool, del: bool)
    | Expire

  datatype Reply =
    | InvalidArguments | NotPositive | NoRecipient | NoSuchBank | PendingConfirmation
    | NothingPending | WrongKind | TransferFailed(why: Result) | TransferSucceeded(result: Result)
    | UnlinkFailed | Unlinked | Cancelled | Nothing

  datatype ChatState = ChatState(slots: map<User, Action>, t: Tables, unlinked: seq<BankId>)

  // ---------------------------------------------------------------------------------------------
  // The program

  /** Whole naira only: the fraction is cut off before the conversion to kobo. */
  function Kobo(naira: real): int {
    naira.Floor * 100
  }

  function KeyOf(u: User, digest: string): string {
    u + [':'] + digest
  }

  function ActionOf(u: User, a: TransferArgs, resolved: string): Action {
    TransferAction(Kobo(a.naira), Payee(a.account, a.bank, if a.name == [] then resolved else a.name), KeyOf(u, a.digest))
  }

  function ArgsReply(args: Option<TransferArgs>): Reply {
    if args.None? then InvalidArguments
    else if args.value.naira <= 0.0 then NotPositive
    else if args.value.account == [] || args.value.bank == [] then NoRecipient
    else PendingConfirmation
  }

  /** InitiateTransfer returns no error. */
  predicate Accepted(r: Result) {
    r.Hit? || r.Done?
  }

  function Load(s: ChatState, u: User, get: bool): Option<Action> {
    if get && u in s.slots then Some(s.slots[u]) else None
  }

  function Stored(s: ChatState, u: User, a: Action, up: bool): ChatState {
    if up then s.(slots := s.slots[u := a]) else s
  }

  function Cleared(s: ChatState, u: User, up: bool): ChatState {
    if up then s.(slots := s.slots - {u}) else s
  }

  function TransferRun(t: Tables, u: User, a: Action, env: Env): (Tables, Run)
    requires a.TransferAction?
  {
    Finish(t, Begin(u, Request(a.amount, a.payee, a.key), env))
  }

  function ConfirmTransferStep(s: ChatState, u: User, get: bool, env: Env, del: bool): (ChatState, Reply) {
    match Load(s, u, get)
    case None => (s, NothingPending)
    case Some(a) =>
      if !a.TransferAction? then (s, WrongKind)
      else
        var (t', l') := TransferRun(s.t, u, a, env);
        var s' := s.(t := t');
        if Accepted(l'.pc.result) then (Cleared(s', u, del), TransferSucceeded(l'.pc.result))
        else (s', TransferFailed(l'.pc.result))
  }

  function ConfirmUnlinkStep(s: ChatState, u: User, get: bool, deleted: bool, del: bool): (ChatState, Reply) {
    match Load(s, u, get)
    case None => (s, NothingPending)
    case Some(a) =>
      if !a.UnlinkAction? then (s, WrongKind)
      else if !deleted then (s, UnlinkFailed)
      else (Cleared(s.(unlinked := s.unlinked + [a.bank]), u, del), Unlinked)
  }

  function Obey(s: ChatState, u: User, c: Command): (ChatState, Reply) {
    match c
    case StageTransfer(args, resolved, up) =>
      var r := ArgsReply(args);
      if r.PendingConfirmation? then (Stored(s, u, ActionOf(u, args.value, resolved), up), r) else (s, r)
    case StageUnlink(target, up) =>
      if target.Some? && target.value.UnlinkAction? then (Stored(s, u, target.value, up), PendingConfirmation)
      else (s, NoSuchBank)
    case ConfirmTransfer(get, env, del) => ConfirmTransferStep(s, u, get, env, del)
    case ConfirmUnlink(get, deleted, del) => ConfirmUnlinkStep(s, u, get, deleted, del)
    case CancelAction(del) => (Cleared(s, u, del), Cancelled)
    case SayYes(first, get, env, deleted, del) =>
      (match Load(s, u, first)
       case None => (s, NothingPending)
       case Some(TransferAction(_, _, _)) => ConfirmTransferStep(s, u, get, env, del)
       case Some(UnlinkAction(_, _, _)) => ConfirmUnlinkStep(s, u, get, deleted, del))
    case Expire => (Cleared(s, u, true), Nothing)
  }

  datatype Turn = Turn(user: User, command: Command)

  function ChatAfter(s: ChatState, turns: seq<Turn>, n: nat): ChatState
    requires n <= |turns|
  {
    if n == 0 then s
    else Obey(ChatAfter(s, turns, n - 1), turns[n - 1].user, turns[n - 1].command).0
  }

  function ReplyAt(s: ChatState, turns: seq<Turn>, i: nat): Reply
    requires i < |turns|
  {
    Obey(ChatAfter(s, turns, i), turns[i].user, turns[i].command).1
  }

  class ChatHandler {
    const transfers: TransferService
    var slots: map<User, Action>
    var unlinked: seq<BankId>

    constructor (transfers: TransferService)
      ensures this.transfers == transfers && slots == map[] && unlinked == []
    {
      this.transfers, slots, unlinked := transfers, map[], [];
    }

    ghost function Now(): ChatState
      reads this, transfers, transfers.wallets, transfers.txns
    {
      ChatState(slots, transfers.Now(), unlinked)
    }

    method StorePending(u: User, a: Action, up: bool)
      modifies this
      ensures Now() == Stored(old(Now()), u, a, up)
    {
      if up {
        slots := slots[u := a];
      }
    }

    method LoadPending(u: User, get: bool) returns (a: Option<Action>)
      ensures a == Load(Now(), u, get)
    {
      if !get || u !in slots {
        return None;
      }
      return Some(slots[u]);
    }

    method ClearPending(u: User, up: bool)
      modifies this
      ensures Now() == Cleared(old(Now()), u, up)
    {
      if up {
        slots := slots - {u};
      }
    }

    method ToolInitiateTransfer(u: User, args: Option<TransferArgs>, resolved: string, up: bool) returns (r: Reply)
      modifies this
      ensures (Now(), r) == Obey(old(Now()), u, StageTransfer(args, resolved, up))
    {
      if args.None? {
        return InvalidArguments;
      }
      var a := args.value;
      if a.naira <= 0.0 {
        return NotPositive;
      }
      if a.account == [] || a.bank == [] {
        return NoRecipient;
      }
      var name := a.name;
      if name == [] {
        name := resolved;
      }
      StorePending(u, TransferAction(a.naira.Floor * 100, Payee(a.account, a.bank, name), KeyOf(u, a.digest)), up);
      return PendingConfirmation;
    }

    method ToolInitiateUnlink(u: User, target: Option<Action>, up: bool) returns (r: Reply)
      modifies this
      ensures (Now(), r) == Obey(old(Now()), u, StageUnlink(target, up))
    {
      if target.None? || !target.value.UnlinkAction? {
        return NoSuchBank;
      }
      StorePending(u, target.value, up);
      return PendingConfirmation;
    }

    method ToolConfirmTransfer(u: User, get: bool, env: Env, del: bool) returns (r: Reply)
      requires env.accounts.Some? ==> Distinct(env.accounts.value)
      modifies this, transfers, transfers.wallets, transfers.txns
      ensures (Now(), r) == ConfirmTransferStep(old(Now()), u, get, env, del)
    {
      var pending := LoadPending(u, get);
      if pending.None? {
        return NothingPending;
      }
      var a := pending.value;
      if !a.TransferAction? {
        return WrongKind;
      }
      var res := transfers.InitiateTransfer(u, Request(a.amount, a.payee, a.key), env);
      if !res.Hit? && !res.Done? {
        return TransferFailed(res);
      }
      ClearPending(u, del);
      return TransferSucceeded(res);
    }

    method ToolConfirmUnlink(u: User, get: bool, deleted: bool, del: bool) returns (r: Reply)
      modifies this
      ensures (Now(), r) == ConfirmUnlinkStep(old(Now()), u, get, deleted, del)
    {
      var pending := LoadPending(u, get);
      if pending.None? {
        return NothingPending;
      }
      if !pending.value.UnlinkAction? {
        return WrongKind;
      }
      if !deleted {
        return UnlinkFailed;
      }
      unlinked := unlinked + [pending.value.bank];
      ClearPending(u, del);
      return Unlinked;
    }

    method ToolCancelAction(u: User, del: bool) returns (r: Reply)
      modifies this
      ensures (Now(), r) == Obey(old(Now()), u, CancelAction(del))
    {
      ClearPending(u, del);
      return Cancelled;
    }

    method ShortcutConfirm(u: User, first: bool, get: bool, env: Env, deleted: bool, del: bool) returns (r: Reply)
      requires env.accounts.Some? ==> Distinct(env.accounts.value)
      modifies this, transfers, transfers.wallets, transfers.txns
      ensures (Now(), r) == Obey(old(Now()), u, SayYes(first, get, env, deleted, del))
    {
      var pending := LoadPending(u, first);
      if pending.None? {
        return NothingPending;
      }
      match pending.value {
        case TransferAction(_, _, _) => r := ToolConfirmTransfer(u, get, env, del);
        case UnlinkAction(_, _, _) => r := ToolConfirmUnlink(u, get, deleted, del);
      }
    }
  }

  // ---------------------------------------------------------------------------------------------
  // The action that a user has staged, told from commands and replies alone

  /** What a command did to the staged action of its user, as its reply has it. */
  datatype Effect = Stages(action: Action) | Ends | Keeps

  function EffectOf(turn: Turn, r: Reply): Effect {
    match turn.command
    case StageTransfer(args, resolved, _) =>
      if r.PendingConfirmation? && args.Some? then Stages(ActionOf(turn.user, args.value, resolved)) else Keeps
    case StageUnlink(target, _) => if r.PendingConfirmation? && target.Some? then Stages(target.value) else Keeps
    case ConfirmTransfer(_, _, _) => if r.TransferSucceeded? then Ends else Keeps
    case ConfirmUnlink(_, _, _) => if r.Unlinked? then Ends else Keeps
    case CancelAction(_) => if r.Cancelled? then Ends else Keeps
    case SayYes(_, _, _, _, _) => if r.TransferSucceeded? || r.Unlinked? then Ends else Keeps
    case Expire => Ends
  }

  function EffectAt(s: ChatState, turns: seq<Turn>, i: nat): Effect
    requires i < |turns|
  {
    EffectOf(turns[i], ReplyAt(s, turns, i))
  }

  /** The last turn of u among the first n that staged or ended something. */
  function LastEffect(s: ChatState, turns: seq<Turn>, u: User, n: nat): (r: Option<nat>)
    requires n <= |turns|
    ensures r.Some? ==> r.value < n
  {
    if n == 0 then None
    else if turns[n - 1].user == u && !EffectAt(s, turns, n - 1).Keeps? then Some(n - 1)
    else LastEffect(s, turns, u, n - 1)
  }

  lemma {:induction false} LastEffectIsLast(s: ChatState, turns: seq<Turn>, u: User, n: nat)
    requires n <= |turns|
    ensures var r := LastEffect(s, turns, u, n);
            && (r.Some? ==> turns[r.value].user == u && !EffectAt(s, turns, r.value).Keeps?)
            && forall k :: (if r.Some? then r.value + 1 else 0) <= k < n && turns[k].user == u ==>
                 EffectAt(s, turns, k).Keeps?
  {
    if n > 0 {
      LastEffectIsLast(s, turns, u, n - 1);
    }
  }

  function Wanted(e: Effect): Option<Action> {
    if e.Stages? then Some(e.action) else None
  }

  /** What u has staged last, if it has since been neither cancelled, nor carried out, nor expired. */
  function LiveAction(s: ChatState, turns: seq<Turn>, u: User, n: nat): Option<Action>
    requires n <= |turns|
  {
    var r := LastEffect(s, turns, u, n);
    if r.None? then None else Wanted(EffectAt(s, turns, r.value))
  }

  // ---------------------------------------------------------------------------------------------
  // The slot follows it, as far as the writes to Redis get through

  /** Whether the command's write to Redis gets through; no reply tells. */
  predicate Through(c: Command) {
    match c
    case StageTransfer(_, _, up) => up
    case StageUnlink(_, up) => up
    case ConfirmTransfer(_, _, del) => del
    case ConfirmUnlink(_, _, del) => del
    case CancelAction(del) => del
    case SayYes(_, _, _, _, del) => del
    case Expire => true
  }

  function SlotOf(s: ChatState, u: User): Option<Action> {
    if u in s.slots then Some(s.slots[u]) else None
  }

  lemma ObeyMovesSlots(s: ChatState, turn: Turn, u: User)
    ensures var (s', r) := Obey(s, turn.user, turn.command);
            var e := EffectOf(turn, r);
            SlotOf(s', u) == if turn.user == u && !e.Keeps? && Through(turn.command) then Wanted(e) else SlotOf(s, u)
  {
  }

  /** The slot is what the last effect wanted, or if that write was lost, what it was before. */
  lemma {:induction false} SlotSince(s: ChatState, turns: seq<Turn>, u: User, n: nat)
    requires n <= |turns|
    ensures var r := LastEffect(s, turns, u, n);
            SlotOf(ChatAfter(s, turns, n), u)
            == if r.None? then SlotOf(s, u)
               else if Through(turns[r.value].command) then Wanted(EffectAt(s, turns, r.value))
               else SlotOf(ChatAfter(s, turns, r.value), u)
  {
    if n > 0 {
      SlotSince(s, turns, u, n - 1);
      ObeyMovesSlots(ChatAfter(s, turns, n - 1), turns[n - 1], u);
    }
  }

  /** The last write for u got through, if there was one. */
  predicate LastThrough(s: ChatState, turns: seq<Turn>, u: User, n: nat)
    requires n <= |turns|
  {
    var r := LastEffect(s, turns, u, n);
    r.Some? ==> Through(turns[r.value].command)
  }

  /**
   The slot holds exactly the live action if and only if the last write for the user got through, or
   the slot happened to hold what that write would have left.
   */
  lemma SlotIsLive(s: ChatState, turns: seq<Turn>, u: User, n: nat)
    requires n <= |turns| && s.slots == map[]
    ensures SlotOf(ChatAfter(s, turns, n), u) == LiveAction(s, turns, u, n)
            <==> LastThrough(s, turns, u, n)
                 || SlotOf(ChatAfter(s, turns, LastEffect(s, turns, u, n).value), u) == LiveAction(s, turns, u, n)
  {
    SlotSince(s, turns, u, n);
  }

  // ---------------------------------------------------------------------------------------------
  // What is executed

  function ConfirmEnv(c: Command): Option<Env> {
    match c
    case ConfirmTransfer(_, env, _) => Some(env)
    case SayYes(_, _, env, _, _) => Some(env)
    case _ => None
  }

  /** A step that touches the tables runs the transfer in the slot; a step that unlinks a bank unlinks the one there. */
  lemma ObeyExecutesSlot(s: ChatState, u: User, c: Command)
    ensures var s' := Obey(s, u, c).0;
            && (s'.t != s.t ==>
                  && u in s.slots && s.slots[u].TransferAction? && ConfirmEnv(c).Some?
                  && s'.t == TransferRun(s.t, u, s.slots[u], ConfirmEnv(c).value).0
                  && s'.unlinked == s.unlinked)
            && (s'.unlinked != s.unlinked ==>
                  && u in s.slots && s.slots[u].UnlinkAction? && (c.ConfirmUnlink? || c.SayYes?)
                  && s'.unlinked == s.unlinked + [s.slots[u].bank])
  {
  }

  /** A turn executes this action: it moves money or unlinks a bank as the action says. */
  ghost predicate Executes(before: ChatState, after: ChatState, turn: Turn, a: Option<Action>) {
    && (after.t != before.t ==>
          && a.Some? && a.value.TransferAction? && ConfirmEnv(turn.command).Some?
          && after.t == TransferRun(before.t, turn.user, a.value, ConfirmEnv(turn.command).value).0)
    && (after.unlinked != before.unlinked ==>
          && a.Some? && a.value.UnlinkAction? && (turn.command.ConfirmUnlink? || turn.command.SayYes?)
          && after.unlinked == before.unlinked + [a.value.bank])
  }

  /**
   Two-phase safety.  Whatever the agent and the user do, a turn moves money or unlinks a bank only as
   a confirmation, and provided the last write for its user got through it executes exactly the live
   action: staged last, and since neither replaced, cancelled, expired nor carried out.
   */
  lemma OnlyLiveActionsExecute(s: ChatState, turns: seq<Turn>, i: nat)
    requires i < |turns| && s.slots == map[] && LastThrough(s, turns, turns[i].user, i)
    ensures Executes(ChatAfter(s, turns, i), ChatAfter(s, turns, i + 1), turns[i], LiveAction(s, turns, turns[i].user, i))
  {
    SlotIsLive(s, turns, turns[i].user, i);
    ObeyExecutesSlot(ChatAfter(s, turns, i), turns[i].user, turns[i].command);
  }

  /** If it did not get through, a turn executes at most what the slot held before that write. */
  lemma OlderActionsExecute(s: ChatState, turns: seq<Turn>, i: nat)
    requires i < |turns| && !LastThrough(s, turns, turns[i].user, i)
    ensures var u := turns[i].user;
            Executes(ChatAfter(s, turns, i), ChatAfter(s, turns, i + 1), turns[i],
                     SlotOf(ChatAfter(s, turns, LastEffect(s, turns, u, i).value), u))
  {
    SlotSince(s, turns, turns[i].user, i);
    ObeyExecutesSlot(ChatAfter(s, turns, i), turns[i].user, turns[i].command);
  }

  lemma ObeyKeepsKeys(s: ChatState, u: User, c: Command)
    requires KeysUnique(s.t.txns)
    ensures KeysUnique(Obey(s, u, c).0.t.txns)
  {
    ObeyExecutesSlot(s, u, c);
    if Obey(s, u, c).0.t != s.t {
      var a := s.slots[u];
      KeyHeldToTheEnd(s.t, Begin(u, Request(a.amount, a.payee, a.key), ConfirmEnv(c).value));
    }
  }

  /** All confirmations together make at most one parent row for each key. */
  lemma {:induction false} OneParentPerKey(s: ChatState, turns: seq<Turn>, n: nat)
    requires n <= |turns| && KeysUnique(s.t.txns)
    ensures KeysUnique(ChatAfter(s, turns, n).t.txns)
  {
    if n > 0 {
      OneParentPerKey(s, turns, n - 1);
      ObeyKeepsKeys(ChatAfter(s, turns, n - 1), turns[n - 1].user, turns[n - 1].command);
    }
  }

  // ---------------------------------------------------------------------------------------------
  // Where it ends

  /** A staging whose store is lost still asks for confirmation, and the confirmation executes the older action. */
  lemma LostStoreKeepsOld(s: ChatState, u: User, args: TransferArgs, resolved: string, env: Env, del: bool)
    requires u in s.slots && s.slots[u].TransferAction? && ArgsReply(Some(args)).PendingConfirmation?
    ensures var (s1, r1) := Obey(s, u, StageTransfer(Some(args), resolved, false));
            var (s2, _) := Obey(s1, u, ConfirmTransfer(true, env, del));
            && r1 == PendingConfirmation
            && s2.t == TransferRun(s.t, u, s.slots[u], env).0
  {
  }

  /** A cancellation whose delete is lost is answered as a cancellation, and a confirmation still executes. */
  lemma LostCancelKeepsOld(s: ChatState, u: User, env: Env, del: bool)
    requires u in s.slots && s.slots[u].TransferAction?
    ensures var (s1, r1) := Obey(s, u, CancelAction(false));
            var (s2, _) := Obey(s1, u, ConfirmTransfer(true, env, del));
            && r1 == Cancelled
            && s2.t == TransferRun(s.t, u, s.slots[u], env).0
  {
  }

  /**
   Confirming an action whose key is recorded moves nothing and is answered as a success: so ends the
   confirmation after an attempt that failed once its parent row was there, and so ends the second of
   two requests with the same arguments.
   */
  lemma ReconfirmIsAnsweredAsSuccess(s: ChatState, u: User, env: Env, del: bool, i: nat)
    requires u in s.slots && s.slots[u].TransferAction? && s.slots[u].key != [] && env.keyRead
    requires KeysUnique(s.t.txns) && i < |s.t.txns| && s.t.txns[i].key == s.slots[u].key
    ensures var (s', r) := Obey(s, u, ConfirmTransfer(true, env, del));
            && s' == Cleared(s, u, del)
            && r == TransferSucceeded(Hit(i, s.t.txns[i].ref, s.t.txns[i].status))
  {
    var a := s.slots[u];
    RecordedKeyStutters(s.t, Call(u, Request(a.amount, a.payee, a.key), env), i);
  }

  /** Whole naira are exact; less than one naira passes the check and stages an amount of zero. */
  lemma AmountsAreCutOff(u: User, a: TransferArgs, resolved: string)
    requires ArgsReply(Some(a)).PendingConfirmation?
    ensures var k := ActionOf(u, a, resolved).amount;
            k as real <= 100.0 * a.naira < (k + 100) as real && (k == 0 <==> a.naira < 1.0)
  {
    assert a.naira.Floor as real <= a.naira < (a.naira.Floor + 1) as real;
  }
}
