/** What is staged is what was asked for, what is confirmed is what goes out, and what each reply says. */
module ChatAnswers {
  import opened Sums
  import opened Ledger
  import opened Sourcing
  import opened Transactions
  import opened Transfer
  import opened TransferLaws
  import opened TransferSerial
  import opened TransferTree
  import opened TransferAnswers
  import opened TransferRows
  import opened Chat

  // ---------------------------------------------------------------------------------------------
  // Staging

  /** The recipient as given, under the name given or else resolved. */
  predicate PayeeAsked(p: Payee, args: TransferArgs, resolved: string) {
    p.account == args.account && p.bank == args.bank && p.name == if |args.name| > 0 then args.name else resolved
  }

  /** The key is the user, a colon, and the digest of the arguments. */
  predicate KeyOfUser(key: string, u: User, digest: string) {
    && |key| == |u| + 1 + |digest| && key[..|u|] == u && key[|u|] == ':' && key[|u| + 1..] == digest
  }

  predicate AsAsked(a: Action, u: User, args: TransferArgs, resolved: string) {
    && a.TransferAction? && a.amount == args.naira.Floor * 100
    && PayeeAsked(a.payee, args, resolved) && KeyOfUser(a.key, u, args.digest)
  }

  /** A positive amount and a whole recipient. */
  predicate ArgumentsOk(args: TransferArgs) {
    args.naira > 0.0 && |args.account| > 0 && |args.bank| > 0
  }

  /** The slots of all others, the tables and the list of unlinked banks are as they were. */
  ghost predicate OnlySlot(s: ChatState, s': ChatState, u: User) {
    && s'.t == s.t && s'.unlinked == s.unlinked && forall v :: v != u ==> SlotOf(s', v) == SlotOf(s, v)
  }

  /** Each reply to a staging, exactly; and what is in the slot after the one that asks for confirmation. */
  lemma StagingAnswers(s: ChatState, u: User, args: Option<TransferArgs>, resolved: string, up: bool)
    ensures var (s', r) := Obey(s, u, StageTransfer(args, resolved, up));
            && (r == InvalidArguments <==> args.None?)
            && (r == NotPositive <==> args.Some? && args.value.naira <= 0.0)
            && (r == NoRecipient <==>
                  args.Some? && args.value.naira > 0.0 && (|args.value.account| == 0 || |args.value.bank| == 0))
            && (r == PendingConfirmation <==> args.Some? && ArgumentsOk(args.value))
            && (r != PendingConfirmation || !up ==> s' == s)
            && (r == PendingConfirmation && up ==>
                  OnlySlot(s, s', u) && u in s'.slots && AsAsked(s'.slots[u], u, args.value, resolved))
  {
    if args.Some? {
      var key := KeyOf(u, args.value.digest);
      assert key[..|u|] == u && key[|u| + 1..] == args.value.digest;
    }
  }

  /** The bank to unlink is staged as it was found. */
  lemma UnlinkStagingAnswers(s: ChatState, u: User, target: Option<Action>, up: bool)
    ensures var (s', r) := Obey(s, u, StageUnlink(target, up));
            && (r == PendingConfirmation <==> target.Some? && target.value.UnlinkAction?)
            && (r != PendingConfirmation ==> r == NoSuchBank)
            && (r != PendingConfirmation || !up ==> s' == s)
            && (r == PendingConfirmation && up ==> OnlySlot(s, s', u) && SlotOf(s', u) == target)
  {
  }

  lemma ColonAt(key: string, u: User, digest: string)
    requires KeyOfUser(key, u, digest) && forall i :: 0 <= i < |u| ==> u[i] != ':'
    ensures (forall i :: 0 <= i < |u| ==> key[i] != ':') && key[|u|] == ':'
    ensures key == u + [':'] + digest
  {
    assert forall i :: 0 <= i < |u| ==> key[i] == key[..|u|][i];
    assert key == key[..|u|] + [key[|u|]] + key[|u| + 1..];
  }

  /** The keys of different users differ, as long as their names have no colon. */
  lemma KeysTellUsersApart(k1: string, k2: string, u: User, v: User, d: string, e: string)
    requires KeyOfUser(k1, u, d) && KeyOfUser(k2, v, e)
    requires (forall i :: 0 <= i < |u| ==> u[i] != ':') && (forall i :: 0 <= i < |v| ==> v[i] != ':')
    ensures k1 == k2 <==> u == v && d == e
  {
    ColonAt(k1, u, d);
    ColonAt(k2, v, e);
  }

  // ---------------------------------------------------------------------------------------------
  // Confirming and cancelling

  /** The user's action is there to be read. */
  predicate Readable(s: ChatState, u: User, get: bool) {
    get && u in s.slots
  }

  /** Each reply to the confirmation of a transfer, exactly, and when the slot is emptied. */
  lemma ConfirmAnswers(s: ChatState, u: User, get: bool, env: Env, del: bool)
    ensures var (s', r) := Obey(s, u, ConfirmTransfer(get, env, del));
            && (r == NothingPending <==> !Readable(s, u, get))
            && (r == WrongKind <==> Readable(s, u, get) && s.slots[u].UnlinkAction?)
            && (r == NothingPending || r == WrongKind ==> s' == s)
            && (Readable(s, u, get) && s.slots[u].TransferAction? ==>
                  var a := s.slots[u];
                  var (t', l') := RunCall(s.t, Call(u, Request(a.amount, a.payee, a.key), env));
                  var ok := l'.pc.result.Done? || l'.pc.result.Hit?;
                  && s'.t == t' && s'.unlinked == s.unlinked
                  && r == (if ok then TransferSucceeded(l'.pc.result) else TransferFailed(l'.pc.result))
                  && s'.slots == if ok && del then s.slots - {u} else s.slots)
  {
  }

  /** Each reply to the confirmation of an unlinking. */
  lemma UnlinkAnswers(s: ChatState, u: User, get: bool, deleted: bool, del: bool)
    ensures var (s', r) := Obey(s, u, ConfirmUnlink(get, deleted, del));
            && (r == NothingPending <==> !Readable(s, u, get))
            && (r == WrongKind <==> Readable(s, u, get) && s.slots[u].TransferAction?)
            && (r == UnlinkFailed <==> Readable(s, u, get) && s.slots[u].UnlinkAction? && !deleted)
            && (r == Unlinked <==> Readable(s, u, get) && s.slots[u].UnlinkAction? && deleted)
            && (r != Unlinked ==> s' == s)
            && (r == Unlinked ==>
                  && s'.t == s.t && s'.unlinked == s.unlinked + [s.slots[u].bank]
                  && s'.slots == if del then s.slots - {u} else s.slots)
  {
  }

  /** The keyword shortcut confirms what it finds, as the tool for that kind would. */
  lemma ShortcutAnswers(s: ChatState, u: User, first: bool, get: bool, env: Env, deleted: bool, del: bool)
    ensures Obey(s, u, SayYes(first, get, env, deleted, del))
            == if !Readable(s, u, first) then (s, NothingPending)
               else Obey(s, u, if s.slots[u].UnlinkAction? then ConfirmUnlink(get, deleted, del)
                               else ConfirmTransfer(get, env, del))
  {
  }

  // ---------------------------------------------------------------------------------------------
  // From staging to payout

  /** Tables in order, and no negative amount staged. */
  ghost predicate InGoodOrder(s: ChatState) {
    && AllChecks(s.t.book) && RowsRefer(s.t)
    && forall u :: u in s.slots && s.slots[u].TransferAction? ==> 0 <= s.slots[u].amount
  }

  lemma ObeyKeepsOrder(s: ChatState, u: User, c: Command)
    requires InGoodOrder(s)
    ensures InGoodOrder(Obey(s, u, c).0)
  {
    var s' := Obey(s, u, c).0;
    ObeyExecutesSlot(s, u, c);
    if s'.t != s.t {
      var a := s.slots[u];
      var call := Call(u, Request(a.amount, a.payee, a.key), ConfirmEnv(c).value);
      ExitAccounting(s.t, call);
      CallRows(s.t, call);
      assert s'.t == RunCall(s.t, call).0;
    }
    forall v | v in s'.slots && s'.slots[v].TransferAction?
      ensures 0 <= s'.slots[v].amount
    {
      var e := EffectOf(Turn(u, c), Obey(s, u, c).1);
      ObeyMovesSlots(s, Turn(u, c), v);
      assert SlotOf(s', v) == SlotOf(s, v) || (e.Stages? && SlotOf(s', v) == Some(e.action));
    }
  }

  lemma {:induction false} StaysInOrder(s: ChatState, turns: seq<Turn>, n: nat)
    requires InGoodOrder(s) && n <= |turns|
    ensures InGoodOrder(ChatAfter(s, turns, n))
  {
    if n > 0 {
      StaysInOrder(s, turns, n - 1);
      ObeyKeepsOrder(ChatAfter(s, turns, n - 1), turns[n - 1].user, turns[n - 1].command);
    }
  }

  /** Between turn i and turn n the user u neither staged nor ended anything. */
  ghost predicate QuietBetween(s: ChatState, turns: seq<Turn>, u: User, i: nat, n: nat)
    requires n <= |turns|
  {
    forall k :: i < k < n && turns[k].user == u ==> EffectAt(s, turns, k).Keeps?
  }

  lemma {:induction false} StillLast(s: ChatState, turns: seq<Turn>, u: User, i: nat, n: nat)
    requires i < n <= |turns| && turns[i].user == u && !EffectAt(s, turns, i).Keeps? && QuietBetween(s, turns, u, i, n)
    ensures LastEffect(s, turns, u, n) == Some(i)
    decreases n
  {
    if i < n - 1 {
      StillLast(s, turns, u, i, n - 1);
    }
  }

  /** What was staged by turn i is in the slot when turn j comes. */
  lemma StagedIsThere(s: ChatState, turns: seq<Turn>, i: nat, j: nat, args: TransferArgs, resolved: string)
    requires i < j < |turns| && turns[i].command == StageTransfer(Some(args), resolved, true) && ArgumentsOk(args)
    requires turns[j].user == turns[i].user && QuietBetween(s, turns, turns[i].user, i, j)
    ensures var u, sj := turns[i].user, ChatAfter(s, turns, j);
            u in sj.slots && AsAsked(sj.slots[u], u, args, resolved)
  {
    var u := turns[i].user;
    var si := ChatAfter(s, turns, i);
    StagingAnswers(si, u, Some(args), resolved, true);
    var e := EffectAt(s, turns, i);
    assert e.Stages?;
    assert SlotOf(Obey(si, u, turns[i].command).0, u) == Some(e.action);
    StillLast(s, turns, u, i, j);
    SlotSince(s, turns, u, j);
  }

  /** The rows of a transfer to this recipient: its parent row with the key, and its payout row. */
  ghost predicate PaidOut(t: Tables, u: User, args: TransferArgs, resolved: string, id: nat) {
    && id < |t.txns| && IsParentFor(t.txns[id], u, args, resolved)
    && exists r :: 0 <= r < |t.txns| && IsPayoutTo(t.txns[r], u, args, resolved, id)
  }

  predicate IsParentFor(x: Txn, u: User, args: TransferArgs, resolved: string) {
    && x.user == u && x.parent == None && x.amount == args.naira.Floor * 100 && x.status == Completed
    && PayeeAsked(x.payee, args, resolved) && KeyOfUser(x.key, u, args.digest)
  }

  predicate IsPayoutTo(x: Txn, u: User, args: TransferArgs, resolved: string, id: nat) {
    && x.user == u && x.parent == Some(id) && x.kind == PayoutLeg && x.amount == args.naira.Floor * 100
    && x.status == Completed && PayeeAsked(x.payee, args, resolved)
  }

  /** A transfer that runs alone and is done has completed rows to the recipient of its request. */
  lemma DonePaysOut(t: Tables, u: User, a: Action, args: TransferArgs, resolved: string, env: Env)
    requires AllChecks(t.book) && RowsRefer(t) && AsAsked(a, u, args, resolved) && 0 <= a.amount
    requires RunCall(t, Call(u, Request(a.amount, a.payee, a.key), env)).1.pc.result.Done?
    ensures var (t', l') := RunCall(t, Call(u, Request(a.amount, a.payee, a.key), env));
            PaidOut(t', u, args, resolved, l'.pc.result.id) && |t.txns| <= l'.pc.result.id
  {
    var c := Call(u, Request(a.amount, a.payee, a.key), env);
    var (t', l') := RunCall(t, c);
    CallRows(t, c);
    CallAnswers(t, c);
    assert IsPayoutTo(t'.txns[l'.payout.value], u, args, resolved, l'.pc.result.id);
  }

  /**
   From request to payout.  Whatever others do in between: when a transfer is staged, its user stages
   and ends nothing else, and a later confirmation is answered with a transfer done, the tables have a
   new completed parent row and a completed payout row with the recipient, the amount and the key of
   the arguments that were staged.
   */
  lemma StagedIsPaidOut(s: ChatState, turns: seq<Turn>, i: nat, j: nat, args: TransferArgs, resolved: string)
    requires InGoodOrder(s) && i < j < |turns|
    requires turns[i].command == StageTransfer(Some(args), resolved, true) && ArgumentsOk(args)
    requires turns[j].user == turns[i].user && QuietBetween(s, turns, turns[i].user, i, j)
    requires ReplyAt(s, turns, j).TransferSucceeded? && ReplyAt(s, turns, j).result.Done?
    ensures var id := ReplyAt(s, turns, j).result.id;
            && PaidOut(ChatAfter(s, turns, j + 1).t, turns[i].user, args, resolved, id)
            && |ChatAfter(s, turns, j).t.txns| <= id
  {
    var u, sj, c := turns[i].user, ChatAfter(s, turns, j), turns[j].command;
    StaysInOrder(s, turns, j);
    StagedIsThere(s, turns, i, j, args, resolved);
    ObeyExecutesSlot(sj, u, c);
    assert ConfirmEnv(c).Some?;
    DonePaysOut(sj.t, u, sj.slots[u], args, resolved, ConfirmEnv(c).value);
  }

  /** The same for an unlinking: the bank that goes is the one that was staged. */
  lemma StagedIsUnlinked(s: ChatState, turns: seq<Turn>, i: nat, j: nat, target: Action)
    requires i < j < |turns| && turns[i].command == StageUnlink(Some(target), true) && target.UnlinkAction?
    requires turns[j].user == turns[i].user && QuietBetween(s, turns, turns[i].user, i, j)
    requires ReplyAt(s, turns, j) == Unlinked
    ensures ChatAfter(s, turns, j + 1).unlinked == ChatAfter(s, turns, j).unlinked + [target.bank]
    ensures ChatAfter(s, turns, j + 1).t == ChatAfter(s, turns, j).t
  {
    var u, sj := turns[i].user, ChatAfter(s, turns, j);
    UnlinkStagingAnswers(ChatAfter(s, turns, i), u, Some(target), true);
    assert EffectAt(s, turns, i) == Stages(target);
    StillLast(s, turns, u, i, j);
    SlotSince(s, turns, u, j);
    ObeyExecutesSlot(sj, u, turns[j].command);
  }
}
