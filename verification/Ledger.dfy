/**
 The wallets table and the four statements that change it.

 A statement is one atomic step.  It finds its row, tests its WHERE guard, computes the new row and
 lets the table's CHECK constraints veto it.  The parameter `up` says whether the statement reaches
 the database at all.  Wallets are keyed by their owner: the schema allows one wallet for a user.
 */
module Ledger {

  type User = string

  datatype Provider = WalletProvider | Mono | Paystack | OtherProvider

  datatype Row = Row(balance: int, ledger: int)

  type Book = map<User, Row>

  datatype Op =
    | Credit(amount: int)
    | Debit(amount: int)
    | Hold(amount: int)
    | ReleaseHold(amount: int)

  datatype Outcome = Applied | NoRow | CheckFired | Down

  /** The three CHECK constraints of the table. */
  predicate Checks(r: Row) {
    0 <= r.balance && 0 <= r.ledger && r.ledger <= r.balance
  }

  /** What is held: the part of the balance that is not available. */
  function Gap(r: Row): int {
    r.balance - r.ledger
  }

  predicate Guard(r: Row, op: Op) {
    match op
    case Credit(_) => true
    case Debit(a) => r.balance >= a && r.ledger >= a
    case Hold(a) => r.ledger >= a
    case ReleaseHold(_) => true
  }

  function Updated(r: Row, op: Op): Row {
    match op
    case Credit(a) => Row(r.balance + a, r.ledger + a)
    case Debit(a) => Row(r.balance - a, r.ledger - a)
    case Hold(a) => Row(r.balance, r.ledger - a)
    case ReleaseHold(a) => Row(r.balance, r.ledger + a)
  }

  function OutcomeOf(b: Book, u: User, op: Op, up: bool): Outcome {
    if !up then Down
    else if u !in b || !Guard(b[u], op) then NoRow
    else if !Checks(Updated(b[u], op)) then CheckFired
    else Applied
  }

  function Exec(b: Book, u: User, op: Op, up: bool): Book {
    if OutcomeOf(b, u, op, up) == Applied then b[u := Updated(b[u], op)] else b
  }

  /** Whether the Go method returns nil: only Debit and Hold look at the number of rows changed. */
  predicate Succeeds(op: Op, o: Outcome) {
    o == Applied || (o == NoRow && (op.Credit? || op.ReleaseHold?))
  }

  ghost predicate AllChecks(b: Book) {
    forall u :: u in b ==> Checks(b[u])
  }

  /** The guards alone protect the constraints: only a release of more than is held can fire one. */
  lemma GuardsProtectChecks(b: Book, u: User, op: Op, up: bool)
    requires AllChecks(b) && 0 <= op.amount
    ensures OutcomeOf(b, u, op, up) == CheckFired
            <==> up && u in b && op.ReleaseHold? && Gap(b[u]) < op.amount
    ensures AllChecks(Exec(b, u, op, up))
    ensures Exec(b, u, op, up).Keys == b.Keys
    ensures forall v :: v in b && v != u ==> Exec(b, u, op, up)[v] == b[v]
  {
    if u in b {
      assert Checks(b[u]);
    }
  }

  /** When a statement is applied, and what it makes of the row. */
  lemma StatementsMean(b: Book, u: User, a: int, up: bool)
    requires AllChecks(b) && 0 <= a
    ensures OutcomeOf(b, u, Credit(a), up) == Applied <==> up && u in b
    ensures OutcomeOf(b, u, Debit(a), up) == Applied <==> up && u in b && a <= b[u].balance && a <= b[u].ledger
    ensures OutcomeOf(b, u, Hold(a), up) == Applied <==> up && u in b && a <= b[u].ledger
    ensures OutcomeOf(b, u, ReleaseHold(a), up) == Applied <==> up && u in b && b[u].ledger + a <= b[u].balance
    ensures up && u in b ==> Exec(b, u, Credit(a), up) == b[u := Row(b[u].balance + a, b[u].ledger + a)]
    ensures up && u in b && a <= b[u].ledger ==>
              && Exec(b, u, Debit(a), up) == b[u := Row(b[u].balance - a, b[u].ledger - a)]
              && Exec(b, u, Hold(a), up) == b[u := Row(b[u].balance, b[u].ledger - a)]
    ensures up && u in b && b[u].ledger + a <= b[u].balance ==>
              Exec(b, u, ReleaseHold(a), up) == b[u := Row(b[u].balance, b[u].ledger + a)]
  {
    if u in b {
      assert Checks(b[u]);
    }
  }

  /** A hold that the wallet can take is undone by releasing the same amount: the table is as it was. */
  lemma ReleaseUndoesHold(b: Book, u: User, a: int)
    requires AllChecks(b) && 0 <= a && u in b && a <= b[u].ledger
    ensures OutcomeOf(b, u, Hold(a), true) == Applied
    ensures OutcomeOf(Exec(b, u, Hold(a), true), u, ReleaseHold(a), true) == Applied
    ensures Exec(Exec(b, u, Hold(a), true), u, ReleaseHold(a), true) == b
  {
    assert Checks(b[u]);
    assert b[u := b[u]] == b;
  }

  /** internal/repository/wallet_repo.go, with the table as a field. */
  class WalletRepo {
    var rows: Book

    constructor (rows: Book)
      ensures this.rows == rows
    {
      this.rows := rows;
    }

    method Update(u: User, op: Op, up: bool) returns (o: Outcome)
      modifies this
      ensures o == OutcomeOf(old(rows), u, op, up)
      ensures rows == Exec(old(rows), u, op, up)
    {
      if !up {
        return Down;
      }
      if u !in rows {
        return NoRow;
      }
      var r := rows[u];
      if !Guard(r, op) {
        return NoRow;
      }
      var r' := Updated(r, op);
      if !Checks(r') {
        return CheckFired;
      }
      rows := rows[u := r'];
      return Applied;
    }

    method Credit(u: User, amount: int, up: bool) returns (ok: bool)
      modifies this
      ensures ok == Succeeds(Op.Credit(amount), OutcomeOf(old(rows), u, Op.Credit(amount), up))
      ensures AllChecks(old(rows)) && 0 <= amount ==> (ok <==> up)
      ensures ok && u in old(rows) ==>
                rows == old(rows)[u := Row(old(rows)[u].balance + amount, old(rows)[u].ledger + amount)]
      ensures !ok || u !in old(rows) ==> rows == old(rows)
      ensures rows == Exec(old(rows), u, Op.Credit(amount), up)
    {
      var o := Update(u, Op.Credit(amount), up);
      ok := o == Applied || o == NoRow;
    }

    method Debit(u: User, amount: int, up: bool) returns (ok: bool)
      modifies this
      ensures ok == Succeeds(Op.Debit(amount), OutcomeOf(old(rows), u, Op.Debit(amount), up))
      ensures AllChecks(old(rows)) && 0 <= amount ==>
                (ok <==> up && u in old(rows) && amount <= old(rows)[u].balance && amount <= old(rows)[u].ledger)
      ensures ok ==>
                u in old(rows) && rows == old(rows)[u := Row(old(rows)[u].balance - amount, old(rows)[u].ledger - amount)]
      ensures !ok ==> rows == old(rows)
      ensures rows == Exec(old(rows), u, Op.Debit(amount), up)
    {
      var o := Update(u, Op.Debit(amount), up);
      ok := o == Applied;
    }

    method Hold(u: User, amount: int, up: bool) returns (ok: bool)
      modifies this
      ensures ok == Succeeds(Op.Hold(amount), OutcomeOf(old(rows), u, Op.Hold(amount), up))
      ensures AllChecks(old(rows)) && 0 <= amount ==> (ok <==> up && u in old(rows) && amount <= old(rows)[u].ledger)
      ensures ok ==> u in old(rows) && rows == old(rows)[u := Row(old(rows)[u].balance, old(rows)[u].ledger - amount)]
      ensures !ok ==> rows == old(rows)
      ensures rows == Exec(old(rows), u, Op.Hold(amount), up)
    {
      var o := Update(u, Op.Hold(amount), up);
      ok := o == Applied;
    }

    method ReleaseHold(u: User, amount: int, up: bool) returns (ok: bool)
      modifies this
      ensures ok == Succeeds(Op.ReleaseHold(amount), OutcomeOf(old(rows), u, Op.ReleaseHold(amount), up))
      ensures AllChecks(old(rows)) && 0 <= amount ==>
                (ok <==> up && (u in old(rows) ==> old(rows)[u].ledger + amount <= old(rows)[u].balance))
      ensures ok && u in old(rows) ==> rows == old(rows)[u := Row(old(rows)[u].balance, old(rows)[u].ledger + amount)]
      ensures !ok || u !in old(rows) ==> rows == old(rows)
      ensures rows == Exec(old(rows), u, Op.ReleaseHold(amount), up)
    {
      var o := Update(u, Op.ReleaseHold(amount), up);
      ok := o == Applied || o == NoRow;
    }
  }
}
