/**
 The transactions table: inserting rows, writing statuses, finding a row by idempotency key, and the
 compiler from filters to parameterised queries.  A row's id is its position in the table.
 */
module Transactions {
  import opened Sums
  import opened Ledger

  datatype Status = Pending | Processing | Completed | Failed | Refunded

  datatype Kind = DebitLeg | PayoutLeg | DepositRow | FeeRow | RefundRow | HoldRow | ReleaseRow

  datatype Payee = Payee(account: string, bank: string, name: string)

  /** our_ref: a generated base, and the suffix that tells the rows of one transfer apart. */
  datatype Ref = Ref(base: string, part: Part)

  datatype Part = Root | WalletPart | BankPart(prefix: string) | PayoutPart

  datatype Txn = Txn(
    user: User, parent: Option<nat>, kind: Kind, amount: int, fee: int, status: Status, provider: Provider,
    payee: Payee, ref: Ref, key: string, createdAt: int, completedAt: Option<int>)

  predicate Terminal(s: Status) {
    s == Completed || s == Failed
  }

  predicate RefUsed(txns: seq<Txn>, ref: Ref) {
    exists i :: 0 <= i < |txns| && txns[i].ref == ref
  }

  /** our_ref is UNIQUE; nothing else can refuse a row. */
  predicate Insertable(txns: seq<Txn>, t: Txn, up: bool) {
    up && !RefUsed(txns, t.ref)
  }

  function Inserted(txns: seq<Txn>, t: Txn, up: bool): seq<Txn> {
    if Insertable(txns, t, up) then txns + [t] else txns
  }

  function Marked(t: Txn, s: Status, now: int): Txn {
    if Terminal(s) then t.(status := s, completedAt := Some(now)) else t.(status := s)
  }

  function StatusSet(txns: seq<Txn>, id: nat, s: Status, now: int, up: bool): (r: seq<Txn>)
    ensures |r| == |txns|
  {
    if up && id < |txns| then txns[id := Marked(txns[id], s, now)] else txns
  }

  function HasKey(key: string): Txn -> bool {
    (t: Txn) => t.key == key
  }

  /** The first row with this key among the first n. */
  function FindKey(txns: seq<Txn>, key: string, n: nat): (r: Option<nat>)
    requires n <= |txns|
    ensures r.Some? ==> r.value < n && txns[r.value].key == key && forall i :: 0 <= i < r.value ==> txns[i].key != key
    ensures r.None? ==> forall i :: 0 <= i < n ==> txns[i].key != key
  {
    FindFirst(txns, HasKey(key), n)
  }

  /** internal/repository/transaction_repo.go, with the table as a field. */
  class TransactionRepo {
    var txns: seq<Txn>

    constructor (txns: seq<Txn>)
      ensures this.txns == txns
    {
      this.txns := txns;
    }

    method Create(t: Txn, up: bool) returns (id: Option<nat>)
      modifies this
      ensures txns == Inserted(old(txns), t, up)
      ensures id == if Insertable(old(txns), t, up) then Some(|old(txns)|) else None
      ensures id.Some? <==> up && forall i :: 0 <= i < |old(txns)| ==> old(txns)[i].ref != t.ref
      ensures txns == if id.Some? then old(txns) + [t] else old(txns)
    {
      if !up || RefUsed(txns, t.ref) {
        return None;
      }
      txns := txns + [t];
      return Some(|txns| - 1);
    }

    method UpdateStatus(id: nat, s: Status, now: int, up: bool) returns (ok: bool)
      modifies this
      ensures txns == StatusSet(old(txns), id, s, now, up)
      ensures ok == up
      ensures |txns| == |old(txns)| && forall i :: 0 <= i < |txns| && i != id ==> txns[i] == old(txns)[i]
      ensures !up ==> txns == old(txns)
      ensures up && id < |txns| ==>
                && txns[id].status == s
                && txns[id].completedAt
                   == (if s == Completed || s == Failed then Some(now) else old(txns)[id].completedAt)
                && txns[id] == old(txns)[id].(status := txns[id].status, completedAt := txns[id].completedAt)
    {
      if !up {
        return false;
      }
      if id < |txns| {
        var t := txns[id];
        if s == Completed || s == Failed {
          txns := txns[id := t.(status := s, completedAt := Some(now))];
        } else {
          txns := txns[id := t.(status := s)];
        }
      }
      return true;
    }

    method GetByIdempotencyKey(key: string) returns (id: Option<nat>)
      ensures id == FindKey(txns, key, |txns|)
    {
      id := None;
      for i := 0 to |txns|
        invariant id == FindKey(txns, key, i)
      {
        if id == None && txns[i].key == key {
          id := Some(i);
        }
      }
    }
  }
}
