/**
 The collector's tables.  A batch's rows, its cancellations and the cursor move
 together in one transaction, or not at all.
 */
module Stores {
  import opened Cancellations
  import opened Chain
  import opened Wrappers

  /** The primary key of both tables; the chain column is always the same. */
  datatype Key = Key(txHash: Word, logIndex: nat)

  datatype Db = Db(payments: map<Key, Payment>, cancellations: map<Key, Cancellation>, cursor: Option<nat>)

  function PaymentKey(p: Payment): Key {
    Key(p.txHash, p.logIndex)
  }

  function CancellationKey(c: Cancellation): Key {
    Key(c.txHash, c.logIndex)
  }

  /** ON CONFLICT DO NOTHING: a row already stored under a key stays. */
  function InsertOne<R>(table: map<Key, R>, row: R, key: R -> Key): map<Key, R> {
    if key(row) in table then table else table[key(row) := row]
  }

  function InsertAll<R>(table: map<Key, R>, rows: seq<R>, key: R -> Key): (t: map<Key, R>)
    ensures forall k :: k in table ==> k in t && t[k] == table[k]
    ensures forall r :: r in rows ==> key(r) in t
    ensures forall k :: k in t && k !in table ==> t[k] in rows && key(t[k]) == k
  {
    if rows == [] then table
    else
      assert rows == rows[..|rows|-1] + [rows[|rows|-1]];
      InsertOne(InsertAll(table, rows[..|rows|-1], key), rows[|rows|-1], key)
  }

  /** The cursor never moves back, and block 0 never moves it at all. */
  function Advance(cursor: Option<nat>, maxBlock: nat): Option<nat> {
    if maxBlock == 0 || (cursor.Some? && cursor.value >= maxBlock) then cursor else Some(maxBlock)
  }

  /** The last block committed, 0 before the first. */
  function LastBlock(cursor: Option<nat>): nat {
    if cursor.None? then 0 else cursor.value
  }

  /** So it is the highest block ever committed. */
  lemma AdvanceIsMaximum(cursor: Option<nat>, maxBlock: nat)
    ensures var last, next := LastBlock(cursor), Advance(cursor, maxBlock);
            && LastBlock(next) == (if last > maxBlock then last else maxBlock)
            && (next.None? <==> cursor.None? && maxBlock == 0)
  {
  }

  function Inserted(db: Db, batch: seq<Payment>, cancellations: seq<Cancellation>, maxBlock: nat): Db {
    Db(InsertAll(db.payments, batch, PaymentKey),
       InsertAll(db.cancellations, cancellations, CancellationKey),
       Advance(db.cursor, maxBlock))
  }

  /** Where the database fails one transaction; a failed commit may yet have taken effect. */
  datatype Fault =
    | NoFault
    | AtBegin
    | AtPayments
    | AtCancellation(row: nat)
    | AtCursor
    | AtCommit(applied: bool)

  /** Whether the fault gets in the way: a statement that has nothing to write is not issued. */
  predicate Strikes(fault: Fault, payments: nat, cancellations: nat, maxBlock: nat) {
    match fault
    case NoFault => false
    case AtBegin => true
    case AtPayments => payments > 0
    case AtCancellation(row) => row < cancellations
    case AtCursor => maxBlock > 0
    case AtCommit(_) => true
  }

  /** Row by row, into a copy that only a commit makes the table. */
  method InsertRows<R>(table: map<Key, R>, rows: seq<R>, key: R -> Key) returns (staged: map<Key, R>)
    ensures staged == InsertAll(table, rows, key)
  {
    staged := table;
    for i := 0 to |rows|
      invariant staged == InsertAll(table, rows[..i], key)
    {
      assert rows[..i+1][..i] == rows[..i];
      staged := InsertOne(staged, rows[i], key);
    }
    assert rows[..|rows|] == rows;
  }

  method StageCursor(cursor: Option<nat>, maxBlock: nat) returns (staged: Option<nat>)
    ensures staged == Advance(cursor, maxBlock)
  {
    staged := cursor;
    if maxBlock > 0 {
      if staged.None? {
        staged := Some(maxBlock);
      } else if staged.value < maxBlock {
        staged := Some(maxBlock);
      }
    }
  }

  class Store {
    var payments: map<Key, Payment>
    var cancellations: map<Key, Cancellation>
    var cursor: Option<nat>

    ghost function Contents(): Db
      reads this
    {
      Db(payments, cancellations, cursor)
    }

    constructor ()
      ensures Contents() == Db(map[], map[], None)
    {
      payments, cancellations, cursor := map[], map[], None;
    }

    /** None is the error of a read that fails. */
    method GetCursor(fails: bool) returns (last: Option<nat>)
      ensures last == if fails then None else Some(LastBlock(Contents().cursor))
    {
      if fails {
        return None;
      }
      last := Some(if cursor.None? then 0 else cursor.value);
    }

    /** The statements of one transaction in order, or None at the first that fails. */
    method Stage(batch: seq<Payment>, cancels: seq<Cancellation>, maxBlock: nat, fault: Fault)
      returns (staged: Option<Db>)
      ensures staged.None? <==> Strikes(fault, |batch|, |cancels|, maxBlock) && !fault.AtCommit?
      ensures staged.Some? ==> staged.value == Inserted(Contents(), batch, cancels, maxBlock)
    {
      if fault == AtBegin {
        return None;
      }
      if |batch| > 0 && fault == AtPayments {
        return None;
      }
      var stagedPayments := InsertRows(payments, batch, PaymentKey);
      if fault.AtCancellation? && fault.row < |cancels| {
        return None;
      }
      var stagedCancels := InsertRows(cancellations, cancels, CancellationKey);
      if maxBlock > 0 && fault == AtCursor {
        return None;
      }
      var stagedCursor := StageCursor(cursor, maxBlock);
      return Some(Db(stagedPayments, stagedCancels, stagedCursor));
    }

    method InsertBatch(batch: seq<Payment>, cancels: seq<Cancellation>, maxBlock: nat, fault: Fault)
      returns (ok: bool)
      modifies this
      ensures ok || fault == AtCommit(true) ==> Contents() == Inserted(old(Contents()), batch, cancels, maxBlock)
      ensures !ok && fault != AtCommit(true) ==> Contents() == old(Contents())
      ensures ok <==> !Strikes(fault, |batch|, |cancels|, maxBlock)
    {
      var staged := Stage(batch, cancels, maxBlock, fault);
      if staged.None? || fault == AtCommit(false) {
        return false;
      }
      payments, cancellations, cursor := staged.value.payments, staged.value.cancellations, staged.value.cursor;
      ok := !fault.AtCommit?;
    }
  }
}
