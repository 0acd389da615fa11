/** The `logs` table as rows keyed by an integer primary key, and its refinement
    of a plain sequence. */
module LogTable {
  import opened Types

  type Table = map<nat, LogEntry>

  lemma {:induction false} MaxExists(keys: set<nat>)
    requires keys != {}
    ensures exists m :: m in keys && forall k :: k in keys ==> k <= m
    decreases |keys|
  {
    var x :| x in keys;
    var rest := keys - {x};
    if rest == {} {
      assert keys == {x};
    } else {
      MaxExists(rest);
      var m :| m in rest && forall k :: k in rest ==> k <= m;
      var top := if x > m then x else m;
      assert top in keys && forall k :: k in keys ==> k in rest || k == x;
    }
  }

  /** The greatest key, 0 for an empty table. */
  function MaxIndex(t: Table): (m: nat)
    ensures t == map[] ==> m == 0
    ensures t != map[] ==> m in t
    ensures forall k :: k in t ==> k <= m
  {
    if t == map[] then 0
    else
      MaxExists(t.Keys);
      var m :| m in t.Keys && forall k :: k in t.Keys ==> k <= m;
      m
  }

  /** A row inserted without a key gets the key after the greatest one. */
  function Insert(t: Table, entry: LogEntry): Table {
    t[MaxIndex(t) + 1 := entry]
  }

  function DeleteFrom(t: Table, index: nat): Table {
    map k | k in t && k < index :: t[k]
  }

  /** The keys are exactly 1..MaxIndex. */
  ghost predicate Contiguous(t: Table) {
    forall k :: k in t <==> 1 <= k <= MaxIndex(t)
  }

  /** The rows in key order. */
  ghost function AsLog(t: Table): Log
    requires Contiguous(t)
  {
    seq(MaxIndex(t), i requires 0 <= i < MaxIndex(t) => t[i + 1])
  }

  lemma EmptyIsContiguous()
    ensures Contiguous(map[]) && AsLog(map[]) == []
  {
  }

  lemma InsertAppends(t: Table, entry: LogEntry)
    requires Contiguous(t)
    ensures Contiguous(Insert(t, entry))
    ensures AsLog(Insert(t, entry)) == AsLog(t) + [entry]
  {
    var u := Insert(t, entry);
    assert MaxIndex(u) == MaxIndex(t) + 1 by {
      assert MaxIndex(t) + 1 in u;
      assert MaxIndex(u) in u;
    }
  }

  /** What deleting from an index leaves of a sequence; index 0 deletes as much
      as index 1. */
  function Truncate(log: Log, index: nat): Log {
    if index == 0 then [] else if index <= |log| then log[..index - 1] else log
  }

  lemma DeleteFromTruncates(t: Table, index: nat)
    requires Contiguous(t)
    ensures Contiguous(DeleteFrom(t, index))
    ensures AsLog(DeleteFrom(t, index)) == Truncate(AsLog(t), index)
  {
    var u := DeleteFrom(t, index);
    var n := |Truncate(AsLog(t), index)|;
    assert forall k :: k in u <==> 1 <= k <= n;
    if u == map[] {
      assert n == 0 by {
        assert n >= 1 ==> 1 in u;
      }
    } else {
      assert MaxIndex(u) in u;
      assert n in u;
    }
    assert MaxIndex(u) == n;
  }

  /** What the program does to the table: insert a row without a key, delete a
      suffix. */
  datatype TableOp = AppendRow(entry: LogEntry) | DropFrom(index: nat)

  function RunOnTable(ops: seq<TableOp>): Table
    decreases |ops|
  {
    if |ops| == 0 then map[]
    else
      var t := RunOnTable(ops[..|ops| - 1]);
      match ops[|ops| - 1]
      case AppendRow(entry) => Insert(t, entry)
      case DropFrom(index) => DeleteFrom(t, index)
  }

  /** The same operations on a sequence. */
  function RunOnSeq(ops: seq<TableOp>): Log
    decreases |ops|
  {
    if |ops| == 0 then []
    else
      var log := RunOnSeq(ops[..|ops| - 1]);
      match ops[|ops| - 1]
      case AppendRow(entry) => log + [entry]
      case DropFrom(index) => Truncate(log, index)
  }

  /** However appends and suffix deletions are interleaved, the key set stays
      1..MaxIndex and the rows are the sequence. */
  lemma {:induction false} TableRefinesSequence(ops: seq<TableOp>)
    ensures Contiguous(RunOnTable(ops))
    ensures AsLog(RunOnTable(ops)) == RunOnSeq(ops)
    decreases |ops|
  {
    if |ops| == 0 {
      EmptyIsContiguous();
    } else {
      var front := ops[..|ops| - 1];
      TableRefinesSequence(front);
      var t := RunOnTable(front);
      match ops[|ops| - 1]
      case AppendRow(entry) =>
        InsertAppends(t, entry);
      case DropFrom(index) =>
        DeleteFromTruncates(t, index);
    }
  }
}
