/** Reference definitions on logs as sequences (index 1 of the program is
    position 0 here) and on the key-value table as a map. */
module Logs {
  import opened Types

  function LastTerm(log: Log): nat {
    if |log| == 0 then 0 else log[|log| - 1].term
  }

  /** The term stored with the entry before a slice; 0 before the first entry. */
  function PrevTerm(log: Log, prev: nat): nat
    requires prev <= |log|
  {
    if prev == 0 then 0 else log[prev - 1].term
  }

  /** The entries of the program's indices first..last that exist. */
  function Slice(log: Log, first: nat, last: nat): Log {
    var lo := if first == 0 then 0 else first - 1;
    var hi := if last <= |log| then last else |log|;
    if lo < hi then log[lo..hi] else []
  }

  /** Slice holds the existing entries of the range, each exactly once, in index
      order. */
  lemma SliceExact(log: Log, first: nat, last: nat, index: nat)
    ensures
      var lo := if first == 0 then 1 else first;
      if lo <= index <= last && index <= |log| then
        index - lo < |Slice(log, first, last)| && Slice(log, first, last)[index - lo] == log[index - 1]
      else
        index < lo || |Slice(log, first, last)| <= index - lo
  {
  }

  lemma TailSlice(log: Log, first: nat)
    requires 1 <= first <= |log| + 1
    ensures Slice(log, first, |log|) == log[first - 1..]
  {
  }

  /** How many incoming entries lie over stored entries of the same term before
      the first mismatch or the end of the log. */
  function Overlap(log: Log, prev: nat, entries: seq<LogEntry>): (k: nat)
    requires prev <= |log|
    ensures k <= |entries| && prev + k <= |log|
    ensures forall i :: 0 <= i < k ==> log[prev + i].term == entries[i].term
    ensures k < |entries| && prev + k < |log| ==> log[prev + k].term != entries[k].term
    decreases |entries|
  {
    if |entries| == 0 || prev == |log| || log[prev].term != entries[0].term then 0
    else 1 + Overlap(log, prev + 1, entries[1..])
  }

  /** The log a follower ends up with: its own when every incoming entry is
      already there, otherwise cut at the first new entry and continued with
      the incoming ones. */
  function Merge(log: Log, prev: nat, entries: seq<LogEntry>): Log
    requires prev <= |log|
  {
    Splice(log, prev, entries, Overlap(log, prev, entries))
  }

  function Splice(log: Log, prev: nat, entries: seq<LogEntry>, k: nat): Log
    requires k <= |entries| && prev + k <= |log|
  {
    if k == |entries| then log else log[..prev + k] + entries[k..]
  }

  /** Any number that splits the incoming entries the way `Overlap` promises is
      `Overlap`. */
  lemma OverlapUnique(log: Log, prev: nat, entries: seq<LogEntry>, k: nat)
    requires prev <= |log| && k <= |entries| && prev + k <= |log|
    requires forall i :: 0 <= i < k ==> log[prev + i].term == entries[i].term
    requires k < |entries| && prev + k < |log| ==> log[prev + k].term != entries[k].term
    ensures Overlap(log, prev, entries) == k
  {
  }

  lemma MergeNothing(log: Log, prev: nat, entries: seq<LogEntry>)
    requires prev <= |log|
    ensures Merge(log, prev, entries[..0]) == log
  {
  }

  lemma MergePastMismatch(log: Log, prev: nat, entries: seq<LogEntry>, i: nat)
    requires prev <= |log| && i < |entries|
    requires Overlap(log, prev, entries[..i]) < i
    ensures |Merge(log, prev, entries[..i])| == prev + i
    ensures Merge(log, prev, entries[..i + 1]) == Merge(log, prev, entries[..i]) + [entries[i]]
  {
    var before, after := entries[..i], entries[..i + 1];
    var k := Overlap(log, prev, before);
    OverlapUnique(log, prev, after, k);
    assert after[k..] == before[k..] + [entries[i]];
  }

  lemma MergeAtMismatch(log: Log, prev: nat, entries: seq<LogEntry>, i: nat)
    requires prev <= |log| && i < |entries|
    requires Overlap(log, prev, entries[..i]) == i
    ensures Merge(log, prev, entries[..i + 1]) ==
            if prev + i < |log| && log[prev + i].term == entries[i].term then log
            else log[..prev + i] + [entries[i]]
  {
    var before, after := entries[..i], entries[..i + 1];
    assert forall j :: 0 <= j < i ==> after[j] == before[j];
    if prev + i < |log| && log[prev + i].term == entries[i].term {
      OverlapUnique(log, prev, after, i + 1);
    } else {
      OverlapUnique(log, prev, after, i);
      assert after[i..] == [entries[i]];
    }
  }

  /** One more incoming entry: kept when it is already stored with its term,
      otherwise the tail from its index on is dropped and it is appended. This
      is the step the in-place loop takes. */
  lemma MergeStep(log: Log, prev: nat, entries: seq<LogEntry>, i: nat)
    requires prev <= |log| && i < |entries|
    ensures
      var sofar := Merge(log, prev, entries[..i]);
      && prev + i <= |sofar|
      && Merge(log, prev, entries[..i + 1]) ==
         if prev + i < |sofar| && sofar[prev + i].term == entries[i].term then sofar
         else sofar[..prev + i] + [entries[i]]
  {
    if Overlap(log, prev, entries[..i]) < i {
      MergePastMismatch(log, prev, entries, i);
    } else {
      MergeAtMismatch(log, prev, entries, i);
    }
  }

  /** The last overlapping entry has the same term on both sides. */
  lemma OverlapOfSlice(log: Log, prev: nat, end: nat, l: Log) returns (k: nat)
    requires prev <= |log| && prev <= end <= |l|
    ensures k == Overlap(log, prev, l[prev..end])
    ensures prev + k <= |log| && prev + k <= end
    ensures k > 0 ==> log[prev + k - 1].term == l[prev + k - 1].term
  {
    k := Overlap(log, prev, l[prev..end]);
    if k > 0 {
      var last := k - 1;
      assert log[prev + last].term == l[prev..end][last].term;
    }
  }

  /** Where the logs are equal up to the end of the overlap, merging a slice of
      `l` leaves the log alone or makes it the beginning of `l`. */
  lemma MergeOfSlice(log: Log, prev: nat, end: nat, l: Log, k: nat)
    requires prev <= |log| && prev <= end <= |l|
    requires prev + k <= |log| && prev + k <= end && log[..prev + k] == l[..prev + k]
    ensures l[..end] <= Splice(log, prev, l[prev..end], k)
    ensures Splice(log, prev, l[prev..end], k) in {log, l[..end]}
  {
    if k == end - prev {
      assert l[..end] == log[..end];
    } else {
      assert l[prev..end][k..] == l[prev + k..end];
      assert l[..prev + k] + l[prev + k..end] == l[..end];
    }
  }

  lemma MergeOwnSlice(log: Log, prev: nat)
    requires prev <= |log|
    ensures Merge(log, prev, log[prev..]) == log
  {
    OverlapUnique(log, prev, log[prev..], |log| - prev);
  }

  /** Whatever the stored log and a longer reference log have in common survives
      the merge of a slice of that reference log. */
  lemma MergeKeepsCommonPrefix(log: Log, prev: nat, end: nat, reference: Log, common: Log)
    requires prev <= |log| && prev <= end <= |reference|
    requires common <= log && common <= reference
    ensures common <= Merge(log, prev, reference[prev..end])
  {
    var entries := reference[prev..end];
    var k := Overlap(log, prev, entries);
    assert forall j :: prev <= j < end && j < |common| ==> log[j] == entries[j - prev];
    assert prev + k < |common| ==> k == |entries|;
  }

  /** The table after writing `entries` in order. */
  function ApplyAll(table: KvTable, entries: seq<LogEntry>): KvTable
    decreases |entries|
  {
    if |entries| == 0 then table
    else
      var last := entries[|entries| - 1];
      ApplyAll(table, entries[..|entries| - 1])[last.key := last.value]
  }

  /** The table a fresh replica has after applying a whole log. */
  function Replay(log: Log): KvTable {
    ApplyAll(map[], log)
  }

  lemma {:induction false} ApplyAllConcat(table: KvTable, a: seq<LogEntry>, b: seq<LogEntry>)
    ensures ApplyAll(table, a + b) == ApplyAll(ApplyAll(table, a), b)
    decreases |b|
  {
    if |b| == 0 {
      assert a + b == a;
    } else {
      var front := b[..|b| - 1];
      ApplyAllConcat(table, a, front);
      assert (a + b)[..|a + b| - 1] == a + front;
    }
  }

  ghost predicate LastWrite(entries: seq<LogEntry>, key: string, i: int) {
    && 0 <= i < |entries|
    && entries[i].key == key
    && forall j :: i < j < |entries| ==> entries[j].key != key
  }

  ghost predicate Untouched(entries: seq<LogEntry>, key: string) {
    forall j :: 0 <= j < |entries| ==> entries[j].key != key
  }

  lemma {:induction false} UntouchedLookup(table: KvTable, entries: seq<LogEntry>, key: string)
    requires Untouched(entries, key)
    ensures key in ApplyAll(table, entries) <==> key in table
    ensures key in table ==> ApplyAll(table, entries)[key] == table[key]
    decreases |entries|
  {
    if |entries| > 0 {
      UntouchedLookup(table, entries[..|entries| - 1], key);
    }
  }

  lemma {:induction false} LastWriteLookup(table: KvTable, entries: seq<LogEntry>, key: string, i: nat)
    requires LastWrite(entries, key, i)
    ensures key in ApplyAll(table, entries) && ApplyAll(table, entries)[key] == entries[i].value
    decreases |entries|
  {
    if i < |entries| - 1 {
      LastWriteLookup(table, entries[..|entries| - 1], key, i);
    }
  }

  lemma {:induction false} LastWriteExists(entries: seq<LogEntry>, key: string)
    ensures Untouched(entries, key) || exists i :: LastWrite(entries, key, i)
    decreases |entries|
  {
    if |entries| > 0 {
      var n := |entries| - 1;
      LastWriteExists(entries[..n], key);
      if entries[n].key == key {
        assert LastWrite(entries, key, n);
      } else if !Untouched(entries[..n], key) {
        var i :| LastWrite(entries[..n], key, i);
        assert forall j :: i < j < n ==> entries[..n][j] == entries[j];
        assert LastWrite(entries, key, i);
      } else {
        assert forall j :: 0 <= j < n ==> entries[..n][j] == entries[j];
      }
    }
  }

  /** A lookup after applying `entries` finds the greatest index that wrote the
      key, and falls through to the table underneath when there is none. */
  lemma ApplyAllLookup(table: KvTable, entries: seq<LogEntry>, key: string)
    ensures Untouched(entries, key) ==>
              (key in ApplyAll(table, entries) <==> key in table)
    ensures Untouched(entries, key) && key in table ==> ApplyAll(table, entries)[key] == table[key]
    ensures forall i :: LastWrite(entries, key, i) ==>
              key in ApplyAll(table, entries) && ApplyAll(table, entries)[key] == entries[i].value
    ensures Untouched(entries, key) || exists i :: LastWrite(entries, key, i)
  {
    LastWriteExists(entries, key);
    if Untouched(entries, key) {
      UntouchedLookup(table, entries, key);
    }
    forall i | LastWrite(entries, key, i)
      ensures key in ApplyAll(table, entries) && ApplyAll(table, entries)[key] == entries[i].value
    {
      LastWriteLookup(table, entries, key, i);
    }
  }

  /** `after` is what remains of `before` once the entries have been written in
      order: per key the last write decides, and without one nothing changes. */
  ghost predicate Writes(before: KvTable, after: KvTable, entries: seq<LogEntry>) {
    forall key :: WritesKey(before, after, entries, key)
  }

  ghost predicate WritesKey(before: KvTable, after: KvTable, entries: seq<LogEntry>, key: string) {
    && (Untouched(entries, key) ==>
          && (key in after <==> key in before)
          && (key in before ==> after[key] == before[key]))
    && (forall i :: LastWrite(entries, key, i) ==> key in after && after[key] == entries[i].value)
  }

  lemma ApplyAllWrites(table: KvTable, entries: seq<LogEntry>)
    ensures Writes(table, ApplyAll(table, entries), entries)
  {
    forall key ensures WritesKey(table, ApplyAll(table, entries), entries, key) {
      ApplyAllLookup(table, entries, key);
    }
  }

  /** Nothing else is a result of those writes. */
  lemma WritesUnique(before: KvTable, after: KvTable, entries: seq<LogEntry>)
    requires Writes(before, after, entries)
    ensures after == ApplyAll(before, entries)
  {
    var applied := ApplyAll(before, entries);
    ApplyAllWrites(before, entries);
    forall key
      ensures key in after <==> key in applied
      ensures key in after ==> after[key] == applied[key]
    {
      assert WritesKey(before, after, entries, key) && WritesKey(before, applied, entries, key);
      LastWriteExists(entries, key);
    }
  }

  /** Applying some of the pending entries and then starting over from the
      beginning gives the table of one uninterrupted pass. */
  lemma InterruptedApplyIsHarmless(table: KvTable, pending: seq<LogEntry>, stop: nat)
    requires stop <= |pending|
    ensures ApplyAll(ApplyAll(table, pending[..stop]), pending) == ApplyAll(table, pending)
  {
    var done := pending[..stop];
    var once, twice := ApplyAll(table, pending), ApplyAll(ApplyAll(table, done), pending);
    forall key
      ensures key in once <==> key in twice
      ensures key in once ==> once[key] == twice[key]
    {
      ApplyAllLookup(table, pending, key);
      ApplyAllLookup(ApplyAll(table, done), pending, key);
      if Untouched(pending, key) {
        assert Untouched(done, key);
        ApplyAllLookup(table, done, key);
      } else {
        var i :| LastWrite(pending, key, i);
      }
    }
  }
}
