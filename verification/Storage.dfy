/** SQLiteStorage: the log table, the key-value table and the two indices kept
    in the state table. Every SQL statement is taken to succeed. */
module Storage {
  import opened Types
  import opened Logs
  import opened LogTable

  class SQLiteStorage {
    var logs: Table
    var kvStore: KvTable
    var commitIndex: nat
    var lastApplied: nat

    ghost predicate Valid()
      reads this`logs
    {
      Contiguous(logs)
    }

    ghost function Log(): Log
      requires Valid()
      reads this`logs
    {
      AsLog(logs)
    }

    constructor ()
      ensures Valid() && Log() == [] && kvStore == map[]
      ensures commitIndex == 0 && lastApplied == 0
    {
      logs := map[];
      kvStore := map[];
      commitIndex, lastApplied := 0, 0;
    }

    method AppendLogEntry(entry: LogEntry) returns (index: nat)
      requires Valid()
      modifies this`logs
      ensures Valid() && Log() == old(Log()) + [entry]
      ensures index == |Log()|
    {
      InsertAppends(logs, entry);
      index := MaxIndex(logs) + 1;
      logs := Insert(logs, entry);
    }

    method GetLogEntries(startIdx: nat, endIdx: nat) returns (entries: seq<LogEntry>)
      requires Valid()
      ensures entries == Slice(Log(), startIdx, endIdx)
    {
      entries := [];
      var lo: nat := if startIdx == 0 then 1 else startIdx;
      var row := lo;
      while row <= endIdx && row in logs
        invariant lo <= row
        invariant row <= |Log()| + 1 || row == lo
        invariant row <= endIdx + 1 || row == lo
        invariant entries == if lo < row then Log()[lo - 1..row - 1] else []
        decreases endIdx + 1 - row
      {
        assert Log()[lo - 1..row] == Log()[lo - 1..row - 1] + [Log()[row - 1]];
        entries := entries + [logs[row]];
        row := row + 1;
      }
    }

    method GetLogEntry(index: nat) returns (entry: Option<LogEntry>)
      requires Valid()
      ensures entry == if 1 <= index <= |Log()| then Some(Log()[index - 1]) else None
    {
      entry := if index in logs then Some(logs[index]) else None;
    }

    method GetLastLogIndex() returns (index: nat)
      requires Valid()
      ensures index == |Log()|
    {
      index := MaxIndex(logs);
    }

    method GetLastLogTerm() returns (term: nat)
      requires Valid()
      ensures term == LastTerm(Log())
    {
      var lastIndex := GetLastLogIndex();
      term := 0;
      if lastIndex > 0 {
        var entry := GetLogEntry(lastIndex);
        if entry.Some? {
          term := entry.value.term;
        }
      }
    }

    method SetCommitIndex(index: nat)
      modifies this`commitIndex
      ensures commitIndex == index
    {
      commitIndex := index;
    }

    method SetLastApplied(index: nat)
      modifies this`lastApplied
      ensures lastApplied == index
    {
      lastApplied := index;
    }

    /** Removes the rows at `index` and above. */
    method DeleteLogEntriesFrom(index: nat)
      requires Valid()
      modifies this`logs
      ensures Valid() && Log() == Truncate(old(Log()), index)
    {
      DeleteFromTruncates(logs, index);
      logs := DeleteFrom(logs, index);
    }

    method UpdateKeyValue(key: string, value: string)
      modifies this`kvStore
      ensures kvStore == old(kvStore)[key := value]
    {
      kvStore := kvStore[key := value];
    }

    method Get(key: string) returns (value: Option<string>)
      ensures value == if key in kvStore then Some(kvStore[key]) else None
    {
      value := if key in kvStore then Some(kvStore[key]) else None;
    }
  }
}
