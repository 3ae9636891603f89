/** Log entries, log order and the two ways of merging received entries into a log. */
module Entries {

  /** Go strings are byte sequences. */
  newtype Byte = b: int | 0 <= b < 256
  type Bytes = seq<Byte>

  datatype Operation =
    | NoOp
    | Post(key: Bytes, value: Bytes)
    | Put(key: Bytes, value: Bytes)
    | Delete(key: Bytes)

  datatype LogEntry = LogEntry(term: nat, operation: Operation, clientid: Bytes)

  type Log = seq<LogEntry>

  function LastIndex(log: Log): int {
    |log| - 1
  }

  function LastTerm(log: Log): int {
    if log == [] then -1 else log[|log| - 1].term
  }

  /** Term of the entry at `i`, or -1 in front of the log. */
  function TermAt(log: Log, i: int): int
    requires -1 <= i < |log|
  {
    if i == -1 then -1 else log[i].term
  }

  /** The vote rule of Section 5.4.1: compare last terms, then last indices. */
  predicate UpToDate(lastIndex: int, lastTerm: int, log: Log) {
    lastTerm > LastTerm(log) || (lastTerm == LastTerm(log) && lastIndex >= LastIndex(log))
  }

  ghost predicate Sorted(log: Log) {
    forall i, j :: 0 <= i <= j < |log| ==> log[i].term <= log[j].term
  }

  ghost predicate TermsUpTo(log: Log, term: nat) {
    forall i :: 0 <= i < |log| ==> log[i].term <= term
  }

  /** Equal prefixes stay equal when they are cut shorter. */
  lemma ShorterPrefix(x: Log, y: Log, j: nat, k: nat)
    requires j <= k <= |x| && k <= |y|
    requires x[..k] == y[..k]
    ensures x[..j] == y[..j]
  {
    assert x[..j] == x[..k][..j];
    assert y[..j] == y[..k][..j];
  }

  lemma SamePrefixAt(x: Log, y: Log, i: nat, k: nat)
    requires i < k <= |x| && k <= |y|
    requires x[..k] == y[..k]
    ensures x[i] == y[i]
  {
    assert x[i] == x[..k][i];
    assert y[i] == y[..k][i];
  }
}

module Merging {
  import opened Entries

  /** Does the log hold the entry that precedes the sent ones? */
  predicate Matches(log: Log, prev: int, prevTerm: int)
    requires -1 <= prev
  {
    prev == -1 || (prev < |log| && log[prev].term == prevTerm)
  }

  /** How many of the sent entries the log already holds: terms are compared one by
      one from `start`, up to the first mismatch, the end of the log or of the entries. */
  function Agreed(log: Log, start: nat, entries: Log): (m: nat)
    ensures m <= |entries| && (m > 0 ==> start + m <= |log|)
  {
    AgreedFrom(log, start, entries, 0)
  }

  /** The same, the first `i` entries having been compared. */
  function AgreedFrom(log: Log, start: nat, entries: Log, i: nat): (m: nat)
    requires i <= |entries|
    ensures i <= m <= |entries| && (m > i ==> start + m <= |log|)
    decreases |entries| - i
  {
    if i == |entries| || start + i >= |log| || log[start + i].term != entries[i].term then i
    else AgreedFrom(log, start, entries, i + 1)
  }

  lemma {:induction false} AgreedFromAt(log: Log, start: nat, entries: Log, i: nat, j: nat)
    requires i <= |entries| && i <= j < AgreedFrom(log, start, entries, i)
    ensures start + j < |log| && log[start + j].term == entries[j].term
    decreases |entries| - i
  {
    if i < j {
      AgreedFromAt(log, start, entries, i + 1, j);
    }
  }

  lemma {:induction false} AgreedFromStops(log: Log, start: nat, entries: Log, i: nat)
    requires i <= |entries|
    ensures var m := AgreedFrom(log, start, entries, i);
      m < |entries| && start + m < |log| ==> log[start + m].term != entries[m].term
    decreases |entries| - i
  {
    if i < |entries| && start + i < |log| && log[start + i].term == entries[i].term {
      AgreedFromStops(log, start, entries, i + 1);
    }
  }

  /** Entries compared equal have equal terms. */
  lemma AgreedAt(log: Log, start: nat, entries: Log, i: nat)
    requires i < Agreed(log, start, entries)
    ensures start + i < |log| && log[start + i].term == entries[i].term
  {
    AgreedFromAt(log, start, entries, 0, i);
  }

  /** The comparison stops only at a mismatch or at an end. */
  lemma AgreedStops(log: Log, start: nat, entries: Log)
    ensures var m := Agreed(log, start, entries);
      m < |entries| && start + m < |log| ==> log[start + m].term != entries[m].term
  {
    AgreedFromStops(log, start, entries, 0);
  }

  /** Section 5.3: delete the first conflicting entry and all that follow it, then append. */
  function Truncating(log: Log, prev: int, entries: Log): Log
    requires -1 <= prev < |log|
  {
    var m := Agreed(log, prev + 1, entries);
    if m == |entries| then log else log[..prev + 1 + m] + entries[m..]
  }

  /** The loops as written: entries are overwritten one by one, so an old tail stays. */
  function Overwriting(log: Log, prev: int, entries: Log): Log
    requires -1 <= prev < |log|
  {
    var m := Agreed(log, prev + 1, entries);
    var end := prev + 1 + |entries|;
    log[..prev + 1 + m] + entries[m..] + (if end <= |log| then log[end..] else [])
  }

  /** No conflict, or the sent entries reach the end of the old log. */
  predicate TailSafe(log: Log, prev: int, entries: Log)
    requires -1 <= prev < |log|
  {
    Agreed(log, prev + 1, entries) == |entries|
    || prev + 1 + |entries| >= |log|
  }
}
