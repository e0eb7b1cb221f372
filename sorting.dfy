/**
 * The ordering stage: all values of all streams, minus those whose timestamp
 * is not an int64, ordered by timestamp, reduced to their log lines.
 */
module Sorting {
  import opened GoTime
  import opened Decimal
  import opened Response

  /** A value whose timestamp parsed. */
  datatype LogEntry = LogEntry(timestamp: Time, message: string)

  /** The values of all streams, stream after stream, each in its own order. */
  function Flatten(streams: seq<Stream>): seq<Value>
    decreases |streams|
  {
    if streams == [] then []
    else Flatten(streams[..|streams| - 1]) + streams[|streams| - 1].values
  }

  /** The entry a value becomes, if its timestamp parses. */
  predicate Parses(v: Value) {
    ParseInt(v.timestamp).ok
  }

  function EntryOf(v: Value): LogEntry
    requires Parses(v)
  {
    LogEntry(Unix(ParseInt(v.timestamp).value), v.line)
  }

  /** The entries of the values that parse, in the values' order. */
  function EntriesOf(vs: seq<Value>): seq<LogEntry>
    decreases |vs|
  {
    if vs == [] then []
    else
      var rest := EntriesOf(vs[..|vs| - 1]);
      var v := vs[|vs| - 1];
      if Parses(v) then rest + [EntryOf(v)] else rest
  }

  function Messages(es: seq<LogEntry>): seq<string> {
    seq(|es|, i requires 0 <= i < |es| => es[i].message)
  }

  predicate SortedByTime(es: seq<LogEntry>) {
    forall i, j :: 0 <= i < j < |es| ==> es[i].timestamp <= es[j].timestamp
  }

  /**
   * `logs` are the messages of some ordering of `entries` by non-decreasing
   * timestamp. Nothing is said about the relative order of entries with equal
   * timestamps, since `sort.Slice` is not stable.
   */
  ghost predicate SortedMessagesOf(logs: seq<string>, entries: seq<LogEntry>) {
    exists es :: multiset(es) == multiset(entries) && SortedByTime(es) && logs == Messages(es)
  }

  lemma {:induction false} FlattenMembership(streams: seq<Stream>, v: Value)
    ensures v in Flatten(streams) <==> exists i :: 0 <= i < |streams| && v in streams[i].values
    decreases |streams|
  {
    if streams != [] {
      var init := streams[..|streams| - 1];
      FlattenMembership(init, v);
      if v in Flatten(streams) && v !in streams[|streams| - 1].values {
        var i :| 0 <= i < |init| && v in init[i].values;
        assert streams[i] == init[i];
      }
      if exists i :: 0 <= i < |streams| && v in streams[i].values {
        var i :| 0 <= i < |streams| && v in streams[i].values;
        if i < |init| {
          assert init[i] == streams[i];
        }
      }
    }
  }

  /** The output is empty exactly when no stream holds a value. */
  lemma {:induction false} FlattenEmpty(streams: seq<Stream>)
    ensures Flatten(streams) == [] <==> forall i :: 0 <= i < |streams| ==> streams[i].values == []
    decreases |streams|
  {
    if streams != [] {
      var init := streams[..|streams| - 1];
      FlattenEmpty(init);
      if Flatten(streams) == [] {
        forall i | 0 <= i < |streams| ensures streams[i].values == [] {
          if i < |init| {
            assert init[i] == streams[i];
          }
        }
      }
    }
  }

  lemma {:induction false} EntriesOfAppend(a: seq<Value>, b: seq<Value>)
    ensures EntriesOf(a + b) == EntriesOf(a) + EntriesOf(b)
    decreases |b|
  {
    if b != [] {
      var b' := b[..|b| - 1];
      assert (a + b)[..|a + b| - 1] == a + b';
      EntriesOfAppend(a, b');
    } else {
      assert a + b == a;
    }
  }

  /** An entry is collected iff some value with a parsing timestamp yields it. */
  lemma {:induction false} EntriesOfMembership(vs: seq<Value>, e: LogEntry)
    ensures e in EntriesOf(vs) <==> exists v :: v in vs && Parses(v) && EntryOf(v) == e
    decreases |vs|
  {
    if vs != [] {
      var init, last := vs[..|vs| - 1], vs[|vs| - 1];
      EntriesOfMembership(init, e);
      assert vs == init + [last];
      if e in EntriesOf(vs) {
        if !(Parses(last) && EntryOf(last) == e) {
          var v :| v in init && Parses(v) && EntryOf(v) == e;
          assert v in vs;
        }
      } else {
        forall v | v in vs && Parses(v) ensures EntryOf(v) != e {
          if v != last {
            assert v in init;
          }
        }
      }
    }
  }

  /**
   * At most one entry per value, and exactly one per value precisely when
   * every timestamp parses.
   */
  lemma {:induction false} EntriesOfLength(vs: seq<Value>)
    ensures |EntriesOf(vs)| <= |vs|
    ensures |EntriesOf(vs)| == |vs| <==> forall i :: 0 <= i < |vs| ==> Parses(vs[i])
    decreases |vs|
  {
    if vs != [] {
      var init, v := vs[..|vs| - 1], vs[|vs| - 1];
      EntriesOfLength(init);
      if !Parses(v) {
        assert |EntriesOf(vs)| == |EntriesOf(init)|;
        assert !Parses(vs[|vs| - 1]);
      } else if |EntriesOf(init)| == |init| {
        assert |EntriesOf(vs)| == |EntriesOf(init)| + 1;
        forall i | 0 <= i < |vs| ensures Parses(vs[i]) {
          if i < |init| {
            assert init[i] == vs[i];
          }
        }
      } else {
        assert |EntriesOf(vs)| == |EntriesOf(init)| + 1;
        var j :| 0 <= j < |init| && !Parses(init[j]);
        assert vs[j] == init[j];
      }
    }
  }

  /** The positions of the values whose timestamp parses. */
  function ParsingIndices(vs: seq<Value>): set<int> {
    set i | 0 <= i < |vs| && Parses(vs[i])
  }

  /** The positions of `vs` are those of its prefix, and its last one if that value parses. */
  lemma ParsingIndicesStep(vs: seq<Value>)
    requires vs != []
    ensures var n := |vs| - 1;
      ParsingIndices(vs) == ParsingIndices(vs[..n]) + (if Parses(vs[n]) then {n} else {})
  {
    var n := |vs| - 1;
    forall i ensures i in ParsingIndices(vs) <==> i in ParsingIndices(vs[..n]) + (if Parses(vs[n]) then {n} else {}) {
      if 0 <= i < n {
        assert vs[..n][i] == vs[i];
      }
    }
  }

  /** One entry for each value whose timestamp parses, and no other. */
  lemma {:induction false} EntriesOfCount(vs: seq<Value>)
    ensures |EntriesOf(vs)| == |ParsingIndices(vs)|
    decreases |vs|
  {
    if vs == [] {
      assert ParsingIndices(vs) == {};
    } else {
      var n := |vs| - 1;
      EntriesOfCount(vs[..n]);
      ParsingIndicesStep(vs);
      assert n !in ParsingIndices(vs[..n]);
    }
  }

  lemma MessagesAppend(a: seq<LogEntry>, b: seq<LogEntry>)
    ensures Messages(a + b) == Messages(a) + Messages(b)
  {
    assert |Messages(a + b)| == |Messages(a) + Messages(b)|;
    forall i | 0 <= i < |a + b| ensures Messages(a + b)[i] == (Messages(a) + Messages(b))[i] {
      if i >= |a| {
        assert (a + b)[i] == b[i - |a|];
      }
    }
  }

  /** Taking entry `k` out of `ys` takes its message out of the messages. */
  lemma MessagesWithout(ys: seq<LogEntry>, k: int)
    requires 0 <= k < |ys|
    ensures multiset(Messages(ys)) == multiset(Messages(ys[..k] + ys[k + 1..])) + multiset{ys[k].message}
  {
    assert ys == ys[..k] + [ys[k]] + ys[k + 1..];
    MessagesAppend(ys[..k] + [ys[k]], ys[k + 1..]);
    MessagesAppend(ys[..k], [ys[k]]);
    MessagesAppend(ys[..k], ys[k + 1..]);
  }

  /** Reordering entries reorders their messages the same way. */
  lemma {:induction false} MessagesRespectPermutation(xs: seq<LogEntry>, ys: seq<LogEntry>)
    requires multiset(xs) == multiset(ys)
    ensures multiset(Messages(xs)) == multiset(Messages(ys))
    decreases |xs|
  {
    if xs == [] {
      assert |ys| == |multiset(ys)| == 0;
    } else {
      var x := xs[0];
      assert x in multiset(ys);
      var k :| 0 <= k < |ys| && ys[k] == x;
      var rest := ys[..k] + ys[k + 1..];
      assert ys == ys[..k] + [x] + ys[k + 1..];
      assert xs == [x] + xs[1..];
      assert multiset(xs[1..]) == multiset(rest) by {
        assert multiset(xs) == multiset([x]) + multiset(xs[1..]);
        assert multiset(ys) == multiset(ys[..k]) + multiset([x]) + multiset(ys[k + 1..]);
        assert multiset(rest) == multiset(ys[..k]) + multiset(ys[k + 1..]);
        assert multiset(xs[1..]) == multiset(xs) - multiset([x]);
        assert multiset(rest) == multiset(ys) - multiset([x]);
      }
      MessagesRespectPermutation(xs[1..], rest);
      MessagesWithout(xs, 0);
      assert xs[..0] + xs[1..] == xs[1..];
      MessagesWithout(ys, k);
    }
  }

  lemma SortedMessagesArePermutation(logs: seq<string>, entries: seq<LogEntry>)
    requires SortedMessagesOf(logs, entries)
    ensures |logs| == |entries|
    ensures multiset(logs) == multiset(Messages(entries))
  {
    var es :| multiset(es) == multiset(entries) && SortedByTime(es) && logs == Messages(es);
    assert |es| == |multiset(es)| == |multiset(entries)| == |entries|;
    MessagesRespectPermutation(es, entries);
  }

  method Swap(a: array<LogEntry>, i: int, j: int)
    requires 0 <= i < j < a.Length
    modifies a
    ensures a[i] == old(a[j]) && a[j] == old(a[i])
    ensures forall k :: 0 <= k < a.Length && k != i && k != j ==> a[k] == old(a[k])
    ensures multiset(a[..]) == old(multiset(a[..]))
  {
    a[i], a[j] := a[j], a[i];
  }

  /** Moves `a[i]` down into the ordered `a[..i]`, so that `a[..i + 1]` is ordered. */
  method Insert(a: array<LogEntry>, i: int)
    requires 0 <= i < a.Length
    requires forall k, l :: 0 <= k < l < i ==> a[k].timestamp <= a[l].timestamp
    modifies a
    ensures forall k, l :: 0 <= k < l <= i ==> a[k].timestamp <= a[l].timestamp
    ensures multiset(a[..]) == old(multiset(a[..]))
    ensures a[i + 1..] == old(a[i + 1..])
  {
    var j := i;
    while j > 0 && a[j].timestamp < a[j - 1].timestamp
      invariant 0 <= j <= i
      invariant multiset(a[..]) == old(multiset(a[..]))
      invariant a[i + 1..] == old(a[i + 1..])
      invariant forall k, l :: 0 <= k < l <= i && k != j && l != j ==> a[k].timestamp <= a[l].timestamp
      invariant forall l :: j < l <= i ==> a[j].timestamp <= a[l].timestamp
    {
      Swap(a, j - 1, j);
      j := j - 1;
    }
  }

  /** `sort.Slice(entries, ...Before...)`: in place, by timestamp, not stable. */
  method SortByTime(a: array<LogEntry>)
    modifies a
    ensures SortedByTime(a[..])
    ensures multiset(a[..]) == old(multiset(a[..]))
  {
    var i := 0;
    while i < a.Length
      invariant 0 <= i <= a.Length
      invariant forall k, l :: 0 <= k < l < i ==> a[k].timestamp <= a[l].timestamp
      invariant multiset(a[..]) == old(multiset(a[..]))
    {
      Insert(a, i);
      i := i + 1;
    }
  }

  /** The nested loop of `sortingLogs` that appends to `entries`. */
  method CollectEntries(streams: seq<Stream>) returns (entries: seq<LogEntry>)
    ensures entries == EntriesOf(Flatten(streams))
  {
    entries := [];
    for i := 0 to |streams|
      invariant entries == EntriesOf(Flatten(streams[..i]))
    {
      var values := streams[i].values;
      ghost var before := entries;
      for j := 0 to |values|
        invariant entries == before + EntriesOf(values[..j])
      {
        assert values[..j + 1][..j] == values[..j];
        var parsed := ParseInt(values[j].timestamp);
        if !parsed.ok {
          continue;
        }
        entries := entries + [LogEntry(Unix(parsed.value), values[j].line)];
      }
      assert values[..|values|] == values;
      assert streams[..i + 1][..i] == streams[..i];
      EntriesOfAppend(Flatten(streams[..i]), values);
    }
    assert streams[..|streams|] == streams;
  }

  /** The loop of `sortingLogs` that fills `logs` with the sorted entries' messages. */
  method ExtractMessages(entries: array<LogEntry>) returns (logs: seq<string>)
    ensures logs == Messages(entries[..])
  {
    var out := new string[entries.Length];
    for i := 0 to entries.Length
      invariant forall k :: 0 <= k < i ==> out[k] == entries[k].message
    {
      out[i] := entries[i].message;
    }
    logs := out[..];
  }

  /**
   * `sortingLogs`: collect an entry for every value whose timestamp parses,
   * sort the entries by timestamp and return their messages.
   */
  method SortingLogs(streams: seq<Stream>) returns (logs: seq<string>)
    ensures |logs| == |EntriesOf(Flatten(streams))| == |ParsingIndices(Flatten(streams))|
    ensures SortedMessagesOf(logs, EntriesOf(Flatten(streams)))
    ensures multiset(logs) == multiset(Messages(EntriesOf(Flatten(streams))))
  {
    var entries := CollectEntries(streams);
    var sorted := new LogEntry[|entries|](k requires 0 <= k < |entries| => entries[k]);
    assert sorted[..] == entries;
    SortByTime(sorted);
    logs := ExtractMessages(sorted);
    assert multiset(sorted[..]) == multiset(entries) && SortedByTime(sorted[..]) && logs == Messages(sorted[..]);
    SortedMessagesArePermutation(logs, entries);
    EntriesOfCount(Flatten(streams));
  }
}
