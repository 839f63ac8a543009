/** The tracker of identical failed tool calls, and its relation to the plain multiset of failures.

    The program's `Map` keeps insertion order, so the tracker is a map together with its keys in that order. The text
    the program builds from a call's name, its arguments and the result's content is an opaque key. */
module RepeatedToolErrors {
  import opened Common

  const MAX_IDENTICAL_FAILURES := 3
  const MAX_TRACKED_FAILURES := 64

  datatype ToolCall = ToolCall(id: string, name: string, arguments: string)
  datatype ToolResult = ToolResult(toolCallId: string, content: string, isError: bool)
  datatype Signature = Signature(name: string, arguments: string, content: string)

  ghost predicate NoDuplicates<T>(items: seq<T>) {
    forall i, j | 0 <= i < j < |items| :: items[i] != items[j]
  }

  lemma NoDuplicatesInFront<T>(items: seq<T>)
    requires NoDuplicates(items) && items != []
    ensures NoDuplicates(items[..|items| - 1]) && items[|items| - 1] !in items[..|items| - 1]
  {
  }

  datatype Tracker = Tracker(keys: seq<Signature>, counts: map<Signature, nat>) {
    ghost predicate Valid() {
      && (forall k :: k in keys <==> k in counts)
      && NoDuplicates(keys)
      && |keys| <= MAX_TRACKED_FAILURES
    }

    function Count(key: Signature): nat {
      if key in counts then counts[key] else 0
    }
  }

  const Empty := Tracker([], map[])

  function FindCall(calls: seq<ToolCall>, id: string): Option<ToolCall> {
    if calls == [] then None
    else if calls[0].id == id then Some(calls[0])
    else FindCall(calls[1..], id)
  }

  /** The signatures of the failures one `record` call counts, in order; results without a call are skipped. */
  function Signatures(calls: seq<ToolCall>, results: seq<ToolResult>): seq<Signature> {
    if results == [] then []
    else
      var front, last := results[..|results| - 1], results[|results| - 1];
      var call := FindCall(calls, last.toolCallId);
      Signatures(calls, front)
      + if call.Some? then [Signature(call.value.name, call.value.arguments, last.content)] else []
  }

  predicate AnySuccess(results: seq<ToolResult>) {
    exists r | r in results :: !r.isError
  }

  /** Count one failure; when the table is then over-full, drop its oldest key. */
  function Bump(tracker: Tracker, key: Signature): Tracker {
    var keys := if key in tracker.counts then tracker.keys else tracker.keys + [key];
    var counts := tracker.counts[key := tracker.Count(key) + 1];
    if |keys| > MAX_TRACKED_FAILURES then Tracker(keys[1..], counts - {keys[0]}) else Tracker(keys, counts)
  }

  function BumpAll(tracker: Tracker, keys: seq<Signature>): Tracker {
    if keys == [] then tracker else Bump(BumpAll(tracker, keys[..|keys| - 1]), keys[|keys| - 1])
  }

  /** Whether any failure of the batch reached the limit at the moment it was counted. */
  predicate Repeats(tracker: Tracker, keys: seq<Signature>) {
    if keys == [] then false
    else
      var front, last := keys[..|keys| - 1], keys[|keys| - 1];
      Repeats(tracker, front) || BumpAll(tracker, front).Count(last) + 1 >= MAX_IDENTICAL_FAILURES
  }

  lemma NothingCounted(start: Tracker, calls: seq<ToolCall>)
    ensures Signatures(calls, []) == [] && BumpAll(start, []) == start && !Repeats(start, [])
  {
  }

  lemma CountedOne(start: Tracker, calls: seq<ToolCall>, results: seq<ToolResult>, result: ToolResult)
    ensures var call := FindCall(calls, result.toolCallId); var before := Signatures(calls, results);
            if call.None? then
              Signatures(calls, results + [result]) == before
            else
              var key := Signature(call.value.name, call.value.arguments, result.content);
              && Signatures(calls, results + [result]) == before + [key]
              && BumpAll(start, before + [key]) == Bump(BumpAll(start, before), key)
              && Repeats(start, before + [key])
                 == (Repeats(start, before) || BumpAll(start, before).Count(key) + 1 >= MAX_IDENTICAL_FAILURES)
  {
    assert (results + [result])[..|results|] == results;
    var call := FindCall(calls, result.toolCallId);
    if call.Some? {
      var before := Signatures(calls, results);
      var key := Signature(call.value.name, call.value.arguments, result.content);
      assert (before + [key])[..|before|] == before;
    }
  }

  lemma {:induction false} FindsFirst(calls: seq<ToolCall>, id: string)
    ensures match FindCall(calls, id)
            case None => forall c | c in calls :: c.id != id
            case Some(call) =>
              exists i | 0 <= i < |calls| ::
                calls[i] == call && call.id == id && forall j | 0 <= j < i :: calls[j].id != id
    decreases |calls|
  {
    if calls != [] {
      FindsFirst(calls[1..], id);
      if calls[0].id != id && FindCall(calls[1..], id).Some? {
        var call := FindCall(calls[1..], id).value;
        var i :| 0 <= i < |calls[1..]| && calls[1..][i] == call && forall j | 0 <= j < i :: calls[1..][j].id != id;
        assert calls[i + 1] == call;
        assert forall j | 0 < j < i + 1 :: calls[j] == calls[1..][j - 1];
      }
    }
  }

  /** Every failure of a batch that answers its calls is counted, in order, under the name and the arguments of its call
      and its own content. */
  lemma {:induction false} EveryFailureCounts(calls: seq<ToolCall>, results: seq<ToolResult>)
    requires |results| <= |calls| && forall i | 0 <= i < |results| :: results[i].toolCallId == calls[i].id
    ensures |Signatures(calls, results)| == |results|
    ensures forall i | 0 <= i < |results| :: exists c | c in calls ::
              && c.id == results[i].toolCallId
              && Signatures(calls, results)[i] == Signature(c.name, c.arguments, results[i].content)
    decreases |results|
  {
    if results != [] {
      var front, last := results[..|results| - 1], results[|results| - 1];
      EveryFailureCounts(calls, front);
      FindsFirst(calls, last.toolCallId);
      assert calls[|front|] in calls;
      var call := FindCall(calls, last.toolCallId).value;
      assert call in calls && call.id == last.toolCallId;
      forall i | 0 <= i < |results|
        ensures exists c | c in calls ::
                  && c.id == results[i].toolCallId
                  && Signatures(calls, results)[i] == Signature(c.name, c.arguments, results[i].content)
      {
        if i < |front| {
          assert Signatures(calls, results)[i] == Signatures(calls, front)[i] && front[i] == results[i];
        }
      }
    }
  }

  class RepeatedToolErrors {
    var keys: seq<Signature>
    var counts: map<Signature, nat>
    /** Every failure counted since the last reset. */
    ghost var failures: seq<Signature>

    ghost function State(): Tracker
      reads this
    {
      Tracker(keys, counts)
    }

    /** The table is what counting the failures since the last reset, one by one, leaves. */
    ghost predicate Valid()
      reads this
    {
      State() == BumpAll(Empty, failures)
    }

    constructor ()
      ensures Valid() && failures == []
    {
      keys, counts, failures := [], map[], [];
    }

    method Reset()
      modifies this
      ensures Valid() && failures == []
    {
      keys, counts, failures := [], map[], [];
    }

    method Record(calls: seq<ToolCall>, results: seq<ToolResult>) returns (repeated: bool)
      requires Valid()
      modifies this
      ensures Valid()
      ensures AnySuccess(results) ==> !repeated && failures == []
      ensures !AnySuccess(results) ==>
                && failures == old(failures) + Signatures(calls, results)
                && repeated == Repeats(old(State()), Signatures(calls, results))
      ensures |keys| <= MAX_TRACKED_FAILURES
      ensures repeated ==> exists key | key in Signatures(calls, results) ::
                             multiset(failures)[key] >= MAX_IDENTICAL_FAILURES
    {
      var succeeded := exists r | r in results :: !r.isError;
      if succeeded {
        Reset();
        return false;
      }
      repeated := CountFailures(calls, results);
      TableIsBounded(failures);
      if repeated {
        RepeatsMeansThree(old(failures), Signatures(calls, results));
      }
    }

    /** The loop of `Record`. */
    method CountFailures(calls: seq<ToolCall>, results: seq<ToolResult>) returns (repeated: bool)
      requires Valid()
      modifies this
      ensures Valid()
      ensures failures == old(failures) + Signatures(calls, results)
      ensures repeated == Repeats(old(State()), Signatures(calls, results))
    {
      hide Bump, BumpAll, Repeats, Signatures;
      ghost var start := State();
      repeated := false;
      NothingCounted(start, calls);
      assert results[..0] == [];
      for i := 0 to |results|
        invariant Valid()
        invariant failures == old(failures) + Signatures(calls, results[..i])
        invariant State() == BumpAll(start, Signatures(calls, results[..i]))
        invariant repeated == Repeats(start, Signatures(calls, results[..i]))
      {
        var result := results[i];
        assert results[..i + 1] == results[..i] + [result];
        CountedOne(start, calls, results[..i], result);
        var call := FindCall(calls, result.toolCallId);
        if call == None {
          continue;
        }
        var count := CountFailure(Signature(call.value.name, call.value.arguments, result.content));
        if count >= MAX_IDENTICAL_FAILURES {
          repeated := true;
        }
      }
      assert results[..|results|] == results;
    }

    /** The body of the loop in `Record`, up to the eviction. */
    method CountFailure(key: Signature) returns (count: nat)
      requires Valid()
      modifies this
      ensures Valid()
      ensures count == old(State().Count(key)) + 1
      ensures State() == Bump(old(State()), key)
      ensures failures == old(failures) + [key]
    {
      count := (if key in counts then counts[key] else 0) + 1;
      if key !in counts {
        keys := keys + [key];
      }
      counts := counts[key := count];
      if |keys| > MAX_TRACKED_FAILURES {
        counts := counts - {keys[0]};
        keys := keys[1..];
      }
      failures := failures + [key];
      assert failures[..|failures| - 1] == old(failures);
    }
  }

  lemma BumpKeys(before: Tracker, key: Signature)
    requires before.Valid()
    ensures Bump(before, key).Valid()
    ensures var keys := if key in before.keys then before.keys else before.keys + [key];
            Bump(before, key).keys == if |keys| > MAX_TRACKED_FAILURES then keys[1..] else keys
  {
    var keys := if key in before.keys then before.keys else before.keys + [key];
    var counts := before.counts[key := before.Count(key) + 1];
    forall k
      ensures k in keys <==> k in counts
    {
      assert k in before.keys + [key] <==> k in before.keys || k == key;
    }
    if |keys| > MAX_TRACKED_FAILURES {
      forall k
        ensures k in keys[1..] <==> k in counts - {keys[0]}
      {
        assert k in keys <==> k == keys[0] || k in keys[1..];
      }
    }
  }

  lemma BumpCount(before: Tracker, key: Signature, k: Signature)
    requires before.Valid()
    ensures var after := Bump(before, key);
            && (k in after.keys ==> after.Count(k) == before.Count(k) + if k == key then 1 else 0)
            && (k !in after.keys ==> after.Count(k) == 0)
            && (k in after.keys ==> k in before.keys || k == key)
            && (k == key ==> k in after.keys)
  {
    BumpKeys(before, key);
  }

  /** At most 64 keys, each counted at most as often as it failed. */
  lemma {:induction false} TableIsBounded(failures: seq<Signature>)
    ensures BumpAll(Empty, failures).Valid()
    ensures forall key :: BumpAll(Empty, failures).Count(key) <= multiset(failures)[key]
    ensures forall key :: key in BumpAll(Empty, failures).keys ==> key in failures
    decreases |failures|
  {
    if failures != [] {
      var front, last := failures[..|failures| - 1], failures[|failures| - 1];
      assert failures == front + [last];
      TableIsBounded(front);
      var before := BumpAll(Empty, front);
      BumpKeys(before, last);
      forall key
        ensures Bump(before, last).Count(key) <= multiset(failures)[key]
        ensures key in Bump(before, last).keys ==> key in failures
      {
        BumpCount(before, last, key);
        hide Bump;
      }
    }
  }

  lemma {:induction false} BumpAllAppend(tracker: Tracker, a: seq<Signature>, b: seq<Signature>)
    ensures BumpAll(tracker, a + b) == BumpAll(BumpAll(tracker, a), b)
    decreases |b|
  {
    if b == [] {
      assert a + b == a;
    } else {
      assert (a + b)[..|a + b| - 1] == a + b[..|b| - 1];
      BumpAllAppend(tracker, a, b[..|b| - 1]);
    }
  }

  /** A report of repetition is never wrong: some signature of the batch failed at least three times since the reset. */
  lemma {:induction false} RepeatsMeansThree(earlier: seq<Signature>, batch: seq<Signature>)
    requires Repeats(BumpAll(Empty, earlier), batch)
    ensures exists key | key in batch :: multiset(earlier + batch)[key] >= MAX_IDENTICAL_FAILURES
    decreases |batch|
  {
    var front, last := batch[..|batch| - 1], batch[|batch| - 1];
    assert earlier + batch == (earlier + front) + [last];
    if Repeats(BumpAll(Empty, earlier), front) {
      RepeatsMeansThree(earlier, front);
      var key :| key in front && multiset(earlier + front)[key] >= MAX_IDENTICAL_FAILURES;
      assert key in batch && multiset(earlier + batch)[key] >= MAX_IDENTICAL_FAILURES;
    } else {
      BumpAllAppend(Empty, earlier, front);
      TableIsBounded(earlier + front);
      assert last in batch && multiset(earlier + batch)[last] >= MAX_IDENTICAL_FAILURES;
    }
  }

  ghost function Distinct(failures: seq<Signature>): set<Signature> {
    set key | key in failures
  }

  /** While at most 64 distinct signatures failed since the reset, the table is the multiset of the failures. */
  lemma {:induction false} SmallHistoryIsCountedExactly(failures: seq<Signature>)
    requires |Distinct(failures)| <= MAX_TRACKED_FAILURES
    ensures var table := BumpAll(Empty, failures);
            && (forall key :: key in table.keys <==> key in failures)
            && (forall key :: table.Count(key) == multiset(failures)[key])
    decreases |failures|
  {
    if failures != [] {
      var front, last := failures[..|failures| - 1], failures[|failures| - 1];
      assert failures == front + [last];
      TableIsBounded(front);
      SubsetSize(Distinct(front), Distinct(failures));
      SmallHistoryIsCountedExactly(front);
      OneMoreIsCountedExactly(front, BumpAll(Empty, front), last);
    }
  }

  lemma OneMoreIsCountedExactly(failures: seq<Signature>, table: Tracker, key: Signature)
    requires table.Valid() && |Distinct(failures + [key])| <= MAX_TRACKED_FAILURES
    requires forall k :: k in table.keys <==> k in failures
    requires forall k :: table.Count(k) == multiset(failures)[k]
    ensures forall k :: k in Bump(table, key).keys <==> k in failures + [key]
    ensures forall k :: Bump(table, key).Count(k) == multiset(failures + [key])[k]
  {
    var keys := if key in table.keys then table.keys else table.keys + [key];
    assert |keys| <= MAX_TRACKED_FAILURES by {
      DistinctLength(keys);
      assert Distinct(keys) == Distinct(failures + [key]);
    }
    BumpKeys(table, key);
  }

  lemma {:induction false} SubsetSize<T>(a: set<T>, b: set<T>)
    requires a <= b
    ensures |a| <= |b|
    decreases |a|
  {
    if a != {} {
      var x :| x in a;
      SubsetSize(a - {x}, b - {x});
    }
  }

  lemma {:induction false} DistinctLength<T>(items: seq<T>)
    requires NoDuplicates(items)
    ensures |set x | x in items| == |items|
    decreases |items|
  {
    if items != [] {
      var front, last := items[..|items| - 1], items[|items| - 1];
      NoDuplicatesInFront(items);
      DistinctLength(front);
      assert (set x | x in items) == (set x | x in front) + {last};
    }
  }

  /** So then the report is exact: it comes if and only if a signature of this batch has now failed three times. */
  lemma {:induction false} SmallHistoryReportsExactly(earlier: seq<Signature>, batch: seq<Signature>)
    requires |Distinct(earlier + batch)| <= MAX_TRACKED_FAILURES
    ensures Repeats(BumpAll(Empty, earlier), batch)
            <==> exists key | key in batch :: multiset(earlier + batch)[key] >= MAX_IDENTICAL_FAILURES
    decreases |batch|
  {
    if batch == [] {
    } else if Repeats(BumpAll(Empty, earlier), batch) {
      RepeatsMeansThree(earlier, batch);
    } else {
      var front, last := batch[..|batch| - 1], batch[|batch| - 1];
      assert earlier + batch == (earlier + front) + [last];
      assert Distinct(earlier + front) <= Distinct(earlier + batch);
      SubsetSize(Distinct(earlier + front), Distinct(earlier + batch));
      SmallHistoryReportsExactly(earlier, front);
      BumpAllAppend(Empty, earlier, front);
      SmallHistoryIsCountedExactly(earlier + front);
      forall key | key in batch
        ensures multiset(earlier + batch)[key] < MAX_IDENTICAL_FAILURES
      {
        assert key in front || key == last;
      }
    }
  }

  // ---------------------------------------------------------------------------------------------------------------
  // Beyond 64 signatures

  function Newest(keys: seq<Signature>): seq<Signature> {
    if |keys| > MAX_TRACKED_FAILURES then keys[|keys| - MAX_TRACKED_FAILURES..] else keys
  }

  lemma NewestAfterOneMore(keys: seq<Signature>, key: Signature)
    ensures var longer := Newest(keys) + [key];
            Newest(keys + [key]) == if |longer| > MAX_TRACKED_FAILURES then longer[1..] else longer
    ensures key !in keys ==> key !in Newest(keys)
  {
  }

  lemma FreshFailureEvicts(keys: seq<Signature>, table: Tracker, key: Signature)
    requires table.Valid() && table.keys == Newest(keys) && key !in keys
    ensures Bump(table, key).Valid() && Bump(table, key).keys == Newest(keys + [key])
  {
    BumpKeys(table, key);
    NewestAfterOneMore(keys, key);
  }

  /** New signatures push the old ones out first in, first out. */
  lemma {:induction false} FreshFailuresEvict(table: Tracker, news: seq<Signature>)
    requires table.Valid()
    requires NoDuplicates(news)
    requires forall key | key in news :: key !in table.keys
    ensures BumpAll(table, news).Valid()
    ensures BumpAll(table, news).keys == Newest(table.keys + news)
    decreases |news|
  {
    if news == [] {
      assert table.keys + news == table.keys;
    } else {
      var front, last := news[..|news| - 1], news[|news| - 1];
      NoDuplicatesInFront(news);
      FreshFailuresEvict(table, front);
      LastOut(table.keys, news);
      FreshFailureEvicts(table.keys + front, BumpAll(table, front), last);
    }
  }

  /** The converse claim is false beyond the bound: a signature that fails again after 64 other signatures has been
      forgotten, so it is counted as if for the first time however often it failed before. */
  lemma SixtyFourOthersForget(key: Signature, earlier: seq<Signature>, others: seq<Signature>)
    requires |others| == MAX_TRACKED_FAILURES
    requires NoDuplicates(others)
    requires key !in others && forall other | other in others :: other !in earlier
    ensures !Repeats(BumpAll(Empty, earlier + others), [key])
    ensures multiset(earlier + others + [key])[key] == multiset(earlier)[key] + 1
  {
    hide Bump;
    TableIsBounded(earlier);
    var table := BumpAll(Empty, earlier);
    FreshFailuresEvict(table, others);
    BumpAllAppend(Empty, earlier, others);
    assert (table.keys + others)[|table.keys|..] == others;
    assert BumpAll(table, others).keys == others;
    assert multiset(others)[key] == 0;
  }

  /** The failures that made a new entry in the table, in order: those whose signature was not tracked. */
  function Insertions(failures: seq<Signature>): seq<Signature> {
    if failures == [] then []
    else
      var front, last := failures[..|failures| - 1], failures[|failures| - 1];
      Insertions(front) + if last in BumpAll(Empty, front).counts then [] else [last]
  }

  lemma {:induction false} TableIsNewestInsertions(failures: seq<Signature>)
    ensures BumpAll(Empty, failures).Valid() && BumpAll(Empty, failures).keys == Newest(Insertions(failures))
    decreases |failures|
  {
    hide Bump, Newest;
    TableIsBounded(failures);
    if failures != [] {
      var front, last := failures[..|failures| - 1], failures[|failures| - 1];
      TableIsNewestInsertions(front);
      OneMoreFailure(Insertions(front), BumpAll(Empty, front), last);
    } else {
      NewestOfFew([]);
    }
  }

  lemma NewestOfFew(keys: seq<Signature>)
    requires |keys| <= MAX_TRACKED_FAILURES
    ensures Newest(keys) == keys
  {
  }

  lemma OneMoreFailure(keys: seq<Signature>, table: Tracker, key: Signature)
    requires table.Valid() && table.keys == Newest(keys)
    ensures Bump(table, key).keys == Newest(keys + if key in table.counts then [] else [key])
  {
    BumpKeys(table, key);
    NewestAfterOneMore(keys, key);
    assert keys + [] == keys;
  }

  /** What is forgotten, exactly, for every history: a signature is still tracked if and only if fewer than 64
      insertions followed its own latest one. */
  lemma TrackedExactly(failures: seq<Signature>, key: Signature)
    ensures key in BumpAll(Empty, failures).keys
            <==> exists i | 0 <= i < |Insertions(failures)| ::
                   Insertions(failures)[i] == key && |Insertions(failures)| - i <= MAX_TRACKED_FAILURES
  {
    TableIsNewestInsertions(failures);
    hide BumpAll, Insertions;
    InNewestExactly(Insertions(failures), key);
  }

  lemma InNewestExactly(all: seq<Signature>, key: Signature)
    ensures key in Newest(all)
            <==> exists i | 0 <= i < |all| :: all[i] == key && |all| - i <= MAX_TRACKED_FAILURES
  {
    var newest := Newest(all);
    forall i | 0 <= i < |newest|
      ensures newest[i] == all[|all| - |newest| + i]
    {
    }
    if key in newest {
      var i :| 0 <= i < |newest| && newest[i] == key;
      assert all[|all| - |newest| + i] == key;
    }
    if i :| 0 <= i < |all| && all[i] == key && |all| - i <= MAX_TRACKED_FAILURES {
      assert newest[i - (|all| - |newest|)] == key;
    }
  }
}
