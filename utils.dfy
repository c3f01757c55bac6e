/**
 * `batchPromiseAll` from utils.js: run a callback over the items group by
 * group, keep a group's results only when at least one of them is truthy,
 * and wait between groups. Groups run one after the other; the calls inside
 * a group run concurrently in the source and are taken here in item order,
 * which the result order does not depend on (`Promise.all` reassembles it).
 * The wait itself is counted, not slept.
 */
module Utils {
  import opened Wrappers
  import opened Lodash

  /** The callback applied to one group, as `Promise.all` returns the results: item `i` of the group is passed with `i`. */
  function RunGroup<T, R>(callback: (T, nat) -> R): seq<T> -> seq<R>
  {
    group => seq(|group|, i requires 0 <= i < |group| => callback(group[i], i))
  }

  /** `_.some(chunkResults)`, with the callback results' own truthiness. */
  function SomeTruthy<R>(truthy: R -> bool): seq<R> -> bool
  {
    rs => Any(rs, truthy)
  }

  /** Every callback result, group by group, before any group is dropped. */
  function AllResults<T, R>(items: seq<T>, callback: (T, nat) -> R, groupSize: int): seq<R>
  {
    Flatten(Map(Chunk(items, groupSize), RunGroup(callback)))
  }

  /** What `batchPromiseAll` resolves to: the flattened results of the groups that had a truthy result. */
  function BatchResults<T, R>(items: seq<T>, callback: (T, nat) -> R, truthy: R -> bool, groupSize: int): seq<R>
  {
    Flatten(Filter(Map(Chunk(items, groupSize), RunGroup(callback)), SomeTruthy(truthy)))
  }

  /** A callback that records its arguments: run through the executor it yields the calls made. */
  function Call<T>(item: T, i: nat): (T, nat)
  {
    (item, i)
  }

  /** Every call the executor makes, in order. */
  function Invocations<T>(items: seq<T>, groupSize: int): seq<(T, nat)>
  {
    AllResults(items, Call, groupSize)
  }

  /** The results an item-by-item run would give, where item `k` is called with `k mod groupSize`. */
  function PositionalResults<T, R>(items: seq<T>, callback: (T, nat) -> R, groupSize: int): (r: seq<R>)
    requires groupSize >= 1
    ensures |r| == |items|
  {
    seq(|items|, k requires 0 <= k < |items| => callback(items[k], k % groupSize))
  }

  method BatchPromiseAll<T, R>(items: seq<T>, callback: (T, nat) -> R, truthy: R -> bool, groupSize: int, delayMs: int)
    returns (results: seq<R>, calls: seq<(T, nat)>, waits: nat)
    ensures results == BatchResults(items, callback, truthy, groupSize)
    ensures calls == Invocations(items, groupSize)
    ensures waits == if delayMs > 0 && |Chunk(items, groupSize)| > 0 then |Chunk(items, groupSize)| - 1 else 0
    ensures |items| == 0 ==> results == [] && calls == [] && waits == 0
  {
    var chunks := Chunk(items, groupSize);
    var kept: seq<seq<R>> := [];
    calls := [];
    waits := 0;
    // `i` counts the groups already run, as the source's counter does
    var i := 0;
    while i < |chunks|
      invariant 0 <= i <= |chunks|
      invariant kept == Filter(Map(chunks[..i], RunGroup(callback)), SomeTruthy(truthy))
      invariant calls == Flatten(Map(chunks[..i], RunGroup(Call)))
      invariant waits == if delayMs <= 0 || i == 0 then 0 else if i < |chunks| then i else i - 1
    {
      var chunkResults := RunGroup(callback)(chunks[i]);
      BatchStep(chunks, i, callback, truthy);
      BatchStep(chunks, i, Call, (c: (T, nat)) => true);
      FlattenSnoc(Map(chunks[..i], RunGroup(Call)), RunGroup(Call)(chunks[i]));
      calls := calls + RunGroup(Call)(chunks[i]);
      if Any(chunkResults, truthy) {
        kept := kept + [chunkResults];
      }
      i := i + 1;
      if delayMs > 0 && i < |chunks| {
        waits := waits + 1;
      }
    }
    assert chunks[..i] == chunks;
    results := Flatten(kept);
  }

  /** Running one more group appends its results, and keeps them only when one of them is truthy. */
  lemma BatchStep<T, R>(chunks: seq<seq<T>>, i: int, callback: (T, nat) -> R, truthy: R -> bool)
    requires 0 <= i < |chunks|
    ensures Map(chunks[..i + 1], RunGroup(callback)) == Map(chunks[..i], RunGroup(callback)) + [RunGroup(callback)(chunks[i])]
    ensures Filter(Map(chunks[..i + 1], RunGroup(callback)), SomeTruthy(truthy))
         == Filter(Map(chunks[..i], RunGroup(callback)), SomeTruthy(truthy))
            + (if Any(RunGroup(callback)(chunks[i]), truthy) then [RunGroup(callback)(chunks[i])] else [])
  {
    var run := RunGroup(callback);
    var before := Map(chunks[..i], run);
    assert chunks[..i + 1] == chunks[..i] + [chunks[i]];
    assert Map(chunks[..i + 1], run) == before + [run(chunks[i])];
    FilterConcat(before, [run(chunks[i])], SomeTruthy(truthy));
    assert [run(chunks[i])][1..] == [];
  }

  lemma MapCons<T, U>(x: T, s: seq<T>, f: T -> U)
    ensures Map([x] + s, f) == [f(x)] + Map(s, f)
  {
  }

  lemma FlattenCons<T>(x: seq<T>, rest: seq<seq<T>>)
    ensures Flatten([x] + rest) == x + Flatten(rest)
  {
    assert ([x] + rest)[1..] == rest;
  }

  /** A short input is one group. */
  lemma {:induction false} AllResultsShort<T, R>(items: seq<T>, callback: (T, nat) -> R, truthy: R -> bool, groupSize: int)
    requires groupSize >= 1 && 0 < |items| <= groupSize
    ensures AllResults(items, callback, groupSize) == RunGroup(callback)(items)
    ensures BatchResults(items, callback, truthy, groupSize)
         == if Any(RunGroup(callback)(items), truthy) then RunGroup(callback)(items) else []
  {
    var run := RunGroup(callback)(items);
    assert Chunk(items, groupSize) == [items];
    assert Map([items], RunGroup(callback)) == [run];
    FlattenCons(run, []);
    assert [run][1..] == [];
    assert Filter([run], SomeTruthy(truthy)) == if Any(run, truthy) then [run] else [];
  }

  /** A long input runs its first group, then the rest as an input of its own. */
  lemma {:induction false} AllResultsCons<T, R>(items: seq<T>, callback: (T, nat) -> R, truthy: R -> bool, groupSize: int)
    requires groupSize >= 1 && |items| > groupSize
    ensures AllResults(items, callback, groupSize)
         == RunGroup(callback)(items[..groupSize]) + AllResults(items[groupSize..], callback, groupSize)
    ensures BatchResults(items, callback, truthy, groupSize)
         == (if Any(RunGroup(callback)(items[..groupSize]), truthy) then RunGroup(callback)(items[..groupSize]) else [])
            + BatchResults(items[groupSize..], callback, truthy, groupSize)
  {
    var head := RunGroup(callback)(items[..groupSize]);
    var rest := Map(Chunk(items[groupSize..], groupSize), RunGroup(callback));
    assert Chunk(items, groupSize) == [items[..groupSize]] + Chunk(items[groupSize..], groupSize);
    MapCons(items[..groupSize], Chunk(items[groupSize..], groupSize), RunGroup(callback));
    FlattenCons(head, rest);
    FilterConcat([head], rest, SomeTruthy(truthy));
    assert [head][1..] == [];
    var kept := Filter([head], SomeTruthy(truthy));
    assert kept == if Any(head, truthy) then [head] else [];
    FlattenConcat(kept, Filter(rest, SomeTruthy(truthy)));
    if Any(head, truthy) {
      FlattenCons(head, []);
    }
  }

  lemma PositionalShort<T, R>(items: seq<T>, callback: (T, nat) -> R, groupSize: int)
    requires groupSize >= 1 && |items| <= groupSize
    ensures PositionalResults(items, callback, groupSize) == RunGroup(callback)(items)
  {
    forall k | 0 <= k < |items| ensures k % groupSize == k {
      DivUnique(k, groupSize, 0, k);
    }
  }

  lemma PositionalCons<T, R>(items: seq<T>, callback: (T, nat) -> R, groupSize: int)
    requires groupSize >= 1 && |items| > groupSize
    ensures PositionalResults(items, callback, groupSize)
         == RunGroup(callback)(items[..groupSize]) + PositionalResults(items[groupSize..], callback, groupSize)
  {
    var whole := PositionalResults(items, callback, groupSize);
    var parts := RunGroup(callback)(items[..groupSize]) + PositionalResults(items[groupSize..], callback, groupSize);
    forall k | 0 <= k < |items| ensures whole[k] == parts[k] {
      if k < groupSize {
        DivUnique(k, groupSize, 0, k);
      } else {
        ModStep(k, groupSize);
        assert items[groupSize..][k - groupSize] == items[k];
      }
    }
  }

  /** Before any group is dropped, the results are the item-by-item results with group-local indices. */
  lemma {:induction false} AllResultsPositional<T, R>(items: seq<T>, callback: (T, nat) -> R, groupSize: int)
    requires groupSize >= 1
    ensures AllResults(items, callback, groupSize) == PositionalResults(items, callback, groupSize)
    decreases |items|
  {
    if |items| == 0 {
    } else if |items| <= groupSize {
      AllResultsShort(items, callback, (r: R) => true, groupSize);
      PositionalShort(items, callback, groupSize);
    } else {
      AllResultsCons(items, callback, (r: R) => true, groupSize);
      AllResultsPositional(items[groupSize..], callback, groupSize);
      PositionalCons(items, callback, groupSize);
    }
  }

  /**
   * Every item is called exactly once, in input order, and item `k` receives
   * `k mod groupSize` — its place inside its group, not its place in the input.
   */
  lemma InvocationsAt<T>(items: seq<T>, groupSize: int)
    requires groupSize >= 1
    ensures |Invocations(items, groupSize)| == |items|
    ensures forall k :: 0 <= k < |items| ==> Invocations(items, groupSize)[k] == (items[k], k % groupSize)
  {
    var calls := Invocations(items, groupSize);
    AllResultsPositional(items, Call, groupSize);
    forall k | 0 <= k < |items| ensures calls[k] == (items[k], k % groupSize) {
      assert calls[k] == Call(items[k], k % groupSize);
    }
  }

  /** When every callback result is truthy no group is dropped: one result per item, in input order. */
  lemma {:induction false} AllTruthyKeepsEverything<T, R>(items: seq<T>, callback: (T, nat) -> R, truthy: R -> bool, groupSize: int)
    requires groupSize >= 1
    requires forall k :: 0 <= k < |items| ==> truthy(callback(items[k], k % groupSize))
    ensures BatchResults(items, callback, truthy, groupSize) == PositionalResults(items, callback, groupSize)
    decreases |items|
  {
    if |items| == 0 {
    } else if |items| <= groupSize {
      AllResultsShort(items, callback, truthy, groupSize);
      PositionalShort(items, callback, groupSize);
      FirstGroupTruthy(items, callback, truthy, groupSize);
    } else {
      var tail := items[groupSize..];
      AllResultsCons(items, callback, truthy, groupSize);
      PositionalCons(items, callback, groupSize);
      FirstGroupTruthy(items[..groupSize], callback, truthy, groupSize);
      forall k | 0 <= k < |tail| ensures truthy(callback(tail[k], k % groupSize)) {
        ModStep(k + groupSize, groupSize);
        assert tail[k] == items[k + groupSize];
      }
      AllTruthyKeepsEverything(tail, callback, truthy, groupSize);
    }
  }

  lemma FirstGroupTruthy<T, R>(group: seq<T>, callback: (T, nat) -> R, truthy: R -> bool, groupSize: int)
    requires groupSize >= 1 && |group| >= 1
    requires truthy(callback(group[0], 0 % groupSize))
    ensures Any(RunGroup(callback)(group), truthy)
  {
    DivUnique(0, groupSize, 0, 0);
    assert RunGroup(callback)(group)[0] == callback(group[0], 0);
  }

  /**
   * Dropping a group whose results are all falsy loses no truthy result: after
   * `_.compact`, the executor's output equals the item-by-item results.
   */
  lemma CompactIgnoresDroppedGroups<T, R>(items: seq<T>, callback: (T, nat) -> Option<R>, groupSize: int)
    requires groupSize >= 1
    ensures Compact(BatchResults(items, callback, IsSome, groupSize)) == Compact(PositionalResults(items, callback, groupSize))
  {
    AllResultsPositional(items, callback, groupSize);
    CompactKept(Map(Chunk(items, groupSize), RunGroup(callback)));
  }

  lemma {:induction false} CompactKept<R>(groups: seq<seq<Option<R>>>)
    ensures Compact(Flatten(Filter(groups, SomeTruthy(IsSome)))) == Compact(Flatten(groups))
  {
    if |groups| > 0 {
      CompactKept(groups[1..]);
      var kept := Filter(groups[1..], SomeTruthy(IsSome));
      CompactConcat(groups[0], Flatten(groups[1..]));
      if Any(groups[0], IsSome) {
        assert Filter(groups, SomeTruthy(IsSome)) == [groups[0]] + kept;
        FlattenCons(groups[0], kept);
        CompactConcat(groups[0], Flatten(kept));
      } else {
        assert Filter(groups, SomeTruthy(IsSome)) == kept;
        forall i | 0 <= i < |groups[0]| ensures groups[0][i].None? {
          assert !IsSome(groups[0][i]);
        }
        CompactAllNone(groups[0]);
      }
    }
  }
}
