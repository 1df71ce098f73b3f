// BS::blocks and the loop tasks built from it: detach_loop(a, b) splits [a, b) into pieces.
module LoopBlocks {

  // One queued unit of work: run the body named `tag` for every index in [first, last).
  datatype Task = Task(tag: nat, first: int, last: int)

  // The fields of `blocks`, as its constructor leaves them for a non-empty range.
  datatype Blocks = Blocks(first: int, last: int, count: nat, size: nat, remainder: nat) {

    predicate Valid()
    {
      0 < count && 0 < size && remainder < count && last - first == count * size + remainder
    }

    function Start(block: nat): int
    {
      first + block * size + (if block < remainder then block else remainder)
    }

    function End(block: nat): int
      requires count > 0
    {
      if block == count - 1 then last else Start(block + 1)
    }
  }

  // For a non-empty range and a positive requested number of blocks.
  function MakeBlocks(first: int, last: int, wanted: nat): (b: Blocks)
    requires first < last && 0 < wanted
    ensures b.Valid()
  {
    var total := last - first;
    var count := if wanted < total then wanted else total;
    Blocks(first, last, count, total / count, total % count)
  }

  // The pieces are contiguous, non-empty, and differ in length by at most one.
  lemma BlocksPartition(b: Blocks, i: nat)
    requires b.Valid() && i < b.count
    ensures b.Start(0) == b.first && b.End(b.count - 1) == b.last
    ensures i + 1 < b.count ==> b.End(i) == b.Start(i + 1)
    ensures b.End(i) - b.Start(i) == b.size + (if i < b.remainder then 1 else 0)
  {
    if i == b.count - 1 {
      assert b.count * b.size == i * b.size + b.size;
    } else {
      assert (i + 1) * b.size == i * b.size + b.size;
    }
  }

  function TasksFrom(tag: nat, b: Blocks, i: nat): seq<Task>
    requires b.Valid() && i <= b.count
    decreases b.count - i
  {
    if i == b.count then [] else [Task(tag, b.Start(i), b.End(i))] + TasksFrom(tag, b, i + 1)
  }

  // enqueue_loop: nothing for an empty range; otherwise one task per block, with the thread count
  // standing in for an unspecified number of blocks.
  function LoopTasks(tag: nat, first: int, last: int, wanted: nat, threads: nat): seq<Task>
    requires 0 < threads
  {
    if last <= first then [] else TasksFrom(tag, MakeBlocks(first, last, if wanted > 0 then wanted else threads), 0)
  }

  // enqueue_loop's loop: fill a vector with one loop task per block.
  method EnqueueLoop(tag: nat, first: int, last: int, wanted: nat, threads: nat) returns (all: seq<Task>)
    requires 0 < threads
    ensures all == LoopTasks(tag, first, last, wanted, threads)
  {
    all := [];
    if last > first {
      var b := MakeBlocks(first, last, if wanted > 0 then wanted else threads);
      var i := 0;
      while i < b.count
        invariant i <= b.count
        invariant all + TasksFrom(tag, b, i) == TasksFrom(tag, b, 0)
      {
        var before := all;
        all := all + [Task(tag, b.Start(i), b.End(i))];
        assert before + TasksFrom(tag, b, i) == all + TasksFrom(tag, b, i + 1);
        i := i + 1;
      }
    }
  }

  predicate Covers(t: Task, tag: nat, i: int) { t.tag == tag && t.first <= i < t.last }

  // How many times running these tasks calls the body `tag` with index i: loop_task calls it once for
  // each index from its start up to its end.
  function Calls(ts: seq<Task>, tag: nat, i: int): nat
  {
    if ts == [] then 0 else (if Covers(ts[0], tag, i) then 1 else 0) + Calls(ts[1..], tag, i)
  }

  lemma {:induction false} CallsConcat(a: seq<Task>, b: seq<Task>, tag: nat, i: int)
    ensures Calls(a + b, tag, i) == Calls(a, tag, i) + Calls(b, tag, i)
  {
    if a == [] {
      assert a + b == b;
    } else {
      assert (a + b)[0] == a[0] && (a + b)[1..] == a[1..] + b;
      CallsConcat(a[1..], b, tag, i);
    }
  }

  lemma CancelOne(m: multiset<Task>, n: multiset<Task>, t: Task)
    requires m + multiset{t} == n + multiset{t}
    ensures m == n
  {
    assert m == (m + multiset{t}) - multiset{t};
    assert n == (n + multiset{t}) - multiset{t};
  }

  lemma MatchingElement(a: seq<Task>, b: seq<Task>) returns (k: nat)
    requires a != [] && multiset(a) == multiset(b)
    ensures k < |b| && b[k] == a[0] && multiset(a[1..]) == multiset(b[..k] + b[k + 1..])
  {
    assert a[0] in multiset(b);
    k :| 0 <= k < |b| && b[k] == a[0];
    assert a == [a[0]] + a[1..];
    assert b == b[..k] + [a[0]] + b[k + 1..];
    assert multiset(a[1..]) + multiset{a[0]} == multiset(a);
    assert multiset(b[..k] + b[k + 1..]) + multiset{a[0]} == multiset(b);
    CancelOne(multiset(a[1..]), multiset(b[..k] + b[k + 1..]), a[0]);
  }

  lemma CallsInsert(left: seq<Task>, t: Task, right: seq<Task>, tag: nat, i: int)
    ensures Calls(left + [t] + right, tag, i) == (if Covers(t, tag, i) then 1 else 0) + Calls(left + right, tag, i)
  {
    CallsConcat(left, right, tag, i);
    CallsConcat(left, [t], tag, i);
    CallsConcat(left + [t], right, tag, i);
    assert [t][1..] == [];
  }

  // The number of calls does not depend on the order the tasks ran in.
  lemma {:induction false} CallsIgnoreOrder(a: seq<Task>, b: seq<Task>, tag: nat, i: int)
    requires multiset(a) == multiset(b)
    ensures Calls(a, tag, i) == Calls(b, tag, i)
    decreases |a|
  {
    if a == [] {
      assert |multiset(b)| == |b|;
    } else {
      var k := MatchingElement(a, b);
      CallsIgnoreOrder(a[1..], b[..k] + b[k + 1..], tag, i);
      CallsInsert(b[..k], b[k], b[k + 1..], tag, i);
      assert b[..k] + [b[k]] + b[k + 1..] == b;
    }
  }

  lemma {:induction false} TasksFromCoverOnce(tag: nat, b: Blocks, k: nat, i: int)
    requires b.Valid() && k <= b.count
    ensures Calls(TasksFrom(tag, b, k), tag, i)
            == (if (if k == b.count then b.last else b.Start(k)) <= i < b.last then 1 else 0)
    ensures k < b.count ==> b.Start(k) < b.last
    decreases b.count - k
  {
    if k < b.count {
      BlocksPartition(b, k);
      TasksFromCoverOnce(tag, b, k + 1, i);
      assert TasksFrom(tag, b, k)[1..] == TasksFrom(tag, b, k + 1);
    }
  }

  lemma {:induction false} TasksFromOnlyTag(tag: nat, b: Blocks, k: nat, other: nat, i: int)
    requires b.Valid() && k <= b.count && other != tag
    ensures Calls(TasksFrom(tag, b, k), other, i) == 0
    decreases b.count - k
  {
    if k < b.count {
      TasksFromOnlyTag(tag, b, k + 1, other, i);
      assert TasksFrom(tag, b, k)[1..] == TasksFrom(tag, b, k + 1);
    }
  }

  // However the range is split, the tasks call the body exactly once for every index of [first, last)
  // and for no other.
  lemma LoopTasksCoverOnce(tag: nat, first: int, last: int, wanted: nat, threads: nat, i: int)
    requires 0 < threads
    ensures Calls(LoopTasks(tag, first, last, wanted, threads), tag, i) == (if first <= i < last then 1 else 0)
  {
    if first < last {
      var b := MakeBlocks(first, last, if wanted > 0 then wanted else threads);
      assert b.first == first && b.last == last;
      BlocksPartition(b, 0);
      TasksFromCoverOnce(tag, b, 0, i);
    }
  }
}
