/**
 * The partition table of the scheduler as a value: one entry per memory partition, null when the
 * partition is free. The functions here say what each pass of the scheduler over the table does.
 */
module Partitions {
  import opened Lists
  import opened Tasks

  type Slots = seq<Task?>

  function Min(a: int, b: int): int
  {
    if a <= b then a else b
  }

  /** `[task for task in blocks if task is not None]`: the occupants in slot order. */
  function Occupants(blocks: Slots): (r: seq<Task>)
    ensures |r| <= |blocks|
  {
    if blocks == [] then []
    else Occupants(blocks[..|blocks| - 1]) + (if blocks[|blocks| - 1] != null then [blocks[|blocks| - 1]] else [])
  }

  /** A task is an occupant exactly when some partition holds it. */
  lemma {:induction false} OccupantsMembers(blocks: Slots)
    ensures forall t :: t in Occupants(blocks) ==> t in blocks
    ensures forall i :: 0 <= i < |blocks| && blocks[i] != null ==> blocks[i] in Occupants(blocks)
  {
    if blocks != [] {
      var n := |blocks| - 1;
      OccupantsMembers(blocks[..n]);
      forall i | 0 <= i < n && blocks[i] != null ensures blocks[i] in Occupants(blocks) {
        assert blocks[..n][i] == blocks[i];
      }
      forall t | t in Occupants(blocks[..n]) ensures t in blocks {
        assert t in blocks[..n];
      }
    }
  }

  /** `[None] * n`: a table of n free partitions. */
  function Nones(n: nat): (r: Slots)
    ensures |r| == n && forall i :: 0 <= i < n ==> r[i] == null
  {
    if n == 0 then [] else Nones(n - 1) + [null]
  }

  /** Writing the next task into the first empty partition of a table filled from the bottom. */
  lemma PlaceStep(c: seq<Task>, i: nat, n: nat)
    requires i < |c| && i < n
    ensures (c[..i] + Nones(n - i))[i := c[i]] == c[..i + 1] + Nones(n - (i + 1))
  {
    var before, after := (c[..i] + Nones(n - i))[i := c[i]], c[..i + 1] + Nones(n - (i + 1));
    forall k | 0 <= k < n ensures before[k] == after[k] {
      if k > i {
        assert (c[..i] + Nones(n - i))[k] == Nones(n - i)[k - i];
      }
    }
  }

  lemma {:induction false} OccupantsAppend(a: Slots, b: Slots)
    ensures Occupants(a + b) == Occupants(a) + Occupants(b)
  {
    if b == [] {
      assert a + b == a;
    } else {
      var front := b[..|b| - 1];
      assert (a + b)[..|a + b| - 1] == a + front;
      assert (a + b)[|a + b| - 1] == b[|b| - 1];
      OccupantsAppend(a, front);
    }
  }

  lemma {:induction false} OccupantsCons(x: Task?, s: Slots)
    ensures Occupants([x] + s) == (if x != null then [x] else []) + Occupants(s)
  {
    OccupantsAppend([x], s);
    assert [x][..0] == [];
  }

  /** A table with no free partition has its entries as occupants, in order. */
  lemma {:induction false} OccupantsOfFull(s: seq<Task>)
    ensures Occupants(s) == s
  {
    if s != [] {
      OccupantsOfFull(s[..|s| - 1]);
    }
  }

  lemma {:induction false} OccupantsOfNones(n: nat)
    ensures Occupants(Nones(n)) == []
  {
    if n > 0 {
      OccupantsOfNones(n - 1);
    }
  }

  /** Distinct occupants mean that no task sits in two partitions. */
  lemma {:induction false} DistinctSlots(blocks: Slots)
    requires NoDup(Occupants(blocks))
    ensures forall i, j :: 0 <= i < |blocks| && 0 <= j < |blocks| && i != j && blocks[i] != null ==> blocks[i] != blocks[j]
  {
    if blocks != [] {
      var n := |blocks| - 1;
      var front := blocks[..n];
      NoDupSplit(Occupants(front), if blocks[n] != null then [blocks[n]] else []);
      DistinctSlots(front);
      OccupantsMembers(front);
      forall i, j | 0 <= i < |blocks| && 0 <= j < |blocks| && i != j && blocks[i] != null
        ensures blocks[i] != blocks[j]
      {
        if i < n && j < n {
          assert front[i] == blocks[i] && front[j] == blocks[j];
        } else if i < n {
          assert front[i] == blocks[i];
          assert blocks[i] in Occupants(front);
        } else {
          assert front[j] == blocks[j];
          if blocks[j] != null { assert blocks[j] in Occupants(front); }
        }
      }
    }
  }

  /** The task in partition i of a table with distinct occupants is in no other partition. */
  lemma DistinctSlot(blocks: Slots, i: int)
    requires NoDup(Occupants(blocks)) && 0 <= i < |blocks| && blocks[i] != null
    ensures forall j :: 0 <= j < |blocks| && j != i ==> blocks[j] != blocks[i]
  {
    DistinctSlots(blocks);
  }

  // ---- freeing completed tasks ----

  /** The tasks of s that are in the given state, in order. */
  function InState(s: seq<Task>, st: StateTask): (r: seq<Task>)
    reads s
    ensures forall t :: t in r ==> t in s && t.state == st
  {
    if s == [] then []
    else InState(s[..|s| - 1], st) + (if s[|s| - 1].state == st then [s[|s| - 1]] else [])
  }

  /** No task of s is in state st, so none is selected. */
  lemma {:induction false} InStateNone(s: seq<Task>, st: StateTask)
    requires forall t :: t in s ==> t.state != st
    ensures InState(s, st) == []
  {
    if s != [] {
      assert s[|s| - 1] in s;
      InStateNone(s[..|s| - 1], st);
    }
  }

  lemma InStateSnoc(s: seq<Task>, t: Task, st: StateTask)
    ensures InState(s + [t], st) == InState(s, st) + (if t.state == st then [t] else [])
  {
    assert (s + [t])[..|s|] == s;
  }

  /** The tasks of s of the given kind, in order. */
  function OfKind(s: seq<Task>, kind: TypeTask): (r: seq<Task>)
    ensures forall t :: t in r ==> t in s && t.kind == kind
    ensures forall t :: t in s && t.kind == kind ==> t in r
  {
    if s == [] then []
    else OfKind(s[..|s| - 1], kind) + (if s[|s| - 1].kind == kind then [s[|s| - 1]] else [])
  }

  lemma OfKindSnoc(s: seq<Task>, t: Task, kind: TypeTask)
    ensures OfKind(s + [t], kind) == OfKind(s, kind) + (if t.kind == kind then [t] else [])
  {
    assert (s + [t])[..|s|] == s;
  }

  lemma {:induction false} NoDupInState(s: seq<Task>, st: StateTask)
    requires NoDup(s)
    ensures NoDup(InState(s, st))
  {
    if s != [] {
      var front := s[..|s| - 1];
      NoDupSplit(front, [s[|s| - 1]]);
      assert s == front + [s[|s| - 1]];
      NoDupInState(front, st);
      NoDupConcat(InState(front, st), if s[|s| - 1].state == st then [s[|s| - 1]] else []);
    }
  }

  lemma {:induction false} NoDupOfKind(s: seq<Task>, kind: TypeTask)
    requires NoDup(s)
    ensures NoDup(OfKind(s, kind))
  {
    if s != [] {
      var front := s[..|s| - 1];
      NoDupSplit(front, [s[|s| - 1]]);
      assert s == front + [s[|s| - 1]];
      NoDupOfKind(front, kind);
      NoDupConcat(OfKind(front, kind), if s[|s| - 1].kind == kind then [s[|s| - 1]] else []);
    }
  }

  /** The table after every partition holding a Ready task has been cleared. */
  ghost function FreeReady(blocks: Slots): (r: Slots)
    reads set t: Task | t in blocks
    ensures |r| == |blocks|
    ensures forall i :: 0 <= i < |blocks| ==> r[i] == if blocks[i] != null && blocks[i].state == Ready then null else blocks[i]
  {
    if blocks == [] then []
    else
      var last := blocks[|blocks| - 1];
      FreeReady(blocks[..|blocks| - 1]) + [if last != null && last.state == Ready then null else last]
  }

  /** Freeing moves exactly the Ready occupants out of the table: together with them, the remaining occupants are the old ones. */
  lemma {:induction false} FreeReadyConserves(blocks: Slots)
    ensures multiset(Occupants(FreeReady(blocks))) + multiset(InState(Occupants(blocks), Ready)) == multiset(Occupants(blocks))
  {
    if blocks != [] {
      var n := |blocks| - 1;
      var front, last := blocks[..n], blocks[n];
      var slot := if last != null && last.state == Ready then null else last;
      var occF := Occupants(front);
      var occ := Occupants(blocks);
      var tailOcc := if last != null then [last] else [];
      var tailKept := if slot != null then [slot] else [];
      var tailDone := if last != null && last.state == Ready then [last] else [];
      assert Occupants(FreeReady(blocks)) == Occupants(FreeReady(front)) + tailKept by {
        assert FreeReady(blocks) == FreeReady(front) + [slot];
        OccupantsAppend(FreeReady(front), [slot]);
        assert [slot][..0] == [];
      }
      assert occ == occF + tailOcc;
      assert InState(occ, Ready) == InState(occF, Ready) + tailDone by {
        if last != null {
          InStateSnoc(occF, last, Ready);
        } else {
          assert InState(occF, Ready) + [] == InState(occF, Ready);
          assert occF + [] == occF;
        }
      }
      assert multiset(tailKept) + multiset(tailDone) == multiset(tailOcc);
      FreeReadyConserves(front);
      UnionSplit(multiset(Occupants(FreeReady(front))), multiset(tailKept), multiset(InState(occF, Ready)), multiset(tailDone), multiset(occF), multiset(tailOcc));
    }
  }

  /** No partition of a freed table holds a Ready task, and every other partition keeps its task. */
  lemma {:induction false} FreeReadyClears(blocks: Slots)
    ensures |FreeReady(blocks)| == |blocks|
    ensures forall i :: 0 <= i < |blocks| ==> FreeReady(blocks)[i] == null || FreeReady(blocks)[i].state != Ready
    ensures forall i :: 0 <= i < |blocks| && blocks[i] != null && blocks[i].state != Ready ==> FreeReady(blocks)[i] == blocks[i]
  {
  }

  // ---- loading waiting tasks ----

  /** The number of free partitions in a table. */
  function CountNull(blocks: Slots): (r: nat)
    ensures r <= |blocks|
  {
    if blocks == [] then 0 else (if blocks[0] == null then 1 else 0) + CountNull(blocks[1..])
  }

  /**
   * One pass over the table in slot order that puts the front of the queue into every free
   * partition while the queue lasts; the result is the new table and what is left of the queue.
   */
  function Fill(blocks: Slots, queue: seq<Task>): (r: (Slots, seq<Task>))
    ensures |r.0| == |blocks| && |r.1| <= |queue|
  {
    if blocks == [] then ([], queue)
    else if blocks[0] == null && queue != [] then
      var rest := Fill(blocks[1..], queue[1..]);
      ([queue[0]] + rest.0, rest.1)
    else
      var rest := Fill(blocks[1..], queue);
      ([blocks[0]] + rest.0, rest.1)
  }

  /** The free partitions among the first j, counted from the first one. */
  lemma CountNullFront(blocks: Slots, j: int)
    requires 0 < j <= |blocks|
    ensures CountNull(blocks[..j]) == (if blocks[0] == null then 1 else 0) + CountNull(blocks[1..][..j - 1])
  {
    assert blocks[..j][1..] == blocks[1..][..j - 1];
  }

  /**
   * First in, first out, lowest partition first: the k-th free partition (counting from 0 in slot
   * order) receives the k-th task of the queue; occupied partitions are kept; the queue loses
   * exactly as many tasks from its front as there were free partitions, or all of them.
   */
  lemma {:induction false} FillFifo(blocks: Slots, queue: seq<Task>)
    ensures forall j :: 0 <= j < |blocks| ==>
              Fill(blocks, queue).0[j] ==
                if blocks[j] != null then blocks[j]
                else if CountNull(blocks[..j]) < |queue| then queue[CountNull(blocks[..j])]
                else null
    ensures Fill(blocks, queue).1 == queue[Min(CountNull(blocks), |queue|)..]
  {
    if blocks != [] {
      var r := Fill(blocks, queue);
      if blocks[0] == null && queue != [] {
        FillFifo(blocks[1..], queue[1..]);
        forall j | 0 <= j < |blocks|
          ensures r.0[j] == if blocks[j] != null then blocks[j]
                            else if CountNull(blocks[..j]) < |queue| then queue[CountNull(blocks[..j])]
                            else null
        {
          if j > 0 { CountNullFront(blocks, j); }
        }
      } else {
        FillFifo(blocks[1..], queue);
        forall j | 0 <= j < |blocks|
          ensures r.0[j] == if blocks[j] != null then blocks[j]
                            else if CountNull(blocks[..j]) < |queue| then queue[CountNull(blocks[..j])]
                            else null
        {
          if j > 0 { CountNullFront(blocks, j); }
        }
      }
    }
  }

  /** After a fill either no partition is free or the queue is used up. */
  lemma {:induction false} FillSaturates(blocks: Slots, queue: seq<Task>)
    ensures (forall j :: 0 <= j < |blocks| ==> Fill(blocks, queue).0[j] != null) || Fill(blocks, queue).1 == []
  {
    if blocks != [] {
      if blocks[0] == null && queue != [] {
        FillSaturates(blocks[1..], queue[1..]);
        var r := Fill(blocks, queue);
        if r.1 != [] {
          forall j | 0 <= j < |blocks| ensures r.0[j] != null {
            if j > 0 { assert r.0[j] == Fill(blocks[1..], queue[1..]).0[j - 1]; }
          }
        }
      } else {
        FillSaturates(blocks[1..], queue);
        var r := Fill(blocks, queue);
        if r.1 != [] {
          forall j | 0 <= j < |blocks| ensures r.0[j] != null {
            if j > 0 { assert r.0[j] == Fill(blocks[1..], queue).0[j - 1]; }
          }
        }
      }
    }
  }

  /** A fill moves tasks from the queue into the table and loses or invents none. */
  lemma {:induction false} FillConserves(blocks: Slots, queue: seq<Task>)
    ensures multiset(Occupants(Fill(blocks, queue).0)) + multiset(Fill(blocks, queue).1)
            == multiset(Occupants(blocks)) + multiset(queue)
  {
    if blocks != [] {
      if blocks[0] == null && queue != [] {
        FillConserves(blocks[1..], queue[1..]);
        FillConservesLoad(blocks, queue);
      } else {
        FillConserves(blocks[1..], queue);
        FillConservesKeep(blocks, queue);
      }
    }
  }

  /** The occupants of a non-empty table, as a multiset, split into its first partition and the rest. */
  lemma OccupantsFront(s: Slots)
    requires s != []
    ensures multiset(Occupants(s)) == multiset(if s[0] != null then [s[0]] else []) + multiset(Occupants(s[1..]))
  {
    assert s == [s[0]] + s[1..];
    OccupantsCons(s[0], s[1..]);
  }

  /** The step of FillConserves where the first partition is free and receives the head of the queue. */
  lemma FillConservesLoad(blocks: Slots, queue: seq<Task>)
    requires blocks != [] && blocks[0] == null && queue != []
    requires multiset(Occupants(Fill(blocks[1..], queue[1..]).0)) + multiset(Fill(blocks[1..], queue[1..]).1)
             == multiset(Occupants(blocks[1..])) + multiset(queue[1..])
    ensures multiset(Occupants(Fill(blocks, queue).0)) + multiset(Fill(blocks, queue).1)
            == multiset(Occupants(blocks)) + multiset(queue)
  {
    var rest := Fill(blocks[1..], queue[1..]);
    var r := Fill(blocks, queue);
    assert r.0 == [queue[0]] + rest.0 && r.1 == rest.1;
    assert r.0[1..] == rest.0;
    hide *;
    OccupantsFront(blocks);
    OccupantsFront(r.0);
    MultisetFront(queue);
    UnionFront(multiset{queue[0]}, multiset(Occupants(rest.0)), multiset(rest.1), multiset(Occupants(blocks[1..])), multiset(queue[1..]));
  }

  /** The step of FillConserves where the first partition keeps what it holds. */
  lemma FillConservesKeep(blocks: Slots, queue: seq<Task>)
    requires blocks != [] && !(blocks[0] == null && queue != [])
    requires multiset(Occupants(Fill(blocks[1..], queue).0)) + multiset(Fill(blocks[1..], queue).1)
             == multiset(Occupants(blocks[1..])) + multiset(queue)
    ensures multiset(Occupants(Fill(blocks, queue).0)) + multiset(Fill(blocks, queue).1)
            == multiset(Occupants(blocks)) + multiset(queue)
  {
    var rest := Fill(blocks[1..], queue);
    var r := Fill(blocks, queue);
    assert r.0 == [blocks[0]] + rest.0 && r.1 == rest.1;
    assert r.0[1..] == rest.0;
    hide *;
    OccupantsFront(blocks);
    OccupantsFront(r.0);
    var head := multiset(if blocks[0] != null then [blocks[0]] else []);
    UnionFront(head, multiset(Occupants(rest.0)), multiset(rest.1), multiset(Occupants(blocks[1..])), multiset(queue));
  }

  /** The pass loads at least one task exactly when there is a free partition and a waiting task. */
  lemma {:induction false} FillLoads(blocks: Slots, queue: seq<Task>)
    ensures Fill(blocks, queue).1 != queue <==> CountNull(blocks) > 0 && queue != []
  {
    FillFifo(blocks, queue);
    var k := Min(CountNull(blocks), |queue|);
    assert |queue[k..]| == |queue| - k;
  }

  // ---- resizing ----

  /** The table of n partitions after a resize: the first occupants, in order, in the lowest partitions. */
  function Compact(blocks: Slots, n: nat): (r: Slots)
    ensures |r| == n
  {
    var current := Occupants(blocks);
    var keep := Min(|current|, n);
    current[..keep] + Nones(n - keep)
  }

  /** The occupants that do not fit into n partitions, in slot order. */
  function Evicted(blocks: Slots, n: nat): seq<Task>
  {
    var current := Occupants(blocks);
    current[Min(|current|, n)..]
  }

  /** A resize keeps the relative order of its occupants: the kept ones followed by the evicted ones are the old occupants. */
  lemma {:induction false} CompactSplits(blocks: Slots, n: nat)
    ensures Occupants(Compact(blocks, n)) + Evicted(blocks, n) == Occupants(blocks)
    ensures |Occupants(Compact(blocks, n))| == Min(|Occupants(blocks)|, n)
    ensures |Evicted(blocks, n)| == if |Occupants(blocks)| > n then |Occupants(blocks)| - n else 0
  {
    var current := Occupants(blocks);
    var keep := Min(|current|, n);
    var kept := current[..keep];
    assert Compact(blocks, n) == kept + Nones(n - keep);
    assert Occupants(kept + Nones(n - keep)) == kept by {
      OccupantsAppend(kept, Nones(n - keep));
      OccupantsOfFull(kept);
      OccupantsOfNones(n - keep);
    }
    assert kept + current[keep..] == current;
  }

  // ---- dispatching and executing ----

  /** What one executeTasks pass does to a partition's task: a waiting task is dispatched without being served, a running task is served once. */
  function TickProgress(p: Progress, required: nat): (r: Progress)
  {
    if p.state == Wait then Progress(Run, p.executionTime) else ExecuteStep(p, required).0
  }

  /** A pass never leaves a task waiting and never takes service away. */
  lemma {:induction false} TickProgressAdvances(p: Progress, required: nat)
    ensures TickProgress(p, required).state != Wait
    ensures TickProgress(p, required).executionTime >= p.executionTime
    ensures p.state == Ready ==> TickProgress(p, required) == p
  {
  }

  /** The progress of every partition's task at one moment; a free partition gets a placeholder. */
  ghost function Snapshot(blocks: Slots): (r: seq<Progress>)
    reads set t: Task | t in blocks
    ensures |r| == |blocks|
    ensures forall j :: 0 <= j < |blocks| && blocks[j] != null ==> r[j] == blocks[j].CurrentProgress()
  {
    if blocks == [] then []
    else
      var last := blocks[|blocks| - 1];
      Snapshot(blocks[..|blocks| - 1]) + [if last != null then last.CurrentProgress() else Progress(Wait, 0)]
  }

  /** The tasks a pass dispatches: those that were waiting when it started, in slot order. */
  function Dispatched(blocks: Slots, snap: seq<Progress>): (r: seq<Task>)
    requires |snap| == |blocks|
  {
    if blocks == [] then []
    else
      var n := |blocks| - 1;
      Dispatched(blocks[..n], snap[..n]) + (if blocks[n] != null && snap[n].state == Wait then [blocks[n]] else [])
  }

  /** The tasks a pass completes: those that were running and one unit short of their requirement, in slot order. */
  function Completed(blocks: Slots, snap: seq<Progress>): (r: seq<Task>)
    requires |snap| == |blocks|
  {
    if blocks == [] then []
    else
      var n := |blocks| - 1;
      Completed(blocks[..n], snap[..n]) +
        (if blocks[n] != null && snap[n].state == Run && ExecuteStep(snap[n], blocks[n].requiredTime).1 then [blocks[n]] else [])
  }

  /**
   * Both lists are drawn from the partitions: a dispatched task sat in a partition whose snapshot
   * was Wait, and a completed one in a partition whose snapshot was Run and whose step completed it.
   */
  lemma {:induction false} DispatchedCompletedMembers(blocks: Slots, snap: seq<Progress>)
    requires |snap| == |blocks|
    ensures forall t :: t in Dispatched(blocks, snap) ==> exists j :: 0 <= j < |blocks| && blocks[j] == t && snap[j].state == Wait
    ensures forall t :: t in Completed(blocks, snap) ==>
              exists j :: 0 <= j < |blocks| && blocks[j] == t && snap[j].state == Run && ExecuteStep(snap[j], t.requiredTime).1
  {
    if blocks != [] {
      var n := |blocks| - 1;
      DispatchedCompletedMembers(blocks[..n], snap[..n]);
      forall t | t in Dispatched(blocks, snap)
        ensures exists j :: 0 <= j < |blocks| && blocks[j] == t && snap[j].state == Wait
      {
        if t in Dispatched(blocks[..n], snap[..n]) {
          var j :| 0 <= j < n && blocks[..n][j] == t && snap[..n][j].state == Wait;
          assert blocks[j] == t && snap[j].state == Wait;
        } else {
          assert blocks[n] == t && snap[n].state == Wait;
        }
      }
      forall t | t in Completed(blocks, snap)
        ensures exists j :: 0 <= j < |blocks| && blocks[j] == t && snap[j].state == Run && ExecuteStep(snap[j], t.requiredTime).1
      {
        if t in Completed(blocks[..n], snap[..n]) {
          var j :| 0 <= j < n && blocks[..n][j] == t && snap[..n][j].state == Run && ExecuteStep(snap[..n][j], t.requiredTime).1;
          assert blocks[j] == t && snap[j] == snap[..n][j];
        } else {
          assert blocks[n] == t;
        }
      }
    }
  }

  /** The dispatched tasks of a table whose partitions hold distinct tasks are distinct. */
  lemma {:induction false} NoDupDispatched(blocks: Slots, snap: seq<Progress>)
    requires |snap| == |blocks|
    requires NoDup(Occupants(blocks))
    ensures NoDup(Dispatched(blocks, snap))
  {
    if blocks != [] {
      var n := |blocks| - 1;
      var front := blocks[..n];
      NoDupSplit(Occupants(front), if blocks[n] != null then [blocks[n]] else []);
      NoDupDispatched(front, snap[..n]);
      var tail := if blocks[n] != null && snap[n].state == Wait then [blocks[n]] else [];
      DispatchedCompletedMembers(front, snap[..n]);
      OccupantsMembers(front);
      forall t | t in Dispatched(front, snap[..n]) ensures t !in tail {
        var j :| 0 <= j < n && front[j] == t && snap[..n][j].state == Wait;
        assert t in Occupants(front);
      }
      NoDupConcat(Dispatched(front, snap[..n]), tail);
    }
  }

  /** The task of partition i of a table with distinct occupants was neither dispatched nor completed at an earlier partition. */
  lemma NotYetVisited(blocks: Slots, snap: seq<Progress>, i: int)
    requires |snap| == |blocks| && 0 <= i < |blocks| && blocks[i] != null
    requires NoDup(Occupants(blocks))
    ensures blocks[i] !in Dispatched(blocks[..i], snap[..i]) && blocks[i] !in Completed(blocks[..i], snap[..i])
  {
    DistinctSlot(blocks, i);
    DispatchedCompletedMembers(blocks[..i], snap[..i]);
    assert forall j :: 0 <= j < i ==> blocks[..i][j] != blocks[i];
  }

  // ---- one slot at a time: the loops over the table extend these functions by one partition ----

  lemma OccupantsSnoc(blocks: Slots, i: int)
    requires 0 <= i < |blocks|
    ensures Occupants(blocks[..i + 1]) == Occupants(blocks[..i]) + (if blocks[i] != null then [blocks[i]] else [])
  {
    assert blocks[..i + 1][..i] == blocks[..i];
  }

  lemma FreeReadySnoc(blocks: Slots, i: int)
    requires 0 <= i < |blocks|
    ensures FreeReady(blocks[..i + 1]) == FreeReady(blocks[..i]) + [if blocks[i] != null && blocks[i].state == Ready then null else blocks[i]]
  {
    assert blocks[..i + 1][..i] == blocks[..i];
  }

  lemma DispatchedCompletedSnoc(blocks: Slots, snap: seq<Progress>, i: int)
    requires |snap| == |blocks| && 0 <= i < |blocks|
    ensures Dispatched(blocks[..i + 1], snap[..i + 1]) ==
              Dispatched(blocks[..i], snap[..i]) + (if blocks[i] != null && snap[i].state == Wait then [blocks[i]] else [])
    ensures Completed(blocks[..i + 1], snap[..i + 1]) ==
              Completed(blocks[..i], snap[..i]) +
                (if blocks[i] != null && snap[i].state == Run && ExecuteStep(snap[i], blocks[i].requiredTime).1 then [blocks[i]] else [])
  {
    assert blocks[..i + 1][..i] == blocks[..i];
    assert snap[..i + 1][..i] == snap[..i];
  }

  /** Fill on the table from partition i on, unfolded at partition i. */
  lemma FillStep(blocks: Slots, i: int, queue: seq<Task>)
    requires 0 <= i < |blocks|
    ensures Fill(blocks[i..], queue) ==
              if blocks[i] == null && queue != [] then
                ([queue[0]] + Fill(blocks[i + 1..], queue[1..]).0, Fill(blocks[i + 1..], queue[1..]).1)
              else
                ([blocks[i]] + Fill(blocks[i + 1..], queue).0, Fill(blocks[i + 1..], queue).1)
  {
    assert blocks[i..][0] == blocks[i] && blocks[i..][1..] == blocks[i + 1..];
  }

  /** Overwriting partition i of a table whose first i partitions have already been visited. */
  lemma SlotUpdate(done: Slots, blocks: Slots, i: int, x: Task?)
    requires |done| == i && 0 <= i < |blocks|
    ensures (done + blocks[i..])[i := x] == (done + [x]) + blocks[i + 1..]
    ensures done + blocks[i..] == (done + [blocks[i]]) + blocks[i + 1..]
  {
    assert blocks[i..] == [blocks[i]] + blocks[i + 1..];
  }

  // ---- the three passes that move tasks conserve the batch ----

  /**
   * Every task of the batch is, as often as it occurs in the batch, in the waiting list, in a
   * partition or in the finished list, and nothing else is in any of them.
   */
  ghost predicate Conserved(wait: seq<Task>, blocks: Slots, ready: seq<Task>, tasks: seq<Task>)
  {
    Bag(wait + Occupants(blocks) + ready) == Bag(tasks)
  }

  lemma ConservedMeans(wait: seq<Task>, blocks: Slots, ready: seq<Task>, tasks: seq<Task>)
    ensures Conserved(wait, blocks, ready, tasks) <==>
            multiset(wait) + multiset(Occupants(blocks)) + multiset(ready) == multiset(tasks)
  {
    BagIsMultiset(wait + Occupants(blocks) + ready);
    BagIsMultiset(tasks);
  }

  /** At the start every task of the batch waits and every partition is free. */
  lemma ConservedAtStart(tasks: seq<Task>, n: nat)
    ensures Conserved(tasks, Nones(n), [], tasks)
  {
    OccupantsOfNones(n);
    assert tasks + Occupants(Nones(n)) + [] == tasks;
  }

  /** Freeing moves the Ready occupants to the end of the finished list; together the three places hold the same tasks. */
  lemma FreeKeepsBatch(blocks: Slots, wait: seq<Task>, ready: seq<Task>, tasks: seq<Task>)
    requires Conserved(wait, blocks, ready, tasks)
    ensures Conserved(wait, FreeReady(blocks), ready + InState(Occupants(blocks), Ready), tasks)
  {
    hide *;
    ConservedMeans(wait, blocks, ready, tasks);
    ConservedMeans(wait, FreeReady(blocks), ready + InState(Occupants(blocks), Ready), tasks);
    FreeReadyConserves(blocks);
    var kept := multiset(Occupants(FreeReady(blocks)));
    var done := multiset(InState(Occupants(blocks), Ready));
    assert multiset(ready + InState(Occupants(blocks), Ready)) == multiset(ready) + done;
    assert multiset(wait) + kept + (multiset(ready) + done) == multiset(wait) + (kept + done) + multiset(ready);
  }

  /** Loading moves tasks from the front of the queue into the table. */
  lemma FillKeepsBatch(blocks: Slots, wait: seq<Task>, ready: seq<Task>, tasks: seq<Task>)
    requires Conserved(wait, blocks, ready, tasks)
    ensures Conserved(Fill(blocks, wait).1, Fill(blocks, wait).0, ready, tasks)
  {
    hide *;
    ConservedMeans(wait, blocks, ready, tasks);
    ConservedMeans(Fill(blocks, wait).1, Fill(blocks, wait).0, ready, tasks);
    FillConserves(blocks, wait);
    var r := Fill(blocks, wait);
    assert multiset(r.1) + multiset(Occupants(r.0)) == multiset(Occupants(r.0)) + multiset(r.1);
    assert multiset(wait) + multiset(Occupants(blocks)) == multiset(Occupants(blocks)) + multiset(wait);
  }

  /** A resize returns the occupants that do not fit to the front of the queue. */
  lemma CompactKeepsBatch(blocks: Slots, n: nat, wait: seq<Task>, ready: seq<Task>, tasks: seq<Task>)
    requires Conserved(wait, blocks, ready, tasks)
    ensures Conserved(Reverse(Evicted(blocks, n)) + wait, Compact(blocks, n), ready, tasks)
  {
    hide *;
    ConservedMeans(wait, blocks, ready, tasks);
    ConservedMeans(Reverse(Evicted(blocks, n)) + wait, Compact(blocks, n), ready, tasks);
    CompactSplits(blocks, n);
    ReverseAt(Evicted(blocks, n));
    var kept := multiset(Occupants(Compact(blocks, n)));
    var gone := multiset(Evicted(blocks, n));
    assert multiset(Occupants(blocks)) == kept + gone by {
      assert multiset(Occupants(Compact(blocks, n)) + Evicted(blocks, n)) == kept + gone;
    }
    assert multiset(Reverse(Evicted(blocks, n)) + wait) == gone + multiset(wait);
    assert (gone + multiset(wait)) + kept + multiset(ready) == multiset(wait) + (kept + gone) + multiset(ready);
  }
}
