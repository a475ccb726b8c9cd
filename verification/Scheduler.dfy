/** The task ring: forth_task_new puts a task behind its parent, forth_run_all walks the ring while the
    tasks it runs make it grow. */
module Scheduler {
  /** What a task does to the ring when it is run in this pass: spawn these, one after the other. */
  datatype Script = Script(spawns: seq<Script>)

  /** How many runs a script leads to, its own included. */
  function Runs(s: Script): nat
    decreases s
  {
    1 + RunsAll(s.spawns)
  }

  function RunsAll(ss: seq<Script>): nat
    decreases ss
  {
    if ss == [] then 0 else Runs(ss[0]) + RunsAll(ss[1..])
  }

  lemma {:induction false} RunsConcat(ss: seq<Script>, ts: seq<Script>)
    ensures RunsAll(ss + ts) == RunsAll(ss) + RunsAll(ts)
    decreases |ss|
  {
    if ss == [] {
      assert ss + ts == ts;
    } else {
      assert (ss + ts)[1..] == ss[1..] + ts;
      RunsConcat(ss[1..], ts);
    }
  }

  class Task {
    var next: Task?
    const script: Script

    constructor (script: Script)
      ensures next == this && this.script == script
    {
      this.script := script;
      next := this;
    }
  }

  function Scripts(ts: seq<Task>): (r: seq<Script>)
    ensures |r| == |ts|
  {
    seq(|ts|, i requires 0 <= i < |ts| => ts[i].script)
  }

  /** One more task behind task i, in front of those born before it. */
  lemma Inserted(was: seq<Task>, before: seq<Task>, born: seq<Task>, i: nat, t: Task)
    requires i < |was| && before == was[..i + 1] + born + was[i + 1..]
    ensures before[..i + 1] + [t] + before[i + 1..] == was[..i + 1] + ([t] + born) + was[i + 1..]
  {
    assert before[..i + 1] == was[..i + 1] && before[i + 1..] == born + was[i + 1..];
  }

  lemma Spawned(t: Task, born: seq<Task>, spawns: seq<Script>, k: nat)
    requires k < |spawns| && t.script == spawns[k] && RunsAll(Scripts(born)) == RunsAll(spawns[..k])
    ensures RunsAll(Scripts([t] + born)) == RunsAll(spawns[..k + 1])
  {
    ScriptsConcat([t], born);
    RunsConcat(Scripts([t]), Scripts(born));
    assert Scripts([t]) == [spawns[k]];
    assert spawns[..k + 1] == spawns[..k] + [spawns[k]];
    RunsConcat(spawns[..k], [spawns[k]]);
  }

  lemma ScriptsConcat(a: seq<Task>, b: seq<Task>)
    ensures Scripts(a + b) == Scripts(a) + Scripts(b)
  {
  }

  /** Position i + 1 of a ring of n. */
  function After(i: nat, n: nat): nat
    requires i < n
  {
    if i + 1 == n then 0 else i + 1
  }

  class Ring {
    var root: Task
    /** forth_task_nums. */
    var nums: nat
    /** The tasks in ring order, from the root on. */
    ghost var tasks: seq<Task>
    /** The tasks forth_run was called with in this pass. */
    ghost var ran: seq<Task>

    ghost predicate Valid()
      reads this, tasks
    {
      && |tasks| == nums > 0 && tasks[0] == root
      && (forall i, k :: 0 <= i < k < nums ==> tasks[i] != tasks[k])
      && forall i :: 0 <= i < nums ==> tasks[i].next == tasks[After(i, nums)]
    }

    /** forth_init_task. */
    constructor (script: Script)
      ensures Valid() && |tasks| == 1 && fresh(tasks[0]) && root.script == script && ran == []
    {
      var t := new Task(script);
      root, nums, tasks, ran := t, 1, [t], [];
    }

    /** forth_task_new for a running parent. */
    method TaskNew(ghost i: nat, parent: Task, script: Script) returns (t: Task)
      requires Valid() && i < nums && parent == tasks[i]
      modifies this`nums, this`tasks, parent`next
      ensures Valid() && fresh(t) && t.script == script && nums == old(nums) + 1
      ensures tasks == old(tasks)[..i + 1] + [t] + old(tasks)[i + 1..]
    {
      ghost var was, n := tasks, nums;
      t := new Task(script);
      t.next := parent.next;
      parent.next := t;
      nums := nums + 1;
      tasks := tasks[..i + 1] + [t] + tasks[i + 1..];
      forall k | 0 <= k < nums ensures tasks[k].next == tasks[After(k, nums)] {
        if k <= i {
          assert tasks[k] == was[k];
          if k < i { assert was[k] != was[i]; }
        } else if k > i + 1 {
          assert tasks[k] == was[k - 1] != was[i];
        }
      }
      forall j, k | 0 <= j < k < nums ensures tasks[j] != tasks[k] {
        if k <= i {
          assert was[j] != was[k];
        } else if j > i + 1 {
          assert was[j - 1] != was[k - 1];
        } else if j <= i && k > i + 1 {
          assert was[j] != was[k - 1];
        }
      }
    }

    /** forth_run, as far as the ring is concerned. */
    method Run(ghost i: nat, fctx: Task) returns (ghost born: seq<Task>)
      requires Valid() && i < nums && fctx == tasks[i]
      modifies this`nums, this`tasks, this`ran, fctx`next
      ensures Valid() && ran == old(ran) + [fctx] && nums == old(nums) + |fctx.script.spawns|
      ensures forall t :: t in born ==> fresh(t)
      ensures tasks == old(tasks)[..i + 1] + born + old(tasks)[i + 1..]
      ensures |born| == |fctx.script.spawns| && RunsAll(Scripts(born)) == RunsAll(fctx.script.spawns)
    {
      ran := ran + [fctx];
      var k := 0;
      born := [];
      var spawns := fctx.script.spawns;
      while k < |spawns|
        invariant k <= |spawns| && |born| == k && Valid() && i < nums == old(nums) + k
        invariant ran == old(ran) + [fctx]
        invariant tasks == old(tasks)[..i + 1] + born + old(tasks)[i + 1..]
        invariant RunsAll(Scripts(born)) == RunsAll(spawns[..k])
        invariant forall t :: t in born ==> fresh(t)
        invariant fctx == tasks[i]
      {
        ghost var before := tasks;
        var t := TaskNew(i, fctx, spawns[k]);
        Inserted(old(tasks), before, born, i, t);
        Spawned(t, born, spawns, k);
        born := [t] + born;
        k := k + 1;
      }
      assert spawns[..k] == spawns;
    }

    /** forth_run_all: every task in the ring runs exactly once, in ring order, whether it was there at the
        start or was spawned meanwhile, and the walk ends back at the root; it always ends. */
    method RunAll() returns (last: Task)
      requires Valid()
      modifies this`nums, this`tasks, this`ran, tasks
      ensures Valid() && last == root == old(root)
      ensures ran == tasks && (forall t :: t in old(tasks) ==> t in tasks)
      ensures forall t :: t in tasks && t !in old(tasks) ==> fresh(t)
      ensures nums == RunsAll(Scripts(old(tasks)))
    {
      hide Scripts, RunsAll;
      ran := [];
      var idx := 0;
      var fctx := root;
      while idx < nums
        invariant Valid() && idx <= nums && root == old(root)
        invariant fctx == (if idx == nums then root else tasks[idx])
        invariant ran == tasks[..idx]
        invariant forall t :: t in old(tasks) ==> t in tasks
        invariant forall t :: t in tasks && t !in old(tasks) ==> fresh(t)
        invariant idx + RunsAll(Scripts(tasks[idx..])) == RunsAll(Scripts(old(tasks)))
        decreases RunsAll(Scripts(tasks[idx..]))
      {
        ghost var before := tasks;
        assert fctx == tasks[idx] && fctx in tasks;
        ghost var born := Run(idx, fctx);
        Counted(before, idx, born);
        assert tasks[idx + 1..] == born + before[idx + 1..];
        assert tasks[..idx + 1] == before[..idx] + [fctx];
        assert tasks[idx] == fctx;
        Grows(before, idx + 1, born, tasks);
        fctx := fctx.next;
        idx := idx + 1;
      }
      assert tasks[..idx] == tasks && tasks[idx..] == [];
      NoRuns();
      last := fctx;
    }
  }

  lemma NoRuns()
    ensures RunsAll(Scripts([])) == 0
  {
  }

  lemma Grows(a: seq<Task>, i: nat, born: seq<Task>, b: seq<Task>)
    requires i <= |a| && b == a[..i] + born + a[i..]
    ensures forall t :: t in b <==> t in a || t in born
  {
    assert a == a[..i] + a[i..];
  }

  lemma Counted(before: seq<Task>, idx: nat, born: seq<Task>)
    requires idx < |before| && RunsAll(Scripts(born)) == RunsAll(before[idx].script.spawns)
    ensures RunsAll(Scripts(before[idx..])) == 1 + RunsAll(Scripts(born + before[idx + 1..]))
  {
    assert before[idx..] == [before[idx]] + before[idx + 1..];
    ScriptsConcat([before[idx]], before[idx + 1..]);
    ScriptsConcat(born, before[idx + 1..]);
    RunsConcat(Scripts([before[idx]]), Scripts(before[idx + 1..]));
    RunsConcat(Scripts(born), Scripts(before[idx + 1..]));
    assert Scripts([before[idx]]) == [before[idx].script];
    assert RunsAll([before[idx].script]) == Runs(before[idx].script) by { assert [before[idx].script][1..] == []; }
  }
}
