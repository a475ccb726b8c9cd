/** The event-slot ring of main.c, and its agreement with the tasks asleep in DELAYUS. */
module Events {
  /** The fields of a forth_context that DELAYUS uses: whether the task has saved the label
      forth_wait_delayus, and delayus_done. */
  class Sleeper {
    var saved: bool
    var done: bool

    constructor ()
      ensures !saved && !done
    {
      saved, done := false, false;
    }
  }

  /** A slot with the task in its Context, or none for the keyboard; the callback is cb_DelayUs or
      cb_ConInWaitForKey accordingly. */
  class EventSlot {
    var next: EventSlot?
    const event: nat
    const owner: Sleeper?

    constructor (event: nat, owner: Sleeper?)
      ensures this.event == event && this.owner == owner && next == this
    {
      this.event, this.owner := event, owner;
      next := this;
    }
  }

  /** Position i + 1 of a ring of n. */
  function After(i: nat, n: nat): nat
    requires i < n
  {
    if i + 1 == n then 0 else i + 1
  }

  /** Steps from position j to the one before i. */
  function Steps(j: nat, i: nat, n: nat): nat
    requires i < n && j < n
  {
    if j < i then i - 1 - j else n - 1 - j + i
  }

  /** The links form one cycle through all of ss. */
  ghost predicate Cycle(ss: seq<EventSlot>)
    reads ss
  {
    && (forall i, k :: 0 <= i < k < |ss| ==> ss[i] != ss[k])
    && forall i :: 0 <= i < |ss| ==> ss[i].next == ss[After(i, |ss|)]
  }

  function Without<T>(ss: seq<T>, i: nat): seq<T>
    requires i < |ss|
  {
    ss[..i] + ss[i + 1..]
  }

  class EventRing {
    var head: EventSlot?
    var nums: nat
    /** The slots in ring order, from the head on. */
    ghost var slots: seq<EventSlot>

    ghost predicate Valid()
      reads this, slots
    {
      && |slots| == nums && Cycle(slots)
      && (if nums == 0 then head == null else head == slots[0])
    }

    constructor ()
      ensures Valid() && slots == []
    {
      head, nums, slots := null, 0, [];
    }

    /** Event_Add, with the allocation succeeding. */
    method Add(event: nat, owner: Sleeper?) returns (slot: EventSlot)
      requires Valid()
      modifies this, slots
      ensures Valid() && fresh(slot) && slot.event == event && slot.owner == owner
      ensures slots == if old(slots) == [] then [slot] else [old(slots)[0], slot] + old(slots)[1..]
    {
      ghost var was := slots;
      slot := new EventSlot(event, owner);
      if head == null {
        head := slot;
      }
      slot.next := head.next;
      head.next := slot;
      nums := nums + 1;
      slots := if was == [] then [slot] else [was[0], slot] + was[1..];
      forall k | 0 <= k < |slots| ensures slots[k].next == slots[After(k, |slots|)] {
        if k > 1 { assert slots[k] == was[k - 1] != was[0]; }
      }
      forall j, k | 0 <= j < k < |slots| ensures slots[j] != slots[k] {
        if j > 1 { assert was[j - 1] != was[k - 1]; } else if j == 0 && k > 1 { assert was[0] != was[k - 1]; }
      }
    }

    /** The slot whose link leads to `slot`, found by walking on from it. */
    method Previous(ghost i: nat, slot: EventSlot) returns (prev: EventSlot, ghost j: nat)
      requires Cycle(slots) && i < |slots| && slot == slots[i]
      ensures j < |slots| && prev == slots[j] && After(j, |slots|) == i
    {
      prev := slot;
      j := i;
      while prev.next != slot
        invariant j < |slots| && prev == slots[j]
        decreases Steps(j, i, |slots|)
      {
        assert After(j, |slots|) != i;
        prev := prev.next;
        j := After(j, |slots|);
      }
      assert slots[After(j, |slots|)] == slots[i];
    }

    /** Event_Del of a slot in the ring, at position i. */
    method Del(ghost i: nat, slot: EventSlot)
      requires Valid() && i < |slots| && slot == slots[i]
      modifies this, slots
      ensures Valid() && slots == Without(old(slots), i)
    {
      ghost var was := slots;
      if slot == head {
        head := slot.next;
      }
      var prev, j := Previous(i, slot);
      prev.next := slot.next;
      nums := nums - 1;
      slots := Without(was, i);
      Unlinked(was, i, j);
      if nums == 0 {
        head := null;
      } else {
        assert i == 0 ==> slots[0] == was[1] && old(head) == was[0];
        assert i > 0 ==> slots[0] == was[0] && was[0] != was[i];
      }
    }

    lemma Unlinked(was: seq<EventSlot>, i: nat, j: nat)
      requires i < |was| && j < |was| && After(j, |was|) == i
      requires forall i, k :: 0 <= i < k < |was| ==> was[i] != was[k]
      requires forall k :: 0 <= k < |was| && k != j ==> was[k].next == was[After(k, |was|)]
      requires was[j].next == was[After(i, |was|)]
      ensures Cycle(Without(was, i))
    {
      var r := Without(was, i);
      forall k | 0 <= k < |r| ensures r[k].next == r[After(k, |r|)] {
        if k < i { assert r[k] == was[k]; } else { assert r[k] == was[k + 1]; }
      }
      forall p, q | 0 <= p < q < |r| ensures r[p] != r[q] {
        assert r[p] == was[if p < i then p else p + 1] && r[q] == was[if q < i then q else q + 1];
      }
    }

    /** The events in ring order, as efi_main collects them for WaitForEvent. */
    method WaitList() returns (list: array<nat>)
      requires Valid()
      ensures fresh(list) && list.Length == |slots|
      ensures forall k :: 0 <= k < |slots| ==> list[k] == slots[k].event
    {
      list := new nat[nums];
      var slot := head;
      var idx := 0;
      while idx < nums
        invariant idx <= nums
        invariant idx < nums ==> slot == slots[idx]
        invariant forall k :: 0 <= k < idx ==> list[k] == slots[k].event
      {
        list[idx] := slot.event;
        slot := slot.next;
        idx := idx + 1;
      }
    }

    /** Event_Find: the first slot from the head on that has the event. */
    method Find(event: nat) returns (slot: EventSlot?)
      requires Valid()
      ensures slot == null ==> forall s :: s in slots ==> s.event != event
      ensures slot != null ==> slot in slots && slot.event == event
    {
      var idx := 0;
      slot := head;
      while idx < nums
        invariant idx <= nums
        invariant idx < nums ==> slot == slots[idx]
        invariant forall k :: 0 <= k < idx ==> slots[k].event != event
      {
        if slot.event == event { return; }
        slot := slot.next;
        idx := idx + 1;
      }
      slot := null;
    }
  }

  /** The slots are the keyboard's and exactly one for each task that is asleep in DELAYUS and has not been
      woken; they have different events. */
  ghost predicate AgreeOn(ss: seq<EventSlot>, keyboard: EventSlot, tasks: set<Sleeper>)
    reads tasks
  {
    && keyboard in ss && Distinct(ss)
    && (forall s :: s in ss ==> (s == keyboard <==> s.owner == null))
    && (forall s :: s in ss && s != keyboard ==> s.owner in tasks && s.owner.saved && !s.owner.done)
    && (forall t :: t in tasks && t.saved && !t.done ==> exists s :: s in ss && s.owner == t)
    && (forall t :: t in tasks && !t.saved ==> !t.done)
  }

  ghost predicate Distinct(ss: seq<EventSlot>) {
    forall i, k :: 0 <= i < k < |ss| ==> ss[i].owner != ss[k].owner && ss[i].event != ss[k].event
  }

  /** efi_main's loop with the tasks it wakes. */
  class EventLoop {
    const ring: EventRing
    const keyboard: EventSlot
    ghost var tasks: set<Sleeper>

    ghost predicate Agree()
      reads this, ring, ring.slots, tasks
    {
      ring.Valid() && AgreeOn(ring.slots, keyboard, tasks)
    }

    /** efi_main up to its loop: Event_Add for the keyboard. */
    constructor (keyEvent: nat)
      ensures Agree() && tasks == {} && fresh(ring) && ring.slots == [keyboard]
    {
      var r := new EventRing();
      var k := r.Add(keyEvent, null);
      ring, keyboard, tasks := r, k, {};
    }

    /** forth_task_new: a task that is not waiting. */
    method Spawn() returns (t: Sleeper)
      requires Agree()
      modifies this`tasks
      ensures Agree() && fresh(t) && tasks == old(tasks) + {t} && !t.saved && !t.done
    {
      t := new Sleeper();
      tasks := tasks + {t};
      forall u | u in tasks && u.saved && !u.done ensures exists s :: s in ring.slots && s.owner == u {
        assert u in old(tasks);
      }
    }

    /** DELAYUS in a running task, with a timer event no slot has yet: CreateEvent and SetTimer succeed. */
    method DelayUs(t: Sleeper, event: nat)
      requires Agree() && t in tasks && !t.saved && forall s :: s in ring.slots ==> s.event != event
      modifies ring, ring.slots, t
      ensures Agree() && t.saved && !t.done && |ring.slots| == old(|ring.slots|) + 1
      ensures exists s :: s in ring.slots && s.owner == t && s.event == event
    {
      ghost var was := ring.slots;
      AwakeOwnsNone(was, keyboard, tasks, t);
      var slot := ring.Add(event, t);
      assert AgreeOn(was, keyboard, tasks);
      t.done := false;
      t.saved := true;
      Slept(was, slot, keyboard, tasks, t);
    }

    /** forth_run of a task that has saved forth_wait_delayus. */
    method Rerun(t: Sleeper)
      requires Agree() && t in tasks && t.saved
      modifies t
      ensures Agree() && t.saved == !old(t.done) && !t.done && ring.slots == old(ring.slots)
    {
      if !t.done { return; }
      forall s | s in ring.slots ensures s.owner != t {
        assert s != keyboard ==> !s.owner.done;
      }
      t.saved := false;
      t.done := false;
    }

    /** One event: the wait list is built from the ring, WaitForEvent picks position u, the slot is found
        by its event and its callback runs. The keyboard changes nothing here; a timer wakes the one task that
        armed it, and its slot goes. */
    method Fire(u: nat) returns (slot: EventSlot?)
      requires Agree() && u < |ring.slots|
      modifies ring, ring.slots, tasks
      ensures Agree() && slot == old(ring.slots)[u]
      ensures slot == keyboard ==> ring.slots == old(ring.slots) && forall t :: t in tasks ==> unchanged(t)
      ensures slot != keyboard ==> slot.owner in tasks && slot.owner.done && ring.slots == Without(old(ring.slots), u)
      ensures forall t :: t in tasks && t != slot.owner ==> t.saved == old(t.saved) && t.done == old(t.done)
    {
      var waitList := ring.WaitList();
      slot := ring.Find(waitList[u]);
      Unique(ring.slots, slot, u);
      if slot.owner != null { WakeUp(u, slot); }
    }

    /** cb_DelayUs. */
    method WakeUp(ghost u: nat, slot: EventSlot)
      requires Agree() && u < |ring.slots| && slot == ring.slots[u] && slot.owner != null
      modifies ring, ring.slots, slot.owner
      ensures Agree() && slot.owner.done && slot.owner.saved && ring.slots == Without(old(ring.slots), u)
    {
      ghost var was := ring.slots;
      slot.owner.done := true;
      Woken(was, u, keyboard, tasks);
      ring.Del(u, slot);
    }
  }

  lemma AwakeOwnsNone(was: seq<EventSlot>, keyboard: EventSlot, tasks: set<Sleeper>, t: Sleeper)
    requires AgreeOn(was, keyboard, tasks) && !t.saved
    ensures forall s :: s in was ==> s.owner != t
  {
  }

  /** With a slot of its own, a task that has gone to sleep agrees with the slots. */
  lemma Slept(was: seq<EventSlot>, slot: EventSlot, keyboard: EventSlot, tasks: set<Sleeper>, t: Sleeper)
    requires was != [] && keyboard in was && Distinct(was) && t in tasks && t.saved && !t.done
    requires slot.owner == t && forall s :: s in was ==> s.owner != t && s.event != slot.event
    requires forall s :: s in was ==> (s == keyboard <==> s.owner == null)
    requires forall s :: s in was && s != keyboard ==> s.owner in tasks && s.owner.saved && !s.owner.done
    requires forall u :: u in tasks && u != t && u.saved && !u.done ==> exists s :: s in was && s.owner == u
    requires forall u :: u in tasks && !u.saved ==> !u.done
    ensures AgreeOn([was[0], slot] + was[1..], keyboard, tasks)
  {
    var ss := [was[0], slot] + was[1..];
    Inserted(was, slot, ss);
    assert Distinct(ss);
  }

  /** Once a sleeper has been woken, the slots without its own agree with the tasks. */
  lemma Woken(was: seq<EventSlot>, u: nat, keyboard: EventSlot, tasks: set<Sleeper>)
    requires u < |was| && was[u].owner != null && was[u].owner.saved && was[u].owner.done
    requires keyboard in was && Distinct(was) && forall s :: s in was ==> (s == keyboard <==> s.owner == null)
    requires forall s :: s in was && s != keyboard && s != was[u] ==> s.owner in tasks && s.owner.saved && !s.owner.done
    requires forall t :: t in tasks && t.saved && !t.done ==> exists s :: s in was && s.owner == t
    requires forall t :: t in tasks && !t.saved ==> !t.done
    ensures AgreeOn(Without(was, u), keyboard, tasks)
  {
    Removed(was, u);
  }

  lemma Unique(ss: seq<EventSlot>, slot: EventSlot?, u: nat)
    requires u < |ss| && (slot == null ==> forall s :: s in ss ==> s.event != ss[u].event)
    requires slot != null ==> slot in ss && slot.event == ss[u].event
    requires Distinct(ss)
    ensures slot == ss[u]
  {
    assert ss[u] in ss;
  }

  lemma Inserted(was: seq<EventSlot>, slot: EventSlot, ss: seq<EventSlot>)
    requires was != [] && ss == [was[0], slot] + was[1..]
    ensures forall s :: s in ss <==> s in was || s == slot
    ensures forall i :: 0 <= i < |ss| ==> ss[i] == if i == 0 then was[0] else if i == 1 then slot else was[i - 1]
  {
    assert was == [was[0]] + was[1..];
  }

  lemma Removed(was: seq<EventSlot>, u: nat)
    requires u < |was| && Distinct(was)
    ensures forall s :: s in Without(was, u) <==> s in was && s != was[u]
    ensures forall i :: 0 <= i < |was| - 1 ==> Without(was, u)[i] == was[if i < u then i else i + 1]
  {
    var r := Without(was, u);
    forall s | s in was && s != was[u] ensures s in r {
      var k :| 0 <= k < |was| && was[k] == s;
      assert r[if k < u then k else k - 1] == s;
    }
  }
}
