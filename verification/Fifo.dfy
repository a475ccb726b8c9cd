/** The lock-free queue of fifo.c: one producer and one consumer, interleaved at their atomic accesses. */
module Fifo {
  /** What the producer is about to do: nothing; load head, having loaded tail as t for value v; write slot
      t; store tail. Or it is in fifo16_num_used: about to load head, tail, head again. History: `past` is how
      many items had been popped when head was loaded, `seen` the occupancy when tail was. */
  datatype Producer =
    | PIdle
    | PCheck(v: nat, t: nat)
    | PWrite(v: nat, t: nat)
    | PStore(v: nat, t: nat)
    | PHead1
    | PTail(h1: nat, past: nat)
    | PHead2(h1: nat, t: nat, past: nat, seen: nat)

  /** The consumer: load tail, having loaded head as h; read slot h; store head, having read v. In
      fifo16_num_used, `past` is how many items had been pushed when tail was loaded. */
  datatype Consumer =
    | CIdle
    | CCheck(h: nat)
    | CRead(h: nat)
    | CStore(h: nat, v: nat)
    | CHead1
    | CTail(h1: nat)
    | CHead2(h1: nat, t: nat, past: nat)

  /** Shared memory, the two programs, and what has happened so far: the values pushed and popped, the
      occupancies at which a push or a pop gave up, the answers of fifo16_num_used with the occupancy when
      tail was loaded last. */
  datatype State = State(
    size: nat, head: nat, tail: nat, buf: seq<nat>, producer: Producer, consumer: Consumer,
    pushed: seq<nat>, popped: seq<nat>, full: seq<nat>, empty: seq<nat>, answers: seq<(nat, nat)>)

  /** fifo16_new. */
  function New(items: nat, junk: seq<nat>): State {
    State(items, 0, 0, junk, PIdle, CIdle, [], [], [], [], [])
  }

  /** A call starts, or one of the two gets on by one atomic access. */
  datatype Act = Push(v: nat) | Pop | Count(byProducer: bool) | Produce | Consume

  function Wrapped(i: nat, size: nat): (r: nat)
    requires size > 0
    ensures r < size
  {
    i % size
  }

  /** The last lines of fifo16_num_used. */
  function Used(size: nat, head1: nat, tail: nat): int {
    if tail >= head1 then tail - head1 else tail + size - head1
  }

  function ProducerStep(s: State): (r: State)
    requires s.size > 0
    ensures r.size == s.size
  {
    match s.producer
    case PIdle => s
    case PCheck(v, t) =>
      if Wrapped(t + 1, s.size) == s.head then s.(producer := PIdle, full := s.full + [Held(s)])
      else s.(producer := PWrite(v, t))
    case PWrite(v, t) => if t < |s.buf| then s.(producer := PStore(v, t), buf := s.buf[t := v]) else s
    case PStore(v, t) => s.(producer := PIdle, tail := Wrapped(t + 1, s.size), pushed := s.pushed + [v])
    case PHead1 => s.(producer := PTail(s.head, |s.popped|))
    case PTail(h1, past) => s.(producer := PHead2(h1, s.tail, past, Held(s)))
    case PHead2(h1, t, past, seen) =>
      if h1 != s.head then s.(producer := PHead1)
      else s.(producer := PIdle, answers := s.answers + [(Count0(s.size, h1, t), seen)])
  }

  function Count0(size: nat, head1: nat, tail: nat): nat {
    if Used(size, head1, tail) >= 0 then Used(size, head1, tail) else 0
  }

  function ConsumerStep(s: State): (r: State)
    requires s.size > 0
    ensures r.size == s.size
  {
    match s.consumer
    case CIdle => s
    case CCheck(h) =>
      if h == s.tail then s.(consumer := CIdle, empty := s.empty + [Held(s)]) else s.(consumer := CRead(h))
    case CRead(h) => if h < |s.buf| then s.(consumer := CStore(h, s.buf[h])) else s
    case CStore(h, v) => s.(consumer := CIdle, head := Wrapped(h + 1, s.size), popped := s.popped + [v])
    case CHead1 => s.(consumer := CTail(s.head))
    case CTail(h1) => s.(consumer := CHead2(h1, s.tail, |s.pushed|))
    case CHead2(h1, t, past) =>
      if h1 != s.head then s.(consumer := CHead1)
      else s.(consumer := CIdle, answers := s.answers + [(Count0(s.size, h1, t), Minus(past, |s.popped|))])
  }

  /** How many items are in the queue. */
  function Held(s: State): nat {
    Minus(|s.pushed|, |s.popped|)
  }

  function Minus(a: nat, b: nat): nat {
    if a >= b then a - b else 0
  }

  function Next(s: State, a: Act): (r: State)
    requires s.size > 0
    ensures r.size == s.size
  {
    match a
    case Push(v) => if s.producer.PIdle? then s.(producer := PCheck(v, s.tail)) else s
    case Pop => if s.consumer.CIdle? then s.(consumer := CCheck(s.head)) else s
    case Count(byProducer) =>
      if byProducer then (if s.producer.PIdle? then s.(producer := PHead1) else s)
      else (if s.consumer.CIdle? then s.(consumer := CHead1) else s)
    case Produce => ProducerStep(s)
    case Consume => ConsumerStep(s)
  }

  function Run(s: State, acts: seq<Act>): (r: State)
    requires s.size > 0
    ensures r.size == s.size
    decreases |acts|
  {
    if acts == [] then s else Run(Next(s, acts[0]), acts[1..])
  }

  // Remainders.

  lemma WrapNext(i: nat, size: nat)
    requires size > 1
    ensures Wrapped(Wrapped(i, size) + 1, size) == Wrapped(i + 1, size)
  {
    var q, r := i / size, i % size;
    if r + 1 < size {
      Unique(i + 1, size, q, r + 1);
    } else {
      Unique(i + 1, size, q + 1, 0);
    }
  }

  lemma Unique(x: nat, size: nat, q: nat, r: nat)
    requires x == q * size + r && r < size
    ensures x % size == r && x / size == q
  {
    var d := x / size - q;
    assert d * size == r - x % size by { assert x == (x / size) * size + x % size; Distribute(x / size, q, size); }
    if d > 0 { AtLeast(d, size); }
    if d < 0 { AtLeast(-d, size); }
  }

  lemma Distribute(a: int, b: int, size: int)
    ensures (a - b) * size == a * size - b * size
  {
  }

  lemma AtLeast(d: int, size: nat)
    requires d > 0
    ensures d * size >= size
  {
  }

  /** Less than a lap apart means the same index only if it is the same position. */
  lemma Apart(c: nat, p: nat, size: nat)
    requires c <= p < c + size && size > 0
    ensures Wrapped(c, size) == Wrapped(p, size) ==> c == p
    ensures Used(size, Wrapped(c, size), Wrapped(p, size)) == p - c
  {
    var q, r := c / size, c % size;
    if r + (p - c) < size {
      Unique(p, size, q, r + (p - c));
    } else {
      Unique(p, size, q + 1, r + (p - c) - size);
    }
  }

  // The invariant.

  ghost predicate Shared(s: State) {
    && s.size > 1 && |s.buf| == s.size
    && |s.popped| <= |s.pushed| <= |s.popped| + s.size - 1
    && s.head == Wrapped(|s.popped|, s.size) && s.tail == Wrapped(|s.pushed|, s.size)
    && s.popped == s.pushed[..|s.popped|]
    && forall i :: |s.popped| <= i < |s.pushed| ==> s.buf[Wrapped(i, s.size)] == s.pushed[i]
  }

  ghost predicate ProducerOk(s: State)
    requires s.size > 0
  {
    match s.producer
    case PIdle => true
    case PCheck(_, t) => t == s.tail
    case PWrite(_, t) => t == s.tail && Held(s) < s.size - 1
    case PStore(v, t) => t == s.tail && Held(s) < s.size - 1 && t < |s.buf| && s.buf[t] == v
    case PHead1 => true
    case PTail(h1, past) => h1 == Wrapped(past, s.size) && past <= |s.popped| && |s.pushed| <= past + s.size - 1
    case PHead2(h1, t, past, seen) =>
      && h1 == Wrapped(past, s.size) && past <= |s.popped| && |s.pushed| <= past + s.size - 1
      && t == s.tail && |s.pushed| - |s.popped| <= seen <= |s.pushed| - past
  }

  ghost predicate ConsumerOk(s: State)
    requires s.size > 0
  {
    match s.consumer
    case CIdle => true
    case CCheck(h) => h == s.head
    case CRead(h) => h == s.head && Held(s) > 0
    case CStore(h, v) => h == s.head && Held(s) > 0 && v == s.pushed[|s.popped|]
    case CHead1 => true
    case CTail(h1) => h1 == s.head
    case CHead2(h1, t, past) => h1 == s.head && |s.popped| <= past <= |s.pushed| && t == Wrapped(past, s.size)
  }

  ghost predicate Honest(s: State) {
    && (forall i :: 0 <= i < |s.full| ==> s.full[i] == s.size - 1)
    && (forall i :: 0 <= i < |s.empty| ==> s.empty[i] == 0)
    && (forall i :: 0 <= i < |s.answers| ==> s.answers[i].0 == s.answers[i].1)
  }

  ghost predicate Inv(s: State) {
    Shared(s) && ProducerOk(s) && ConsumerOk(s) && Honest(s)
  }

  /** The slot being written holds no item. */
  lemma SlotFree(s: State, i: nat)
    requires Shared(s) && Held(s) < s.size && |s.popped| <= i < |s.pushed|
    ensures Wrapped(i, s.size) != s.tail
  {
    Apart(i, |s.pushed|, s.size);
  }

  lemma PushStores(s: State, v: nat)
    requires Shared(s) && Held(s) < s.size - 1 && s.buf[s.tail] == v
    ensures Shared(s.(tail := Wrapped(s.tail + 1, s.size), pushed := s.pushed + [v]))
  {
    WrapNext(|s.pushed|, s.size);
    assert (s.pushed + [v])[..|s.popped|] == s.pushed[..|s.popped|];
  }

  lemma WriteKeeps(s: State, v: nat)
    requires Shared(s)
    ensures s.tail < |s.buf| && Shared(s.(buf := s.buf[s.tail := v]))
  {
    forall i | |s.popped| <= i < |s.pushed| ensures s.buf[s.tail := v][Wrapped(i, s.size)] == s.pushed[i] {
      SlotFree(s, i);
    }
  }

  lemma PopStores(s: State)
    requires Shared(s) && Held(s) > 0
    ensures Shared(s.(head := Wrapped(s.head + 1, s.size), popped := s.popped + [s.pushed[|s.popped|]]))
  {
    WrapNext(|s.popped|, s.size);
    assert s.pushed[..|s.popped| + 1] == s.popped + [s.pushed[|s.popped|]];
  }

  lemma CheckFull(s: State)
    requires Shared(s)
    ensures Wrapped(s.tail + 1, s.size) == s.head <==> Held(s) == s.size - 1
  {
    hide Wrapped;
    WrapNext(|s.pushed|, s.size);
    if Held(s) == s.size - 1 {
      Lap(|s.popped|, s.size);
    } else {
      Apart(|s.popped|, |s.pushed| + 1, s.size);
    }
  }

  lemma Lap(c: nat, size: nat)
    requires size > 0
    ensures Wrapped(c + size, size) == Wrapped(c, size)
  {
    Unique(c + size, size, c / size + 1, c % size);
  }

  lemma CheckEmpty(s: State)
    requires Shared(s)
    ensures s.head == s.tail <==> Held(s) == 0
  {
    Apart(|s.popped|, |s.pushed|, s.size);
  }

  /** No ABA: while the producer counts it does not push, so head cannot come round to the same index. */
  lemma CountedByProducer(s: State)
    requires Shared(s) && ProducerOk(s) && s.producer.PHead2? && s.producer.h1 == s.head
    ensures var n := s.producer.seen;
      ProducerStep(s) == s.(producer := PIdle, answers := s.answers + [(n, n)])
  {
    Apart(s.producer.past, |s.popped|, s.size);
    Apart(s.producer.past, |s.pushed|, s.size);
  }

  lemma CountedByConsumer(s: State)
    requires Shared(s) && ConsumerOk(s) && s.consumer.CHead2?
    ensures var n := s.consumer.past - |s.popped|;
      ConsumerStep(s) == s.(consumer := CIdle, answers := s.answers + [(n, n)])
  {
    Apart(|s.popped|, s.consumer.past, s.size);
  }

  lemma ProducerPushes(s: State)
    requires Inv(s) && (s.producer.PCheck? || s.producer.PWrite? || s.producer.PStore?)
    ensures Inv(ProducerStep(s))
  {
    hide Wrapped;
    match s.producer {
      case PCheck(v, t) => CheckFull(s);
      case PWrite(v, t) => WriteKeeps(s, v);
      case PStore(v, t) => PushStores(s, v);
    }
  }

  lemma ProducerCounts(s: State)
    requires Inv(s) && !(s.producer.PCheck? || s.producer.PWrite? || s.producer.PStore?)
    ensures Inv(ProducerStep(s))
  {
    hide Wrapped, Used;
    if s.producer.PHead2? && s.producer.h1 == s.head { CountedByProducer(s); }
  }

  lemma ConsumerKeeps(s: State)
    requires Inv(s)
    ensures Inv(ConsumerStep(s))
  {
    hide Wrapped, Used;
    match s.consumer {
      case CIdle =>
      case CCheck(h) => CheckEmpty(s);
      case CRead(h) => assert s.buf[Wrapped(|s.popped|, s.size)] == s.pushed[|s.popped|];
      case CStore(h, v) => PopStores(s);
      case CHead1 =>
      case CTail(h1) =>
      case CHead2(h1, t, past) => CountedByConsumer(s);
    }
  }

  lemma NextKeeps(s: State, a: Act)
    requires Inv(s)
    ensures Inv(Next(s, a))
  {
    match a {
      case Produce =>
        if s.producer.PCheck? || s.producer.PWrite? || s.producer.PStore? {
          ProducerPushes(s);
        } else {
          ProducerCounts(s);
        }
      case Consume => ConsumerKeeps(s);
      case _ =>
    }
  }

  lemma {:induction false} RunKeeps(s: State, acts: seq<Act>)
    requires Inv(s)
    ensures Inv(Run(s, acts))
    decreases |acts|
  {
    hide Inv, Next;
    if acts != [] {
      InvSize(s, acts[0]);
      NextKeeps(s, acts[0]);
      RunKeeps(Next(s, acts[0]), acts[1..]);
    }
  }

  lemma InvSize(s: State, a: Act)
    requires Inv(s)
    ensures s.size > 1 && Next(s, a).size > 1
  {
  }

  /** Safety under every interleaving: items come out in the order they went in, none lost and none twice;
      no more than size - 1 are held; a push gives up only when size - 1 items are held, a pop only when none
      are; fifo16_num_used is exact; and the producer never writes the slot the consumer is reading. */
  lemma Safety(items: nat, junk: seq<nat>, acts: seq<Act>)
    requires items >= 2 && |junk| == items
    ensures var s := Run(New(items, junk), acts);
      && s.popped <= s.pushed && |s.pushed| - |s.popped| <= items - 1
      && (forall i :: 0 <= i < |s.full| ==> s.full[i] == items - 1)
      && (forall i :: 0 <= i < |s.empty| ==> s.empty[i] == 0)
      && (forall i :: 0 <= i < |s.answers| ==> s.answers[i].0 == s.answers[i].1)
      && (s.producer.PWrite? && (s.consumer.CRead? || s.consumer.CStore?) ==> s.producer.t != s.consumer.h)
  {
    var s0 := New(items, junk);
    Starts(items, junk);
    RunKeeps(s0, acts);
    var s := Run(s0, acts);
    if s.producer.PWrite? && (s.consumer.CRead? || s.consumer.CStore?) { Apart(|s.popped|, |s.pushed|, s.size); }
  }

  lemma Starts(items: nat, junk: seq<nat>)
    requires items >= 2 && |junk| == items
    ensures Inv(New(items, junk))
  {
    Unique(0, items, 0, 0);
  }

  // Every call comes to its end, and does what it is for.

  /** fifo16_push(v), called in s0, is under way. */
  predicate Pushing(s0: State, s: State, v: nat) {
    && (s.producer == PCheck(v, s0.tail) || s.producer == PWrite(v, s0.tail) || s.producer == PStore(v, s0.tail))
    && s.size == s0.size && s.pushed == s0.pushed && s.tail == s0.tail && s.full == s0.full
  }

  /** It is over: either v has been added and tail has moved on by one, or nothing has been added and it was said
      that the queue is full. */
  predicate PushEnded(s0: State, s: State, v: nat)
    requires s0.size > 0
  {
    && s.producer.PIdle? && s.size == s0.size
    && (|| (s.pushed == s0.pushed + [v] && s.tail == Wrapped(s0.tail + 1, s0.size) && s.full == s0.full)
        || (s.pushed == s0.pushed && s.tail == s0.tail && s.full == s0.full + [s0.size - 1]))
  }

  /** fifo16_pop, called in s0, is under way. */
  predicate Popping(s0: State, s: State) {
    && (s.consumer == CCheck(s0.head) || s.consumer == CRead(s0.head)
        || (s.consumer.CStore? && s.consumer.h == s0.head))
    && s.size == s0.size && s.popped == s0.popped && s.head == s0.head && s.empty == s0.empty
  }

  /** It is over: either the oldest item has been taken and head has moved on by one, or nothing has been taken and
      it was said that there is none. */
  predicate PopEnded(s0: State, s: State)
    requires s0.size > 0
  {
    && s.consumer.CIdle? && s.size == s0.size
    && (|| (|s0.popped| < |s.pushed| && s.popped == s0.popped + [s.pushed[|s0.popped|]]
            && s.head == Wrapped(s0.head + 1, s0.size) && s.empty == s0.empty)
        || (s.popped == s0.popped && s.head == s0.head && s.empty == s0.empty + [0]))
  }

  lemma PushGoesOn(s0: State, s: State, v: nat, a: Act)
    requires Inv(s) && s0.size > 0 && Pushing(s0, s, v)
    ensures Pushing(s0, Next(s, a), v) || PushEnded(s0, Next(s, a), v)
  {
    hide Wrapped, Used;
    if a.Produce? { CheckFull(s); }
  }

  lemma PopGoesOn(s0: State, s: State, a: Act)
    requires Inv(s) && s0.size > 0 && Popping(s0, s)
    ensures Popping(s0, Next(s, a)) || PopEnded(s0, Next(s, a))
  {
    hide Wrapped, Used;
    if a.Consume? { CheckEmpty(s); }
  }

  /** None of the states before the end of the run is idle. */
  ghost predicate BusyTill(s: State, acts: seq<Act>, producer: bool)
    requires s.size > 0
  {
    forall k :: 0 <= k < |acts| ==> !Idle(Run(s, acts[..k]), producer)
  }

  predicate Idle(s: State, producer: bool) {
    if producer then s.producer.PIdle? else s.consumer.CIdle?
  }

  lemma BusyRest(s: State, acts: seq<Act>, producer: bool)
    requires Inv(s) && acts != [] && BusyTill(s, acts, producer)
    ensures Next(s, acts[0]).size > 0 && BusyTill(Next(s, acts[0]), acts[1..], producer)
    ensures |acts| > 1 ==> !Idle(Next(s, acts[0]), producer)
  {
    hide Next, Idle;
    InvSize(s, acts[0]);
    var t := Next(s, acts[0]);
    forall k | 0 <= k < |acts[1..]| ensures !Idle(Run(t, acts[1..][..k]), producer) {
      assert acts[..k + 1][0] == acts[0] && acts[..k + 1][1..] == acts[1..][..k];
      assert !Idle(Run(s, acts[..k + 1]), producer);
    }
    if |acts| > 1 { assert acts[1..][..0] == []; }
  }

  /** Whatever the consumer does meanwhile: when a push comes to its end, either its value has been added to the
      queue, once and as the last, or the queue was full. */
  lemma {:induction false} PushCompletes(s0: State, s: State, v: nat, acts: seq<Act>)
    requires Inv(s) && s0.size > 0 && Pushing(s0, s, v) && BusyTill(s, acts, true)
    ensures Pushing(s0, Run(s, acts), v) || PushEnded(s0, Run(s, acts), v)
    decreases |acts|
  {
    hide Inv, Next, Pushing, PushEnded, BusyTill, Wrapped;
    InvSized(s);
    if acts != [] {
      var t := Next(s, acts[0]);
      BusyRest(s, acts, true);
      NextKeeps(s, acts[0]);
      PushGoesOn(s0, s, v, acts[0]);
      if Pushing(s0, t, v) {
        PushCompletes(s0, t, v, acts[1..]);
      } else {
        PushIdle(s0, t, v);
      }
    }
  }

  lemma PushIdle(s0: State, s: State, v: nat)
    requires s0.size > 0 && PushEnded(s0, s, v)
    ensures Idle(s, true)
  {
    hide Wrapped;
  }

  lemma InvSized(s: State)
    requires Inv(s)
    ensures s.size > 1
  {
  }

  /** And whatever the producer does: when a pop comes to its end, either it has taken the oldest item, or there
      was none. */
  lemma {:induction false} PopCompletes(s0: State, s: State, acts: seq<Act>)
    requires Inv(s) && s0.size > 0 && Popping(s0, s) && BusyTill(s, acts, false)
    ensures Popping(s0, Run(s, acts)) || PopEnded(s0, Run(s, acts))
    decreases |acts|
  {
    hide Inv, Next, Popping, PopEnded, BusyTill, Wrapped;
    InvSized(s);
    if acts != [] {
      var t := Next(s, acts[0]);
      BusyRest(s, acts, false);
      NextKeeps(s, acts[0]);
      PopGoesOn(s0, s, acts[0]);
      if Popping(s0, t) {
        PopCompletes(s0, t, acts[1..]);
      } else {
        PopIdle(s0, t);
      }
    }
  }

  lemma PopIdle(s0: State, s: State)
    requires s0.size > 0 && PopEnded(s0, s)
    ensures Idle(s, false)
  {
    hide Wrapped;
  }

  /** The accesses of the producer, or of the consumer, among acts. */
  function Own(acts: seq<Act>, producer: bool): nat {
    if acts == [] then 0
    else (if (if producer then acts[0].Produce? else acts[0].Consume?) then 1 else 0) + Own(acts[1..], producer)
  }

  /** How many accesses of its own a push or pop still has in front of it at the most. */
  function Ahead(s: State, producer: bool): nat {
    if producer then
      match s.producer
      case PCheck(_, _) => 3
      case PWrite(_, _) => 2
      case PStore(_, _) => 1
      case _ => 0
    else
      match s.consumer
      case CCheck(_) => 3
      case CRead(_) => 2
      case CStore(_, _) => 1
      case _ => 0
  }

  lemma GetsOn(s: State, a: Act, producer: bool)
    requires Inv(s) && Ahead(s, producer) > 0
    ensures Ahead(Next(s, a), producer) + Own([a], producer) <= Ahead(s, producer)
    ensures Ahead(Next(s, a), producer) == 0 ==> Idle(Next(s, a), producer)
  {
    hide Wrapped, Used;
    assert Own([a], producer) == if (if producer then a.Produce? else a.Consume?) then 1 else 0;
  }

  /** A push or pop waits for nobody: after three accesses of its own it is over, whatever the other side does. */
  lemma {:induction false} NoWaiting(s: State, acts: seq<Act>, producer: bool) returns (k: nat)
    requires Inv(s) && s.size > 0 && Ahead(s, producer) > 0 && Own(acts, producer) >= Ahead(s, producer)
    ensures k <= |acts| && Idle(Run(s, acts[..k]), producer)
    decreases |acts|
  {
    hide Inv, Next, Ahead, Idle;
    var t := Next(s, acts[0]);
    InvSize(s, acts[0]);
    NextKeeps(s, acts[0]);
    GetsOn(s, acts[0], producer);
    OwnHead(acts, producer);
    if Ahead(t, producer) == 0 {
      k := 1;
      assert acts[..1][1..] == [];
    } else {
      var i := NoWaiting(t, acts[1..], producer);
      k := i + 1;
      assert acts[..k][1..] == acts[1..][..i];
    }
  }

  lemma OwnHead(acts: seq<Act>, producer: bool)
    requires acts != []
    ensures Own(acts, producer) == Own([acts[0]], producer) + Own(acts[1..], producer)
  {
  }

  /** Every push in every run of the two programs: once the producer is idle again, its value has been added to the
      queue, once and as the last, or the queue was full and nothing has been added. */
  lemma EveryPush(items: nat, junk: seq<nat>, before: seq<Act>, v: nat, acts: seq<Act>)
    requires items >= 2 && |junk| == items && Run(New(items, junk), before).producer.PIdle?
    requires BusyTill(Next(Run(New(items, junk), before), Push(v)), acts, true)
    ensures var s0 := Run(New(items, junk), before);
      var s := Run(Next(s0, Push(v)), acts);
      s.producer.PIdle? ==> PushEnded(s0, s, v)
  {
    hide Wrapped, Inv;
    var s0 := Run(New(items, junk), before);
    Starts(items, junk);
    RunKeeps(New(items, junk), before);
    NextKeeps(s0, Push(v));
    PushCompletes(s0, Next(s0, Push(v)), v, acts);
  }

  /** And every pop: once the consumer is idle again, it has taken the oldest item, or there was none. */
  lemma EveryPop(items: nat, junk: seq<nat>, before: seq<Act>, acts: seq<Act>)
    requires items >= 2 && |junk| == items && Run(New(items, junk), before).consumer.CIdle?
    requires BusyTill(Next(Run(New(items, junk), before), Pop), acts, false)
    ensures var s0 := Run(New(items, junk), before);
      var s := Run(Next(s0, Pop), acts);
      s.consumer.CIdle? ==> PopEnded(s0, s)
  {
    hide Wrapped, Inv;
    var s0 := Run(New(items, junk), before);
    Starts(items, junk);
    RunKeeps(New(items, junk), before);
    NextKeeps(s0, Pop);
    PopCompletes(s0, Next(s0, Pop), acts);
  }
}
