/** What the stores put into memory the loads bring back. */
module Storage {
  import opened Words
  import opened Memory
  import opened Opcodes
  import opened Machine
  import opened Blind
  import opened Context

  /** C! and C@, W! and W@, L! and L@, X! and X@, with the number of values their objects take. */
  predicate Pair(store: Op, load: Op, range: nat) {
    || (store == CStore && load == CLoad && range == 0x100)
    || (store == WStore && load == WLoad && range == 0x1_0000)
    || (store == LStore && load == LLoad && range == 0x1_0000_0000)
    || (store == XStore && load == XLoad && range == TWO64)
  }

  /** The store at s may be carried out: its operands are there and the address is that of a variable, for X!, or
      in the dictionary RAM. */
  predicate MayStore(store: Op, s: State) {
    && s.dn >= 2 && s.ds.Item? && s.ds.rest.Item?
    && (RAM <= s.tos || (store == XStore && IsVariable(s.tos)))
  }

  /** n is m after a store of the given number of bytes at a: what shares no byte with it is as it was, and the
      objects do not come to overlap. */
  ghost predicate Around(m: Mem, n: Mem, a: Addr, size: nat) {
    && (forall b :: b in m && (b + Size(m[b]) <= a || a + size <= b) ==> b in n && n[b] == m[b])
    && (forall b :: b in n && b != a ==> b in m && n[b] == m[b])
    && (Separate(m) ==> Separate(n))
  }

  function Width(store: Op): nat {
    if store.CStore? then 1 else if store.WStore? then 2 else if store.LStore? then 4 else 8
  }

  lemma PutAround(m: Mem, a: Addr, c: Chunk)
    ensures Around(m, Overwrite(m, a, c), a, Size(c)) && a in Overwrite(m, a, c) && Overwrite(m, a, c)[a] == c
  {
    if Separate(m) { PutApart(m, a, c); }
  }

  lemma PokePeek(e: Env, a: Addr, v: nat)
    ensures Peek(Poke(e, a, v), a) == Value(v) && Around(e.mem, Poke(e, a, v).mem, a, 8)
  {
    hide Overwrite;
    PutAround(e.mem, a, Cell(v));
  }

  /** A store takes its two operands and changes nothing in memory but the bytes it writes, whatever was stored
      there before and at which width; a load from there gives the stored value back, cut to the width. */
  lemma StoredIsLoaded(s: State, store: Op, load: Op, range: nat)
    requires Pair(store, load, range) && MayStore(store, s) && s.ds.top < TWO64
    ensures var t := ExecStore(store, s);
      && t.tos == s.ds.rest.top && t.ds == s.ds.rest.rest && t.dn == s.dn - 2 && t.pc == s.pc && t.pser == s.pser
      && ExecLoad(load, t.(tos := s.tos)) == t.(tos := s.ds.top % range)
      && Around(s.env.mem, t.env.mem, s.tos, Width(store))
  {
    hide ExecStore, ExecLoad, Around;
    if store == XStore {
      CellStored(s);
    } else {
      ChunkStored(s, store, load, range);
    }
  }

  lemma CellStored(s: State)
    requires MayStore(XStore, s) && s.ds.top < TWO64
    ensures var t := ExecStore(XStore, s);
      && t.tos == s.ds.rest.top && t.ds == s.ds.rest.rest && t.dn == s.dn - 2 && t.pc == s.pc && t.pser == s.pser
      && ExecLoad(XLoad, t.(tos := s.tos)) == t.(tos := s.ds.top)
      && Around(s.env.mem, t.env.mem, s.tos, 8)
  {
    hide Peek, Poke, IsVariable, Around;
    PokePeek(s.env, s.tos, s.ds.top);
  }

  /** What a load opcode reads is what the store opcode of the same width wrote. */
  lemma WrittenRead(store: Op, load: Op, range: nat, v: nat, e: Env, a: Addr)
    requires Pair(store, load, range) && store != XStore && a in e.mem && e.mem[a] == WrittenBy(store, v)
    ensures ReadBy(load, e, a) == Value(v % range)
  {
  }

  lemma Widths(store: Op, load: Op, range: nat, v: nat)
    requires Pair(store, load, range) && store != XStore
    ensures (store.CStore? || store.WStore? || store.LStore?) && Size(WrittenBy(store, v)) == Width(store)
    ensures (load.CLoad? || load.WLoad? || load.LLoad?) && range > 0
  {
  }

  lemma ChunkWritten(s: State, store: Op)
    requires (store.CStore? || store.WStore? || store.LStore?) && MayStore(store, s)
    ensures s.ds.Item? && s.ds.rest.Item?
    ensures ExecStore(store, s) == s.(tos := s.ds.rest.top, ds := s.ds.rest.rest, dn := s.dn - 2,
      env := s.env.(mem := Overwrite(s.env.mem, s.tos, WrittenBy(store, s.ds.top))))
  {
    hide ExecStore, Overwrite, WrittenBy;
    StoreSpec(store, s);
  }

  lemma ChunkStored(s: State, store: Op, load: Op, range: nat)
    requires Pair(store, load, range) && store != XStore && MayStore(store, s)
    ensures var t := ExecStore(store, s);
      && t.tos == s.ds.rest.top && t.ds == s.ds.rest.rest && t.dn == s.dn - 2 && t.pc == s.pc && t.pser == s.pser
      && ExecLoad(load, t.(tos := s.tos)) == t.(tos := s.ds.top % range)
      && Around(s.env.mem, t.env.mem, s.tos, Width(store))
  {
    hide ExecStore, ExecLoad, MayStore, WrittenBy, ReadBy, Pair, Overwrite, Around, Size;
    Widths(store, load, range, if s.ds.Item? then s.ds.top else 0);
    ChunkWritten(s, store);
    PutAround(s.env.mem, s.tos, WrittenBy(store, s.ds.top));
    var t := ExecStore(store, s);
    LoadSpec(load, t.(tos := s.tos));
    WrittenRead(store, load, range, s.ds.top, t.env, s.tos);
  }

  // The objects in memory never come to overlap.

  lemma ControlEnv(h: Header, s: State)
    requires ClassOf(h.op) == Control
    ensures ExecControl(h.op, h, s).env == s.env
  {
  }

  lemma StoreApart(op: Op, s: State)
    requires Separate(s.env.mem) && (op.CStore? || op.WStore? || op.LStore? || op.XStore?)
    ensures Separate(ExecStore(op, s).env.mem)
  {
    hide Overwrite, WrittenBy, Separate, ExecStore;
    StoreSpec(op, s);
    PopEnv(s);
    PutApart(s.env.mem, s.tos, Cell(PTop(s)));
    PutApart(s.env.mem, s.tos, WrittenBy(op, PTop(s)));
  }

  lemma MemoryApart(op: Op, s: State)
    requires Separate(s.env.mem) && ClassOf(op) == Mems
    ensures Separate(ExecMemory(op, s).env.mem)
  {
    hide ExecStore, Separate, ExecPush, Peek;
    if op.CStore? || op.WStore? || op.LStore? || op.XStore? {
      StoreApart(op, s);
    } else {
      PushBlind(op, s, s.env);
    }
  }

  lemma WordNewApart(s: State)
    requires Separate(s.env.mem)
    ensures Separate(ExecWordNew(s).env.mem)
  {
    hide Overwrite, Separate, CanRead, Terminated, ReadChars, HeaderSize;
    PopEnv(s);
    if s.tos <= NAME_MAXLEN && CanRead(s.env.mem, PTop(s), s.tos) {
      var name := Terminated(ReadChars(s.env.mem, PTop(s), s.tos));
      PutApart(s.env.mem, s.env.dp, Word(NewHeader(PPop(s).env, name)));
    }
  }

  lemma BlenApart(s: State)
    requires Separate(s.env.mem)
    ensures Separate(ExecBlenStore(s).env.mem)
  {
    PopEnv(s);
  }

  lemma InterpApart(op: Op, s: State)
    requires Separate(s.env.mem) && ClassOf(op) == Interp
    ensures Separate(ExecInterp(op, s).env.mem)
  {
    hide ExecWordNew, ExecBlenStore, ExecPush, Separate, Search, Terminated, ReadChars, CanRead, NumberOf, IsNumberText;
    WordNewApart(s);
    BlenApart(s);
    PushBlind(op, s, s.env);
    PopEnv(s);
  }

  lemma OpApart(h: Header, s: State)
    requires Separate(s.env.mem)
    ensures Separate(ExecOp(h, s).env.mem)
  {
    hide ExecStack, ExecArith, ExecMemory, ExecInterp, ExecControl, Separate;
    var t := s.(ip := 0);
    match ClassOf(h.op) {
      case Control => ControlEnv(h, s);
      case Stacks => StackBlind(h.op, t, t.env);
      case Arith => ArithBlind(h.op, t, t.env);
      case Mems => MemoryApart(h.op, t);
      case Interp => InterpApart(h.op, t);
      case _ =>
    }
  }

  /** Whatever is run, no two objects in memory ever share a byte. */
  lemma {:induction false} RunApart(s: State, n: nat)
    requires Separate(s.env.mem)
    ensures Separate(Run(s, n).env.mem)
    decreases n
  {
    hide ExecOp, Separate;
    if n > 0 {
      if s.pc.Exec? && HasWord(s.env.mem, s.pc.w) { OpApart(s.env.mem[s.pc.w].h, s.(pc := Next)); }
      RunApart(Step(s), n - 1);
    }
  }
}
