/** Byte-addressed memory, seen as the set of objects stored in it.

    An object (`Chunk`) is what one C store or one word header puts at an address; it covers
    `Size` bytes from that address. A store destroys the objects whose bytes it takes. To load from
    an object at another address or another width would be type punning, which the machine does not
    define. */
module Memory {
  import opened Opcodes

  type Addr = nat

  /** A dictionary word: the struct at the word's address and its name, which
      forth_word_new always places right behind the struct. */
  datatype Header = Header(prev: Addr, name: seq<nat>, immediate: bool, op: Op, blen: nat, body: Addr)

  datatype Chunk =
    | Byte(b: nat)
    | Wide(c: nat)
    | Long(l: nat)
    | Cell(v: nat)
    | Word(h: Header)
    | Text(t: seq<nat>)

  type Mem = map<Addr, Chunk>

  /** sizeof(struct forth_word): seven machine words. */
  const HEADER_BYTES: nat := 56

  function HeaderSize(name: seq<nat>): nat {
    HEADER_BYTES + 2 + 2 * |name|
  }

  function Size(c: Chunk): nat {
    match c
    case Byte(_) => 1
    case Wide(_) => 2
    case Long(_) => 4
    case Cell(_) => 8
    case Word(h) => HeaderSize(h.name)
    case Text(t) => 2 + 2 * |t|
  }

  predicate SameKind(c: Chunk, d: Chunk) {
    || (c.Byte? && d.Byte?)
    || (c.Wide? && d.Wide?)
    || (c.Long? && d.Long?)
    || (c.Cell? && d.Cell?)
  }

  /** No object covers any of the n bytes from a. */
  predicate Free(m: Mem, a: Addr, n: nat) {
    forall b :: b in m ==> b + Size(m[b]) <= a || a + n <= b
  }

  predicate Writable(m: Mem, a: Addr, c: Chunk) {
    (a in m && SameKind(m[a], c)) || Free(m, a, Size(c))
  }

  /** A store: of the objects that share bytes with the new one nothing is left. One of the same kind at the
      same address shares its bytes with no other. */
  function Overwrite(m: Mem, a: Addr, c: Chunk): Mem {
    if a in m && SameKind(m[a], c) then m[a := c]
    else (map b | b in m && (b + Size(m[b]) <= a || a + Size(c) <= b) :: m[b])[a := c]
  }

  lemma PutFits(m: Mem, a: Addr, c: Chunk)
    requires Writable(m, a, c)
    ensures Overwrite(m, a, c) == m[a := c]
  {
  }

  /** No two objects share a byte. */
  ghost predicate Separate(m: Mem) {
    forall a, b :: a in m && b in m && a < b ==> a + Size(m[a]) <= b
  }

  /** Stores keep them so; exactly the objects that share no byte with the new one stay. */
  lemma PutApart(m: Mem, a: Addr, c: Chunk)
    requires Separate(m)
    ensures Separate(Overwrite(m, a, c)) && a in Overwrite(m, a, c) && Overwrite(m, a, c)[a] == c
    ensures forall b :: b in m && b != a ==>
      if b + Size(m[b]) <= a || a + Size(c) <= b then b in Overwrite(m, a, c) && Overwrite(m, a, c)[b] == m[b]
      else b !in Overwrite(m, a, c)
  {
  }

  /** Every object ends at or below the dictionary pointer. */
  predicate Below(m: Mem, dp: Addr) {
    forall b :: b in m ==> b + Size(m[b]) <= dp
  }

  lemma NothingAt(m: Mem, dp: Addr)
    requires Below(m, dp)
    ensures dp !in m
  {
  }

  predicate HasCell(m: Mem, a: Addr, v: nat) {
    a in m && m[a] == Cell(v)
  }

  predicate HasWord(m: Mem, a: Addr) {
    a in m && m[a].Word?
  }

  /** Consecutive 8-byte cells from a. */
  predicate HasCells(m: Mem, a: Addr, vs: seq<nat>) {
    forall i :: 0 <= i < |vs| ==> HasCell(m, a + 8 * i, vs[i])
  }

  /** A store over anything but a cell leaves the cells. */
  lemma CellsKept(m: Mem, w: Addr, c: Chunk, base: Addr, vs: seq<nat>)
    requires HasCells(m, base, vs) && (w !in m || !m[w].Cell?)
    ensures HasCells(m[w := c], base, vs)
  {
    forall i | 0 <= i < |vs| ensures HasCell(m[w := c], base + 8 * i, vs[i]) {
      assert HasCell(m, base + 8 * i, vs[i]);
    }
  }

  /** Consecutive 2-byte characters from a. */
  predicate HasChars(m: Mem, a: Addr, cs: seq<nat>) {
    forall i :: 0 <= i < |cs| ==> a + 2 * i in m && m[a + 2 * i] == Wide(cs[i])
  }

  /** The C string held in a character array: everything before the first NUL. */
  function Terminated(cs: seq<nat>): (r: seq<nat>)
    ensures r <= cs && 0 !in r
    ensures |r| < |cs| ==> cs[|r|] == 0
  {
    if cs == [] || cs[0] == 0 then [] else [cs[0]] + Terminated(cs[1..])
  }
}
