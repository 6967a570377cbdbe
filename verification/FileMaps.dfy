/** Files mapped into memory, which hold a header of 16 bytes and then the data. */
module FileMaps {
  import opened Bits

  const BLOCK_SIZE: int := 16384
  const HEADER_SIZE: int := 16
  const RECORD_SIZE: int := 64

  /** The data written so far, in units of the map (bytes or records), and the mapped size in bytes. */
  datatype FileMap<T> = FileMap(data: seq<T>, size: nat)

  /** The header's offset: the bytes of data. */
  function Offset<T>(m: FileMap<T>, unit: nat): nat {
    unit * |m.data|
  }

  /** The map is as its file has it, the data ends inside it, and its size fits 32 bits. */
  ghost predicate Mapped<T>(m: FileMap<T>, unit: nat) {
    HEADER_SIZE + Offset(m, unit) < m.size < TWO32 && m.size % BLOCK_SIZE == 0
  }

  /** The size a map grows to: ten percent more than asked, in whole blocks. */
  function GrownSize(size: nat, len: nat): (r: nat)
    ensures r > size + len + (size + len) / 10 && r % BLOCK_SIZE == 0
    ensures r <= size + len + (size + len) / 10 + BLOCK_SIZE
  {
    var s := size + len + (size + len) / 10;
    (s / BLOCK_SIZE + 1) * BLOCK_SIZE
  }

  /** Growing for len more bytes stays below 4 GiB. */
  predicate CanAlloc<T>(m: FileMap<T>, unit: nat, len: nat) {
    HEADER_SIZE + Offset(m, unit) + len < m.size || GrownSize(m.size, len) < TWO32
  }

  /** bc_map_alloc: makes sure that len bytes fit behind the data. */
  function MapAlloc<T>(m: FileMap<T>, unit: nat, len: nat): (r: FileMap<T>)
    requires Mapped(m, unit) && CanAlloc(m, unit, len)
    ensures r.data == m.data && r.size >= m.size && Mapped(r, unit)
    ensures HEADER_SIZE + Offset(r, unit) + len < r.size
  {
    if HEADER_SIZE + Offset(m, unit) + len < m.size then m else m.(size := GrownSize(m.size, len))
  }

  /** The data after items were copied to place at; what lies between the data and at reads as zeros. */
  function Overwrite<T>(data: seq<T>, at: nat, items: seq<T>, blank: T): (r: seq<T>)
    ensures |r| == if at + |items| > |data| then at + |items| else |data|
    ensures forall i :: 0 <= i < |items| ==> r[at + i] == items[i]
    ensures forall i :: 0 <= i < |data| && !(at <= i < at + |items|) ==> r[i] == data[i]
    ensures forall i :: |data| <= i < at ==> r[i] == blank
  {
    var end := if at + |items| > |data| then at + |items| else |data|;
    seq(end, i requires 0 <= i < end =>
      if at <= i < at + |items| then items[i - at] else if i < |data| then data[i] else blank)
  }

  /** The bytes that a write of items at place at copies lie inside the map. */
  predicate Lands<T>(m: FileMap<T>, unit: nat, at: nat, items: seq<T>) {
    HEADER_SIZE + unit * (at + |items|) <= m.size
  }

  /** bc_map_write: room is made behind the data, wherever the write goes. */
  function MapWrite<T>(m: FileMap<T>, unit: nat, at: nat, items: seq<T>, blank: T): (r: FileMap<T>)
    requires Mapped(m, unit) && CanAlloc(m, unit, unit * |items|)
    requires Lands(MapAlloc(m, unit, unit * |items|), unit, at, items)
  {
    FileMap(Overwrite(m.data, at, items, blank), MapAlloc(m, unit, unit * |items|).size)
  }

  /** A write that starts no further than the data ends lands in the map, across regrowth, and leaves it well formed. */
  lemma WriteLands<T>(m: FileMap<T>, unit: nat, at: nat, items: seq<T>, blank: T)
    requires Mapped(m, unit) && CanAlloc(m, unit, unit * |items|) && at <= |m.data|
    ensures Lands(MapAlloc(m, unit, unit * |items|), unit, at, items)
    ensures Mapped(MapWrite(m, unit, at, items, blank), unit)
  {
    var r := MapAlloc(m, unit, unit * |items|);
    Distribute(unit, at, |items|);
    Distribute(unit, |m.data|, |items|);
    MulMonotone(unit, at, |m.data|);
    var w := Overwrite(m.data, at, items, blank);
    MulMonotone(unit, |w|, |m.data| + |items|);
  }

  lemma Distribute(u: nat, x: nat, y: nat)
    ensures u * (x + y) == u * x + u * y
  {
  }

  lemma MulMonotone(u: nat, x: nat, y: nat)
    requires x <= y
    ensures u * x <= u * y
  {
  }

  /** bc_map_append: makes room, then writes where the data ends. */
  function MapAppend<T>(m: FileMap<T>, unit: nat, items: seq<T>, blank: T): (r: FileMap<T>)
    requires Mapped(m, unit) && CanAlloc(m, unit, unit * |items|)
    ensures r.data == m.data + items && Mapped(r, unit) && r.size >= m.size
  {
    var a := MapAlloc(m, unit, unit * |items|);
    WriteLands(a, unit, |a.data|, items, blank);
    MapWrite(a, unit, |a.data|, items, blank)
  }

  // ---------- Maps of records ----------

  /** The largest size a map of so many records has. */
  function RecordCap(count: nat): nat {
    GrownSize(HEADER_SIZE + RECORD_SIZE * count + RECORD_SIZE, RECORD_SIZE)
  }

  /** A map of records that only grew when it had to. */
  ghost predicate RecordMap<T>(m: FileMap<T>) {
    Mapped(m, RECORD_SIZE) && m.size <= RecordCap(|m.data|)
  }

  lemma GrownMonotone(s: nat, t: nat, len: nat)
    requires s <= t
    ensures GrownSize(s, len) <= GrownSize(t, len)
  {
  }

  lemma CapMonotone(c: nat, d: nat)
    requires c <= d
    ensures RecordCap(c) <= RecordCap(d)
  {
    GrownMonotone(HEADER_SIZE + RECORD_SIZE * c + RECORD_SIZE, HEADER_SIZE + RECORD_SIZE * d + RECORD_SIZE, RECORD_SIZE);
  }

  /** Below the cap, a record map can take one more record at any place up to its end. */
  lemma RecordFits<T>(m: FileMap<T>, at: nat, item: T, blank: T)
    requires RecordMap(m) && at <= |m.data| && RecordCap(|m.data|) < TWO32
    ensures CanAlloc(m, RECORD_SIZE, RECORD_SIZE * |[item]|)
    ensures Lands(MapAlloc(m, RECORD_SIZE, RECORD_SIZE * |[item]|), RECORD_SIZE, at, [item])
    ensures RecordMap(MapWrite(m, RECORD_SIZE, at, [item], blank))
  {
    if HEADER_SIZE + Offset(m, RECORD_SIZE) + RECORD_SIZE >= m.size {
      GrownMonotone(m.size, HEADER_SIZE + Offset(m, RECORD_SIZE) + RECORD_SIZE, RECORD_SIZE);
    }
    WriteLands(m, RECORD_SIZE, at, [item], blank);
    CapMonotone(|m.data|, |MapWrite(m, RECORD_SIZE, at, [item], blank).data|);
  }

  /** A file that was just created. */
  function NewMap<T>(): (m: FileMap<T>)
    ensures forall unit: nat {:trigger Mapped(m, unit)} :: Mapped(m, unit)
  {
    FileMap([], BLOCK_SIZE)
  }
}
