/** The index of the block database and the table of buckets that speeds up its search. */
module BlockIndex {
  import opened Bits
  import opened FileMaps

  /** Eight 32-bit words. */
  type Hash = seq<nat>

  /** A slot of the index; size 0 means that it is empty. */
  datatype Rec = Rec(jrnl: nat, of: nat, size: nat, crc: int, hash: Hash)

  const Blank: Rec := Rec(0, 0, 0, 0, [0, 0, 0, 0, 0, 0, 0, 0])

  const TABLE_SIZE: int := 262144
  const POS_MASK: int := 0xFFFFFFFFFFFFFFF0
  const NULL_POS: int := 0xFFFFFFFFFFFFFFF1
  const SEARCH_POS: int := 0

  datatype Error = None | NoEntry | Exists | Search | Invalid | Corrupt

  // ---------- Buckets ----------

  function Sum(words: seq<nat>): nat {
    if words == [] then 0 else Sum(words[..|words| - 1]) + words[|words| - 1]
  }

  /** The eight words of a hash are added. */
  lemma SumOfEight(h: Hash)
    requires |h| == 8
    ensures Sum(h) == h[0] + h[1] + h[2] + h[3] + h[4] + h[5] + h[6] + h[7]
  {
    SumOfFour(h[..4]);
    assert h[..7][..6][..5][..4] == h[..4];
    assert Sum(h[..7][..6][..5]) == Sum(h[..4]) + h[4];
    assert Sum(h[..7][..6]) == Sum(h[..7][..6][..5]) + h[5];
  }

  lemma SumOfFour(h: Hash)
    requires |h| == 4
    ensures Sum(h) == h[0] + h[1] + h[2] + h[3]
  {
    assert Sum(h[..3][..2][..1]) == Sum(h[..3][..2][..1][..0]) + h[0];
    assert Sum(h[..3][..2]) == Sum(h[..3][..2][..1]) + h[1];
  }

  /** The bucket of a hash. */
  function Bucket(hash: Hash): (b: nat)
    ensures b < TABLE_SIZE
  {
    Sum(hash) % TABLE_SIZE
  }

  /** The sum wraps at 32 bits, which the table size divides. */
  method TableHash(hash: Hash) returns (b: nat)
    ensures b == Bucket(hash) == Sum(hash) % 262144
  {
    var val := 0;
    for i := 0 to |hash|
      invariant 0 <= val < TWO32 && val % TABLE_SIZE == Sum(hash[..i]) % TABLE_SIZE
    {
      assert hash[..i + 1][..i] == hash[..i];
      WrapKeepsBucket(val, Sum(hash[..i]), hash[i]);
      val := (val + hash[i]) % TWO32;
    }
    assert hash[..|hash|] == hash;
    b := val % TABLE_SIZE;
  }

  lemma WrapKeepsBucket(val: nat, sum: nat, word: nat)
    requires val % TABLE_SIZE == sum % TABLE_SIZE
    ensures ((val + word) % TWO32) % TABLE_SIZE == (sum + word) % TABLE_SIZE
  {
  }

  // ---------- What a search finds, and what the table may say ----------

  predicate Live(r: Rec) {
    r.size != 0
  }

  /** The highest live place below end with this hash, or -1: a plain backward scan. */
  function Highest(recs: seq<Rec>, hash: Hash, end: nat): (p: int)
    requires end <= |recs|
    ensures -1 <= p < end
    ensures p >= 0 ==> Live(recs[p]) && recs[p].hash == hash
    ensures forall i :: p < i < end && Live(recs[i]) ==> recs[i].hash != hash
  {
    if end == 0 then -1
    else if Live(recs[end - 1]) && recs[end - 1].hash == hash then end - 1
    else Highest(recs, hash, end - 1)
  }

  /** Every live record of the bucket lies at or below v. */
  predicate Bounded(recs: seq<Rec>, bucket: nat, v: int) {
    forall i :: 0 <= i < |recs| && Live(recs[i]) && Bucket(recs[i].hash) == bucket ==> i <= v
  }

  /** What a bucket value promises: 0 nothing, the null mark that no live record falls in the bucket, any other value an upper bound. */
  predicate BucketOk(recs: seq<Rec>, bucket: nat, v: nat) {
    || v == SEARCH_POS
    || (v == NULL_POS && Bounded(recs, bucket, -1))
    || (v < 0x80000000 && |recs| > 0 && Bounded(recs, bucket, v))
  }

  ghost predicate TableOk(tab: seq<nat>, recs: seq<Rec>) {
    |tab| == TABLE_SIZE && forall b :: 0 <= b < TABLE_SIZE ==> BucketOk(recs, b, tab[b])
  }

  /** A bucket value is one of the two marks or the place of a record, right or not. */
  predicate BucketShape(recs: seq<Rec>, v: nat) {
    v == SEARCH_POS || v == NULL_POS || (v < 0x80000000 && |recs| > 0)
  }

  ghost predicate TableShape(tab: seq<nat>, recs: seq<Rec>) {
    |tab| == TABLE_SIZE && forall b :: 0 <= b < TABLE_SIZE ==> BucketShape(recs, tab[b])
  }

  lemma OkHasShape(tab: seq<nat>, recs: seq<Rec>)
    requires TableOk(tab, recs)
    ensures TableShape(tab, recs)
  {
    forall b | 0 <= b < TABLE_SIZE
      ensures BucketShape(recs, tab[b])
    {
      assert BucketOk(recs, b, tab[b]);
    }
  }

  /** Where a search that believes this bucket value ends: nowhere at the null mark, else at the highest place up to a bound inside the index. */
  function Lookup(v: nat, recs: seq<Rec>, hash: Hash): int {
    if v == NULL_POS then -1
    else if v == SEARCH_POS || v >= |recs| then Highest(recs, hash, |recs|)
    else Highest(recs, hash, v + 1)
  }

  /** The search for this hash agrees with the plain scan. */
  predicate Finds(tab: seq<nat>, recs: seq<Rec>, hash: Hash)
    requires |tab| == TABLE_SIZE
  {
    Lookup(tab[Bucket(hash)], recs, hash) == Highest(recs, hash, |recs|)
  }

  ghost predicate FindsAll(tab: seq<nat>, recs: seq<Rec>)
    requires |tab| == TABLE_SIZE
  {
    forall hash :: Finds(tab, recs, hash)
  }

  /** The table is right when every bucket value keeps its promise: then searches agree with the plain scan. */
  lemma LookupIsScan(tab: seq<nat>, recs: seq<Rec>, hash: Hash)
    requires TableOk(tab, recs)
    ensures Finds(tab, recs, hash)
  {
    var v := tab[Bucket(hash)];
    assert BucketOk(recs, Bucket(hash), v);
    if v == NULL_POS {
      SearchFrom(recs, hash, -1, |recs|);
    } else if v != SEARCH_POS && v < |recs| {
      SearchFrom(recs, hash, v, |recs|);
    }
  }

  /** A search may start at any bound of the bucket. */
  lemma {:induction false} SearchFrom(recs: seq<Rec>, hash: Hash, v: int, end: nat)
    requires -1 <= v < end <= |recs| && Bounded(recs, Bucket(hash), v)
    ensures Highest(recs, hash, end) == Highest(recs, hash, v + 1)
    decreases end
  {
    if v + 1 < end {
      SearchFrom(recs, hash, v, end - 1);
    }
  }

  /** The bucket of r already allows for a record at this place. */
  predicate ResetSafe(tab: seq<nat>, pos: nat, r: Rec)
    requires |tab| == TABLE_SIZE
  {
    var v := tab[Bucket(r.hash)];
    !Live(r) || v == SEARCH_POS || (v != NULL_POS && pos <= v)
  }

  /** bc_idx_reset leaves the table alone, so it keeps it right exactly when the bucket allows for the new record. */
  lemma ResetSafeIff(tab: seq<nat>, recs: seq<Rec>, pos: nat, r: Rec)
    requires TableOk(tab, recs) && pos < |recs|
    ensures TableOk(tab, recs[pos := r]) <==> ResetSafe(tab, pos, r)
  {
    var after := recs[pos := r];
    var v := tab[Bucket(r.hash)];
    assert BucketOk(recs, Bucket(r.hash), v);
    if TableOk(tab, after) {
      assert BucketOk(after, Bucket(r.hash), v);
      assert after[pos] == r;
    }
    if ResetSafe(tab, pos, r) {
      forall b | 0 <= b < TABLE_SIZE
        ensures BucketOk(after, b, tab[b])
      {
        assert BucketOk(recs, b, tab[b]);
      }
    }
  }

  /** And exactly then does every later search agree with the plain scan: otherwise the one for the new record misses it. */
  lemma ResetFindsIff(tab: seq<nat>, recs: seq<Rec>, pos: nat, r: Rec)
    requires TableOk(tab, recs) && pos < |recs|
    ensures ResetSafe(tab, pos, r) <==> FindsAll(tab, recs[pos := r])
    ensures !ResetSafe(tab, pos, r) ==>
      Lookup(tab[Bucket(r.hash)], recs[pos := r], r.hash) < pos <= Highest(recs[pos := r], r.hash, |recs|)
  {
    var after := recs[pos := r];
    ResetSafeIff(tab, recs, pos, r);
    if ResetSafe(tab, pos, r) {
      forall h: Hash
        ensures Finds(tab, after, h)
      {
        LookupIsScan(tab, after, h);
      }
    } else {
      assert BucketOk(recs, Bucket(r.hash), tab[Bucket(r.hash)]);
      assert after[pos] == r;
      assert !Finds(tab, after, r.hash);
    }
  }

  /** Such a state: the second record is live, the bucket of the hash 1 bears the null mark, and the reset gives the record that hash. */
  lemma ResetCanMiss(hash: Hash, recs: seq<Rec>, tab: seq<nat>)
    requires hash == [1, 0, 0, 0, 0, 0, 0, 0]
    requires recs == [Rec(1, 0, 5, 0, Blank.hash), Rec(1, 5, 5, 0, Blank.hash)]
    requires tab == seq(TABLE_SIZE, _ => SEARCH_POS)[Bucket(hash) := NULL_POS]
    ensures TableOk(tab, recs)
    ensures Lookup(tab[Bucket(hash)], recs[1 := recs[1].(hash := hash)], hash) == -1
    ensures Highest(recs[1 := recs[1].(hash := hash)], hash, 2) == 1
  {
    assert Sum(hash) == 1 && Sum(Blank.hash) == 0 by {
      SumOfHead(1, hash);
      SumOfHead(0, Blank.hash);
    }
  }

  lemma SumOfHead(w: nat, hash: Hash)
    requires hash == [w, 0, 0, 0, 0, 0, 0, 0]
    ensures Sum(hash) == w
  {
    SumZeros(hash, 8);
    assert hash[..8] == hash;
  }

  lemma {:induction false} SumZeros(hash: Hash, k: nat)
    requires 1 <= k <= |hash| && forall i :: 1 <= i < |hash| ==> hash[i] == 0
    ensures Sum(hash[..k]) == hash[0]
  {
    assert hash[..k][..k - 1] == hash[..k - 1];
    if k > 1 {
      SumZeros(hash, k - 1);
    } else {
      assert hash[..0] == [];
    }
  }

  /** It does for a record of the bucket that the place had before. */
  lemma SameBucketSafe(tab: seq<nat>, recs: seq<Rec>, pos: nat, r: Rec)
    requires TableOk(tab, recs) && pos < |recs| && Live(recs[pos]) && Bucket(r.hash) == Bucket(recs[pos].hash)
    ensures ResetSafe(tab, pos, r)
  {
    assert BucketOk(recs, Bucket(r.hash), tab[Bucket(r.hash)]);
  }

  /** Emptying a place keeps the table right. */
  lemma TableKeeps(tab: seq<nat>, recs: seq<Rec>, at: nat, after: seq<Rec>)
    requires TableOk(tab, recs) && after == Overwrite(recs, at, [Blank], Blank)
    ensures TableOk(tab, after)
  {
    forall b | 0 <= b < TABLE_SIZE
      ensures BucketOk(after, b, tab[b])
    {
      assert BucketOk(recs, b, tab[b]);
    }
  }

  /** So does any new record whose bucket is set back to "search". */
  lemma TableResets(tab: seq<nat>, recs: seq<Rec>, at: nat, r: Rec, after: seq<Rec>)
    requires TableOk(tab, recs) && after == Overwrite(recs, at, [r], Blank)
    requires at >= |recs| || !Live(recs[at])
    ensures TableOk(tab[Bucket(r.hash) := SEARCH_POS], after)
  {
    var tab' := tab[Bucket(r.hash) := SEARCH_POS];
    forall b | 0 <= b < TABLE_SIZE
      ensures BucketOk(after, b, tab'[b])
    {
      assert BucketOk(recs, b, tab[b]);
    }
  }

  // ---------- Where a record may be written ----------

  /** bc_idx_set asks for the bytes by which the record would end past the map. */
  function SetRoom(m: FileMap<Rec>, pos: nat): (r: FileMap<Rec>)
    requires RecordMap(m) && RecordCap(pos) < TWO32
    ensures r.data == m.data && Mapped(r, RECORD_SIZE) && m.size <= r.size
    ensures r.size == m.size || r.size <= RecordCap(pos)
  {
    if pos >= |m.data| && RECORD_SIZE * pos + RECORD_SIZE > m.size then
      var len := RECORD_SIZE * pos + RECORD_SIZE - m.size;
      AskedFits(m.size, len, pos);
      MapAlloc(m, RECORD_SIZE, len)
    else m
  }

  lemma AskedFits(size: nat, len: nat, pos: nat)
    requires size + len == RECORD_SIZE * pos + RECORD_SIZE
    ensures GrownSize(size, len) <= RecordCap(pos)
  {
    GrownMonotone(size + len, HEADER_SIZE + RECORD_SIZE * pos + RECORD_SIZE + RECORD_SIZE, 0);
  }

  /** Where bc_idx_set writes inside the map: up to the end of the index, and past it only near or far from the map's end. */
  predicate SetLands(m: FileMap<Rec>, pos: nat) {
    || pos <= |m.data|
    || RECORD_SIZE * (pos + 1) < m.size
    || RECORD_SIZE * (|m.data| + pos) + 80 >= 2 * m.size
  }

  function Larger(x: nat, y: nat): nat {
    if x >= y then x else y
  }

  /** Making room for one record grows a map by no more than the cap for its records. */
  lemma OneMoreRecord(m: FileMap<Rec>)
    requires Mapped(m, RECORD_SIZE) && RecordCap(|m.data|) < TWO32
    ensures CanAlloc(m, RECORD_SIZE, RECORD_SIZE)
    ensures MapAlloc(m, RECORD_SIZE, RECORD_SIZE).size <= Larger(m.size, RecordCap(|m.data|))
  {
    if HEADER_SIZE + Offset(m, RECORD_SIZE) + RECORD_SIZE >= m.size {
      GrownMonotone(m.size, HEADER_SIZE + Offset(m, RECORD_SIZE) + RECORD_SIZE, RECORD_SIZE);
    }
  }

  /** Sizes are s = 64k, s1 after bc_idx_set made room and s2 after bc_map_write did. */
  lemma LandingPlaces(c: nat, pos: nat, k: nat, s: nat, s1: nat, s2: nat)
    requires s == 64 * k && 16 + 64 * c < s && s >= 16384
    requires if pos >= c && 64 * pos + 64 > s && 16 + 64 * c + (64 * pos + 64 - s) >= s
      then 10 * s1 > 11 * (64 * pos + 64) - 10 else s1 == s
    requires if 16 + 64 * c + 64 < s1 then s2 == s1 else s2 > s1 + 64
    ensures (16 + 64 * (pos + 1) <= s2) == (pos <= c || 64 * (pos + 1) < s || 64 * (c + pos) + 80 >= 2 * s)
  {
  }

  /** That condition is exact: elsewhere the record is copied past the end of the map. */
  lemma SetLandsIff(m: FileMap<Rec>, pos: nat, r: Rec)
    requires RecordMap(m) && RecordCap(Larger(|m.data|, pos)) < TWO32
    ensures RecordCap(pos) < TWO32 && CanAlloc(SetRoom(m, pos), RECORD_SIZE, RECORD_SIZE * |[r]|)
    ensures Lands(MapAlloc(SetRoom(m, pos), RECORD_SIZE, RECORD_SIZE * |[r]|), RECORD_SIZE, pos, [r]) <==> SetLands(m, pos)
  {
    CapMonotone(pos, Larger(|m.data|, pos));
    CapMonotone(|m.data|, Larger(|m.data|, pos));
    var room := SetRoom(m, pos);
    OneMoreRecord(room);
    WholeBlocks(m.size);
    RoomSize(m, pos);
    LandingPlaces(|m.data|, pos, m.size / 64, m.size, room.size, MapAlloc(room, RECORD_SIZE, RECORD_SIZE).size);
  }

  /** A place of a new map at which neither a set nor a clear stays inside it. */
  lemma LastPlaceOfNewMap()
    ensures RecordMap<Rec>(NewMap()) && !SetLands(NewMap(), 255) && !ClearLands(NewMap(), 255)
  {
  }

  lemma WholeBlocks(size: nat)
    requires 0 < size && size % BLOCK_SIZE == 0
    ensures size == 64 * (size / 64) && size >= 16384
  {
    var q := size / BLOCK_SIZE;
    RecordsOf(size, 256 * q);
  }

  lemma RecordsOf(size: nat, n: nat)
    requires size == 64 * n
    ensures size / 64 == n
  {
  }

  lemma RoomSize(m: FileMap<Rec>, pos: nat)
    requires RecordMap(m) && RecordCap(pos) < TWO32
    ensures var (c, s, s1) := (|m.data|, m.size, SetRoom(m, pos).size);
      if pos >= c && 64 * pos + 64 > s && 16 + 64 * c + (64 * pos + 64 - s) >= s
      then 10 * s1 > 11 * (64 * pos + 64) - 10 else s1 == s
  {
  }

  lemma SetFits(m: FileMap<Rec>, pos: nat, r: Rec)
    requires RecordMap(m) && RecordCap(Larger(|m.data|, pos)) < TWO32 && SetLands(m, pos)
    ensures RecordCap(pos) < TWO32 && CanAlloc(SetRoom(m, pos), RECORD_SIZE, RECORD_SIZE * |[r]|)
    ensures Lands(MapAlloc(SetRoom(m, pos), RECORD_SIZE, RECORD_SIZE * |[r]|), RECORD_SIZE, pos, [r])
    ensures RecordMap(MapWrite(SetRoom(m, pos), RECORD_SIZE, pos, [r], Blank))
  {
    SetLandsIff(m, pos, r);
    CapMonotone(|m.data|, Larger(|m.data|, pos));
    var room := SetRoom(m, pos);
    OneMoreRecord(room);
    WrittenIsRecordMap(m, room, pos, r);
  }

  lemma WrittenIsRecordMap(m: FileMap<Rec>, room: FileMap<Rec>, pos: nat, r: Rec)
    requires Mapped(room, RECORD_SIZE) && room.data == m.data && CanAlloc(room, RECORD_SIZE, RECORD_SIZE * |[r]|)
    requires var a := MapAlloc(room, RECORD_SIZE, RECORD_SIZE * |[r]|);
      Lands(a, RECORD_SIZE, pos, [r]) && a.size <= Larger(RecordCap(|m.data|), RecordCap(pos))
    ensures RecordMap(MapWrite(room, RECORD_SIZE, pos, [r], Blank))
  {
    var after := MapWrite(room, RECORD_SIZE, pos, [r], Blank);
    CapMonotone(|m.data|, |after.data|);
    CapMonotone(pos, |after.data|);
    StrictlyInside(after.size, |after.data|);
  }

  /** A whole number of blocks that holds the header and the records holds more than these. */
  lemma StrictlyInside(size: nat, count: nat)
    requires size % BLOCK_SIZE == 0 && HEADER_SIZE + RECORD_SIZE * count <= size
    ensures HEADER_SIZE + RECORD_SIZE * count < size
  {
  }

  /** bc_idx_clear leaves alone what it takes for unmapped. */
  predicate ClearSkips(m: FileMap<Rec>, pos: nat) {
    pos >= |m.data| && RECORD_SIZE * pos + RECORD_SIZE > m.size
  }

  /** It forgets the header there: past the end of the index, the last record of the map is the one that does not fit. */
  predicate ClearLands(m: FileMap<Rec>, pos: nat) {
    pos <= |m.data| || RECORD_SIZE * (pos + 1) != m.size
  }

  lemma ClearLandsIff(m: FileMap<Rec>, pos: nat)
    requires RecordMap(m) && RecordCap(|m.data|) < TWO32
    ensures CanAlloc(m, RECORD_SIZE, RECORD_SIZE * |[Blank]|)
    ensures ClearLands(m, pos) <==>
      ClearSkips(m, pos) || Lands(MapAlloc(m, RECORD_SIZE, RECORD_SIZE * |[Blank]|), RECORD_SIZE, pos, [Blank])
  {
    OneMoreRecord(m);
    WholeBlocks(m.size);
    ClearPlaces(|m.data|, pos, m.size / 64, m.size, MapAlloc(m, RECORD_SIZE, RECORD_SIZE).size);
  }

  /** Sizes are s = 64k, and s2 after bc_map_write made room. */
  lemma ClearPlaces(c: nat, pos: nat, k: nat, s: nat, s2: nat)
    requires s == 64 * k && 16 + 64 * c < s
    requires if 16 + 64 * c + 64 < s then s2 == s else s2 > s + 64
    ensures (pos <= c || 64 * (pos + 1) != s) == ((pos >= c && 64 * pos + 64 > s) || 16 + 64 * (pos + 1) <= s2)
  {
  }

  lemma ClearFits(m: FileMap<Rec>, pos: nat)
    requires RecordMap(m) && RecordCap(|m.data|) < TWO32 && ClearLands(m, pos) && !ClearSkips(m, pos)
    ensures CanAlloc(m, RECORD_SIZE, RECORD_SIZE * |[Blank]|)
    ensures Lands(MapAlloc(m, RECORD_SIZE, RECORD_SIZE * |[Blank]|), RECORD_SIZE, pos, [Blank])
    ensures RecordMap(MapWrite(m, RECORD_SIZE, pos, [Blank], Blank))
  {
    ClearLandsIff(m, pos);
    OneMoreRecord(m);
    WrittenIsRecordMap(m, m, pos, Blank);
  }

  class Index {
    var idx: FileMap<Rec>
    var tab: seq<nat>

    ghost predicate Valid()
      reads this
    {
      RecordMap(idx) && TableOk(tab, idx.data)
    }

    constructor ()
      ensures Valid() && idx.data == []
    {
      idx := NewMap();
      tab := seq(TABLE_SIZE, _ => SEARCH_POS);
    }

    // ---------- The table ----------

    method TableGet(hash: Hash) returns (err: Error, pos: nat)
      requires |tab| == TABLE_SIZE
      ensures var v := tab[Bucket(hash)];
        && err == (if v == SEARCH_POS then Search else if v == NULL_POS then NoEntry else None)
        && pos == if err == None then v else NULL_POS
    {
      pos := NULL_POS;
      var b := TableHash(hash);
      if tab[b] == SEARCH_POS {
        return Search, pos;
      }
      if tab[b] == NULL_POS {
        return NoEntry, pos;
      }
      return None, tab[b];
    }

    /** Raises the bucket to pos; a mark is replaced. */
    method TableSet(hash: Hash, pos: nat) returns (err: Error)
      requires |tab| == TABLE_SIZE
      modifies this`tab
      ensures err == if pos >= POS_MASK then Invalid else None
      ensures var v := old(tab)[Bucket(hash)];
        tab == if err == None && (v < pos || v >= POS_MASK) then old(tab)[Bucket(hash) := pos] else old(tab)
    {
      if pos >= POS_MASK {
        return Invalid;
      }
      var b := TableHash(hash);
      if tab[b] < pos || tab[b] >= POS_MASK {
        tab := tab[b := pos];
      }
      return None;
    }

    method TableUnset(hash: Hash)
      requires |tab| == TABLE_SIZE
      modifies this`tab
      ensures tab == old(tab)[Bucket(hash) := NULL_POS]
    {
      var b := TableHash(hash);
      tab := tab[b := NULL_POS];
    }

    method TableReset(hash: Hash)
      requires |tab| == TABLE_SIZE
      modifies this`tab
      ensures tab == old(tab)[Bucket(hash) := SEARCH_POS]
      ensures old(Valid()) ==> Valid()
    {
      var b := TableHash(hash);
      tab := tab[b := SEARCH_POS];
      assert forall c :: 0 <= c < TABLE_SIZE && c != b ==> tab[c] == old(tab)[c];
    }

    method TableClear()
      requires |tab| == TABLE_SIZE
      modifies this`tab
      ensures |tab| == TABLE_SIZE && forall b :: 0 <= b < TABLE_SIZE ==> tab[b] == SEARCH_POS
      ensures old(Valid()) ==> Valid()
    {
      tab := seq(TABLE_SIZE, _ => SEARCH_POS);
    }

    // ---------- The index ----------

    method Next() returns (n: nat)
      ensures n == |idx.data|
    {
      n := Offset(idx, RECORD_SIZE) / RECORD_SIZE;
    }

    method Get(pos: nat) returns (err: Error, r: Rec)
      ensures err == if pos < |idx.data| && Live(idx.data[pos]) then None else NoEntry
      ensures err == None ==> r == idx.data[pos]
    {
      var n := Next();
      if pos >= n || idx.data[pos].size == 0 {
        return NoEntry, Blank;
      }
      return None, idx.data[pos];
    }

    /** Stores a record in an empty place. */
    method Set(pos: nat, r: Rec) returns (err: Error)
      requires Valid() && SetLands(idx, pos) && RecordCap(Larger(|idx.data|, pos)) < TWO32
      modifies this
      ensures Valid()
      ensures err == if pos < |old(idx.data)| && Live(old(idx.data)[pos]) then Exists else None
      ensures idx.data == if err == None then Overwrite(old(idx.data), pos, [r], Blank) else old(idx.data)
      ensures err != None ==> tab == old(tab) && idx == old(idx)
    {
      var got, _ := Get(pos);
      if got != NoEntry {
        return Exists;
      }
      SetFits(idx, pos, r);
      TableResets(tab, idx.data, pos, r, Overwrite(idx.data, pos, [r], Blank));
      idx := MapWrite(SetRoom(idx, pos), RECORD_SIZE, pos, [r], Blank);
      TableReset(r.hash);
      return None;
    }

    /** Replaces a live record; the table stays right exactly if the record's bucket allows for it. */
    method Reset(pos: nat, r: Rec) returns (err: Error)
      requires Valid() && RecordCap(|idx.data|) < TWO32
      modifies this`idx
      ensures RecordMap(idx) && TableShape(tab, idx.data)
      ensures Valid() <==> err == NoEntry || ResetSafe(tab, pos, r)
      ensures err == if pos < |old(idx.data)| && Live(old(idx.data)[pos]) then None else NoEntry
      ensures idx.data == if err == None then old(idx.data)[pos := r] else old(idx.data)
    {
      OkHasShape(tab, idx.data);
      var got, _ := Get(pos);
      if got != None {
        return NoEntry;
      }
      RecordFits(idx, pos, r, Blank);
      ResetSafeIff(tab, idx.data, pos, r);
      idx := MapWrite(idx, RECORD_SIZE, pos, [r], Blank);
      assert idx.data == old(idx.data)[pos := r];
      return None;
    }

    /** Empties a place; past the end, where the map reaches, the index grows by empty places. */
    method Clear(pos: nat)
      requires Valid() && ClearLands(idx, pos) && RecordCap(|idx.data|) < TWO32
      modifies this`idx
      ensures Valid()
      ensures idx.data == if ClearSkips(old(idx), pos) then old(idx.data) else Overwrite(old(idx.data), pos, [Blank], Blank)
    {
      if !ClearSkips(idx, pos) {
        ClearFits(idx, pos);
        TableKeeps(tab, idx.data, pos, Overwrite(idx.data, pos, [Blank], Blank));
        idx := MapWrite(idx, RECORD_SIZE, pos, [Blank], Blank);
      }
    }

    /** The highest live place with this hash, found from the bound that the table gives; the table learns from the search. */
    method Find(hash: Hash) returns (err: Error, r: Rec, pos: int)
      requires RecordMap(idx) && TableShape(tab, idx.data)
      modifies this`tab
      ensures TableShape(tab, idx.data)
      ensures pos == Lookup(old(tab)[Bucket(hash)], idx.data, hash)
      ensures err == (if pos == -1 then NoEntry else None) && r == if pos == -1 then Blank else idx.data[pos]
      ensures old(Valid()) ==> Valid() && pos == Highest(idx.data, hash, |idx.data|)
    {
      if TableOk(tab, idx.data) {
        LookupIsScan(tab, idx.data, hash);
      }
      r, pos := Blank, -1;
      var e, p := TableGet(hash);
      assert BucketShape(idx.data, tab[Bucket(hash)]);
      if e == NoEntry {
        return NoEntry, r, pos;
      }
      var i, high := SearchStart(hash, e, p);
      i, high := ScanBack(hash, i, high);
      Learn(hash, p, i, high);
      if i < 0 {
        return NoEntry, r, pos;
      }
      return None, idx.data[i], i;
    }

    /** Where the backward search starts: at the bound if the table has one inside the index, else at the end. */
    method SearchStart(hash: Hash, e: Error, p: nat) returns (start: int, high: int)
      requires RecordMap(idx) && |tab| == TABLE_SIZE
      requires e == Search || (e == None && p == tab[Bucket(hash)] < 0x80000000 && |idx.data| > 0)
      ensures if e == None && p < |idx.data| then start == high == p else high == -1 && start == |idx.data| - 1
    {
      high := if e == None then p else -1;
      var n: int := Next();
      var len := Unsigned(n - 1);
      if Unsigned(high) > len {
        high := -1;
      }
      if high != -1 {
        len := high;
      }
      start := if len >= 0x80000000 then len - TWO32 else len;
    }

    /** The loop of the search: stops at the hash, and notes the highest place of the same bucket. */
    method ScanBack(hash: Hash, start: int, bound: int) returns (i: int, high: int)
      requires -1 <= start < |idx.data| && (bound == -1 || bound == start)
      ensures i == Highest(idx.data, hash, start + 1)
      ensures i <= high < |idx.data| && (bound != -1 ==> high == bound)
      ensures forall j :: 0 <= j <= start && Live(idx.data[j]) && Bucket(idx.data[j].hash) == Bucket(hash) ==> j <= high
    {
      var tabHash := TableHash(hash);
      i, high := start, bound;
      while i >= 0
        invariant -1 <= i <= start
        invariant Highest(idx.data, hash, start + 1) == Highest(idx.data, hash, i + 1)
        invariant bound <= high <= start && (bound != -1 ==> high == bound)
        invariant high == -1 || i < high || high == bound
        invariant forall j :: i < j <= start && Live(idx.data[j]) && Bucket(idx.data[j].hash) == Bucket(hash) ==> j <= high
      {
        if idx.data[i].size == 0 {
          i := i - 1;
          continue;
        }
        var b := TableHash(idx.data[i].hash);
        if b == tabHash {
          high := if high >= i then high else i;
        }
        if hash == idx.data[i].hash {
          break;
        }
        i := i - 1;
      }
    }

    /** The table notes the highest place of the bucket that the search saw, or that there is none. */
    method Learn(hash: Hash, p: nat, i: int, high: int)
      requires RecordMap(idx) && TableShape(tab, idx.data) && -1 <= i <= high < |idx.data|
      modifies this`tab
      ensures TableShape(tab, idx.data)
      ensures old(Valid()) && Bounded(idx.data, Bucket(hash), high) ==> Valid()
    {
      if high != -1 {
        if p != high {
          var _ := TableSet(hash, high);
        }
      } else if i < 0 {
        TableUnset(hash);
      }
      assert forall b :: 0 <= b < TABLE_SIZE && b != Bucket(hash) ==> tab[b] == old(tab)[b];
      if TableOk(old(tab), idx.data) && Bounded(idx.data, Bucket(hash), high) {
        TableLearns(old(tab), idx.data, hash, tab, high);
      }
    }
  }

  /** An int turned into a 32-bit size. */
  function Unsigned(x: int): nat {
    x % TWO32
  }

  lemma TableLearns(tab: seq<nat>, recs: seq<Rec>, hash: Hash, after: seq<nat>, high: int)
    requires TableOk(tab, recs) && Bounded(recs, Bucket(hash), high)
    requires |after| == TABLE_SIZE && forall b :: 0 <= b < TABLE_SIZE && b != Bucket(hash) ==> after[b] == tab[b]
    requires var v := after[Bucket(hash)];
      v == tab[Bucket(hash)] || (v == NULL_POS && high == -1) || (v == high && 0 <= high < 0x80000000 && |recs| > 0)
    ensures TableOk(after, recs)
  {
    forall b | 0 <= b < TABLE_SIZE
      ensures BucketOk(recs, b, after[b])
    {
      assert BucketOk(recs, b, tab[b]);
    }
  }
}
