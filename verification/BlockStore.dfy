/** The block database: journals of bytes, the index that tells where each block lies, and the archive of displaced blocks. */
module BlockStore {
  import opened ByteStrings
  import opened Bits
  import opened FileMaps
  import opened BlockIndex

  const BLOCKS_PER_JOURNAL: int := 65536

  type Journals = map<nat, FileMap<Byte>>
  type Crc = seq<Byte> -> int

  /** The journal that holds the block at pos; there is no journal 0. */
  function JournalOf(pos: nat): nat {
    pos / BLOCKS_PER_JOURNAL + 1
  }

  /** Journal j holds the positions from 65536 (j - 1) on, 65536 of them. */
  lemma JournalHolds(pos: nat, j: nat)
    ensures JournalOf(pos) == j <==> 65536 * (j - 1) <= pos < 65536 * j
  {
  }

  // ---------- Records and their bytes ----------

  /** The record lies in its journal. */
  predicate InJournal(r: Rec, js: Journals) {
    r.jrnl in js && r.of + r.size <= |js[r.jrnl].data|
  }

  function BytesOf(r: Rec, js: Journals): seq<Byte> {
    if InJournal(r, js) then js[r.jrnl].data[r.of..r.of + r.size] else []
  }

  /** The record lies in its journal and its checksum is that of its bytes. */
  predicate Placed(crc: Crc, r: Rec, js: Journals) {
    Live(r) ==> InJournal(r, js) && crc(BytesOf(r, js)) == r.crc
  }

  /** The records share no byte. */
  predicate Apart(r: Rec, s: Rec) {
    !Live(r) || !Live(s) || r.jrnl != s.jrnl || r.of + r.size <= s.of || s.of + s.size <= r.of
  }

  ghost predicate AllPlaced(crc: Crc, recs: seq<Rec>, js: Journals) {
    forall i :: 0 <= i < |recs| ==> Placed(crc, recs[i], js)
  }

  /** r shares no byte with any of the records. */
  ghost predicate ApartFrom(recs: seq<Rec>, r: Rec) {
    forall i :: 0 <= i < |recs| ==> Apart(recs[i], r)
  }

  ghost predicate AllApart(recs: seq<Rec>) {
    forall i, j :: 0 <= i < j < |recs| ==> Apart(recs[i], recs[j])
  }

  ghost predicate BothApart(idx: seq<Rec>, arch: seq<Rec>) {
    forall i, a :: 0 <= i < |idx| && 0 <= a < |arch| ==> Apart(idx[i], arch[a])
  }

  ghost predicate InOwnJournal(idx: seq<Rec>) {
    forall i :: 0 <= i < |idx| && Live(idx[i]) ==> idx[i].jrnl == JournalOf(i)
  }

  /** Live and archived records all lie in their journals and share no byte. */
  ghost predicate Sound(crc: Crc, idx: seq<Rec>, arch: seq<Rec>, js: Journals) {
    && AllPlaced(crc, idx, js) && AllPlaced(crc, arch, js)
    && AllApart(idx) && AllApart(arch) && BothApart(idx, arch)
    && InOwnJournal(idx)
  }

  /** What a caller stores: a hash and bytes. */
  datatype Block = Block(hash: Hash, bytes: seq<Byte>)

  function BlockOf(r: Rec, js: Journals): Block {
    Block(r.hash, BytesOf(r, js))
  }

  /** The database as a map from positions to blocks. */
  function ViewOf(idx: seq<Rec>, js: Journals): map<nat, Block> {
    map i: nat | i < |idx| && Live(idx[i]) :: BlockOf(idx[i], js)
  }

  function ArchiveOf(arch: seq<Rec>, js: Journals): seq<Block> {
    seq(|arch|, a requires 0 <= a < |arch| => BlockOf(arch[a], js))
  }

  // ---------- What a change of the journals keeps ----------

  /** Every journal still starts with what it held. */
  predicate Extends(js: Journals, more: Journals) {
    forall j :: j in js ==> j in more && js[j].data <= more[j].data
  }

  lemma GrowKeeps(crc: Crc, idx: seq<Rec>, arch: seq<Rec>, js: Journals, more: Journals)
    requires Sound(crc, idx, arch, js) && Extends(js, more)
    ensures Sound(crc, idx, arch, more)
    ensures ViewOf(idx, more) == ViewOf(idx, js)
    ensures SameBytes(arch, js, more)
  {
    forall i | 0 <= i < |idx|
      ensures Placed(crc, idx[i], more) && (Live(idx[i]) ==> BytesOf(idx[i], more) == BytesOf(idx[i], js))
    {
      BytesGrow(crc, idx[i], js, more);
    }
    forall a | 0 <= a < |arch|
      ensures Placed(crc, arch[a], more) && (Live(arch[a]) ==> BytesOf(arch[a], more) == BytesOf(arch[a], js))
    {
      BytesGrow(crc, arch[a], js, more);
    }
  }

  /** The live ones of these records have the same bytes in both. */
  ghost predicate SameBytes(recs: seq<Rec>, js: Journals, more: Journals) {
    forall a :: 0 <= a < |recs| && Live(recs[a]) ==> BytesOf(recs[a], more) == BytesOf(recs[a], js)
  }

  lemma BytesGrow(crc: Crc, r: Rec, js: Journals, more: Journals)
    requires Placed(crc, r, js) && Extends(js, more)
    ensures Placed(crc, r, more) && (Live(r) ==> BytesOf(r, more) == BytesOf(r, js))
  {
    if Live(r) {
      var d, e := js[r.jrnl].data, more[r.jrnl].data;
      assert d <= e;
      assert e[r.of..r.of + r.size] == d[r.of..r.of + r.size];
    }
  }

  /** A record behind the data of a journal shares no byte with any that lies in it. */
  lemma BehindIsApart(crc: Crc, recs: seq<Rec>, js: Journals, r: Rec)
    requires AllPlaced(crc, recs, js) && (r.jrnl in js ==> |js[r.jrnl].data| <= r.of)
    ensures ApartFrom(recs, r)
  {
    forall i | 0 <= i < |recs|
      ensures Apart(recs[i], r)
    {
      assert Placed(crc, recs[i], js);
    }
  }

  /** A new record in an empty place of the index. */
  lemma SetKeeps(crc: Crc, idx: seq<Rec>, arch: seq<Rec>, js: Journals, pos: nat, r: Rec, after: seq<Rec>)
    requires Sound(crc, idx, arch, js) && after == Overwrite(idx, pos, [r], Blank)
    requires pos >= |idx| || !Live(idx[pos])
    requires Placed(crc, r, js) && ApartFrom(idx, r) && ApartFrom(arch, r)
    requires Live(r) ==> r.jrnl == JournalOf(pos)
    ensures Sound(crc, after, arch, js)
    ensures ViewOf(after, js) == if Live(r) then ViewOf(idx, js)[pos := BlockOf(r, js)] else ViewOf(idx, js)
  {
    SetPlaced(crc, idx, js, pos, r, after);
    SetApart(idx, pos, r, after);
    SetBoth(idx, arch, pos, r, after);
    SetView(idx, js, pos, r, after);
  }

  lemma SetPlaced(crc: Crc, idx: seq<Rec>, js: Journals, pos: nat, r: Rec, after: seq<Rec>)
    requires AllPlaced(crc, idx, js) && after == Overwrite(idx, pos, [r], Blank) && Placed(crc, r, js)
    ensures AllPlaced(crc, after, js)
  {
    forall i | 0 <= i < |after|
      ensures Placed(crc, after[i], js)
    {
      assert i < |idx| ==> Placed(crc, idx[i], js);
      assert after[i] == if i == pos then [r][0] else if i < |idx| then idx[i] else Blank;
    }
  }

  lemma SetApart(idx: seq<Rec>, pos: nat, r: Rec, after: seq<Rec>)
    requires AllApart(idx) && ApartFrom(idx, r) && after == Overwrite(idx, pos, [r], Blank)
    ensures AllApart(after)
  {
    forall i, j | 0 <= i < j < |after|
      ensures Apart(after[i], after[j])
    {
      assert after[pos] == [r][0];
      if i < |idx| && j < |idx| {
        assert Apart(idx[i], idx[j]);
      }
    }
  }

  lemma SetBoth(idx: seq<Rec>, arch: seq<Rec>, pos: nat, r: Rec, after: seq<Rec>)
    requires BothApart(idx, arch) && ApartFrom(arch, r) && after == Overwrite(idx, pos, [r], Blank)
    ensures BothApart(after, arch)
  {
    forall i, a | 0 <= i < |after| && 0 <= a < |arch|
      ensures Apart(after[i], arch[a])
    {
      assert after[pos] == [r][0];
      assert Apart(arch[a], r);
      if i < |idx| {
        assert Apart(idx[i], arch[a]);
      }
    }
  }

  lemma SetView(idx: seq<Rec>, js: Journals, pos: nat, r: Rec, after: seq<Rec>)
    requires after == Overwrite(idx, pos, [r], Blank) && (pos >= |idx| || !Live(idx[pos]))
    ensures ViewOf(after, js) == if Live(r) then ViewOf(idx, js)[pos := BlockOf(r, js)] else ViewOf(idx, js)
  {
    var v := ViewOf(idx, js);
    forall i: nat
      ensures i in ViewOf(after, js) <==> i in v || (i == pos && Live(r))
      ensures i in ViewOf(after, js) ==> ViewOf(after, js)[i] == if i == pos then BlockOf(r, js) else v[i]
    {
      assert i < |after| ==> after[i] == if i == pos then [r][0] else if i < |idx| then idx[i] else Blank;
    }
  }

  /** Moving a live record to the archive. */
  lemma MoveKeeps(crc: Crc, idx: seq<Rec>, arch: seq<Rec>, js: Journals, pos: nat)
    requires Sound(crc, idx, arch, js) && pos < |idx|
    ensures Sound(crc, idx[pos := Blank], arch + [idx[pos]], js)
    ensures ViewOf(idx[pos := Blank], js) == ViewOf(idx, js) - {pos}
    ensures ArchiveOf(arch + [idx[pos]], js) == ArchiveOf(arch, js) + [BlockOf(idx[pos], js)]
  {
    MoveBoth(idx, arch, pos);
    MoveArchive(idx, arch, pos);
    MovePlaced(crc, idx, arch, js, pos);
    MoveViews(idx, arch, js, pos);
  }

  lemma MovePlaced(crc: Crc, idx: seq<Rec>, arch: seq<Rec>, js: Journals, pos: nat)
    requires AllPlaced(crc, idx, js) && AllPlaced(crc, arch, js) && AllApart(idx) && InOwnJournal(idx) && pos < |idx|
    ensures AllPlaced(crc, idx[pos := Blank], js) && AllPlaced(crc, arch + [idx[pos]], js)
    ensures AllApart(idx[pos := Blank]) && InOwnJournal(idx[pos := Blank])
  {
    assert Placed(crc, idx[pos], js);
  }

  lemma MoveViews(idx: seq<Rec>, arch: seq<Rec>, js: Journals, pos: nat)
    requires pos < |idx|
    ensures ViewOf(idx[pos := Blank], js) == ViewOf(idx, js) - {pos}
    ensures ArchiveOf(arch + [idx[pos]], js) == ArchiveOf(arch, js) + [BlockOf(idx[pos], js)]
  {
  }

  lemma MoveBoth(idx: seq<Rec>, arch: seq<Rec>, pos: nat)
    requires AllApart(idx) && BothApart(idx, arch) && pos < |idx|
    ensures BothApart(idx[pos := Blank], arch + [idx[pos]])
  {
    var after, moved := idx[pos := Blank], arch + [idx[pos]];
    forall i, a | 0 <= i < |after| && 0 <= a < |moved|
      ensures Apart(after[i], moved[a])
    {
      assert i < pos ==> Apart(idx[i], idx[pos]);
      assert pos < i ==> Apart(idx[pos], idx[i]);
      assert a < |arch| ==> Apart(idx[i], arch[a]);
    }
  }

  lemma MoveArchive(idx: seq<Rec>, arch: seq<Rec>, pos: nat)
    requires AllApart(arch) && BothApart(idx, arch) && pos < |idx|
    ensures AllApart(arch + [idx[pos]])
  {
    forall a | 0 <= a < |arch|
      ensures Apart(arch[a], idx[pos])
    {
      assert Apart(idx[pos], arch[a]);
    }
  }

  /** Writing a live record's bytes anew, with the checksum that goes with them. */
  lemma RewriteKeeps(crc: Crc, idx: seq<Rec>, arch: seq<Rec>, js: Journals, pos: nat, data: seq<Byte>, more: Journals)
    requires Sound(crc, idx, arch, js) && pos < |idx| && Live(idx[pos]) && |data| == idx[pos].size
    requires Rewritten(js, idx[pos], data, more)
    ensures Sound(crc, idx[pos := idx[pos].(crc := crc(data))], arch, more)
    ensures ViewOf(idx[pos := idx[pos].(crc := crc(data))], more) == ViewOf(idx, js)[pos := Block(idx[pos].hash, data)]
    ensures SameBytes(arch, js, more)
  {
    assert Placed(crc, idx[pos], js);
    RewriteOthers(crc, idx, js, pos, data, more);
    RewriteArchive(crc, arch, js, idx[pos], data, more) by {
      forall a | 0 <= a < |arch|
        ensures Apart(idx[pos], arch[a])
      {
      }
    }
    ShapeKeeps(idx, arch, pos, idx[pos].(crc := crc(data)));
  }

  /** The journal of the record holds the data in its place, and nothing else has changed. */
  predicate Rewritten(js: Journals, r: Rec, data: seq<Byte>, more: Journals) {
    && r.jrnl in js && more.Keys == js.Keys
    && more[r.jrnl].data == Overwrite(js[r.jrnl].data, r.of, data, 0)
    && forall j :: j in js && j != r.jrnl ==> more[j].data == js[j].data
  }

  lemma RewriteOthers(crc: Crc, idx: seq<Rec>, js: Journals, pos: nat, data: seq<Byte>, more: Journals)
    requires AllPlaced(crc, idx, js) && AllApart(idx)
    requires pos < |idx| && Live(idx[pos]) && |data| == idx[pos].size && Rewritten(js, idx[pos], data, more)
    ensures AllPlaced(crc, idx[pos := idx[pos].(crc := crc(data))], more)
    ensures ViewOf(idx[pos := idx[pos].(crc := crc(data))], more) == ViewOf(idx, js)[pos := Block(idx[pos].hash, data)]
  {
    var r := idx[pos];
    assert Placed(crc, r, js);
    assert BytesOf(r.(crc := crc(data)), more) == data;
    forall i | 0 <= i < |idx| && i != pos
      ensures Placed(crc, idx[i], more) && (Live(idx[i]) ==> BytesOf(idx[i], more) == BytesOf(idx[i], js))
    {
      assert i < pos ==> Apart(idx[i], r);
      assert pos < i ==> Apart(r, idx[i]);
      assert Placed(crc, idx[i], js);
      RewriteApart(crc, idx[i], r, js, data, more);
    }
  }

  lemma RewriteArchive(crc: Crc, arch: seq<Rec>, js: Journals, r: Rec, data: seq<Byte>, more: Journals)
    requires AllPlaced(crc, arch, js) && forall a :: 0 <= a < |arch| ==> Apart(r, arch[a])
    requires Live(r) && InJournal(r, js) && |data| == r.size && Rewritten(js, r, data, more)
    ensures AllPlaced(crc, arch, more) && SameBytes(arch, js, more)
  {
    forall a | 0 <= a < |arch|
      ensures Placed(crc, arch[a], more) && (Live(arch[a]) ==> BytesOf(arch[a], more) == BytesOf(arch[a], js))
    {
      assert Placed(crc, arch[a], js);
      RewriteApart(crc, arch[a], r, js, data, more);
    }
  }

  /** Sharing no byte is a matter of places, not of checksums. */
  lemma ShapeKeeps(idx: seq<Rec>, arch: seq<Rec>, pos: nat, r: Rec)
    requires pos < |idx| && r.jrnl == idx[pos].jrnl && r.of == idx[pos].of && r.size == idx[pos].size
    requires AllApart(idx) && BothApart(idx, arch) && InOwnJournal(idx)
    ensures AllApart(idx[pos := r]) && BothApart(idx[pos := r], arch) && InOwnJournal(idx[pos := r])
  {
    var after := idx[pos := r];
    forall i, a | 0 <= i < |after| && 0 <= a < |arch|
      ensures Apart(after[i], arch[a])
    {
      assert Apart(idx[i], arch[a]);
    }
    forall i, j | 0 <= i < j < |after|
      ensures Apart(after[i], after[j])
    {
      assert Apart(idx[i], idx[j]);
    }
  }

  lemma RewriteApart(crc: Crc, s: Rec, r: Rec, js: Journals, data: seq<Byte>, more: Journals)
    requires Placed(crc, s, js) && Live(r) && InJournal(r, js) && |data| == r.size && (Apart(s, r) || Apart(r, s))
    requires Rewritten(js, r, data, more)
    ensures Placed(crc, s, more) && (Live(s) ==> BytesOf(s, more) == BytesOf(s, js))
  {
    if Live(s) {
      assert BytesOf(s, more) == BytesOf(s, js);
    }
  }

  /** A new record for bytes that were appended to its journal. */
  lemma WriteKeeps(crc: Crc, idx: seq<Rec>, arch: seq<Rec>, js: Journals, pos: nat, hash: Hash, data: seq<Byte>, more: Journals)
    requires Sound(crc, idx, arch, js) && (pos >= |idx| || !Live(idx[pos]))
    requires JournalOf(pos) in js && Extends(js, more) && more[JournalOf(pos)].data == js[JournalOf(pos)].data + data
    ensures var after := Overwrite(idx, pos, [NewRec(crc, js, pos, hash, data)], Blank);
      && Sound(crc, after, arch, more)
      && ViewOf(after, more) == (if |data| > 0 then ViewOf(idx, js)[pos := Block(hash, data)] else ViewOf(idx, js))
      && SameBytes(arch, js, more)
  {
    var r := NewRec(crc, js, pos, hash, data);
    GrowKeeps(crc, idx, arch, js, more);
    BehindIsApart(crc, idx, js, r);
    BehindIsApart(crc, arch, js, r);
    assert BytesOf(r, more) == data;
    SetKeeps(crc, idx, arch, more, pos, r, Overwrite(idx, pos, [r], Blank));
  }

  /** The record that bc_write makes: its bytes will start where the journal's data ends. */
  function NewRec(crc: Crc, js: Journals, pos: nat, hash: Hash, data: seq<Byte>): Rec
    requires JournalOf(pos) in js
  {
    Rec(JournalOf(pos), |js[JournalOf(pos)].data|, |data|, crc(data), hash)
  }

  lemma ArchiveSame(arch: seq<Rec>, js: Journals, more: Journals)
    requires SameBytes(arch, js, more)
    ensures ArchiveOf(arch, more) == ArchiveOf(arch, js)
  {
    forall a | 0 <= a < |arch|
      ensures BytesOf(arch[a], more) == BytesOf(arch[a], js)
    {
    }
  }

  /** What a write leaves at pos: a block that is there keeps its hash. */
  function Stored(v: map<nat, Block>, pos: nat, hash: Hash, data: seq<Byte>): Block {
    Block(if pos in v then v[pos].hash else hash, data)
  }

  // ---------- What a search finds ----------

  /** pos is the highest position of a block with this hash, or -1 for none. */
  ghost predicate IsLatest(v: map<nat, Block>, hash: Hash, pos: int) {
    && (pos == -1 || (pos in v && v[pos].hash == hash))
    && forall i :: i in v && i > pos ==> v[i].hash != hash
  }

  lemma HighestIsLatest(idx: seq<Rec>, js: Journals, hash: Hash)
    ensures IsLatest(ViewOf(idx, js), hash, Highest(idx, hash, |idx|))
  {
  }

  /** A block stored behind all others is found, and every other search has the answer it had. */
  lemma StoredIsLatest(v: map<nat, Block>, pos: nat, b: Block, hash: Hash, p: int)
    requires (forall i :: i in v ==> i < pos) && IsLatest(v, hash, p)
    ensures IsLatest(v[pos := b], hash, if hash == b.hash then pos else p)
  {
  }

  /** The same among archived blocks; an empty one is not found. */
  ghost predicate IsLatestArchived(a: seq<Block>, hash: Hash, pos: int) {
    && -1 <= pos < |a|
    && (pos >= 0 ==> a[pos].hash == hash && a[pos].bytes != [])
    && forall i :: pos < i < |a| && a[i].bytes != [] ==> a[i].hash != hash
  }

  lemma HighestIsLatestArchived(crc: Crc, arch: seq<Rec>, js: Journals, hash: Hash)
    requires AllPlaced(crc, arch, js)
    ensures IsLatestArchived(ArchiveOf(arch, js), hash, Highest(arch, hash, |arch|))
  {
    forall i | 0 <= i < |arch|
      ensures Live(arch[i]) <==> ArchiveOf(arch, js)[i].bytes != []
    {
      assert Placed(crc, arch[i], js);
    }
  }

  // ---------- What a purge displaces ----------

  /** The blocks at places from lo up to hi, highest first. */
  function Displaced(v: map<nat, Block>, hi: nat, lo: nat): seq<Block>
    decreases hi
  {
    if hi <= lo then [] else BlockAt(v, hi - 1) + Displaced(v, hi - 1, lo)
  }

  function BlockAt(v: map<nat, Block>, i: nat): seq<Block> {
    if i in v then [v[i]] else []
  }

  function Below(v: map<nat, Block>, end: nat): map<nat, Block> {
    map i | i in v && i < end :: v[i]
  }

  lemma BelowStep(v: map<nat, Block>, i: nat)
    ensures Below(v, i + 1) - {i} == Below(v, i) && BlockAt(Below(v, i + 1), i) == BlockAt(v, i)
  {
  }

  lemma BelowAll(idx: seq<Rec>, js: Journals)
    ensures Below(ViewOf(idx, js), |idx|) == ViewOf(idx, js)
  {
  }

  lemma {:induction false} DisplacedDown(v: map<nat, Block>, hi: nat, lo: nat)
    requires lo < hi
    ensures Displaced(v, hi, lo) == Displaced(v, hi, lo + 1) + BlockAt(v, lo)
    decreases hi
  {
    if lo + 1 < hi {
      DisplacedDown(v, hi - 1, lo);
    } else {
      assert Displaced(v, lo, lo) == [];
    }
  }

  /** The positions from lo up to hi that hold a block. */
  function Filled(v: map<nat, Block>, lo: nat, hi: nat): set<nat> {
    set i | i in v && lo <= i < hi
  }

  lemma FilledStep(v: map<nat, Block>, lo: nat, hi: nat)
    requires lo < hi
    ensures |Filled(v, lo, hi)| == |Filled(v, lo, hi - 1)| + |BlockAt(v, hi - 1)|
  {
    if hi - 1 in v {
      assert Filled(v, lo, hi) == Filled(v, lo, hi - 1) + {hi - 1};
    } else {
      assert Filled(v, lo, hi) == Filled(v, lo, hi - 1);
    }
  }

  /** A block is archived after exactly those that lie above it. */
  lemma {:induction false} DisplacedAt(v: map<nat, Block>, hi: nat, lo: nat, i: nat)
    requires lo <= i < hi && i in v
    ensures |Displaced(v, hi, lo)| == |Filled(v, lo, hi)| > |Filled(v, i + 1, hi)|
    ensures Displaced(v, hi, lo)[|Filled(v, i + 1, hi)|] == v[i]
    decreases hi
  {
    DisplacedSize(v, hi, lo);
    DisplacedSize(v, hi - 1, lo);
    if i == hi - 1 {
      assert Filled(v, hi, hi) == {};
    } else {
      DisplacedAt(v, hi - 1, lo, i);
      FilledStep(v, i + 1, hi);
    }
  }

  lemma {:induction false} DisplacedSize(v: map<nat, Block>, hi: nat, lo: nat)
    ensures |Displaced(v, hi, lo)| == |Filled(v, lo, hi)|
    decreases hi
  {
    if lo < hi {
      DisplacedSize(v, hi - 1, lo);
      FilledStep(v, lo, hi);
    } else {
      assert Filled(v, lo, hi) == {};
    }
  }

  lemma DisplacedStep(v: map<nat, Block>, hi: nat, lo: nat, a: seq<Block>)
    requires lo < hi
    ensures (a + Displaced(v, hi, lo + 1)) + BlockAt(v, lo) == a + Displaced(v, hi, lo)
  {
    DisplacedDown(v, hi, lo);
  }

  /** The blocks at places below n, lowest first. */
  function Blocks(v: map<nat, Block>, n: nat): seq<Block> {
    if n == 0 then [] else Blocks(v, n - 1) + BlockAt(v, n - 1)
  }

  lemma {:induction false} BelowBlocks(v: map<nat, Block>, lo: nat, n: nat)
    ensures Blocks(Below(v, lo), n) == Blocks(v, if n <= lo then n else lo)
  {
    if n > 0 {
      BelowBlocks(v, lo, n - 1);
    }
  }

  /** A purge at lo conserves blocks: what stays and what goes to the archive is what there was, none lost or doubled. */
  lemma PurgeConserves(v: map<nat, Block>, hi: nat, lo: nat)
    requires lo <= hi
    ensures multiset(Blocks(v, hi)) == multiset(Blocks(Below(v, lo), hi)) + multiset(Displaced(v, hi, lo))
  {
    BelowBlocks(v, lo, hi);
    SplitBlocks(v, hi, lo);
  }

  lemma {:induction false} SplitBlocks(v: map<nat, Block>, hi: nat, lo: nat)
    requires lo <= hi
    ensures multiset(Blocks(v, hi)) == multiset(Blocks(v, lo)) + multiset(Displaced(v, hi, lo))
    decreases hi
  {
    if lo < hi {
      SplitBlocks(v, hi - 1, lo);
      BothCounted(Blocks(v, hi - 1), BlockAt(v, hi - 1));
      BothCounted(BlockAt(v, hi - 1), Displaced(v, hi - 1, lo));
      Regrouped(multiset(Blocks(v, hi - 1)), multiset(Blocks(v, lo)), multiset(Displaced(v, hi - 1, lo)), multiset(BlockAt(v, hi - 1)));
    } else {
      assert Displaced(v, hi, lo) == [];
    }
  }

  lemma Regrouped(a: multiset<Block>, b: multiset<Block>, d: multiset<Block>, x: multiset<Block>)
    requires a == b + d
    ensures a + x == b + (x + d)
  {
  }

  lemma BothCounted(a: seq<Block>, b: seq<Block>)
    ensures multiset(a + b) == multiset(a) + multiset(b)
  {
  }

  /** A database before a purge. */
  datatype Snapshot = Snapshot(blocks: map<nat, Block>, archive: seq<Block>, recs: seq<Rec>, archived: nat)

  // ---------- The database ----------

  class Store {
    const crc: Crc
    const index: Index
    var arch: FileMap<Rec>
    var journals: Journals

    /** Every map is well formed. */
    ghost predicate MapsOk()
      reads this, index
    {
      index.Valid() && RecordMap(arch) && forall j :: j in journals ==> Mapped(journals[j], 1)
    }

    ghost predicate Valid()
      reads this, index
    {
      MapsOk() && Sound(crc, index.idx.data, arch.data, journals)
    }

    /** The block at every position that has one. */
    ghost function View(): map<nat, Block>
      reads this, index
    {
      ViewOf(index.idx.data, journals)
    }

    /** The archived blocks, oldest first. */
    ghost function Archive(): seq<Block>
      reads this
    {
      ArchiveOf(arch.data, journals)
    }

    constructor (crc: Crc)
      ensures Valid() && fresh(index) && View() == map[] && Archive() == [] && this.crc == crc
    {
      this.crc := crc;
      index := new Index();
      arch := NewMap();
      journals := map[];
    }

    /** The journal as it is, or as it will be created. */
    function Journal(j: nat): FileMap<Byte>
      reads this
    {
      if j in journals then journals[j] else NewMap()
    }

    /** bc_alloc: opens the journal. */
    method Alloc(jrnl: nat)
      requires Valid()
      modifies this`journals
      ensures Valid() && journals == old(journals)[jrnl := old(Journal(jrnl))]
      ensures View() == old(View()) && Archive() == old(Archive())
    {
      ghost var js := journals;
      if jrnl !in journals {
        journals := journals[jrnl := NewMap()];
      }
      GrowKeeps(crc, index.idx.data, arch.data, js, journals);
      ArchiveSame(arch.data, js, journals);
      assert journals == js[jrnl := old(Journal(jrnl))];
    }

    /** Appends to an open journal; no block is touched. */
    method AppendJournal(jrnl: nat, data: seq<Byte>)
      requires Valid() && jrnl in journals && CanAlloc(journals[jrnl], 1, |data|)
      modifies this`journals
      ensures Valid() && View() == old(View()) && Archive() == old(Archive())
      ensures jrnl in journals && journals[jrnl].data == old(journals)[jrnl].data + data
      ensures Extends(old(journals), journals)
    {
      ghost var js := journals;
      journals := journals[jrnl := MapAppend(journals[jrnl], 1, data, 0)];
      GrowKeeps(crc, index.idx.data, arch.data, js, journals);
      ArchiveSame(arch.data, js, journals);
    }

    /** The block at pos, if there is one. */
    ghost predicate Has(pos: nat)
      reads this, index
    {
      pos < |index.idx.data| && Live(index.idx.data[pos])
    }

    /** Indexes and journals have room below 4 GiB. */
    ghost predicate Room(pos: nat, len: nat)
      reads this, index
    {
      && RecordCap(Larger(|index.idx.data|, pos)) < TWO32 && RecordCap(|index.idx.data|) < TWO32
      && CanAlloc(Journal(JournalOf(pos)), 1, len)
    }

    /** Puts new bytes and their checksum in the place of a record. */
    method ReplaceBytes(pos: nat, r: Rec, data: seq<Byte>)
      requires Valid() && Has(pos) && r == index.idx.data[pos] && |data| == r.size
      requires RecordCap(|index.idx.data|) < TWO32
      requires JournalOf(pos) in journals && CanAlloc(journals[JournalOf(pos)], 1, |data|)
      modifies this`journals, index
      ensures Valid() && Archive() == old(Archive()) && View() == old(View())[pos := Block(r.hash, data)]
      ensures index.idx.data == old(index.idx.data)[pos := r.(crc := crc(data))]
      ensures journals.Keys == old(journals).Keys && CanAlloc(journals[JournalOf(pos)], 1, |data|)
    {
      var jrnl := JournalOf(pos);
      ghost var idx, js := index.idx.data, journals;
      assert Placed(crc, idx[pos], js);
      SameBucketSafe(index.tab, idx, pos, r.(crc := crc(data)));
      var _ := index.Reset(pos, r.(crc := crc(data)));
      WriteLands(journals[jrnl], 1, r.of, data, 0);
      journals := journals[jrnl := MapWrite(journals[jrnl], 1, r.of, data, 0)];
      RewriteKeeps(crc, idx, arch.data, js, pos, data, journals);
      ArchiveSame(arch.data, js, journals);
    }

    /** Replaces a block by one of the same size, in place. */
    method Rewrite(pos: nat, hash: Hash, data: seq<Byte>) returns (err: Error)
      requires Valid() && Room(pos, |data|)
      modifies this`journals, index
      ensures Valid() && Archive() == old(Archive())
      ensures err == if !old(Has(pos)) then NoEntry else if |old(View())[pos].bytes| != |data| then Exists else None
      ensures View() == if err == None then old(View())[pos := Block(old(View())[pos].hash, data)] else old(View())
      ensures err != None ==> index.idx == old(index.idx) && index.tab == old(index.tab)
      ensures err == None ==> index.idx.data == old(index.idx.data)[pos := old(index.idx.data)[pos].(crc := crc(data))]
      ensures JournalOf(pos) in journals && CanAlloc(journals[JournalOf(pos)], 1, |data|)
    {
      Alloc(JournalOf(pos));
      var r;
      err, r := index.Get(pos);
      if err != None {
        return;
      }
      assert Placed(crc, index.idx.data[pos], journals);
      if r.size != |data| {
        return Exists;
      }
      ReplaceBytes(pos, r, data);
    }

    /** Appends the bytes that a new record was made for. */
    method Settle(pos: nat, hash: Hash, data: seq<Byte>, ghost idx: seq<Rec>)
      requires MapsOk() && Sound(crc, idx, arch.data, journals) && (pos >= |idx| || !Live(idx[pos]))
      requires JournalOf(pos) in journals && CanAlloc(journals[JournalOf(pos)], 1, |data|)
      requires index.idx.data == Overwrite(idx, pos, [NewRec(crc, journals, pos, hash, data)], Blank)
      modifies this`journals
      ensures Valid() && Archive() == old(Archive())
      ensures View() == if |data| > 0 then old(ViewOf(idx, journals))[pos := Block(hash, data)] else old(ViewOf(idx, journals))
    {
      ghost var js := journals;
      var jrnl := JournalOf(pos);
      journals := journals[jrnl := MapAppend(journals[jrnl], 1, data, 0)];
      WriteKeeps(crc, idx, arch.data, js, pos, hash, data, journals);
      ArchiveSame(arch.data, js, journals);
    }

    /** bc_write on a place that has a block. */
    method WriteOver(pos: nat, hash: Hash, data: seq<Byte>) returns (err: Error)
      requires Valid() && Has(pos) && Room(pos, |data|)
      modifies this`journals, index
      ensures Valid() && Archive() == old(Archive())
      ensures err == if |old(View())[pos].bytes| != |data| then Exists else None
      ensures View() == if err == None then old(View())[pos := Block(old(View())[pos].hash, data)] else old(View())
      ensures |index.idx.data| == |old(index.idx.data)|
    {
      err := Rewrite(pos, hash, data);
      if err == None {
        AppendJournal(JournalOf(pos), data);
      }
    }

    /** Stores a block in an empty place, or replaces one of the same size; then the bytes are appended once more, to no use. */
    method Write(pos: nat, hash: Hash, data: seq<Byte>) returns (err: Error)
      requires Valid() && Room(pos, |data|) && SetLands(index.idx, pos)
      modifies this`journals, index
      ensures Valid() && Archive() == old(Archive())
      ensures err == if old(Has(pos)) && |old(View())[pos].bytes| != |data| then Exists else None
      ensures View() == if err == None && |data| > 0
        then old(View())[pos := Block(if pos in old(View()) then old(View())[pos].hash else hash, data)] else old(View())
      ensures |index.idx.data| == Larger(|old(index.idx.data)|, pos + 1)
    {
      var jrnl := JournalOf(pos);
      Alloc(jrnl);
      ghost var idx := index.idx.data;
      assert pos < |idx| && Live(idx[pos]) ==> Placed(crc, idx[pos], journals);
      err := index.Set(pos, NewRec(crc, journals, pos, hash, data));
      if err == Exists {
        err := WriteOver(pos, hash, data);
        return;
      }
      Settle(pos, hash, data, idx);
    }

    /** Stores a block after the last one. */
    method Append(hash: Hash, data: seq<Byte>) returns (err: Error, pos: nat)
      requires Valid() && Room(|index.idx.data|, |data|)
      modifies this`journals, index
      ensures Valid() && Archive() == old(Archive())
      ensures err == None && pos == |old(index.idx.data)| && pos !in old(View())
      ensures View() == if |data| > 0 then old(View())[pos := Block(hash, data)] else old(View())
      ensures |index.idx.data| == pos + 1
    {
      pos := index.Next();
      err := Write(pos, hash, data);
    }

    // ---------- Reading ----------

    /** What reading the bytes of a record gives: they are checked first. */
    ghost function Checked(r: Rec): Error
      reads this
    {
      if crc(BytesOf(r, journals)) != r.crc then Corrupt else None
    }

    method CheckBytes(r: Rec) returns (err: Error)
      requires InJournal(r, journals)
      ensures err == Checked(r)
    {
      err := if crc(journals[r.jrnl].data[r.of..r.of + r.size]) != r.crc then Corrupt else None;
    }

    /** The first len bytes of the block, filled up with zeros. */
    method Read(pos: nat, len: nat) returns (err: Error, data: seq<Byte>)
      requires Has(pos) ==> InJournal(index.idx.data[pos], journals)
      ensures err == if Has(pos) then Checked(index.idx.data[pos]) else NoEntry
      ensures err == Corrupt <==> Has(pos) && crc(BytesOf(index.idx.data[pos], journals)) != index.idx.data[pos].crc
      ensures err == None ==> |data| == len
      ensures err == None ==> forall k :: 0 <= k < len ==>
        data[k] == if k < index.idx.data[pos].size then BytesOf(index.idx.data[pos], journals)[k] else 0
      ensures Valid() ==> (err == None <==> pos in View())
      ensures Valid() && err == None && len == |View()[pos].bytes| ==> data == View()[pos].bytes
    {
      data := [];
      var r;
      err, r := index.Get(pos);
      if err != None {
        return;
      }
      var raw := journals[r.jrnl].data[r.of..r.of + r.size];
      assert raw == BytesOf(r, journals);
      assert Valid() ==> Placed(crc, index.idx.data[pos], journals);
      if crc(raw) != r.crc {
        return Corrupt, data;
      }
      var n := if len <= r.size then len else r.size;
      data := raw[..n] + seq(len - n, _ => 0);
    }

    /** The whole block. */
    method Get(pos: nat) returns (err: Error, data: seq<Byte>)
      requires Has(pos) ==> InJournal(index.idx.data[pos], journals)
      ensures err == if Has(pos) then Checked(index.idx.data[pos]) else NoEntry
      ensures err == Corrupt <==> Has(pos) && crc(BytesOf(index.idx.data[pos], journals)) != index.idx.data[pos].crc
      ensures err == None ==> data == BytesOf(index.idx.data[pos], journals) && crc(data) == index.idx.data[pos].crc
      ensures Valid() ==> (err == None <==> pos in View()) && (err == None ==> data == View()[pos].bytes)
    {
      data := [];
      var r;
      err, r := index.Get(pos);
      if err != None {
        return;
      }
      err, data := Read(pos, r.size);
    }

    /** The position of the block with this hash: the highest one. */
    method Find(hash: Hash) returns (err: Error, pos: int)
      requires Valid()
      modifies index
      ensures Valid() && View() == old(View()) && Archive() == old(Archive()) && index.idx == old(index.idx)
      ensures pos == Highest(index.idx.data, hash, |index.idx.data|) && err == if pos == -1 then NoEntry else None
      ensures IsLatest(View(), hash, pos)
    {
      OkHasShape(index.tab, index.idx.data);
      var r;
      err, r, pos := index.Find(hash);
      HighestIsLatest(index.idx.data, journals, hash);
    }

    // ---------- The archive ----------

    method ArchiveGet(pos: nat) returns (err: Error, r: Rec)
      ensures err == if pos < |arch.data| && Live(arch.data[pos]) then None else NoEntry
      ensures err == None ==> r == arch.data[pos]
    {
      if pos >= Offset(arch, RECORD_SIZE) / RECORD_SIZE || arch.data[pos].size == 0 {
        return NoEntry, Blank;
      }
      return None, arch.data[pos];
    }

    /** The latest archived record with this hash. */
    method ArchiveFind(hash: Hash) returns (err: Error, r: Rec, pos: int)
      ensures pos == Highest(arch.data, hash, |arch.data|)
      ensures err == (if pos == -1 then NoEntry else None) && r == if pos == -1 then Blank else arch.data[pos]
      ensures Valid() ==> IsLatestArchived(Archive(), hash, pos)
    {
      ghost var latest := Highest(arch.data, hash, |arch.data|);
      assert Valid() ==> IsLatestArchived(Archive(), hash, latest) by {
        if Valid() {
          HighestIsLatestArchived(crc, arch.data, journals, hash);
        }
      }
      var i := |arch.data| - 1;
      while i >= 0
        invariant -1 <= i < |arch.data|
        invariant Highest(arch.data, hash, |arch.data|) == Highest(arch.data, hash, i + 1)
      {
        if arch.data[i].size != 0 && hash == arch.data[i].hash {
          return None, arch.data[i], i;
        }
        i := i - 1;
      }
      return NoEntry, Blank, -1;
    }

    /** The bytes of an archived block. */
    method ArchiveRead(pos: nat) returns (err: Error, data: seq<Byte>)
      requires pos < |arch.data| && Live(arch.data[pos]) ==> InJournal(arch.data[pos], journals)
      ensures err == if pos < |arch.data| && Live(arch.data[pos]) then Checked(arch.data[pos]) else NoEntry
      ensures err == None ==> data == BytesOf(arch.data[pos], journals) && crc(data) == arch.data[pos].crc
      ensures err == Corrupt <==>
        pos < |arch.data| && Live(arch.data[pos]) && crc(BytesOf(arch.data[pos], journals)) != arch.data[pos].crc
      ensures Valid() && pos < |arch.data| && Live(arch.data[pos]) ==> err == None && data == Archive()[pos].bytes
    {
      data := [];
      var r;
      err, r := ArchiveGet(pos);
      if err != None {
        return;
      }
      var raw := journals[r.jrnl].data[r.of..r.of + r.size];
      assert raw == BytesOf(r, journals);
      assert Valid() ==> Placed(crc, arch.data[pos], journals);
      if crc(raw) != r.crc {
        return Corrupt, data;
      }
      data := raw;
    }

    /** Adds a record to the archive. */
    method ArchiveAdd(r: Rec)
      requires RecordMap(arch) && RecordCap(|arch.data|) < TWO32
      modifies this`arch
      ensures RecordMap(arch) && arch.data == old(arch.data) + [r]
    {
      SetFits(arch, |arch.data|, r);
      arch := MapWrite(SetRoom(arch, |arch.data|), RECORD_SIZE, |arch.data|, [r], Blank);
      assert arch.data == old(arch.data) + [r];
    }

    /** Moves a block from the index to the archive. */
    method Clear(pos: nat) returns (err: Error)
      requires Valid() && RecordCap(|index.idx.data|) < TWO32 && RecordCap(|arch.data|) < TWO32
      modifies this`arch, index
      ensures Valid() && |arch.data| <= |old(arch.data)| + 1
      ensures err == if pos in old(View()) then None else NoEntry
      ensures index.idx.data == if err == None then old(index.idx.data)[pos := Blank] else old(index.idx.data)
      ensures View() == old(View()) - {pos}
      ensures Archive() == old(Archive()) + BlockAt(old(View()), pos)
    {
      var r;
      err, r := index.Get(pos);
      if err != None {
        return;
      }
      Displace(pos, r);
    }

    method Displace(pos: nat, r: Rec)
      requires Valid() && Has(pos) && r == index.idx.data[pos]
      requires RecordCap(|index.idx.data|) < TWO32 && RecordCap(|arch.data|) < TWO32
      modifies this`arch, index
      ensures Valid() && |arch.data| == |old(arch.data)| + 1 && index.idx.data == old(index.idx.data)[pos := Blank]
      ensures View() == old(View()) - {pos}
      ensures Archive() == old(Archive()) + [old(View())[pos]]
    {
      MoveKeeps(crc, index.idx.data, arch.data, journals, pos);
      ArchiveAdd(r);
      index.Clear(pos);
      assert index.idx.data == old(index.idx.data)[pos := Blank];
    }

    /** Archives every block from pos on, highest first. */
    method Purge(pos: nat) returns (err: Error)
      requires Valid() && (pos == 0 ==> !Has(0))
      requires RecordCap(|index.idx.data|) < TWO32 && RecordCap(|arch.data| + |index.idx.data|) < TWO32
      modifies this`arch, index
      ensures Valid() && |index.idx.data| == |old(index.idx.data)|
      ensures err == if pos in old(View()) then None else NoEntry
      ensures err == None ==> pos < |index.idx.data| && index.idx.data[..pos] == old(index.idx.data[..pos])
      ensures err == None ==> View() == Below(old(View()), pos)
      ensures err == None ==> Archive() == old(Archive()) + Displaced(old(View()), |index.idx.data|, pos)
      ensures err != None ==> View() == old(View()) && Archive() == old(Archive()) && index.idx == old(index.idx)
    {
      var r;
      err, r := index.Get(pos);
      if err != None {
        return;
      }
      assert Placed(crc, r, journals);
      err := CheckBytes(r);
      if err != None {
        return;
      }
      PurgeAll(pos);
    }

    /** The purge of a block that is there. */
    method PurgeAll(pos: nat)
      requires Valid() && pos >= 1 && Has(pos)
      requires RecordCap(|index.idx.data|) < TWO32 && RecordCap(|arch.data| + |index.idx.data|) < TWO32
      modifies this`arch, index
      ensures Valid() && |index.idx.data| == |old(index.idx.data)| && index.idx.data[..pos] == old(index.idx.data[..pos])
      ensures View() == Below(old(View()), pos)
      ensures Archive() == old(Archive()) + Displaced(old(View()), |index.idx.data|, pos)
    {
      ghost var was := Snapshot(View(), Archive(), index.idx.data, |arch.data|);
      var next := index.Next();
      PlaceFits(index.idx, pos);
      BelowAll(index.idx.data, journals);
      PurgeFrom(pos, next, was);
    }

    /** Of the database as it was, the blocks from place i on went to the archive and all others stay where they were. */
    ghost predicate PurgedTo(i: nat, was: Snapshot)
      reads this, index
    {
      && Valid() && i <= |was.recs| == |index.idx.data| && |arch.data| + i <= was.archived + |was.recs|
      && index.idx.data[..i] == was.recs[..i]
      && View() == Below(was.blocks, i) && Archive() == was.archive + Displaced(was.blocks, |was.recs|, i)
    }

    /** The loop of the purge; its guard compares an int with an unsigned position. */
    method PurgeFrom(pos: nat, next: nat, ghost was: Snapshot)
      requires 1 <= pos <= next < TWO32 && next == |was.recs| && PurgedTo(next, was)
      requires RecordCap(next) < TWO32 && RecordCap(was.archived + next) < TWO32
      modifies this`arch, index
      ensures PurgedTo(pos, was)
    {
      var i := next - 1;
      while Unsigned(i) >= pos
        invariant pos - 1 <= i < next && PurgedTo(i + 1, was)
        decreases i
      {
        PurgeOne(pos, i, was);
        SameWhenUnsigned(i);
        i := i - 1;
      }
      SameWhenUnsigned(i);
      assert i + 1 == pos;
    }

    /** One round of the purge. */
    method PurgeOne(pos: nat, i: nat, ghost was: Snapshot)
      requires PurgedTo(i + 1, was)
      requires RecordCap(|was.recs|) < TWO32 && RecordCap(was.archived + |was.recs|) < TWO32
      modifies this`arch, index
      ensures PurgedTo(i, was)
    {
      CapMonotone(|arch.data|, was.archived + |was.recs|);
      DisplacedStep(was.blocks, |was.recs|, i, was.archive);
      BelowStep(was.blocks, i);
      assert index.idx.data[..i] == index.idx.data[..i + 1][..i];
      assert was.recs[..i] == was.recs[..i + 1][..i];
      var _ := Clear(i);
      SearchAnew(pos);
    }

    /** Marks the bucket of the block at pos for a new search. */
    method SearchAnew(pos: nat)
      requires Valid()
      modifies index`tab
      ensures Valid()
    {
      var err, t := index.Get(pos);
      if err == None {
        index.TableReset(t.hash);
      }
    }

    /** Stores a block in the archive only, in the journal of the next position. */
    method ArchiveWrite(hash: Hash, data: seq<Byte>)
      requires Valid() && Room(|index.idx.data|, |data|) && RecordCap(|arch.data|) < TWO32
      modifies this`arch, this`journals
      ensures Valid() && View() == old(View()) && Archive() == old(Archive()) + [Block(hash, data)]
    {
      var pos := index.Next();
      var jrnl := JournalOf(pos);
      Alloc(jrnl);
      ghost var js := journals;
      var r := NewRec(crc, journals, pos, hash, data);
      BehindIsApart(crc, index.idx.data, js, r);
      BehindIsApart(crc, arch.data, js, r);
      AppendJournal(jrnl, data);
      AddKeeps(crc, index.idx.data, arch.data, journals, r, data);
      ArchiveAdd(r);
    }
  }

  /** A record of bytes that nothing else holds may join the archive. */
  lemma AddKeeps(crc: Crc, idx: seq<Rec>, arch: seq<Rec>, js: Journals, r: Rec, data: seq<Byte>)
    requires Sound(crc, idx, arch, js) && InJournal(r, js) && BytesOf(r, js) == data && r.crc == crc(data)
    requires ApartFrom(idx, r) && ApartFrom(arch, r)
    ensures Sound(crc, idx, arch + [r], js) && ArchiveOf(arch + [r], js) == ArchiveOf(arch, js) + [Block(r.hash, data)]
  {
  }

  lemma SameWhenUnsigned(i: int)
    requires 0 <= i < TWO32
    ensures Unsigned(i) == i
  {
  }

  lemma PlaceFits(m: FileMap<Rec>, i: int)
    requires RecordMap(m) && 0 <= i < |m.data|
    ensures |m.data| < TWO32 && Unsigned(i) == i
  {
  }

  /** At position 0 the guard of the purge loop holds for every int, so the loop would not end; from 1 on it fails below pos. */
  lemma PurgeGuard(pos: nat)
    requires pos < 0x80000000
    ensures (exists i: int :: -0x80000000 <= i < 0x80000000 && Unsigned(i) < pos) <==> pos >= 1
    ensures pos >= 1 ==> Unsigned(pos - 1) < pos
  {
    if pos >= 1 {
      assert Unsigned(pos - 1) == pos - 1;
    }
  }
}
