/** From a (request, position) pair to a physical cache slot, and the cache memory behind it. */
module SlotMapping {
  import opened Prelude
  import opened Decoding
  import opened BlockPool

  const PAD_SLOT_ID: int := -1

  ghost predicate Covers(table: seq<nat>, bs: nat, n: nat) {
    n <= |table| * bs
  }

  lemma CoversMonotone(t: seq<nat>, u: seq<nat>, bs: nat, n: nat)
    requires t <= u && Covers(t, bs, n)
    ensures Covers(u, bs, n)
  {
    MulMonotone(|t|, |u|, bs);
  }

  lemma CoveredBlock(table: seq<nat>, bs: nat, pos: nat)
    requires bs > 0
    ensures Covers(table, bs, pos + 1) <==> pos / bs < |table|
  {
    assert pos == (pos / bs) * bs + pos % bs;
    if pos / bs < |table| {
      MulMonotone(pos / bs + 1, |table|, bs);
    } else {
      MulMonotone(|table|, pos / bs, bs);
    }
  }

  function SlotOf(table: seq<nat>, bs: nat, pos: nat): nat
    requires bs > 0 && pos / bs < |table|
  {
    table[pos / bs] * bs + pos % bs
  }

  lemma SlotInPool(b: nat, r: nat, bs: nat, numBlocks: nat)
    requires r < bs && b < numBlocks
    ensures b * bs <= b * bs + r < numBlocks * bs
  {
    MulMonotone(b + 1, numBlocks, bs);
  }

  /** No block in common. */
  ghost predicate Apart(t: seq<nat>, u: seq<nat>) {
    forall b :: b in t ==> b !in u
  }

  lemma SlotsApart(t: seq<nat>, pos: nat, u: seq<nat>, pos': nat, bs: nat)
    requires bs > 0 && pos / bs < |t| && pos' / bs < |u|
    requires Apart(t, u) || (t == u && NoDup(t) && pos != pos')
    ensures SlotOf(t, bs, pos) != SlotOf(u, bs, pos')
  {
    if !Apart(t, u) && pos / bs == pos' / bs {
      PositionsDiffer(pos, pos', bs);
    } else {
      PlacesDiffer(t, pos / bs, u, pos' / bs);
    }
    SlotsDiffer(t[pos / bs], pos % bs, u[pos' / bs], pos' % bs, bs);
  }

  lemma SlotsDiffer(b: nat, r: nat, b': nat, r': nat, bs: nat)
    requires r < bs && r' < bs && (b != b' || r != r')
    ensures b * bs + r != b' * bs + r'
  {
    if b < b' {
      MulMonotone(b + 1, b', bs);
    } else if b' < b {
      MulMonotone(b' + 1, b, bs);
    }
  }

  lemma PositionsDiffer(n: nat, m: nat, b: nat)
    requires b > 0 && n / b == m / b && n != m
    ensures n % b != m % b
  {
    assert n == (n / b) * b + n % b;
    assert m == (m / b) * b + m % b;
  }

  lemma PlacesDiffer(t: seq<nat>, q: nat, u: seq<nat>, q': nat)
    requires q < |t| && q' < |u| && (Apart(t, u) || (t == u && NoDup(t) && q != q'))
    ensures t[q] != u[q']
  {
    assert t[q] in t && u[q'] in u;
  }

  lemma TablesApart(p: Pool, id: nat, id': nat, numBlocks: nat)
    requires Valid(p, numBlocks) && id != id'
    ensures Apart(Table(p, id), Table(p, id'))
  {
    forall b | b in Table(p, id)
      ensures b !in Table(p, id')
    {
      if b in Table(p, id') {
        assert Owns(p, id, b) && Owns(p, id', b);
      }
    }
  }

  ghost predicate InPool(table: seq<nat>, numBlocks: nat) {
    NoDup(table) && forall b :: b in table ==> 1 <= b < numBlocks
  }

  lemma TableInPool(p: Pool, id: nat, numBlocks: nat)
    requires Valid(p, numBlocks)
    ensures InPool(Table(p, id), numBlocks)
  {
    forall b: nat | b in Table(p, id)
      ensures 1 <= b < numBlocks
    {
      assert Owns(p, id, b);
    }
  }

  /** In every valid allocator state a slot belongs to one position of one request, lies inside the
      pool and outside the padding block. */
  lemma SlotsInjective(p: Pool, numBlocks: nat, id: nat, pos: nat, id': nat, pos': nat)
    requires Valid(p, numBlocks)
    requires pos / p.blockSize < |Table(p, id)| && pos' / p.blockSize < |Table(p, id')|
    requires (id, pos) != (id', pos')
    ensures SlotOf(Table(p, id), p.blockSize, pos) != SlotOf(Table(p, id'), p.blockSize, pos')
    ensures p.blockSize <= SlotOf(Table(p, id), p.blockSize, pos) < numBlocks * p.blockSize
  {
    var bs, t := p.blockSize, Table(p, id);
    TableInPool(p, id, numBlocks);
    if id != id' {
      TablesApart(p, id, id', numBlocks);
    }
    SlotsApart(t, pos, Table(p, id'), pos', bs);
    var b := t[pos / bs];
    assert b in t;
    SlotInPool(b, pos % bs, bs, numBlocks);
    MulMonotone(1, b, bs);
  }

  lemma GrowKeepsPrefix(p: Pool, id: nat, tokens: nat, other: nat)
    requires p.blockSize > 0
    ensures Table(p, other) <= Table(Grow(p, id, tokens), other)
    ensures Fits(p, id, tokens) ==> Covers(Table(Grow(p, id, tokens), id), p.blockSize, tokens)
  {
    var q := Grow(p, id, tokens);
    DivCeilLeast(tokens, p.blockSize, |Table(q, id)|);
  }

  lemma TrimKeepsPrefix(p: Pool, id: nat, tokens: nat, other: nat)
    requires p.blockSize > 0
    ensures Table(Trim(p, id, tokens), other) <= Table(p, other)
    ensures other != id ==> Table(Trim(p, id, tokens), other) == Table(p, other)
    ensures Covers(Table(p, id), p.blockSize, tokens) ==> Covers(Table(Trim(p, id, tokens), id), p.blockSize, tokens)
  {
    DivCeilLeast(tokens, p.blockSize, DivCeil(tokens, p.blockSize));
  }

  /** Growing, trimming or freeing any request never moves the slot of a position that stays
      allocated. */
  lemma SlotsStable(p: Pool, op: Op, id: nat, pos: nat)
    requires p.blockSize > 0
    requires pos / p.blockSize < |Table(p, id)| && pos / p.blockSize < |Table(Apply(p, op), id)|
    ensures SlotOf(Table(Apply(p, op), id), p.blockSize, pos) == SlotOf(Table(p, id), p.blockSize, pos)
  {
    match op
    case GrowOp(i, tokens) => GrowKeepsPrefix(p, i, tokens, id);
    case TrimOp(i, tokens) => TrimKeepsPrefix(p, i, tokens, id);
    case ReleaseOp(i) =>
  }

  /** The fixed layout of a cache that is not shared: sequence `s` owns the blocks
      `s * perSeq .. (s + 1) * perSeq`. */
  function DenseSlot(perSeq: nat, bs: nat, s: nat, pos: nat): nat {
    s * perSeq * bs + pos
  }

  function DenseTable(perSeq: nat, s: nat): seq<nat> {
    seq(perSeq, i requires 0 <= i => s * perSeq + i)
  }

  /** The closed formula of the fixed layout is table lookup over consecutive blocks. */
  lemma DenseIsLookup(perSeq: nat, bs: nat, s: nat, pos: nat)
    requires bs > 0 && pos < perSeq * bs
    ensures pos / bs < perSeq
    ensures SlotOf(DenseTable(perSeq, s), bs, pos) == DenseSlot(perSeq, bs, s, pos)
  {
    CoveredBlock(DenseTable(perSeq, s), bs, pos);
    assert (s * perSeq + pos / bs) * bs == s * perSeq * bs + (pos / bs) * bs;
  }

  // ----- the cache memory

  /** Reads outside the table or the memory see zeroes. */
  function Fetch(net: Network, kv: seq<Kv>, table: seq<nat>, bs: nat, pos: nat): Kv
    requires bs > 0
  {
    if pos / bs < |table| && SlotOf(table, bs, pos) < |kv| then kv[SlotOf(table, bs, pos)] else net.blank
  }

  /** What attention sees of a sequence: its first `n` entries, through its block table. */
  function Read(net: Network, kv: seq<Kv>, table: seq<nat>, bs: nat, n: nat): (entries: seq<Kv>)
    requires bs > 0
    ensures |entries| == n
  {
    seq(n, i requires 0 <= i < n => Fetch(net, kv, table, bs, i))
  }

  /** Only the covered part of a table matters: neither later growth nor padding changes a read. */
  lemma ReadThroughPrefix(net: Network, kv: seq<Kv>, t: seq<nat>, u: seq<nat>, bs: nat, n: nat)
    requires bs > 0 && t <= u && Covers(t, bs, n)
    ensures Read(net, kv, t, bs, n) == Read(net, kv, u, bs, n)
  {
    hide Fetch, Covers;
    forall i | 0 <= i < n
      ensures Fetch(net, kv, t, bs, i) == Fetch(net, kv, u, bs, i)
    {
      FetchThroughPrefix(net, kv, t, u, bs, n, i);
    }
  }

  lemma FetchThroughPrefix(net: Network, kv: seq<Kv>, t: seq<nat>, u: seq<nat>, bs: nat, n: nat, i: nat)
    requires bs > 0 && t <= u && Covers(t, bs, n) && i < n
    ensures Fetch(net, kv, t, bs, i) == Fetch(net, kv, u, bs, i)
  {
    CoveredBlock(t, bs, i);
  }

  /** One row of a forward pass: `items` follow the `start` entries already cached behind `table`. */
  datatype Row = Row(table: seq<nat>, start: nat, items: seq<Item>, positions: seq<nat>, slots: seq<int>)

  ghost predicate WellShaped(row: Row) {
    |row.items| == |row.positions| == |row.slots|
  }

  /** The memory after the first `k` tokens of a row stored their entries; padded tokens do not. */
  function WriteRow(net: Network, kv: seq<Kv>, bs: nat, row: Row, k: nat): (kv': seq<Kv>)
    requires bs > 0 && WellShaped(row) && k <= |row.items|
    ensures |kv'| == |kv|
  {
    if k == 0 then kv else
      var kv' := WriteRow(net, kv, bs, row, k - 1);
      var slot := row.slots[k - 1];
      if 0 <= slot < |kv'|
      then kv'[slot :=
               net.entry(Read(net, kv', row.table, bs, row.start + k - 1), row.items[k - 1], row.positions[k - 1])]
      else kv'
  }

  /** The memory after the first `k` rows of a batch. */
  function WriteRows(net: Network, kv: seq<Kv>, bs: nat, rows: seq<Row>, k: nat): (kv': seq<Kv>)
    requires bs > 0 && k <= |rows| && forall row :: row in rows ==> WellShaped(row)
    ensures |kv'| == |kv|
  {
    if k == 0 then kv else
      WriteRow(net, WriteRows(net, kv, bs, rows, k - 1), bs, rows[k - 1], |rows[k - 1].items|)
  }

  /** The row's metadata is right for its first `n` tokens: their slots come from the table `t`
      (padded to `row.table`), position ids count on from the cached entries, the rest is padding. */
  ghost predicate RowFits(row: Row, t: seq<nat>, bs: nat, numBlocks: nat, n: nat)
    requires bs > 0
  {
    && WellShaped(row)
    && n <= |row.items|
    && t <= row.table
    && InPool(t, numBlocks)
    && Covers(t, bs, row.start + n)
    && (forall j :: 0 <= j < n ==> row.positions[j] == row.start + j)
    && (forall j :: 0 <= j < n ==> (row.start + j) / bs < |t| && row.slots[j] == SlotOf(t, bs, row.start + j))
    && (forall j :: n <= j < |row.slots| ==> row.slots[j] == PAD_SLOT_ID)
  }

  /** A row writes only into its own blocks. */
  lemma {:induction false} WriteRowFrame(net: Network, kv: seq<Kv>, bs: nat, numBlocks: nat, row: Row, t: seq<nat>,
                                         n: nat, k: nat,
                                         u: seq<nat>, m: nat)
    requires bs > 0 && RowFits(row, t, bs, numBlocks, n) && k <= |row.items|
    requires Apart(t, u)
    ensures Read(net, WriteRow(net, kv, bs, row, k), u, bs, m) == Read(net, kv, u, bs, m)
  {
    if k > 0 {
      WriteRowFrame(net, kv, bs, numBlocks, row, t, n, k - 1, u, m);
      var before := WriteRow(net, kv, bs, row, k - 1);
      var after := WriteRow(net, kv, bs, row, k);
      forall i | 0 <= i < m
        ensures Fetch(net, after, u, bs, i) == Fetch(net, before, u, bs, i)
      {
        if i / bs < |u| && k - 1 < n {
          SlotsApart(t, row.start + k - 1, u, i, bs);
        }
      }
      assert Read(net, after, u, bs, m) == Read(net, before, u, bs, m);
    }
  }

  lemma StoreExtendsRead(net: Network, kv: seq<Kv>, t: seq<nat>, bs: nat, numBlocks: nat, p: nat, e: Kv)
    requires bs > 0 && InPool(t, numBlocks) && p / bs < |t| && |kv| == numBlocks * bs
    ensures SlotOf(t, bs, p) < |kv|
    ensures Read(net, kv[SlotOf(t, bs, p) := e], t, bs, p + 1) == Read(net, kv, t, bs, p) + [e]
  {
    var b := t[p / bs];
    assert b in t;
    SlotInPool(b, p % bs, bs, numBlocks);
    CoveredBlock(t, bs, p);
    forall i | 0 <= i < p
      ensures Fetch(net, kv[SlotOf(t, bs, p) := e], t, bs, i) == Fetch(net, kv, t, bs, i)
    {
      CoveredBlock(t, bs, i);
      SlotsApart(t, p, t, i, bs);
    }
  }

  /** Writing a row extends its cached sequence exactly as encoding the items alone would. */
  lemma {:induction false} WriteRowEncodes(net: Network, kv: seq<Kv>, bs: nat, numBlocks: nat, row: Row, t: seq<nat>,
                                           n: nat, k: nat,
                                           context: seq<Item>)
    requires bs > 0 && RowFits(row, t, bs, numBlocks, n) && k <= n
    requires |kv| == numBlocks * bs
    requires |context| == row.start && Read(net, kv, t, bs, row.start) == Encode(net, context)
    ensures Read(net, WriteRow(net, kv, bs, row, k), t, bs, row.start + k) == Encode(net, context + row.items[..k])
  {
    if k == 0 {
      assert context + row.items[..0] == context;
    } else {
      WriteRowEncodes(net, kv, bs, numBlocks, row, t, n, k - 1, context);
      var before := WriteRow(net, kv, bs, row, k - 1);
      var after := WriteRow(net, kv, bs, row, k);
      var p := row.start + k - 1;
      ReadThroughPrefix(net, before, t, row.table, bs, p);
      var e := net.entry(Encode(net, context + row.items[..k - 1]), row.items[k - 1], p);
      StoreExtendsRead(net, before, t, bs, numBlocks, p, e);
      assert after == before[SlotOf(t, bs, p) := e];
      var items := context + row.items[..k];
      assert items[..|items| - 1] == context + row.items[..k - 1];
    }
  }

  /** Rows of a batch that own different blocks: the tables, and how many tokens of each are real. */
  ghost predicate BatchFits(rows: seq<Row>, tables: seq<seq<nat>>, lens: seq<nat>, bs: nat, numBlocks: nat)
    requires bs > 0
  {
    && |rows| == |tables| == |lens|
    && (forall r :: 0 <= r < |rows| ==> RowFits(rows[r], tables[r], bs, numBlocks, lens[r]))
    && (forall r, s :: 0 <= r < s < |rows| ==> Apart(tables[r], tables[s]) && Apart(tables[s], tables[r]))
  }

  lemma {:induction false} WriteRowsFrame(net: Network, kv: seq<Kv>, bs: nat, numBlocks: nat, rows: seq<Row>,
                                          tables: seq<seq<nat>>,
                                          lens: seq<nat>, k: nat, u: seq<nat>, m: nat)
    requires bs > 0 && BatchFits(rows, tables, lens, bs, numBlocks) && k <= |rows|
    requires forall r :: 0 <= r < k ==> Apart(tables[r], u)
    ensures Read(net, WriteRows(net, kv, bs, rows, k), u, bs, m) == Read(net, kv, u, bs, m)
  {
    if k > 0 {
      WriteRowsFrame(net, kv, bs, numBlocks, rows, tables, lens, k - 1, u, m);
      var before := WriteRows(net, kv, bs, rows, k - 1);
      WriteRowFrame(net, before, bs, numBlocks, rows[k - 1], tables[k - 1], lens[k - 1], |rows[k - 1].items|, u, m);
    }
  }

  lemma {:induction false} PaddingWritesNothing(net: Network, kv: seq<Kv>, bs: nat, numBlocks: nat, row: Row,
                                                t: seq<nat>, n: nat, k: nat)
    requires bs > 0 && RowFits(row, t, bs, numBlocks, n) && n <= k <= |row.items|
    ensures WriteRow(net, kv, bs, row, k) == WriteRow(net, kv, bs, row, n)
  {
    if k > n {
      PaddingWritesNothing(net, kv, bs, numBlocks, row, t, n, k - 1);
    }
  }

  /** Batching is invisible to a row: after the batch its blocks hold what encoding it alone gives. */
  lemma {:induction false} WriteRowsEncodes(net: Network, kv: seq<Kv>, bs: nat, numBlocks: nat, rows: seq<Row>,
                                            tables: seq<seq<nat>>,
                                            lens: seq<nat>, k: nat, r: nat, context: seq<Item>)
    requires bs > 0 && BatchFits(rows, tables, lens, bs, numBlocks) && r < k <= |rows|
    requires |kv| == numBlocks * bs
    requires |context| == rows[r].start && Read(net, kv, tables[r], bs, rows[r].start) == Encode(net, context)
    ensures Read(net, WriteRows(net, kv, bs, rows, k), tables[r], bs, rows[r].start + lens[r])
         == Encode(net, context + rows[r].items[..lens[r]])
  {
    var before := WriteRows(net, kv, bs, rows, k - 1);
    var row, t, n := rows[k - 1], tables[k - 1], lens[k - 1];
    if r == k - 1 {
      WriteRowsFrame(net, kv, bs, numBlocks, rows, tables, lens, k - 1, t, row.start);
      WriteRowEncodes(net, before, bs, numBlocks, row, t, n, n, context);
      PaddingWritesNothing(net, before, bs, numBlocks, row, t, n, |row.items|);
    } else {
      WriteRowsEncodes(net, kv, bs, numBlocks, rows, tables, lens, k - 1, r, context);
      WriteRowFrame(net, before, bs, numBlocks, row, t, n, |row.items|, tables[r], rows[r].start + lens[r]);
    }
  }
}
