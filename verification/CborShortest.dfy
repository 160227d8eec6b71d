/**
 * The encoder's bytes are the fewest: no head is written longer than it has to be, and whatever
 * bytes either decoder reads a value from, the encoder writes that value in no more of them.
 */
module CborShortest {
  import opened Bytes
  import opened Cbor
  import opened CborDecode
  import opened CborAgree
  import opened CborCanonical

  // ---- Heads --------------------------------------------------------------------------------------

  lemma NumberIsBounded(bs: seq<byte>)
    ensures |bs| == 1 ==> Number(bs) < 0x100
    ensures |bs| == 2 ==> Number(bs) < 0x1_0000
    ensures |bs| == 4 ==> Number(bs) < 0x1_0000_0000
  {
    hide Number;
    BigEndianOfNumber(bs);
    Pow256Values();
  }

  /** Any bytes that a decoder reads as a head with this argument are no shorter than the head written. */
  lemma HeadsAreShortest(b: seq<byte>, p: nat, major: byte)
    requires p < |b| && major < 8 && RustArg(b, p + 1, b[p] % 32).Some?
    ensures var (n, q) := RustArg(b, p + 1, b[p] % 32).value; |Head(major, n)| <= q - p
  {
    hide BigEndian, Number;
    var info := b[p] % 32;
    if info > 23 {
      NumberIsBounded(b[p + 1..p + 1 + Width(info)]);
    }
  }

  lemma HeadsGrow(major: byte, m: nat, n: nat)
    requires major < 8 && m <= n
    ensures |Head(major, m)| <= |Head(major, n)|
  {
    hide BigEndian;
  }

  // ---- Entries ----------------------------------------------------------------------------------

  function Length(entries: seq<Pair>): nat {
    |Joined(EncodeEntries(entries))|
  }

  lemma {:induction false} InsertingKeepsLength(e: Entry, sorted: seq<Entry>)
    ensures |Joined(InsertEntry(e, sorted))| == |e.0| + |e.1| + |Joined(sorted)|
  {
    hide KeyLess;
    if sorted == [] || !KeyLess(sorted[0].0, e.0) {
      assert ([e] + sorted)[1..] == sorted;
    } else {
      InsertingKeepsLength(e, sorted[1..]);
      var more := InsertEntry(e, sorted[1..]);
      assert ([sorted[0]] + more)[1..] == more;
    }
  }

  lemma {:induction false} SortingKeepsLength(kv: seq<Entry>)
    ensures |Joined(SortEntries(kv))| == |Joined(kv)|
  {
    if kv != [] {
      SortingKeepsLength(kv[1..]);
      InsertingKeepsLength(kv[0], SortEntries(kv[1..]));
    }
  }

  lemma LengthFirst(entries: seq<Pair>)
    requires entries != []
    ensures Length(entries) == |Encode(entries[0].key)| + |Encode(entries[0].value)| + Length(entries[1..])
  {
    hide Encode;
    var kv := EncodeEntries(entries);
    assert kv[1..] == EncodeEntries(entries[1..]) && kv[0] == EncodeEntry(entries[0]);
  }

  lemma MapLength(entries: seq<Pair>)
    ensures |Encode(Map(entries))| == |Head(5, |entries|)| + Length(entries)
  {
    SortingKeepsLength(EncodeEntries(entries));
  }

  // ---- The daemon's decoder -----------------------------------------------------------------------

  /** Whatever the daemon reads, tags and all, it reads from at least as many bytes as the encoder writes. */
  lemma {:induction false} DaemonReadsNoLess(b: seq<byte>, p: nat, depth: nat)
    ensures var r := RustItem(b, p, depth); r.Done? ==> |Encode(r.value)| <= r.end - p
    decreases Left(depth), 0
  {
    hide RustArg, Head, RustItems, RustEntries, Joined, SortEntries;
    var r := RustItem(b, p, depth);
    if r.Done? && b[p] / 32 < 7 {
      var major := b[p] / 32;
      var (n, q) := RustArg(b, p + 1, b[p] % 32).value;
      HeadsAreShortest(b, p, major);
      if major == 4 {
        ItemsReadNoLess(b, q, depth + 1, n);
      } else if major == 5 {
        EntriesReadNoLess(b, q, depth + 1, n);
        MapLength(r.value.entries);
      } else if major == 6 {
        DaemonReadsNoLess(b, q, depth + 1);
      }
    }
  }

  lemma {:induction false} ItemsReadNoLess(b: seq<byte>, p: nat, depth: nat, n: nat)
    requires p <= |b|
    ensures var r := RustItems(b, p, depth, n); r.Done? ==> |EncodeItems(r.value)| <= r.end - p
    decreases Left(depth), n + 1
  {
    hide RustItem, Encode;
    var r := RustItems(b, p, depth, n);
    if r.Done? && n > 0 {
      DaemonReadsNoLess(b, p, depth);
      var x := RustItem(b, p, depth);
      ItemsReadNoLess(b, x.end, depth, n - 1);
      assert r.value[1..] == RustItems(b, x.end, depth, n - 1).value;
    }
  }

  lemma {:induction false} EntriesReadNoLess(b: seq<byte>, p: nat, depth: nat, n: nat)
    requires p <= |b|
    ensures var r := RustEntries(b, p, depth, n); r.Done? ==> Length(r.value) <= r.end - p
    decreases Left(depth), n + 1
  {
    hide RustItem, Encode;
    var r := RustEntries(b, p, depth, n);
    if r.Done? && n > 0 {
      var e := RustPair(b, p, depth);
      DaemonReadsNoLess(b, p, depth);
      DaemonReadsNoLess(b, RustItem(b, p, depth).end, depth);
      EntriesReadNoLess(b, e.end, depth, n - 1);
      LengthFirst(r.value);
      assert r.value[1..] == RustEntries(b, e.end, depth, n - 1).value;
    }
  }

  // ---- The phone's decoder ------------------------------------------------------------------------

  lemma {:induction false} PutAddsNoMore(entries: seq<Pair>, k: Value, v: Value)
    ensures Length(Put(entries, k, v)) <= Length(entries) + |Encode(k)| + |Encode(v)|
    ensures |Put(entries, k, v)| <= |entries| + 1
  {
    hide Encode, JavaEquals, Length;
    var more := Put(entries, k, v);
    LengthFirst(more);
    if entries == [] {
      assert more[1..] == entries;
    } else {
      LengthFirst(entries);
      if JavaEquals(entries[0].key, k) {
        assert more[1..] == entries[1..];
      } else {
        PutAddsNoMore(entries[1..], k, v);
        assert more[1..] == Put(entries[1..], k, v);
      }
    }
  }

  lemma {:induction false} PutAllAddsNoMore(sofar: seq<Pair>, entries: seq<Pair>)
    ensures Length(PutAll(sofar, entries)) <= Length(sofar) + Length(entries)
    ensures |PutAll(sofar, entries)| <= |sofar| + |entries|
    decreases |entries|
  {
    hide Encode, Put, Length;
    if entries != [] {
      PutAddsNoMore(sofar, entries[0].key, entries[0].value);
      PutAllAddsNoMore(Put(sofar, entries[0].key, entries[0].value), entries[1..]);
      LengthFirst(entries);
    }
  }

  lemma NoLength()
    ensures Length([]) == 0
  {
  }

  /** Putting equal keys together never makes the encoding longer. */
  lemma {:induction false} CollapseShrinks(v: Value)
    ensures |Encode(Collapse(v))| <= |Encode(v)|
    decreases v, 1
  {
    hide Head, Joined, SortEntries;
    match v
    case Array(items) => CollapsedItemsShrink(items);
    case Map(entries) =>
      CollapsedEntriesShrink(entries);
      PutAllAddsNoMore([], CollapseEntries(entries));
      NoLength();
      MapLength(entries);
      MapLength(PutAll([], CollapseEntries(entries)));
      HeadsGrow(5, |PutAll([], CollapseEntries(entries))|, |entries|);
    case _ =>
  }

  lemma {:induction false} CollapsedItemsShrink(items: seq<Value>)
    ensures |EncodeItems(CollapseItems(items))| <= |EncodeItems(items)| && |CollapseItems(items)| == |items|
    decreases items, 0
  {
    hide Encode, Collapse;
    if items != [] {
      CollapseShrinks(items[0]);
      CollapsedItemsShrink(items[1..]);
      var rest := CollapseItems(items[1..]);
      assert ([Collapse(items[0])] + rest)[1..] == rest;
    }
  }

  lemma {:induction false} CollapsedEntriesShrink(entries: seq<Pair>)
    ensures Length(CollapseEntries(entries)) <= Length(entries) && |CollapseEntries(entries)| == |entries|
    decreases entries, 0
  {
    hide Encode, Collapse, Length;
    if entries != [] {
      CollapsedEntryShrinks(entries[0]);
      CollapsedEntriesShrink(entries[1..]);
      LengthFirst(entries);
      var rest := CollapseEntries(entries[1..]);
      assert ([CollapseEntry(entries[0])] + rest)[1..] == rest;
      LengthFirst(CollapseEntries(entries));
    }
  }

  lemma {:induction false} CollapsedEntryShrinks(e: Pair)
    ensures |Encode(CollapseEntry(e).key)| <= |Encode(e.key)| && |Encode(CollapseEntry(e).value)| <= |Encode(e.value)|
    decreases e, 0
  {
    CollapseShrinks(e.key);
    CollapseShrinks(e.value);
  }

  /** What the phone reads in plain terms takes at least as many bytes as the encoder writes for it. */
  lemma PhoneReadsNoLess(b: seq<byte>, p: nat, depth: nat, utf8: Decoder)
    requires |b| < INT && Faithful(utf8)
    ensures var r := JavaItem(b, p, depth, utf8); r.Done? && r.plain ==> |Encode(r.value)| <= r.end - p
  {
    hide JavaItem, RustItem, Encode, Collapse;
    DecodersAgree(b, p, depth, utf8);
    DaemonReadsNoLess(b, p, depth);
    if RustItem(b, p, depth).Done? {
      CollapseShrinks(RustItem(b, p, depth).value);
    }
  }

  // ---- Equal values --------------------------------------------------------------------------------

  lemma {:induction false} SameIsWritable(x: Value, v: Value)
    requires Same(x, v) && Writable(v)
    ensures Writable(x)
    decreases x
  {
    match x
    case Array(items) =>
      forall i | 0 <= i < |items|
        ensures Writable(items[i])
      {
        SameIsWritable(items[i], v.items[i]);
      }
    case Map(entries) =>
      forall i | 0 <= i < |entries|
        ensures WritablePair(entries[i])
      {
        assert Occurs(entries[i], v.entries);
        var j :| 0 <= j < |v.entries| && SamePair(entries[i], v.entries[j]);
        assert WritablePair(v.entries[j]);
        SamePairIsWritable(entries[i], v.entries[j]);
      }
    case _ =>
  }

  lemma {:induction false} SamePairIsWritable(x: Pair, e: Pair)
    requires SamePair(x, e) && WritablePair(e)
    ensures WritablePair(x)
    decreases x
  {
    SameIsWritable(x.key, e.key);
    SameIsWritable(x.value, e.value);
  }

  /**
   * The encoding is the shortest: from whatever bytes, at whatever offset, either decoder reads a
   * value equal to `v` up to the order of map entries, it takes at least `Encode(v)`'s number of them.
   */
  lemma EncodingIsShortest(v: Value, b: seq<byte>, p: nat, depth: nat, utf8: Decoder)
    requires Writable(v) && Distinct(v) && |b| < INT && Faithful(utf8)
    ensures var r := RustItem(b, p, depth);
            r.Done? && Same(r.value, v) && Distinct(r.value) ==> |Encode(v)| <= r.end - p
    ensures var r := JavaItem(b, p, depth, utf8);
            r.Done? && r.plain && Same(r.value, v) && Distinct(r.value) ==> |Encode(v)| <= r.end - p
  {
    hide JavaItem, RustItem, Encode, Same, Distinct, Writable;
    DaemonReadsNoLess(b, p, depth);
    PhoneReadsNoLess(b, p, depth, utf8);
    var rust, java := RustItem(b, p, depth), JavaItem(b, p, depth, utf8);
    if rust.Done? && Same(rust.value, v) && Distinct(rust.value) {
      SameIsWritable(rust.value, v);
      SameEncodes(rust.value, v);
    }
    if java.Done? && java.plain && Same(java.value, v) && Distinct(java.value) {
      SameIsWritable(java.value, v);
      SameEncodes(java.value, v);
    }
  }
}
