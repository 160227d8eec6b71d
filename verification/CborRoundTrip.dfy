/**
 * Decoding undoes encoding: both decoders read an encoded value back, up to the order of map
 * entries, from the middle of any bytes, and stop exactly where the encoding ends.
 */
module CborRoundTrip {
  import opened Bytes
  import opened Cbor
  import opened CborDecode

  // ---- Canonical order --------------------------------------------------------------------

  /** The entries in the order in which the encoder writes them. */
  function SortPairs(entries: seq<Pair>): (sorted: seq<Pair>)
    ensures |sorted| == |entries|
  {
    if entries == [] then [] else InsertPair(entries[0], SortPairs(entries[1..]))
  }

  function InsertPair(e: Pair, sorted: seq<Pair>): (more: seq<Pair>)
    ensures |more| == |sorted| + 1
  {
    if sorted == [] || !KeyLess(Encode(sorted[0].key), Encode(e.key)) then [e] + sorted
    else [sorted[0]] + InsertPair(e, sorted[1..])
  }

  lemma {:induction false} InsertedPairs(e: Pair, sorted: seq<Pair>)
    ensures multiset(InsertPair(e, sorted)) == multiset(sorted) + multiset{e}
  {
    if sorted != [] && KeyLess(Encode(sorted[0].key), Encode(e.key)) {
      InsertedPairs(e, sorted[1..]);
      assert sorted == [sorted[0]] + sorted[1..];
    }
  }

  lemma {:induction false} SortedPairs(entries: seq<Pair>)
    ensures multiset(SortPairs(entries)) == multiset(entries)
  {
    if entries != [] {
      SortedPairs(entries[1..]);
      InsertedPairs(entries[0], SortPairs(entries[1..]));
      assert entries == [entries[0]] + entries[1..];
    }
  }

  lemma SortedComeFrom(entries: seq<Pair>, i: nat)
    requires i < |entries|
    ensures SortPairs(entries)[i] in entries
  {
    SortedPairs(entries);
    assert SortPairs(entries)[i] in multiset(SortPairs(entries));
  }

  lemma {:induction false} InsertPairEncodes(e: Pair, sorted: seq<Pair>)
    ensures EncodeEntries(InsertPair(e, sorted)) == InsertEntry(EncodeEntry(e), EncodeEntries(sorted))
  {
    if sorted != [] && KeyLess(Encode(sorted[0].key), Encode(e.key)) {
      InsertPairEncodes(e, sorted[1..]);
    }
  }

  /** Sorting the values by encoded key and sorting the encoded entries come to the same. */
  lemma {:induction false} SortPairsEncodes(entries: seq<Pair>)
    ensures EncodeEntries(SortPairs(entries)) == SortEntries(EncodeEntries(entries))
  {
    if entries != [] {
      SortPairsEncodes(entries[1..]);
      InsertPairEncodes(entries[0], SortPairs(entries[1..]));
    }
  }

  /** The value with every map's entries in the order in which they are written. */
  function Canon(v: Value): Value
    decreases v, 1
  {
    match v
    case Array(items) => Array(CanonItems(items))
    case Map(entries) => Map(CanonMap(entries))
    case _ => v
  }

  function CanonItems(items: seq<Value>): (canon: seq<Value>)
    ensures |canon| == |items|
    decreases items, 0
  {
    if items == [] then [] else [Canon(items[0])] + CanonItems(items[1..])
  }

  function CanonMap(entries: seq<Pair>): (canon: seq<Pair>)
    ensures |canon| == |entries|
    decreases entries, 0
  {
    var sorted := SortPairs(entries);
    seq(|sorted|, i requires 0 <= i < |sorted| => SortedComeFrom(entries, i); CanonPair(sorted[i]))
  }

  function CanonPair(e: Pair): Pair
    decreases e, 0
  {
    Pair(Canon(e.key), Canon(e.value))
  }

  function CanonPairs(entries: seq<Pair>): (canon: seq<Pair>)
    ensures |canon| == |entries|
    ensures forall i :: 0 <= i < |entries| ==> canon[i] == CanonPair(entries[i])
  {
    if entries == [] then [] else [CanonPair(entries[0])] + CanonPairs(entries[1..])
  }

  lemma CanonMapIsSorted(entries: seq<Pair>)
    ensures CanonMap(entries) == CanonPairs(SortPairs(entries))
  {
  }

  // ---- Reading back -----------------------------------------------------------------------

  /**
   * Values that can be sent and read: signed 64-bit integers, lengths a Java array can have,
   * well-formed texts, no null, nested no deeper than `levels`.
   */
  predicate Sendable(v: Value, levels: nat)
    decreases v
  {
    match v
    case Integer(i) => -LONG <= i < LONG
    case Binary(s) => |s| < INT
    case Text(t) => |t| < INT && ValidUtf8(t)
    case Array(items) =>
      |items| < INT && forall i :: 0 <= i < |items| ==> levels > 0 && Sendable(items[i], levels - 1)
    case Map(entries) =>
      |entries| < INT && forall i :: 0 <= i < |entries| ==> levels > 0 && SendablePair(entries[i], levels - 1)
    case Bool(_) => true
    case Null => false
  }

  predicate SendablePair(e: Pair, levels: nat)
    decreases e
  {
    Sendable(e.key, levels) && Sendable(e.value, levels)
  }

  predicate AllSendable(items: seq<Value>, levels: nat) {
    forall i :: 0 <= i < |items| ==> Sendable(items[i], levels)
  }

  predicate AllSendablePairs(entries: seq<Pair>, levels: nat) {
    forall i :: 0 <= i < |entries| ==> SendablePair(entries[i], levels)
  }

  lemma ItemsAreSendable(items: seq<Value>, levels: nat)
    requires Sendable(Array(items), levels) && items != []
    ensures levels > 0 && AllSendable(items, levels - 1)
  {
    var x := items[0];
  }

  lemma EntriesAreSendable(entries: seq<Pair>, levels: nat)
    requires Sendable(Map(entries), levels) && entries != []
    ensures levels > 0 && AllSendablePairs(entries, levels - 1)
  {
    var e := entries[0];
  }

  lemma SortedStaySendable(entries: seq<Pair>, levels: nat)
    requires AllSendablePairs(entries, levels)
    ensures AllSendablePairs(SortPairs(entries), levels)
  {
    var sorted := SortPairs(entries);
    forall i | 0 <= i < |sorted|
      ensures SendablePair(sorted[i], levels)
    {
      SortedComeFrom(entries, i);
    }
  }

  /** `x` stands in `b` at position `p`. */
  predicate At(b: seq<byte>, p: nat, x: seq<byte>)
    decreases |x|
  {
    p + |x| <= |b| && (x == [] || (b[p] == x[0] && At(b, p + 1, x[1..])))
  }

  lemma {:induction false} AtParts(b: seq<byte>, p: nat, x: seq<byte>, y: seq<byte>)
    requires At(b, p, x + y)
    ensures At(b, p, x) && At(b, p + |x|, y)
    decreases |x|
  {
    if x == [] {
      assert x + y == y;
    } else {
      assert (x + y)[1..] == x[1..] + y;
      AtParts(b, p + 1, x[1..], y);
    }
  }

  lemma {:induction false} AtSlice(b: seq<byte>, p: nat, x: seq<byte>)
    requires At(b, p, x)
    ensures b[p..p + |x|] == x
    decreases |x|
  {
    if x != [] {
      AtSlice(b, p + 1, x[1..]);
      assert b[p..p + |x|] == [b[p]] + b[p + 1..p + |x|];
    }
  }

  lemma ArgReadsBack(b: seq<byte>, p: nat, v: nat, info: byte)
    requires 24 <= info <= 27 && v < Pow256(Width(info)) && At(b, p, BigEndian(v, Width(info)))
    ensures RustArg(b, p, info) == Some((v, p + Width(info)))
  {
    NumberOfBigEndian(v, Width(info));
    AtSlice(b, p, BigEndian(v, Width(info)));
  }

  lemma HeadReadsBack(b: seq<byte>, p: nat, major: byte, v: nat)
    requires major < 7 && v < 2 * LONG && At(b, p, Head(major, v))
    ensures b[p] / 32 == major
    ensures RustArg(b, p + 1, b[p] % 32) == Some((v, p + |Head(major, v)|))
  {
    Pow256Values();
    var head := Head(major, v);
    AtParts(b, p, head[..1], head[1..]);
    assert head == head[..1] + head[1..];
    if v >= 24 {
      var info := head[0] % 32;
      assert head[1..] == BigEndian(v, Width(info));
      ArgReadsBack(b, p + 1, v, info);
    }
  }

  lemma NumberReadsBack(b: seq<byte>, p: nat, v: Value, depth: nat)
    requires depth <= 8 && (v.Integer? || v.Bool?) && Sendable(v, 8 - depth) && At(b, p, Encode(v))
    ensures RustItem(b, p, depth) == Done(v, p + |Encode(v)|, true)
  {
    if v.Integer? {
      HeadReadsBack(b, p, if v.i >= 0 then 0 else 1, if v.i >= 0 then v.i else -1 - v.i);
    } else {
      assert b[p] == Encode(v)[0];
    }
  }

  lemma StringReadsBack(b: seq<byte>, p: nat, text: bool, s: seq<byte>, depth: nat)
    requires depth <= 8 && |s| < INT && (text ==> ValidUtf8(s))
    requires At(b, p, Head(if text then 3 else 2, |s|) + s)
    ensures RustItem(b, p, depth)
            == Done(if text then Text(s) else Binary(s), p + |Head(if text then 3 else 2, |s|) + s|, true)
  {
    hide RustItems, RustEntries, ReadUint, Head, At, ValidUtf8;
    var major := if text then 3 else 2;
    AtParts(b, p, Head(major, |s|), s);
    HeadReadsBack(b, p, major, |s|);
    AtSlice(b, p + |Head(major, |s|)|, s);
    assert RustString(b, p + |Head(major, |s|)|, text, |s|).Done?;
  }

  /** The daemon's decoder reads every sendable value back and stops at the end of its encoding. */
  lemma {:induction false} RustReadsBack(b: seq<byte>, p: nat, v: Value, depth: nat)
    requires depth <= 8 && Sendable(v, 8 - depth) && At(b, p, Encode(v))
    ensures RustItem(b, p, depth) == Done(Canon(v), p + |Encode(v)|, true)
    decreases 8 - depth, 2
  {
    match v
    case Integer(_) => NumberReadsBack(b, p, v, depth);
    case Bool(_) => NumberReadsBack(b, p, v, depth);
    case Binary(s) => StringReadsBack(b, p, false, s, depth);
    case Text(t) => StringReadsBack(b, p, true, t, depth);
    case Array(items) => ArrayReadsBack(b, p, items, depth);
    case Map(entries) => MapReadsBack(b, p, entries, depth);
  }

  lemma {:induction false} ArrayReadsBack(b: seq<byte>, p: nat, items: seq<Value>, depth: nat)
    requires depth <= 8 && Sendable(Array(items), 8 - depth) && At(b, p, Encode(Array(items)))
    ensures RustItem(b, p, depth) == Done(Array(CanonItems(items)), p + |Encode(Array(items))|, true)
    decreases 8 - depth, 1
  {
    hide RustItems, RustEntries, EncodeItems, CanonItems, ReadUint, Head, At, ValidUtf8;
    AtParts(b, p, Head(4, |items|), EncodeItems(items));
    HeadReadsBack(b, p, 4, |items|);
    BodyReadsBack(b, p + |Head(4, |items|)|, items, depth);
  }

  lemma {:induction false} BodyReadsBack(b: seq<byte>, p: nat, items: seq<Value>, depth: nat)
    requires depth <= 8 && Sendable(Array(items), 8 - depth) && At(b, p, EncodeItems(items))
    ensures RustItems(b, p, depth + 1, |items|) == Done(CanonItems(items), p + |EncodeItems(items)|, true)
    decreases 8 - depth, 0
  {
    hide RustItem, Encode, Canon, At;
    if items != [] {
      ItemsAreSendable(items, 8 - depth);
      ItemsReadBack(b, p, items, depth + 1);
    }
  }

  lemma {:induction false} MapReadsBack(b: seq<byte>, p: nat, entries: seq<Pair>, depth: nat)
    requires depth <= 8 && Sendable(Map(entries), 8 - depth) && At(b, p, Encode(Map(entries)))
    ensures RustItem(b, p, depth) == Done(Map(CanonMap(entries)), p + |Encode(Map(entries))|, true)
    decreases 8 - depth, 1
  {
    hide RustItems, RustEntries, EncodeEntries, SortEntries, Joined, CanonMap, ReadUint, Head, At, ValidUtf8;
    var tail := Joined(SortEntries(EncodeEntries(entries)));
    var body := p + |Head(5, |entries|)|;
    AtParts(b, p, Head(5, |entries|), tail);
    HeadReadsBack(b, p, 5, |entries|);
    MapBodyReadsBack(b, body, entries, depth);
    assert RustEntries(b, body, depth + 1, |entries|) == Done(CanonMap(entries), body + |tail|, true);
  }

  lemma {:induction false} MapBodyReadsBack(b: seq<byte>, p: nat, entries: seq<Pair>, depth: nat)
    requires depth <= 8 && Sendable(Map(entries), 8 - depth)
    requires At(b, p, Joined(SortEntries(EncodeEntries(entries))))
    ensures RustEntries(b, p, depth + 1, |entries|)
            == Done(CanonMap(entries), p + |Joined(SortEntries(EncodeEntries(entries)))|, true)
    decreases 8 - depth, 0
  {
    hide RustItem, RustPair, Encode, Canon, CanonPair, At;
    if entries != [] {
      SortPairsEncodes(entries);
      CanonMapIsSorted(entries);
      EntriesAreSendable(entries, 8 - depth);
      SortedStaySendable(entries, 8 - depth - 1);
      EntriesReadBack(b, p, SortPairs(entries), depth + 1);
    }
  }

  lemma ItemsStep(b: seq<byte>, p: nat, depth: nat, n: nat, x: Value, q: nat, rest: seq<Value>, end: nat)
    requires p <= q <= |b|
    requires RustItem(b, p, depth) == Done(x, q, true) && RustItems(b, q, depth, n) == Done(rest, end, true)
    ensures RustItems(b, p, depth, n + 1) == Done([x] + rest, end, true)
  {
  }

  lemma {:induction false} ItemsReadBack(b: seq<byte>, p: nat, items: seq<Value>, depth: nat)
    requires depth <= 8 && AllSendable(items, 8 - depth) && At(b, p, EncodeItems(items))
    ensures RustItems(b, p, depth, |items|) == Done(CanonItems(items), p + |EncodeItems(items)|, true)
    decreases 8 - depth, |items| + 4
  {
    hide RustItem, Encode, Canon, Sendable, At;
    if items != [] {
      var first, rest := Encode(items[0]), EncodeItems(items[1..]);
      AtParts(b, p, first, rest);
      RustReadsBack(b, p, items[0], depth);
      ItemsReadBack(b, p + |first|, items[1..], depth);
      ItemsStep(b, p, depth, |items| - 1, Canon(items[0]), p + |first|, CanonItems(items[1..]), p + |first| + |rest|);
    }
  }

  lemma EntriesStep(b: seq<byte>, p: nat, depth: nat, n: nat, e: Pair, q: nat, rest: seq<Pair>, end: nat)
    requires p <= q <= |b|
    requires RustPair(b, p, depth) == Done(e, q, true) && RustEntries(b, q, depth, n) == Done(rest, end, true)
    ensures RustEntries(b, p, depth, n + 1) == Done([e] + rest, end, true)
  {
  }

  lemma {:induction false} EntriesReadBack(b: seq<byte>, p: nat, entries: seq<Pair>, depth: nat)
    requires depth <= 8 && AllSendablePairs(entries, 8 - depth)
    requires At(b, p, Joined(EncodeEntries(entries)))
    ensures RustEntries(b, p, depth, |entries|)
            == Done(CanonPairs(entries), p + |Joined(EncodeEntries(entries))|, true)
    decreases 8 - depth, |entries| + 4
  {
    hide RustItem, RustPair, Encode, Canon, CanonPair, SendablePair, At;
    if entries != [] {
      var e, rest := entries[0], entries[1..];
      var first, tail := Encode(e.key) + Encode(e.value), Joined(EncodeEntries(rest));
      JoinedFirst(entries);
      AtParts(b, p, first, tail);
      PairReadsBack(b, p, e, depth);
      EntriesReadBack(b, p + |first|, rest, depth);
      EntriesStep(b, p, depth, |rest|, CanonPair(e), p + |first|, CanonPairs(rest), p + |first| + |tail|);
    }
  }

  lemma JoinedFirst(entries: seq<Pair>)
    requires entries != []
    ensures Joined(EncodeEntries(entries))
            == (Encode(entries[0].key) + Encode(entries[0].value)) + Joined(EncodeEntries(entries[1..]))
  {
    assert EncodeEntries(entries)[1..] == EncodeEntries(entries[1..]);
  }

  lemma PairStep(b: seq<byte>, p: nat, depth: nat, k: Value, q: nat, x: Value, end: nat)
    requires RustItem(b, p, depth) == Done(k, q, true) && RustItem(b, q, depth) == Done(x, end, true)
    ensures RustPair(b, p, depth) == Done(Pair(k, x), end, true)
  {
  }

  lemma {:induction false} PairReadsBack(b: seq<byte>, p: nat, e: Pair, depth: nat)
    requires depth <= 8 && SendablePair(e, 8 - depth) && At(b, p, Encode(e.key) + Encode(e.value))
    ensures RustPair(b, p, depth) == Done(CanonPair(e), p + |Encode(e.key) + Encode(e.value)|, true)
    decreases 8 - depth, 3
  {
    hide RustItem, Encode, Canon, Sendable, At;
    var key, value := Encode(e.key), Encode(e.value);
    AtParts(b, p, key, value);
    RustReadsBack(b, p, e.key, depth);
    RustReadsBack(b, p + |key|, e.value, depth);
    PairStep(b, p, depth, Canon(e.key), p + |key|, Canon(e.value), p + |key| + |value|);
  }
}
