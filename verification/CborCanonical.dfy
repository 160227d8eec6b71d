/**
 * The encoding is canonical: values that are the same up to the order of map entries have the
 * same bytes, values that differ have different bytes, and the keys of every map increase.
 */
module CborCanonical {
  import opened Bytes
  import opened Cbor
  import opened CborDecode
  import opened CborAgree
  import opened CborRoundTrip

  // ---- Sameness up to insertion order -----------------------------------------------------

  /** Equal up to the order of map entries, at every level. */
  predicate Same(a: Value, b: Value)
    decreases a
  {
    match (a, b)
    case (Integer(x), Integer(y)) => x == y
    case (Binary(x), Binary(y)) => x == y
    case (Text(x), Text(y)) => x == y
    case (Bool(x), Bool(y)) => x == y
    case (Null, Null) => true
    case (Array(x), Array(y)) => |x| == |y| && forall i :: 0 <= i < |x| ==> Same(x[i], y[i])
    case (Map(x), Map(y)) =>
      |x| == |y| && forall i :: 0 <= i < |x| ==> Occurs(x[i], y)
    case _ => false
  }

  /** Some entry of `entries` is the same as `e`. */
  predicate Occurs(e: Pair, entries: seq<Pair>)
    decreases e, 1
  {
    exists j :: 0 <= j < |entries| && SamePair(e, entries[j])
  }

  predicate SamePair(a: Pair, b: Pair)
    decreases a, 0
  {
    Same(a.key, b.key) && Same(a.value, b.value)
  }

  /** No map inside has two keys that are the same, as in every Java map with integer, text and boolean keys. */
  predicate Distinct(v: Value)
    decreases v
  {
    match v
    case Array(items) => forall i :: 0 <= i < |items| ==> Distinct(items[i])
    case Map(entries) =>
      && (forall i :: 0 <= i < |entries| ==> DistinctPair(entries[i]))
      && (forall i, j :: 0 <= i < j < |entries| ==> !Same(entries[i].key, entries[j].key))
    case _ => true
  }

  predicate DistinctPair(e: Pair)
    decreases e
  {
    Distinct(e.key) && Distinct(e.value)
  }

  /** What the encoder can write: 64-bit integers, lengths a Java array can have, no null. */
  predicate Writable(v: Value)
    decreases v
  {
    match v
    case Integer(i) => -LONG <= i < LONG
    case Binary(s) => |s| < INT
    case Text(t) => |t| < INT
    case Array(items) => |items| < INT && forall i :: 0 <= i < |items| ==> Writable(items[i])
    case Map(entries) => |entries| < INT && forall i :: 0 <= i < |entries| ==> WritablePair(entries[i])
    case Bool(_) => true
    case Null => false
  }

  predicate WritablePair(e: Pair)
    decreases e
  {
    Writable(e.key) && Writable(e.value)
  }

  // ---- Different values, different bytes --------------------------------------------------

  lemma {:induction false} AtStart(x: seq<byte>, y: seq<byte>, pre: seq<byte>)
    ensures At(pre + (x + y), |pre|, x)
    decreases |x|
  {
    if x != [] {
      var b := pre + (x + y);
      AtStart(x[1..], y, pre + [x[0]]);
      assert b == (pre + [x[0]]) + (x[1..] + y);
    }
  }

  lemma Regroup(x: seq<byte>, y: seq<byte>, z: seq<byte>)
    ensures (x + y) + z == x + (y + z)
  {
  }

  /** A head can be told from the bytes it starts. */
  lemma HeadIsSelfDelimiting(m: byte, v: nat, x: seq<byte>, m': byte, v': nat, x': seq<byte>)
    requires m < 7 && m' < 7 && v < 2 * LONG && v' < 2 * LONG
    requires Head(m, v) + x == Head(m', v') + x'
    ensures m == m' && v == v' && x == x'
  {
    hide Head, At, RustArg;
    var b := Head(m, v) + x;
    AtStart(Head(m, v), x, []);
    AtStart(Head(m', v'), x', []);
    assert [] + b == b;
    HeadReadsBack(b, 0, m, v);
    HeadReadsBack(b, 0, m', v');
    assert b[|Head(m, v)|..] == x && b[|Head(m', v')|..] == x';
  }

  function Major(v: Value): byte {
    match v
    case Integer(i) => if i >= 0 then 0 else 1
    case Binary(_) => 2
    case Text(_) => 3
    case Array(_) => 4
    case Map(_) => 5
    case _ => 7
  }

  function Count(v: Value): nat {
    match v
    case Integer(i) => if i >= 0 then i else -1 - i
    case Binary(s) => |s|
    case Text(t) => |t|
    case Array(items) => |items|
    case Map(entries) => |entries|
    case _ => 0
  }

  function Body(v: Value): seq<byte> {
    match v
    case Binary(s) => s
    case Text(t) => t
    case Array(items) => EncodeItems(items)
    case Map(entries) => Joined(EncodeEntries(SortPairs(entries)))
    case _ => []
  }

  lemma EncodeIsHeadAndBody(v: Value)
    requires Writable(v) && !v.Bool?
    ensures Count(v) < 2 * LONG && Major(v) < 7 && Encode(v) == Head(Major(v), Count(v)) + Body(v)
  {
    hide Head, EncodeItems, EncodeEntries, Joined, SortPairs;
    if v.Map? {
      SortPairsEncodes(v.entries);
    }
  }

  lemma FirstByte(v: Value)
    requires Writable(v)
    ensures Encode(v) != [] && Encode(v)[0] / 32 == Major(v)
  {
    if !v.Bool? {
      EncodeIsHeadAndBody(v);
    }
  }

  /** No encoding is a prefix of another one, and equal encodings come from values that agree. */
  lemma {:induction false} EncodingIsPrefixFree(a: Value, x: seq<byte>, b: Value, y: seq<byte>)
    requires Writable(a) && Writable(b) && Encode(a) + x == Encode(b) + y
    ensures Canon(a) == Canon(b) && x == y
    decreases a, 1
  {
    hide Encode, Canon, Head;
    FirstByte(a);
    FirstByte(b);
    assert Encode(a)[0] == (Encode(a) + x)[0] == (Encode(b) + y)[0] == Encode(b)[0];
    if a.Bool? {
      BoolsDiffer(a, x, b, y);
    } else {
      EncodeIsHeadAndBody(a);
      EncodeIsHeadAndBody(b);
      Regroup(Head(Major(a), Count(a)), Body(a), x);
      Regroup(Head(Major(b), Count(b)), Body(b), y);
      HeadIsSelfDelimiting(Major(a), Count(a), Body(a) + x, Major(b), Count(b), Body(b) + y);
      BodiesAgree(a, x, b, y);
    }
  }

  lemma BoolsDiffer(a: Value, x: seq<byte>, b: Value, y: seq<byte>)
    requires a.Bool? && b.Bool? && Encode(a) + x == Encode(b) + y
    ensures Canon(a) == Canon(b) && x == y
  {
    assert (Encode(a) + x)[1..] == x && (Encode(b) + y)[1..] == y;
    assert Encode(a)[0] == (Encode(a) + x)[0] == Encode(b)[0];
  }

  lemma {:induction false} BodiesAgree(a: Value, x: seq<byte>, b: Value, y: seq<byte>)
    requires Writable(a) && Writable(b) && !a.Bool? && !b.Bool?
    requires Major(a) == Major(b) && Count(a) == Count(b) && Body(a) + x == Body(b) + y
    ensures Canon(a) == Canon(b) && x == y
    decreases a, 0
  {
    match a
    case Integer(i) => SplitEqual([], x, [], y);
    case Binary(s) => SplitEqual(s, x, b.bytes, y);
    case Text(t) => SplitEqual(t, x, b.utf8, y);
    case Array(items) => ItemsArePrefixFree(items, x, b.items, y);
    case Map(entries) =>
      CanonMapIsSorted(entries);
      CanonMapIsSorted(b.entries);
      SortedAreWritable(entries);
      SortedAreWritable(b.entries);
      forall i | 0 <= i < |entries|
        ensures SortPairs(entries)[i] in entries
      {
        SortedComeFrom(entries, i);
      }
      EntriesArePrefixFree(entries, SortPairs(entries), x, SortPairs(b.entries), y);
  }

  lemma SplitEqual(s: seq<byte>, x: seq<byte>, t: seq<byte>, y: seq<byte>)
    requires |s| == |t| && s + x == t + y
    ensures s == t && x == y
  {
    assert s == (s + x)[..|s|] && t == (t + y)[..|s|];
    assert x == (s + x)[|s|..] && y == (t + y)[|s|..];
  }

  predicate AllWritable(entries: seq<Pair>) {
    forall i :: 0 <= i < |entries| ==> WritablePair(entries[i])
  }

  lemma SortedAreWritable(entries: seq<Pair>)
    requires AllWritable(entries)
    ensures AllWritable(SortPairs(entries))
  {
    forall i | 0 <= i < |entries|
      ensures WritablePair(SortPairs(entries)[i])
    {
      SortedComeFrom(entries, i);
    }
  }

  lemma {:induction false} ItemsArePrefixFree(a: seq<Value>, x: seq<byte>, b: seq<Value>, y: seq<byte>)
    requires |a| == |b| && (forall i :: 0 <= i < |a| ==> Writable(a[i]) && Writable(b[i]))
    requires EncodeItems(a) + x == EncodeItems(b) + y
    ensures CanonItems(a) == CanonItems(b) && x == y
    decreases a, 0
  {
    hide Encode, Canon, Writable;
    if a != [] {
      Regroup(Encode(a[0]), EncodeItems(a[1..]), x);
      Regroup(Encode(b[0]), EncodeItems(b[1..]), y);
      EncodingIsPrefixFree(a[0], EncodeItems(a[1..]) + x, b[0], EncodeItems(b[1..]) + y);
      ItemsArePrefixFree(a[1..], x, b[1..], y);
    } else {
      assert [] + x == x && [] + y == y;
    }
  }

  /** `a` holds entries of `whole`, which is what makes the recursion end. */
  lemma {:induction false} EntriesArePrefixFree(whole: seq<Pair>, a: seq<Pair>, x: seq<byte>, b: seq<Pair>,
                                                y: seq<byte>)
    requires |a| == |b| && AllWritable(a) && AllWritable(b)
    requires forall i :: 0 <= i < |a| ==> a[i] in whole
    requires Joined(EncodeEntries(a)) + x == Joined(EncodeEntries(b)) + y
    ensures CanonPairs(a) == CanonPairs(b) && x == y
    decreases whole, |a|
  {
    hide Encode, Canon, WritablePair;
    if a != [] {
      JoinedFirst(a);
      JoinedFirst(b);
      var tailA, tailB := Joined(EncodeEntries(a[1..])), Joined(EncodeEntries(b[1..]));
      var headA, headB := Encode(a[0].key) + Encode(a[0].value), Encode(b[0].key) + Encode(b[0].value);
      Regroup(headA, tailA, x);
      Regroup(headB, tailB, y);
      PairsArePrefixFree(a[0], tailA + x, b[0], tailB + y);
      EntriesArePrefixFree(whole, a[1..], x, b[1..], y);
    } else {
      assert [] + x == x && [] + y == y;
    }
  }

  lemma {:induction false} PairsArePrefixFree(a: Pair, x: seq<byte>, b: Pair, y: seq<byte>)
    requires WritablePair(a) && WritablePair(b)
    requires (Encode(a.key) + Encode(a.value)) + x == (Encode(b.key) + Encode(b.value)) + y
    ensures CanonPair(a) == CanonPair(b) && x == y
    decreases a
  {
    hide Encode, Canon, Writable;
    Regroup(Encode(a.key), Encode(a.value), x);
    Regroup(Encode(b.key), Encode(b.value), y);
    EncodingIsPrefixFree(a.key, Encode(a.value) + x, b.key, Encode(b.value) + y);
    EncodingIsPrefixFree(a.value, x, b.value, y);
  }

  lemma {:induction false} CanonItemsAt(items: seq<Value>, i: nat)
    requires i < |items|
    ensures CanonItems(items)[i] == Canon(items[i])
  {
    hide Canon;
    if i > 0 {
      CanonItemsAt(items[1..], i - 1);
    }
  }

  lemma CanonMapHas(entries: seq<Pair>, i: nat) returns (j: nat)
    requires i < |entries|
    ensures j < |entries| && SortPairs(entries)[j] == entries[i] && CanonMap(entries)[j] == CanonPair(entries[i])
  {
    SortedPairs(entries);
    assert entries[i] in multiset(entries);
    assert entries[i] in SortPairs(entries);
    j :| 0 <= j < |entries| && SortPairs(entries)[j] == entries[i];
    CanonMapIsSorted(entries);
  }

  lemma CanonMapFrom(entries: seq<Pair>, j: nat) returns (i: nat)
    requires j < |entries|
    ensures i < |entries| && SortPairs(entries)[j] == entries[i] && CanonMap(entries)[j] == CanonPair(entries[i])
  {
    SortedComeFrom(entries, j);
    i :| 0 <= i < |entries| && entries[i] == SortPairs(entries)[j];
    CanonMapIsSorted(entries);
  }

  /** Values with one canonical form are the same up to order. */
  lemma {:induction false} CanonDetermines(a: Value, b: Value)
    requires Canon(a) == Canon(b)
    ensures Same(a, b)
    decreases a
  {
    match a
    case Array(items) =>
      forall i | 0 <= i < |items|
        ensures Same(items[i], b.items[i])
      {
        CanonItemsAt(items, i);
        CanonItemsAt(b.items, i);
        CanonDetermines(items[i], b.items[i]);
      }
    case Map(entries) =>
      assert |entries| == |CanonMap(entries)| == |CanonMap(b.entries)| == |b.entries|;
      forall i | 0 <= i < |entries|
        ensures Occurs(entries[i], b.entries)
      {
        var k := CanonMapHas(entries, i);
        var j := CanonMapFrom(b.entries, k);
        CanonPairDetermines(entries[i], b.entries[j]);
      }
    case _ =>
  }

  lemma {:induction false} CanonPairDetermines(a: Pair, b: Pair)
    requires CanonPair(a) == CanonPair(b)
    ensures SamePair(a, b)
    decreases a
  {
    CanonDetermines(a.key, b.key);
    CanonDetermines(a.value, b.value);
  }

  // ---- Same values, same bytes ------------------------------------------------------------

  lemma {:induction false} LexTotal(a: seq<byte>, b: seq<byte>)
    requires |a| == |b| && a != b
    ensures LexLess(a, b) != LexLess(b, a)
  {
    if a[0] == b[0] {
      assert a == [a[0]] + a[1..] && b == [b[0]] + b[1..];
      LexTotal(a[1..], b[1..]);
    }
  }

  lemma {:induction false} LexIrreflexive(a: seq<byte>)
    ensures !LexLess(a, a)
  {
    if a != [] {
      LexIrreflexive(a[1..]);
    }
  }

  lemma {:induction false} LexTransitive(a: seq<byte>, b: seq<byte>, c: seq<byte>)
    requires |a| == |b| == |c| && LexLess(a, b) && LexLess(b, c)
    ensures LexLess(a, c)
  {
    if a[0] == b[0] == c[0] {
      LexTransitive(a[1..], b[1..], c[1..]);
    }
  }

  lemma KeyLessIsAnOrder(a: seq<byte>, b: seq<byte>, c: seq<byte>)
    ensures !KeyLess(a, a)
    ensures a != b ==> KeyLess(a, b) != KeyLess(b, a)
    ensures KeyLess(a, b) && KeyLess(b, c) ==> KeyLess(a, c)
  {
    LexIrreflexive(a);
    if |a| == |b| && a != b {
      LexTotal(a, b);
    }
    if |a| == |b| == |c| && LexLess(a, b) && LexLess(b, c) {
      LexTransitive(a, b, c);
    }
  }

  /** Keys strictly increase: by length, then byte by byte. */
  predicate Increasing(kv: seq<Entry>) {
    forall i, j :: 0 <= i < j < |kv| ==> KeyLess(kv[i].0, kv[j].0)
  }

  predicate DistinctKeys(kv: seq<Entry>) {
    forall i, j :: 0 <= i < j < |kv| ==> kv[i].0 != kv[j].0
  }

  lemma {:induction false} InsertIncreases(e: Entry, sorted: seq<Entry>)
    requires Increasing(sorted) && forall k <- sorted :: k.0 != e.0
    ensures Increasing(InsertEntry(e, sorted))
    ensures multiset(InsertEntry(e, sorted)) == multiset(sorted) + multiset{e}
  {
    hide KeyLess;
    var more := InsertEntry(e, sorted);
    if sorted == [] {
    } else if KeyLess(sorted[0].0, e.0) {
      InsertIncreases(e, sorted[1..]);
      assert sorted == [sorted[0]] + sorted[1..];
      forall j | 0 < j < |more|
        ensures KeyLess(more[0].0, more[j].0)
      {
        assert more[j] in multiset(InsertEntry(e, sorted[1..]));
      }
    } else {
      KeyLessIsAnOrder(e.0, sorted[0].0, e.0);
      forall j | 0 < j < |more|
        ensures KeyLess(more[0].0, more[j].0)
      {
        KeyLessIsAnOrder(e.0, sorted[0].0, more[j].0);
      }
    }
  }

  lemma {:induction false} SortIncreases(kv: seq<Entry>)
    requires DistinctKeys(kv)
    ensures Increasing(SortEntries(kv))
    ensures multiset(SortEntries(kv)) == multiset(kv)
  {
    hide KeyLess;
    if kv != [] {
      SortIncreases(kv[1..]);
      assert kv == [kv[0]] + kv[1..];
      forall k | k in SortEntries(kv[1..])
        ensures k.0 != kv[0].0
      {
        assert k in multiset(kv[1..]);
        var j :| 0 <= j < |kv[1..]| && kv[1..][j] == k;
        assert kv[j + 1] == k;
      }
      InsertIncreases(kv[0], SortEntries(kv[1..]));
    }
  }

  lemma FirstIsLeast(s: seq<Entry>, t: seq<Entry>)
    requires Increasing(s) && Increasing(t) && s != [] && t != []
    requires s[0] in t && t[0] in s
    ensures s[0] == t[0]
  {
    if s[0] != t[0] {
      var j :| 0 <= j < |t| && t[j] == s[0];
      var i :| 0 <= i < |s| && s[i] == t[0];
      KeyLessIsAnOrder(s[0].0, t[0].0, s[0].0);
    }
  }

  lemma IncreasingTail(s: seq<Entry>)
    requires Increasing(s) && s != []
    ensures Increasing(s[1..])
  {
  }

  lemma TakeFirst(s: seq<Entry>)
    requires s != []
    ensures multiset(s) == multiset{s[0]} + multiset(s[1..])
    ensures multiset(s[1..]) == multiset(s) - multiset{s[0]}
  {
    assert s == [s[0]] + s[1..];
  }

  /** An increasing list is determined by the entries it holds. */
  lemma {:induction false} IncreasingIsUnique(s: seq<Entry>, t: seq<Entry>)
    requires Increasing(s) && Increasing(t) && multiset(s) == multiset(t)
    ensures s == t
  {
    hide Increasing;
    assert |s| == |multiset(s)| == |multiset(t)| == |t|;
    if s != [] {
      assert s[0] in multiset(t) && t[0] in multiset(s);
      FirstIsLeast(s, t);
      TakeFirst(s);
      TakeFirst(t);
      IncreasingTail(s);
      IncreasingTail(t);
      IncreasingIsUnique(s[1..], t[1..]);
    }
  }

  lemma StaysIn(b: seq<Entry>, j: nat, e: Entry)
    requires j < |b| && e in b && e != b[j]
    ensures e in b[..j] + b[j + 1..]
  {
    var k :| 0 <= k < |b| && b[k] == e;
    assert (b[..j] + b[j + 1..])[if k < j then k else k - 1] == e;
  }

  lemma TakeOut(b: seq<Entry>, j: nat)
    requires j < |b|
    ensures multiset(b) == multiset{b[j]} + multiset(b[..j] + b[j + 1..])
  {
    assert b == b[..j] + [b[j]] + b[j + 1..];
  }

  lemma DistinctTail(a: seq<Entry>)
    requires DistinctKeys(a) && a != []
    ensures DistinctKeys(a[1..])
    ensures forall i :: 0 < i < |a| ==> a[i] != a[0]
  {
  }

  /** Distinct entries that all occur among as many distinct entries are a rearrangement of them. */
  lemma {:induction false} SubsetOfEqualSize(a: seq<Entry>, b: seq<Entry>)
    requires DistinctKeys(a) && DistinctKeys(b) && |a| == |b|
    requires forall i :: 0 <= i < |a| ==> a[i] in b
    ensures multiset(a) == multiset(b)
  {
    hide DistinctKeys;
    if a != [] {
      var j :| 0 <= j < |b| && b[j] == a[0];
      var rest := b[..j] + b[j + 1..];
      DistinctTail(a);
      DistinctWithout(b, j);
      forall i | 0 <= i < |a[1..]|
        ensures a[1..][i] in rest
      {
        StaysIn(b, j, a[i + 1]);
      }
      SubsetOfEqualSize(a[1..], rest);
      TakeFirst(a);
      TakeOut(b, j);
    }
  }

  lemma DistinctWithout(b: seq<Entry>, j: nat)
    requires DistinctKeys(b) && j < |b|
    ensures DistinctKeys(b[..j] + b[j + 1..])
  {
  }

  lemma {:induction false} EncodeEntriesAt(entries: seq<Pair>, i: nat)
    requires i < |entries|
    ensures EncodeEntries(entries)[i] == EncodeEntry(entries[i])
  {
    hide Encode;
    if i > 0 {
      EncodeEntriesAt(entries[1..], i - 1);
    }
  }

  lemma DistinctKeysEncode(entries: seq<Pair>)
    requires Distinct(Map(entries)) && Writable(Map(entries))
    ensures DistinctKeys(EncodeEntries(entries))
  {
    hide Encode, Canon;
    var kv := EncodeEntries(entries);
    forall i, j | 0 <= i < j < |kv|
      ensures kv[i].0 != kv[j].0
    {
      EncodeEntriesAt(entries, i);
      EncodeEntriesAt(entries, j);
      var a, b := entries[i].key, entries[j].key;
      assert !Same(a, b);
      assert WritablePair(entries[i]) && WritablePair(entries[j]);
      if Encode(a) == Encode(b) {
        EncodingIsPrefixFree(a, [], b, []);
        CanonDetermines(a, b);
      }
    }
  }

  /** Every map with distinct keys is written with its encoded keys strictly increasing. */
  lemma MapKeysIncrease(entries: seq<Pair>)
    requires Distinct(Map(entries)) && Writable(Map(entries))
    ensures Increasing(SortEntries(EncodeEntries(entries)))
    ensures multiset(SortEntries(EncodeEntries(entries))) == multiset(EncodeEntries(entries))
    ensures Encode(Map(entries)) == Head(5, |entries|) + Joined(SortEntries(EncodeEntries(entries)))
  {
    DistinctKeysEncode(entries);
    SortIncreases(EncodeEntries(entries));
  }

  lemma {:induction false} SameEncodes(a: Value, b: Value)
    requires Same(a, b) && Distinct(a) && Distinct(b) && Writable(a) && Writable(b)
    ensures Encode(a) == Encode(b)
    decreases a, 1
  {
    match a
    case Array(items) => SameItemsEncode(items, b.items);
    case Map(entries) => SameMapsEncode(entries, b.entries);
    case _ =>
  }

  lemma {:induction false} SameItemsEncode(a: seq<Value>, b: seq<Value>)
    requires |a| == |b|
    requires forall i :: 0 <= i < |a| ==>
               Same(a[i], b[i]) && Distinct(a[i]) && Distinct(b[i]) && Writable(a[i]) && Writable(b[i])
    ensures EncodeItems(a) == EncodeItems(b)
    decreases a, 0
  {
    hide Encode, Same, Distinct, Writable;
    if a != [] {
      SameEncodes(a[0], b[0]);
      SameItemsEncode(a[1..], b[1..]);
    }
  }

  lemma {:induction false} SameMapsEncode(a: seq<Pair>, b: seq<Pair>)
    requires Same(Map(a), Map(b)) && Distinct(Map(a)) && Distinct(Map(b)) && Writable(Map(a)) && Writable(Map(b))
    ensures SortEntries(EncodeEntries(a)) == SortEntries(EncodeEntries(b))
    decreases a, 0
  {
    hide Encode, SortEntries;
    var kvA, kvB := EncodeEntries(a), EncodeEntries(b);
    DistinctKeysEncode(a);
    DistinctKeysEncode(b);
    forall i | 0 <= i < |kvA|
      ensures kvA[i] in kvB
    {
      assert Occurs(a[i], b);
      var j :| 0 <= j < |b| && SamePair(a[i], b[j]);
      EncodeEntriesAt(a, i);
      EncodeEntriesAt(b, j);
      assert WritablePair(a[i]) && WritablePair(b[j]);
      assert DistinctPair(a[i]) && DistinctPair(b[j]);
      SamePairsEncode(a[i], b[j]);
      assert kvB[j] == kvA[i];
    }
    SubsetOfEqualSize(kvA, kvB);
    SortIncreases(kvA);
    SortIncreases(kvB);
    IncreasingIsUnique(SortEntries(kvA), SortEntries(kvB));
  }

  lemma {:induction false} SamePairsEncode(a: Pair, b: Pair)
    requires SamePair(a, b) && DistinctPair(a) && DistinctPair(b) && WritablePair(a) && WritablePair(b)
    ensures EncodeEntry(a) == EncodeEntry(b)
    decreases a
  {
    SameEncodes(a.key, b.key);
    SameEncodes(a.value, b.value);
  }

  /** `encode` is a canonical form: equal bytes exactly for values equal up to map order. */
  lemma EncodingIsCanonical(a: Value, b: Value)
    requires Distinct(a) && Distinct(b) && Writable(a) && Writable(b)
    ensures Encode(a) == Encode(b) <==> Same(a, b)
  {
    hide Encode, Canon, Same;
    if Encode(a) == Encode(b) {
      EncodingIsPrefixFree(a, [], b, []);
      CanonDetermines(a, b);
    }
    if Same(a, b) {
      SameEncodes(a, b);
    }
  }

  // ---- Reading back on the phone ----------------------------------------------------------

  /** The value read back is the value, up to order. */
  lemma {:induction false} SameAsCanon(v: Value)
    ensures Same(v, Canon(v))
    decreases v, 1
  {
    match v
    case Array(items) =>
      forall i | 0 <= i < |items|
        ensures Same(items[i], CanonItems(items)[i])
      {
        CanonItemsAt(items, i);
        SameAsCanon(items[i]);
      }
    case Map(entries) =>
      SameMapAsCanon(entries);
      assert Canon(v) == Map(CanonMap(entries));
    case _ =>
  }

  lemma {:induction false} SameMapAsCanon(entries: seq<Pair>)
    ensures Same(Map(entries), Map(CanonMap(entries)))
    decreases entries, 0
  {
    hide CanonMap;
    var x, y := entries, CanonMap(entries);
    forall i | 0 <= i < |x|
      ensures Occurs(x[i], y)
    {
      var j := CanonMapHas(entries, i);
      SamePairAsCanon(entries[i]);
      assert SamePair(x[i], y[j]);
    }
  }

  lemma {:induction false} SamePairAsCanon(e: Pair)
    ensures SamePair(e, CanonPair(e))
    decreases e, 0
  {
    SameAsCanon(e.key);
    SameAsCanon(e.value);
  }

  lemma {:induction false} JavaEqualsIsSame(a: Value, b: Value)
    requires JavaEquals(a, b)
    ensures Same(a, b)
    decreases a
  {
    match a
    case Array(items) =>
      forall i | 0 <= i < |items|
        ensures Same(items[i], b.items[i])
      {
        JavaEqualsIsSame(items[i], b.items[i]);
      }
    case Map(entries) =>
      forall i | 0 <= i < |entries|
        ensures Occurs(entries[i], b.entries)
      {
        var j :| 0 <= j < |b.entries| && JavaEquals(entries[i].key, b.entries[j].key)
                 && JavaEquals(entries[i].value, b.entries[j].value);
        EqualPairsAreSame(entries[i], b.entries[j]);
      }
    case _ =>
  }

  lemma {:induction false} EqualPairsAreSame(a: Pair, b: Pair)
    requires JavaEquals(a.key, b.key) && JavaEquals(a.value, b.value)
    ensures SamePair(a, b)
    decreases a
  {
    JavaEqualsIsSame(a.key, b.key);
    JavaEqualsIsSame(a.value, b.value);
  }

  lemma {:induction false} SortedStays(kv: seq<Entry>)
    requires Increasing(kv)
    ensures SortEntries(kv) == kv
  {
    hide KeyLess;
    if |kv| >= 2 {
      SortedStays(kv[1..]);
      KeyLessIsAnOrder(kv[0].0, kv[1].0, kv[0].0);
      assert KeyLess(kv[0].0, kv[1].0);
      assert kv[0].0 != kv[1].0;
    }
  }

  /** What `Canon` keeps: distinct keys, writability and the bytes. */
  ghost predicate Kept(v: Value) {
    Distinct(Canon(v)) && Writable(Canon(v)) && Encode(Canon(v)) == Encode(v)
  }

  lemma {:induction false} CanonKeeps(v: Value)
    requires Distinct(v) && Writable(v)
    ensures Kept(v)
    decreases v, 1
  {
    match v
    case Array(items) =>
      forall i | 0 <= i < |items|
        ensures Distinct(CanonItems(items)[i]) && Writable(CanonItems(items)[i])
      {
        CanonItemsAt(items, i);
        CanonKeeps(items[i]);
      }
      CanonItemsKeep(items);
    case Map(entries) => CanonMapKeeps(entries);
    case _ =>
  }

  lemma {:induction false} CanonItemsKeep(items: seq<Value>)
    requires forall i :: 0 <= i < |items| ==> Distinct(items[i]) && Writable(items[i])
    ensures EncodeItems(CanonItems(items)) == EncodeItems(items)
    decreases items, 0
  {
    hide Encode, Canon, Distinct, Writable;
    if items != [] {
      CanonKeeps(items[0]);
      CanonItemsKeep(items[1..]);
    }
  }

  lemma {:induction false} CanonPairKeeps(e: Pair)
    requires DistinctPair(e) && WritablePair(e)
    ensures DistinctPair(CanonPair(e)) && WritablePair(CanonPair(e))
    ensures EncodeEntry(CanonPair(e)) == EncodeEntry(e)
    decreases e
  {
    CanonKeeps(e.key);
    CanonKeeps(e.value);
  }

  lemma {:induction false} CanonPairsEncode(entries: seq<Pair>)
    requires forall i :: 0 <= i < |entries| ==> EncodeEntry(CanonPair(entries[i])) == EncodeEntry(entries[i])
    ensures EncodeEntries(CanonPairs(entries)) == EncodeEntries(entries)
  {
    hide EncodeEntry, CanonPair;
    if entries != [] {
      CanonPairsEncode(entries[1..]);
    }
  }

  lemma {:induction false} CanonMapKeeps(entries: seq<Pair>)
    requires Distinct(Map(entries)) && Writable(Map(entries))
    ensures Kept(Map(entries))
    decreases entries, 0
  {
    hide Encode, SortEntries, EncodeEntry, CanonPair, DistinctPair, WritablePair;
    var canon, sorted := CanonMap(entries), SortPairs(entries);
    CanonMapIsSorted(entries);
    forall j | 0 <= j < |canon|
      ensures DistinctPair(canon[j]) && WritablePair(canon[j])
      ensures EncodeEntry(canon[j]) == EncodeEntry(sorted[j])
    {
      var i := CanonMapFrom(entries, j);
      CanonPairKeeps(entries[i]);
    }
    CanonPairsEncode(sorted);
    SortPairsEncodes(entries);
    MapKeysIncrease(entries);
    SortedStays(SortEntries(EncodeEntries(entries)));
    CanonKeysDiffer(entries);
    MapEncoding(canon);
    MapEncoding(entries);
  }

  lemma MapEncoding(entries: seq<Pair>)
    ensures Encode(Map(entries)) == Head(5, |entries|) + Joined(SortEntries(EncodeEntries(entries)))
  {
  }

  lemma CanonKeysDiffer(entries: seq<Pair>)
    requires Distinct(Map(entries)) && Writable(Map(entries))
    requires EncodeEntries(CanonMap(entries)) == SortEntries(EncodeEntries(entries))
    requires forall j :: 0 <= j < |entries| ==>
               DistinctPair(CanonMap(entries)[j]) && WritablePair(CanonMap(entries)[j])
    ensures forall i, j :: 0 <= i < j < |entries| ==> !Same(CanonMap(entries)[i].key, CanonMap(entries)[j].key)
  {
    hide Encode, Same, Distinct, Writable, SortEntries, KeyLess;
    var canon := CanonMap(entries);
    var kv := EncodeEntries(canon);
    MapKeysIncrease(entries);
    forall i, j | 0 <= i < j < |canon|
      ensures !Same(canon[i].key, canon[j].key)
    {
      EncodeEntriesAt(canon, i);
      EncodeEntriesAt(canon, j);
      assert KeyLess(kv[i].0, kv[j].0);
      KeyLessIsAnOrder(kv[i].0, kv[j].0, kv[i].0);
      assert DistinctPair(canon[i]) && WritablePair(canon[i]) && DistinctPair(canon[j]) && WritablePair(canon[j]);
      if Same(canon[i].key, canon[j].key) {
        SameEncodes(canon[i].key, canon[j].key);
      }
    }
  }

  lemma {:induction false} PutFresh(sofar: seq<Pair>, k: Value, v: Value)
    requires forall i :: 0 <= i < |sofar| ==> !JavaEquals(sofar[i].key, k)
    ensures Put(sofar, k, v) == sofar + [Pair(k, v)]
  {
    hide JavaEquals;
    if sofar != [] {
      PutFresh(sofar[1..], k, v);
    }
  }

  lemma {:induction false} PutAllFresh(sofar: seq<Pair>, entries: seq<Pair>)
    requires forall i, j :: 0 <= i < j < |sofar + entries| ==>
               !JavaEquals((sofar + entries)[i].key, (sofar + entries)[j].key)
    ensures PutAll(sofar, entries) == sofar + entries
    decreases |entries|
  {
    hide JavaEquals;
    if entries != [] {
      var e := entries[0];
      assert (sofar + entries)[|sofar|] == e;
      forall i | 0 <= i < |sofar|
        ensures !JavaEquals(sofar[i].key, e.key)
      {
        assert (sofar + entries)[i] == sofar[i];
      }
      PutFresh(sofar, e.key, e.value);
      assert sofar + entries == (sofar + [e]) + entries[1..];
      PutAllFresh(sofar + [e], entries[1..]);
    }
  }

  /** With distinct keys the phone's maps are the entries as read. */
  lemma {:induction false} CollapseChangesNothing(v: Value)
    requires Distinct(v)
    ensures Collapse(v) == v
    decreases v, 1
  {
    hide PutAll, Same;
    match v
    case Array(items) => CollapseItemsChangesNothing(items);
    case Map(entries) =>
      CollapseEntriesChangesNothing(entries);
      DistinctEntriesStay(entries);
    case _ =>
  }

  lemma DistinctEntriesStay(entries: seq<Pair>)
    requires Distinct(Map(entries))
    ensures PutAll([], entries) == entries
  {
    hide PutAll, Same, JavaEquals;
    var all := [] + entries;
    assert all == entries;
    forall i, j | 0 <= i < j < |all|
      ensures !JavaEquals(all[i].key, all[j].key)
    {
      if JavaEquals(all[i].key, all[j].key) {
        JavaEqualsIsSame(all[i].key, all[j].key);
      }
    }
    PutAllFresh([], entries);
  }

  lemma {:induction false} CollapseItemsChangesNothing(items: seq<Value>)
    requires forall i :: 0 <= i < |items| ==> Distinct(items[i])
    ensures CollapseItems(items) == items
    decreases items, 0
  {
    if items != [] {
      CollapseChangesNothing(items[0]);
      CollapseItemsChangesNothing(items[1..]);
    }
  }

  lemma {:induction false} CollapseEntriesChangesNothing(entries: seq<Pair>)
    requires forall i :: 0 <= i < |entries| ==> DistinctPair(entries[i])
    ensures CollapseEntries(entries) == entries
    decreases entries, 0
  {
    hide Collapse, CollapseEntry, DistinctPair;
    if entries != [] {
      CollapseEntryChangesNothing(entries[0]);
      CollapseEntriesChangesNothing(entries[1..]);
    }
  }

  lemma {:induction false} CollapseEntryChangesNothing(e: Pair)
    requires DistinctPair(e)
    ensures CollapseEntry(e) == e
    decreases e
  {
    CollapseChangesNothing(e.key);
    CollapseChangesNothing(e.value);
  }

  lemma {:induction false} SendableIsWritable(v: Value, levels: nat)
    requires Sendable(v, levels)
    ensures Writable(v)
    decreases v
  {
    match v
    case Array(items) =>
      forall i | 0 <= i < |items|
        ensures Writable(items[i])
      {
        SendableIsWritable(items[i], levels - 1);
      }
    case Map(entries) =>
      forall i | 0 <= i < |entries|
        ensures WritablePair(entries[i])
      {
        SendablePairIsWritable(entries[i], levels - 1);
      }
    case _ =>
  }

  lemma {:induction false} SendablePairIsWritable(e: Pair, levels: nat)
    requires SendablePair(e, levels)
    ensures WritablePair(e)
    decreases e
  {
    SendableIsWritable(e.key, levels);
    SendableIsWritable(e.value, levels);
  }

  lemma {:induction false} AtMiddle(pre: seq<byte>, x: seq<byte>, post: seq<byte>)
    ensures At(pre + x + post, |pre|, x)
  {
    AtStart(x, post, pre);
    assert pre + x + post == pre + (x + post);
  }

  /**
   * Every value nested no deeper than 8, encoded and put in the middle of any bytes, is read back
   * by both decoders as one tree, the same as the value up to the order of map entries, and both
   * stop exactly where its encoding ends.
   */
  lemma BothReadBack(v: Value, pre: seq<byte>, post: seq<byte>, utf8: Decoder)
    requires Sendable(v, 8) && Distinct(v) && Faithful(utf8)
    requires |pre + Encode(v) + post| < INT
    ensures var b, end := pre + Encode(v) + post, |pre| + |Encode(v)|;
            exists t :: Same(v, t) && RustItem(b, |pre|, 0) == Done(t, end, true)
                        && JavaItem(b, |pre|, 0, utf8) == Done(t, end, true)
  {
    hide Encode, Canon, Same, RustItem, JavaItem, Distinct, Sendable, Collapse, At, Writable;
    var b, end, t := pre + Encode(v) + post, |pre| + |Encode(v)|, Canon(v);
    AtMiddle(pre, Encode(v), post);
    RustReadsBack(b, |pre|, v, 0);
    DecodersAgree(b, |pre|, 0, utf8);
    SendableIsWritable(v, 8);
    CanonKeeps(v);
    CollapseChangesNothing(t);
    SameAsCanon(v);
    assert Same(v, t) && RustItem(b, |pre|, 0) == Done(t, end, true)
           && JavaItem(b, |pre|, 0, utf8) == Done(t, end, true);
  }
}
