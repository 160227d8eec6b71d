/** Neither decoder reads a value that is nested more than 8 levels deep, whatever the bytes. */
module CborNesting {
  import opened Bytes
  import opened Cbor
  import opened CborDecode

  /** At most this many levels of elements and entries inside one another. */
  predicate Nested(v: Value, levels: nat)
    decreases v
  {
    match v
    case Array(items) => items == [] || (levels > 0 && forall i :: 0 <= i < |items| ==> Nested(items[i], levels - 1))
    case Map(entries) =>
      entries == [] || (levels > 0 && forall i :: 0 <= i < |entries| ==> NestedPair(entries[i], levels - 1))
    case _ => true
  }

  predicate NestedPair(e: Pair, levels: nat)
    decreases e
  {
    Nested(e.key, levels) && Nested(e.value, levels)
  }

  predicate NestedItems(items: seq<Value>, depth: nat) {
    items != [] ==> depth <= 8 && forall i :: 0 <= i < |items| ==> Nested(items[i], 8 - depth)
  }

  predicate NestedEntries(entries: seq<Pair>, depth: nat) {
    entries != [] ==> depth <= 8 && forall i :: 0 <= i < |entries| ==> NestedPair(entries[i], 8 - depth)
  }

  /** What the daemon reads at a depth has only the levels that are left. */
  lemma {:induction false} DaemonReadsNested(b: seq<byte>, p: nat, depth: nat)
    ensures var r := RustItem(b, p, depth); r.Done? ==> depth <= 8 && Nested(r.value, 8 - depth)
    decreases Left(depth), 0
  {
    hide RustArg, RustItems, RustEntries, RustString;
    var r := RustItem(b, p, depth);
    if r.Done? && 4 <= b[p] / 32 < 7 {
      var (n, q) := RustArg(b, p + 1, b[p] % 32).value;
      if b[p] / 32 == 4 {
        DaemonReadsNestedItems(b, q, depth + 1, n);
      } else if b[p] / 32 == 5 {
        DaemonReadsNestedEntries(b, q, depth + 1, n);
      } else {
        DaemonReadsNested(b, q, depth + 1);
        MoreLevels(RustItem(b, q, depth + 1).value, 7 - depth);
      }
    } else if r.Done? {
      StringsAreFlat(b, p, depth);
    }
  }

  lemma StringsAreFlat(b: seq<byte>, p: nat, depth: nat)
    requires RustItem(b, p, depth).Done? && !(4 <= b[p] / 32 < 7)
    ensures !RustItem(b, p, depth).value.Array? && !RustItem(b, p, depth).value.Map?
  {
    hide RustArg;
  }

  lemma {:induction false} MoreLevels(v: Value, levels: nat)
    requires Nested(v, levels)
    ensures Nested(v, levels + 1)
    decreases v
  {
    match v
    case Array(items) =>
      if items != [] {
        forall i | 0 <= i < |items|
          ensures Nested(items[i], levels)
        {
          MoreLevels(items[i], levels - 1);
        }
      }
    case Map(entries) =>
      if entries != [] {
        forall i | 0 <= i < |entries|
          ensures NestedPair(entries[i], levels)
        {
          MorePairLevels(entries[i], levels - 1);
        }
      }
    case _ =>
  }

  lemma {:induction false} MorePairLevels(e: Pair, levels: nat)
    requires NestedPair(e, levels)
    ensures NestedPair(e, levels + 1)
    decreases e
  {
    MoreLevels(e.key, levels);
    MoreLevels(e.value, levels);
  }

  lemma {:induction false} DaemonReadsNestedItems(b: seq<byte>, p: nat, depth: nat, n: nat)
    requires p <= |b|
    ensures var r := RustItems(b, p, depth, n); r.Done? ==> NestedItems(r.value, depth)
    decreases Left(depth), n + 1
  {
    hide RustItem, Nested;
    if RustItems(b, p, depth, n).Done? && n > 0 {
      DaemonReadsNested(b, p, depth);
      DaemonReadsNestedItems(b, RustItem(b, p, depth).end, depth, n - 1);
    }
  }

  lemma {:induction false} DaemonReadsNestedEntries(b: seq<byte>, p: nat, depth: nat, n: nat)
    requires p <= |b|
    ensures var r := RustEntries(b, p, depth, n); r.Done? ==> NestedEntries(r.value, depth)
    decreases Left(depth), n + 1
  {
    hide RustItem, Nested;
    if RustEntries(b, p, depth, n).Done? && n > 0 {
      assert RustPair(b, p, depth).Done?;
      DaemonReadsNested(b, p, depth);
      DaemonReadsNested(b, RustItem(b, p, depth).end, depth);
      DaemonReadsNestedEntries(b, RustPair(b, p, depth).end, depth, n - 1);
    }
  }

  lemma {:induction false} PutIsNested(entries: seq<Pair>, k: Value, v: Value, depth: nat)
    requires NestedEntries(entries, depth) && depth <= 8 && Nested(k, 8 - depth) && Nested(v, 8 - depth)
    ensures NestedEntries(Put(entries, k, v), depth)
  {
    hide Nested, JavaEquals;
    if entries != [] && !JavaEquals(entries[0].key, k) {
      PutIsNested(entries[1..], k, v, depth);
    }
  }

  /** And so for the phone. */
  lemma {:induction false} PhoneReadsNested(b: seq<byte>, p: nat, depth: nat, utf8: Decoder)
    ensures var r := JavaItem(b, p, depth, utf8); r.Done? ==> depth <= 8 && Nested(r.value, 8 - depth)
    decreases Left(depth), 0
  {
    hide JavaArg, JavaItems, JavaEntries, JavaString;
    var r := JavaItem(b, p, depth, utf8);
    if r.Done? && 4 <= b[p] / 32 < 7 {
      var (n, q) := JavaArg(b, p + 1, b[p] % 32).value;
      if b[p] / 32 == 4 {
        PhoneReadsNestedItems(b, q, depth + 1, n, utf8);
      } else {
        PhoneReadsNestedEntries(b, q, depth + 1, n, [], utf8);
      }
    } else if r.Done? {
      TextsAreFlat(b, p, depth, utf8);
    }
  }

  lemma TextsAreFlat(b: seq<byte>, p: nat, depth: nat, utf8: Decoder)
    requires JavaItem(b, p, depth, utf8).Done? && !(4 <= b[p] / 32 < 7)
    ensures !JavaItem(b, p, depth, utf8).value.Array? && !JavaItem(b, p, depth, utf8).value.Map?
  {
    hide JavaArg;
  }

  lemma {:induction false} PhoneReadsNestedItems(b: seq<byte>, p: nat, depth: nat, n: int, utf8: Decoder)
    ensures var r := JavaItems(b, p, depth, n, utf8); r.Done? ==> NestedItems(r.value, depth)
    decreases Left(depth), if n <= 0 then 1 else n + 1
  {
    hide JavaItem, Nested;
    if JavaItems(b, p, depth, n, utf8).Done? && n > 0 {
      PhoneReadsNested(b, p, depth, utf8);
      PhoneReadsNestedItems(b, JavaItem(b, p, depth, utf8).end, depth, n - 1, utf8);
    }
  }

  lemma {:induction false} PhoneReadsNestedEntries(
      b: seq<byte>, p: nat, depth: nat, n: int, sofar: seq<Pair>, utf8: Decoder)
    requires NestedEntries(sofar, depth)
    ensures var r := JavaEntries(b, p, depth, n, sofar, utf8); r.Done? ==> NestedEntries(r.value, depth)
    decreases Left(depth), if n <= 0 then 1 else n + 2
  {
    hide JavaItem, Nested, Put;
    if JavaEntries(b, p, depth, n, sofar, utf8).Done? && n > 0 {
      var e := JavaPair(b, p, depth, utf8);
      PhoneReadsNested(b, p, depth, utf8);
      PhoneReadsNested(b, JavaItem(b, p, depth, utf8).end, depth, utf8);
      PutIsNested(sofar, e.value.key, e.value.value, depth);
      PhoneReadsNestedEntries(b, e.end, depth, n - 1, Put(sofar, e.value.key, e.value.value), utf8);
    }
  }
}
