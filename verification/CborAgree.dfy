/** Where the daemon's decoder and the phone's decoder agree, exactly. */
module CborAgree {
  import opened Bytes
  import opened Cbor
  import opened CborDecode

  /** The tree as the phone holds it: at every level, entries put one after the other into a map. */
  function Collapse(v: Value): Value
    decreases v, 0
  {
    match v
    case Array(items) => Array(CollapseItems(items))
    case Map(entries) => Map(PutAll([], CollapseEntries(entries)))
    case _ => v
  }

  function CollapseItems(items: seq<Value>): seq<Value>
    decreases items, 0
  {
    if items == [] then [] else [Collapse(items[0])] + CollapseItems(items[1..])
  }

  function CollapseEntries(entries: seq<Pair>): seq<Pair>
    decreases entries, 0
  {
    if entries == [] then [] else [CollapseEntry(entries[0])] + CollapseEntries(entries[1..])
  }

  function CollapseEntry(e: Pair): Pair
    decreases e, 0
  {
    Pair(Collapse(e.key), Collapse(e.value))
  }

  function PutAll(sofar: seq<Pair>, entries: seq<Pair>): seq<Pair>
    decreases |entries|
  {
    if entries == [] then sofar else PutAll(Put(sofar, entries[0].key, entries[0].value), entries[1..])
  }

  /**
   * `rust` and `java` are what the two decoders make of the same bytes and `value` is the daemon's
   * value in the phone's terms: without a tag they agree on value and end, with a tag the phone
   * fails, and whatever the phone reads in plain terms the daemon reads too.
   */
  ghost predicate Agree<T, U>(rust: Parsed<T>, java: Parsed<U>, value: U) {
    && (rust.Done? && rust.plain ==> java == Done(value, rust.end, true))
    && (rust.Done? && !rust.plain ==> java.Fail?)
    && (java.Done? && java.plain ==> rust.Done? && rust.plain)
  }

  ghost predicate ValuesAgree(rust: Parsed<Value>, java: Parsed<Value>) {
    Agree(rust, java, if rust.Done? then Collapse(rust.value) else Null)
  }

  ghost predicate ListsAgree(rust: Parsed<seq<Value>>, java: Parsed<seq<Value>>) {
    Agree(rust, java, if rust.Done? then CollapseItems(rust.value) else [])
  }

  ghost predicate MapsAgree(rust: Parsed<seq<Pair>>, java: Parsed<seq<Pair>>, sofar: seq<Pair>) {
    Agree(rust, java, if rust.Done? then PutAll(sofar, CollapseEntries(rust.value)) else [])
  }

  lemma ArgsAgree(b: seq<byte>, p: nat, info: byte)
    requires p <= |b| && info < 32
    ensures RustArg(b, p, info).Some? <==> JavaArg(b, p, info).Some?
    ensures RustArg(b, p, info).Some? ==>
              JavaArg(b, p, info).value == (Signed(RustArg(b, p, info).value.0), RustArg(b, p, info).value.1)
              && RustArg(b, p, info).value.0 < 2 * LONG
  {
    if 24 <= info <= 27 && p + Width(info) <= |b| {
      Pow256Values();
      BigEndianOfNumber(b[p..p + Width(info)]);
    }
  }

  lemma StringsAgree(b: seq<byte>, p: nat, text: bool, n: nat, utf8: Decoder)
    requires |b| < INT && Faithful(utf8) && p <= |b| && n < 2 * LONG
    ensures ValuesAgree(RustString(b, p, text, n), JavaString(b, p, text, Signed(n), utf8))
  {
    if n < LONG && p + n <= |b| {
      assert LowInt(n) == n;
    }
  }

  /**
   * For any bytes a Java array can hold, from any position: the daemon accepts without passing a
   * tag exactly when the phone accepts without meeting a malformed text or a top-bit number, and
   * then both have the same tree and stop at the same place.
   */
  lemma {:induction false} DecodersAgree(b: seq<byte>, p: nat, depth: nat, utf8: Decoder)
    requires |b| < INT && Faithful(utf8)
    ensures ValuesAgree(RustItem(b, p, depth), JavaItem(b, p, depth, utf8))
    decreases Left(depth), 1
  {
    if depth <= 8 && p < |b| && b[p] / 32 < 7 {
      ArgsAgree(b, p + 1, b[p] % 32);
      var arg := RustArg(b, p + 1, b[p] % 32);
      if arg.Some? {
        HeadedAgree(b, p, depth, arg.value.0, arg.value.1, utf8);
      }
    }
  }

  lemma {:induction false} HeadedAgree(b: seq<byte>, p: nat, depth: nat, v: nat, q: nat, utf8: Decoder)
    requires |b| < INT && Faithful(utf8) && depth <= 8 && p < q <= |b| && b[p] / 32 < 7 && v < 2 * LONG
    requires RustArg(b, p + 1, b[p] % 32) == Some((v, q))
    requires JavaArg(b, p + 1, b[p] % 32) == Some((Signed(v), q))
    ensures ValuesAgree(RustItem(b, p, depth), JavaItem(b, p, depth, utf8))
    decreases Left(depth), 0
  {
    hide RustItems, RustEntries, JavaItems, JavaEntries, RustString, JavaString, RustArg, JavaArg;
    var major := b[p] / 32;
    if 2 <= major <= 3 {
      StringsAgree(b, q, major == 3, v, utf8);
    } else if major == 4 && v < LONG {
      ItemsAgree(b, q, depth + 1, v, utf8);
    } else if major == 5 && v < LONG {
      EntriesAgree(b, q, depth + 1, v, [], utf8);
    }
  }

  lemma {:induction false} ItemsAgree(b: seq<byte>, p: nat, depth: nat, n: nat, utf8: Decoder)
    requires |b| < INT && Faithful(utf8) && p <= |b|
    ensures ListsAgree(RustItems(b, p, depth, n), JavaItems(b, p, depth, n, utf8))
    decreases Left(depth), n + 2
  {
    if n > 0 {
      DecodersAgree(b, p, depth, utf8);
      var x := RustItem(b, p, depth);
      if x.Done? {
        ItemsAgree(b, x.end, depth, n - 1, utf8);
        var rest := RustItems(b, x.end, depth, n - 1);
        assert rest.Done? ==> ([x.value] + rest.value)[1..] == rest.value;
      }
    }
  }

  lemma {:induction false} PairsAgree(b: seq<byte>, p: nat, depth: nat, utf8: Decoder)
    requires |b| < INT && Faithful(utf8)
    ensures var rust := RustPair(b, p, depth);
            Agree(rust, JavaPair(b, p, depth, utf8), if rust.Done? then CollapseEntry(rust.value) else Pair(Null, Null))
    decreases Left(depth), 2
  {
    DecodersAgree(b, p, depth, utf8);
    if RustItem(b, p, depth).Done? {
      DecodersAgree(b, RustItem(b, p, depth).end, depth, utf8);
    }
  }

  lemma CollapseFirst(e: Pair, rest: seq<Pair>, sofar: seq<Pair>)
    ensures PutAll(sofar, CollapseEntries([e] + rest))
            == PutAll(Put(sofar, Collapse(e.key), Collapse(e.value)), CollapseEntries(rest))
  {
    assert ([e] + rest)[1..] == rest;
    assert CollapseEntries([e] + rest) == [CollapseEntry(e)] + CollapseEntries(rest);
    assert CollapseEntries([e] + rest)[1..] == CollapseEntries(rest);
  }

  lemma {:induction false} EntriesAgree(b: seq<byte>, p: nat, depth: nat, n: nat, sofar: seq<Pair>, utf8: Decoder)
    requires |b| < INT && Faithful(utf8) && p <= |b|
    ensures MapsAgree(RustEntries(b, p, depth, n), JavaEntries(b, p, depth, n, sofar, utf8), sofar)
    decreases Left(depth), n + 3
  {
    if n > 0 {
      PairsAgree(b, p, depth, utf8);
      var e := RustPair(b, p, depth);
      if e.Done? {
        var rest := RustEntries(b, e.end, depth, n - 1);
        EntriesAgree(b, e.end, depth, n - 1, Put(sofar, Collapse(e.value.key), Collapse(e.value.value)), utf8);
        if rest.Done? {
          CollapseFirst(e.value, rest.value, sofar);
        }
      }
    }
  }
}
