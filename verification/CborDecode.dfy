/**
 * The two CBOR decoders: the daemon's `decode_cbor`, which accepts tags and checks its texts,
 * and the phone's `read`, which knows neither tags nor unsigned lengths. Both are given as a
 * function from a position to the value read there, and as the method that runs over a cursor.
 */
module CborDecode {
  import opened Bytes
  import opened Cbor

  /**
   * A failure, or a value and the position after it. `plain` tells whether the decoder kept to
   * what both decoders understand: no tag (the daemon), no length or integer with the top bit
   * set and no malformed text (the phone).
   */
  datatype Parsed<+T> = Fail | Done(value: T, end: nat, plain: bool)

  function Prefix<T>(first: seq<T>, plain: bool, r: Parsed<seq<T>>): Parsed<seq<T>> {
    match r
    case Fail => Fail
    case Done(rest, end, p) => Done(first + rest, end, plain && p)
  }

  lemma PrefixNothing<T>(r: Parsed<seq<T>>)
    ensures Prefix([], true, r) == r
  {
    assert r.Done? ==> [] + r.value == r.value;
  }

  lemma PrefixTwice<T>(first: seq<T>, plain: bool, x: T, p: bool, r: Parsed<seq<T>>)
    ensures Prefix(first, plain, Prefix([x], p, r)) == Prefix(first + [x], plain && p, r)
  {
    assert r.Done? ==> first + ([x] + r.value) == (first + [x]) + r.value;
  }

  function Mark<T>(plain: bool, r: Parsed<T>): Parsed<T> {
    match r
    case Fail => Fail
    case Done(v, end, p) => Done(v, end, plain && p)
  }

  function Left(depth: nat): nat {
    if depth <= 8 then 9 - depth else 0
  }

  predicate Continuation(b: byte) {
    0x80 <= b < 0xC0
  }

  /** Well-formed UTF-8, section 4 of RFC 3629. */
  predicate ValidUtf8(t: seq<byte>) {
    if t == [] then true
    else if t[0] < 0x80 then ValidUtf8(t[1..])
    else if 0xC2 <= t[0] < 0xE0 then |t| >= 2 && Continuation(t[1]) && ValidUtf8(t[2..])
    else if 0xE0 <= t[0] < 0xF0 then
      |t| >= 3 && Continuation(t[1]) && Continuation(t[2])
      && (t[0] == 0xE0 ==> t[1] >= 0xA0) && (t[0] == 0xED ==> t[1] < 0xA0) && ValidUtf8(t[3..])
    else if 0xF0 <= t[0] < 0xF5 then
      |t| >= 4 && Continuation(t[1]) && Continuation(t[2]) && Continuation(t[3])
      && (t[0] == 0xF0 ==> t[1] >= 0x90) && (t[0] == 0xF4 ==> t[1] < 0x90) && ValidUtf8(t[4..])
    else false
  }

  function Width(info: byte): nat {
    if info == 24 then 1 else if info == 25 then 2 else if info == 26 then 4 else if info == 27 then 8 else 0
  }

  /** The values in a tree, itself included. */
  function Nodes(v: Value): (n: nat)
    ensures n >= 1
    decreases v, 0
  {
    match v
    case Array(items) => 1 + NodesOfItems(items)
    case Map(entries) => 1 + NodesOfEntries(entries)
    case _ => 1
  }

  function NodesOfItems(items: seq<Value>): nat
    decreases items, 0
  {
    if items == [] then 0 else Nodes(items[0]) + NodesOfItems(items[1..])
  }

  function NodesOfEntries(entries: seq<Pair>): nat
    decreases entries, 0
  {
    if entries == [] then 0 else NodesOfEntry(entries[0]) + NodesOfEntries(entries[1..])
  }

  function NodesOfEntry(e: Pair): nat
    decreases e, 0
  {
    Nodes(e.key) + Nodes(e.value)
  }

  // ---- The daemon's decoder -------------------------------------------------------------

  function ReadUint(b: seq<byte>, p: nat, count: nat): Option<(nat, nat)> {
    if p + count <= |b| then Some((Number(b[p..p + count]), p + count)) else None
  }

  function RustArg(b: seq<byte>, p: nat, info: byte): (r: Option<(nat, nat)>)
    requires p <= |b|
    ensures r.Some? ==> p <= r.value.1 <= |b|
  {
    if info <= 23 then Some((info, p))
    else if info <= 27 then ReadUint(b, p, Width(info))
    else None
  }

  function RustString(b: seq<byte>, p: nat, text: bool, n: nat): (r: Parsed<Value>)
    requires p <= |b|
    ensures r.Done? ==> p <= r.end <= |b|
  {
    if p + n > |b| then Fail
    else if !text then Done(Binary(b[p..p + n]), p + n, true)
    else if ValidUtf8(b[p..p + n]) then Done(Text(b[p..p + n]), p + n, true)
    else Fail
  }

  function RustItem(b: seq<byte>, p: nat, depth: nat): (r: Parsed<Value>)
    ensures r.Done? ==> p < r.end <= |b|
    decreases Left(depth), 0
  {
    if depth > 8 || p >= |b| then Fail else
      var major, info := b[p] / 32, b[p] % 32;
      if major == 7 then
        if info == 20 then Done(Bool(false), p + 1, true)
        else if info == 21 then Done(Bool(true), p + 1, true)
        else if info == 22 then Done(Null, p + 1, true)
        else Fail
      else
        match RustArg(b, p + 1, info)
        case None => Fail
        case Some((v, q)) =>
          if major == 0 then if v < LONG then Done(Integer(v), q, true) else Fail
          else if major == 1 then if v < LONG then Done(Integer(-1 - v), q, true) else Fail
          else if major <= 3 then RustString(b, q, major == 3, v)
          else if major == 4 then
            match RustItems(b, q, depth + 1, v)
            case Fail => Fail
            case Done(items, end, plain) => Done(Array(items), end, plain)
          else if major == 5 then
            match RustEntries(b, q, depth + 1, v)
            case Fail => Fail
            case Done(entries, end, plain) => Done(Map(entries), end, plain)
          else Mark(false, RustItem(b, q, depth + 1))
  }

  /** Counts are unsigned 64-bit numbers; one that exceeds the bytes that are left fails. */
  function RustItems(b: seq<byte>, p: nat, depth: nat, n: nat): (r: Parsed<seq<Value>>)
    requires p <= |b|
    ensures r.Done? ==> |r.value| == n && p + n <= r.end <= |b|
    decreases Left(depth), n + 1
  {
    if n == 0 then Done([], p, true) else
      match RustItem(b, p, depth)
      case Fail => Fail
      case Done(x, q, plain) =>
        Prefix([x], plain, RustItems(b, q, depth, n - 1))
  }

  function RustPair(b: seq<byte>, p: nat, depth: nat): (r: Parsed<Pair>)
    ensures r.Done? ==> p < r.end <= |b|
    decreases Left(depth), 1
  {
    match RustItem(b, p, depth)
    case Fail => Fail
    case Done(k, q, plain) =>
      match RustItem(b, q, depth)
      case Fail => Fail
      case Done(x, end, plain') => Done(Pair(k, x), end, plain && plain')
  }

  function RustEntries(b: seq<byte>, p: nat, depth: nat, n: nat): (r: Parsed<seq<Pair>>)
    requires p <= |b|
    ensures r.Done? ==> |r.value| == n && p + n <= r.end <= |b|
    decreases Left(depth), n + 2
  {
    if n == 0 then Done([], p, true) else
      match RustPair(b, p, depth)
      case Fail => Fail
      case Done(e, q, plain) => Prefix([e], plain, RustEntries(b, q, depth, n - 1))
  }

  /** Every success takes at least one byte for each value in the tree it read. */
  lemma {:induction false} EveryValueTakesAByte(b: seq<byte>, p: nat, depth: nat)
    ensures RustItem(b, p, depth).Done? ==> p + Nodes(RustItem(b, p, depth).value) <= RustItem(b, p, depth).end
    decreases Left(depth), 0
  {
    var r := RustItem(b, p, depth);
    if r.Done? && b[p] / 32 >= 4 && b[p] / 32 < 7 {
      var (v, q) := RustArg(b, p + 1, b[p] % 32).value;
      if b[p] / 32 == 4 {
        EveryItemTakesAByte(b, q, depth + 1, v);
      } else if b[p] / 32 == 5 {
        EveryEntryTakesAByte(b, q, depth + 1, v);
      } else {
        EveryValueTakesAByte(b, q, depth + 1);
      }
    }
  }

  lemma {:induction false} EveryItemTakesAByte(b: seq<byte>, p: nat, depth: nat, n: nat)
    requires p <= |b|
    ensures var r := RustItems(b, p, depth, n); r.Done? ==> p + NodesOfItems(r.value) <= r.end
    decreases Left(depth), n + 1
  {
    var r := RustItems(b, p, depth, n);
    if r.Done? && n > 0 {
      var x := RustItem(b, p, depth);
      EveryValueTakesAByte(b, p, depth);
      EveryItemTakesAByte(b, x.end, depth, n - 1);
      assert r.value[1..] == RustItems(b, x.end, depth, n - 1).value;
    }
  }

  lemma {:induction false} EveryEntryTakesAByte(b: seq<byte>, p: nat, depth: nat, n: nat)
    requires p <= |b|
    ensures var r := RustEntries(b, p, depth, n); r.Done? ==> p + NodesOfEntries(r.value) <= r.end
    decreases Left(depth), n + 1
  {
    var r := RustEntries(b, p, depth, n);
    if r.Done? && n > 0 {
      assert RustPair(b, p, depth).Done?;
      EveryValueTakesAByte(b, p, depth);
      EveryValueTakesAByte(b, RustItem(b, p, depth).end, depth);
      var e := RustPair(b, p, depth);
      EveryEntryTakesAByte(b, e.end, depth, n - 1);
      assert r.value[1..] == RustEntries(b, e.end, depth, n - 1).value;
    }
  }

  // ---- The phone's decoder --------------------------------------------------------------

  /** A 64-bit pattern read as a Java long. */
  function Signed(u: nat): int {
    if u < LONG then u else u - 2 * LONG
  }

  /** `(int) v` for a long. */
  function LowInt(v: int): int {
    var low := v % 0x1_0000_0000;
    if low < INT then low else low - 0x1_0000_0000
  }

  function JavaArg(b: seq<byte>, p: nat, info: byte): (r: Option<(int, nat)>)
    ensures r.Some? && p <= |b| ==> p <= r.value.1 <= |b|
  {
    if info < 24 then Some((info, p))
    else if info <= 27 && p + Width(info) <= |b| then
      Some((Signed(Number(b[p..p + Width(info)])), p + Width(info)))
    else None
  }

  /** `Arrays.copyOfRange(b, from, from + n)`, zero-filled past the end of the array. */
  function CopyOfRange(b: seq<byte>, from: nat, n: nat): (copy: seq<byte>)
    requires from <= |b|
    ensures |copy| == n
  {
    if from + n <= |b| then b[from..from + n] else b[from..] + seq(from + n - |b|, _ => 0)
  }

  /**
   * `equals` on decoded values. Two byte arrays are never the same object; two maps are equal
   * when each entry of one has an equal entry in the other and the sizes agree.
   */
  predicate JavaEquals(a: Value, b: Value)
    decreases a
  {
    match (a, b)
    case (Integer(x), Integer(y)) => x == y
    case (Text(x), Text(y)) => x == y
    case (Bool(x), Bool(y)) => x == y
    case (Null, Null) => true
    case (Array(x), Array(y)) => |x| == |y| && forall i :: 0 <= i < |x| ==> JavaEquals(x[i], y[i])
    case (Map(x), Map(y)) =>
      |x| == |y| && forall i :: 0 <= i < |x| ==>
        exists j :: 0 <= j < |y| && JavaEquals(x[i].key, y[j].key) && JavaEquals(x[i].value, y[j].value)
    case _ => false
  }

  /** `LinkedHashMap.put`: an equal key keeps its place and gets the new value. */
  function Put(entries: seq<Pair>, k: Value, v: Value): seq<Pair> {
    if entries == [] then [Pair(k, v)]
    else if JavaEquals(entries[0].key, k) then [Pair(entries[0].key, v)] + entries[1..]
    else [entries[0]] + Put(entries[1..], k, v)
  }

  /** `new String(bytes, UTF_8)`, a text again given by its UTF-8 bytes. */
  type Decoder = seq<byte> -> seq<byte>

  ghost predicate Faithful(utf8: Decoder) {
    forall t :: ValidUtf8(t) ==> utf8(t) == t
  }

  function JavaString(b: seq<byte>, p: nat, text: bool, v: int, utf8: Decoder): Parsed<Value>
    requires p <= |b|
  {
    var n := LowInt(v);
    if v > |b| - p || n < 0 || p + n >= INT then Fail else
      var s := CopyOfRange(b, p, n);
      if text then Done(Text(utf8(s)), p + n, v >= 0 && ValidUtf8(s)) else Done(Binary(s), p + n, v >= 0)
  }

  function JavaItem(b: seq<byte>, p: nat, depth: nat, utf8: Decoder): (r: Parsed<Value>)
    decreases Left(depth), 0
  {
    if depth > 8 || p >= |b| then Fail else
      var major, info := b[p] / 32, b[p] % 32;
      if major == 7 then
        if info == 20 then Done(Bool(false), p + 1, true)
        else if info == 21 then Done(Bool(true), p + 1, true)
        else if info == 22 then Done(Null, p + 1, true)
        else Fail
      else
        match JavaArg(b, p + 1, info)
        case None => Fail
        case Some((v, q)) =>
          if major == 0 then Done(Integer(v), q, v >= 0)
          else if major == 1 then Done(Integer(-1 - v), q, v >= 0)
          else if major <= 3 then JavaString(b, q, major == 3, v, utf8)
          else if major == 4 then
            match JavaItems(b, q, depth + 1, v, utf8)
            case Fail => Fail
            case Done(items, end, plain) => Done(Array(items), end, v >= 0 && plain)
          else if major == 5 then
            match JavaEntries(b, q, depth + 1, v, [], utf8)
            case Fail => Fail
            case Done(entries, end, plain) => Done(Map(entries), end, v >= 0 && plain)
          else Fail
  }

  function JavaItems(b: seq<byte>, p: nat, depth: nat, n: int, utf8: Decoder): (r: Parsed<seq<Value>>)
    decreases Left(depth), if n <= 0 then 1 else n + 1
  {
    if n <= 0 then Done([], p, true) else
      match JavaItem(b, p, depth, utf8)
      case Fail => Fail
      case Done(x, q, plain) => Prefix([x], plain, JavaItems(b, q, depth, n - 1, utf8))
  }

  function JavaPair(b: seq<byte>, p: nat, depth: nat, utf8: Decoder): (r: Parsed<Pair>)
    decreases Left(depth), 1
  {
    match JavaItem(b, p, depth, utf8)
    case Fail => Fail
    case Done(k, q, plain) =>
      match JavaItem(b, q, depth, utf8)
      case Fail => Fail
      case Done(x, end, plain') => Done(Pair(k, x), end, plain && plain')
  }

  function JavaEntries(b: seq<byte>, p: nat, depth: nat, n: int, sofar: seq<Pair>,
                       utf8: Decoder): (r: Parsed<seq<Pair>>)
    decreases Left(depth), if n <= 0 then 1 else n + 2
  {
    if n <= 0 then Done(sofar, p, true) else
      match JavaPair(b, p, depth, utf8)
      case Fail => Fail
      case Done(e, q, plain) => Mark(plain, JavaEntries(b, q, depth, n - 1, Put(sofar, e.key, e.value), utf8))
  }

  // ---- Both as they run -----------------------------------------------------------------

  /** `&mut usize` in the daemon, the one-element `int[]` on the phone. */
  class Cursor {
    var at: nat

    constructor (at: nat)
      ensures this.at == at
    {
      this.at := at;
    }
  }

  /** Whether a method's answer and final cursor are those of the specification. */
  ghost predicate Matches<T>(spec: Parsed<T>, r: Option<T>, end: nat) {
    match spec
    case Fail => r.None?
    case Done(v, e, _) => r == Some(v) && end == e
  }

  /** The fold over `bytes` that shifts eight bits per byte. */
  method ReadNumber(b: seq<byte>, c: Cursor, count: nat) returns (r: Option<nat>)
    modifies c
    ensures r.Some? <==> old(c.at) + count <= |b|
    ensures r.Some? ==> r.value == Number(b[old(c.at)..old(c.at) + count]) && c.at == old(c.at) + count
  {
    if c.at + count > |b| {
      return None;
    }
    var value: nat, i := 0, 0;
    while i < count
      invariant 0 <= i <= count
      invariant value == Number(b[old(c.at)..old(c.at) + i])
      invariant c.at == old(c.at)
    {
      NumberSnoc(b[c.at..c.at + i], b[c.at + i]);
      assert b[c.at..c.at + i] + [b[c.at + i]] == b[c.at..c.at + i + 1];
      value := 256 * value + b[c.at + i];
      i := i + 1;
    }
    c.at := c.at + count;
    r := Some(value);
  }

  method DecodeRust(b: seq<byte>, c: Cursor, depth: nat) returns (r: Option<Value>)
    modifies c
    ensures Matches(RustItem(b, old(c.at), depth), r, c.at)
    decreases Left(depth), 0
  {
    if depth > 8 || c.at >= |b| {
      return None;
    }
    var major, info := b[c.at] / 32, b[c.at] % 32;
    c.at := c.at + 1;
    if major == 7 {
      r := if info == 20 then Some(Bool(false)) else if info == 21 then Some(Bool(true))
      else if info == 22 then Some(Null) else None;
      return;
    }
    var value: nat := info;
    if info > 27 {
      return None;
    } else if info > 23 {
      var read := ReadNumber(b, c, Width(info));
      if read.None? {
        return None;
      }
      value := read.value;
    }
    assert RustArg(b, old(c.at) + 1, info) == Some((value, c.at));
    if major <= 1 {
      r := if value >= LONG then None else if major == 0 then Some(Integer(value)) else Some(Integer(-1 - value));
    } else if major <= 3 {
      if c.at + value > |b| {
        return None;
      }
      var bytes := b[c.at..c.at + value];
      c.at := c.at + value;
      r := if major == 2 then Some(Binary(bytes)) else if ValidUtf8(bytes) then Some(Text(bytes)) else None;
    } else if major == 4 {
      var items := DecodeRustItems(b, c, depth + 1, value);
      r := if items.Some? then Some(Array(items.value)) else None;
    } else if major == 5 {
      var entries := DecodeRustEntries(b, c, depth + 1, value);
      r := if entries.Some? then Some(Map(entries.value)) else None;
    } else {
      r := DecodeRust(b, c, depth + 1);
    }
  }

  method DecodeRustItems(b: seq<byte>, c: Cursor, depth: nat, n: nat) returns (r: Option<seq<Value>>)
    requires c.at <= |b|
    modifies c
    ensures Matches(RustItems(b, old(c.at), depth, n), r, c.at)
    decreases Left(depth), n + 1
  {
    var values: seq<Value>, i := [], 0;
    ghost var plain := true;
    ghost var whole := RustItems(b, c.at, depth, n);
    PrefixNothing(whole);
    while i < n
      invariant 0 <= i <= n
      invariant c.at <= |b|
      invariant Prefix(values, plain, RustItems(b, c.at, depth, n - i)) == whole
    {
      ghost var item := RustItem(b, c.at, depth);
      var x := DecodeRust(b, c, depth);
      if x.None? {
        return None;
      }
      PrefixTwice(values, plain, x.value, item.plain, RustItems(b, c.at, depth, n - i - 1));
      values, plain := values + [x.value], plain && item.plain;
      i := i + 1;
    }
    assert values + [] == values;
    r := Some(values);
  }

  method DecodeRustPair(b: seq<byte>, c: Cursor, depth: nat) returns (r: Option<Pair>)
    modifies c
    ensures Matches(RustPair(b, old(c.at), depth), r, c.at)
    decreases Left(depth), 1
  {
    r := None;
    var k := DecodeRust(b, c, depth);
    if k.Some? {
      var x := DecodeRust(b, c, depth);
      if x.Some? {
        r := Some(Pair(k.value, x.value));
      }
    }
  }

  method DecodeRustEntries(b: seq<byte>, c: Cursor, depth: nat, n: nat) returns (r: Option<seq<Pair>>)
    requires c.at <= |b|
    modifies c
    ensures Matches(RustEntries(b, old(c.at), depth, n), r, c.at)
    decreases Left(depth), n + 2
  {
    var values: seq<Pair>, i := [], 0;
    ghost var plain := true;
    ghost var whole := RustEntries(b, c.at, depth, n);
    PrefixNothing(whole);
    while i < n
      invariant 0 <= i <= n
      invariant c.at <= |b|
      invariant Prefix(values, plain, RustEntries(b, c.at, depth, n - i)) == whole
    {
      ghost var pair := RustPair(b, c.at, depth);
      var e := DecodeRustPair(b, c, depth);
      if e.None? {
        return None;
      }
      PrefixTwice(values, plain, e.value, pair.plain, RustEntries(b, c.at, depth, n - i - 1));
      values, plain := values + [e.value], plain && pair.plain;
      i := i + 1;
    }
    assert values + [] == values;
    r := Some(values);
  }

  method DecodeJava(b: seq<byte>, c: Cursor, depth: nat, utf8: Decoder) returns (r: Option<Value>)
    modifies c
    ensures Matches(JavaItem(b, old(c.at), depth, utf8), r, c.at)
    decreases Left(depth), 0
  {
    if depth > 8 || c.at >= |b| {
      return None;
    }
    var major, info := b[c.at] / 32, b[c.at] % 32;
    c.at := c.at + 1;
    if major == 7 {
      r := if info == 20 then Some(Bool(false)) else if info == 21 then Some(Bool(true))
      else if info == 22 then Some(Null) else None;
      return;
    }
    var v: int := info;
    if info > 27 {
      return None;
    } else if info >= 24 {
      var read := ReadNumber(b, c, Width(info));
      if read.None? {
        return None;
      }
      v := Signed(read.value);
    }
    assert JavaArg(b, old(c.at) + 1, info) == Some((v, c.at));
    if major <= 1 {
      r := Some(Integer(if major == 0 then v else -1 - v));
    } else if major <= 3 {
      var n := LowInt(v);
      if v > |b| - c.at || n < 0 || c.at + n >= INT {
        return None;
      }
      var s := CopyOfRange(b, c.at, n);
      c.at := c.at + n;
      r := Some(if major == 2 then Binary(s) else Text(utf8(s)));
    } else if major == 4 {
      var items := DecodeJavaItems(b, c, depth + 1, v, utf8);
      r := if items.Some? then Some(Array(items.value)) else None;
    } else if major == 5 {
      var entries := DecodeJavaEntries(b, c, depth + 1, v, utf8);
      r := if entries.Some? then Some(Map(entries.value)) else None;
    } else {
      r := None;
    }
  }

  method DecodeJavaItems(b: seq<byte>, c: Cursor, depth: nat, n: int, utf8: Decoder) returns (r: Option<seq<Value>>)
    modifies c
    ensures Matches(JavaItems(b, old(c.at), depth, n, utf8), r, c.at)
    decreases Left(depth), if n <= 0 then 1 else n + 1
  {
    var values: seq<Value>, i := [], 0;
    ghost var plain := true;
    ghost var whole := JavaItems(b, c.at, depth, n, utf8);
    PrefixNothing(whole);
    while i < n
      invariant 0 <= i && (i <= n || i == 0)
      invariant Prefix(values, plain, JavaItems(b, c.at, depth, n - i, utf8)) == whole
    {
      ghost var item := JavaItem(b, c.at, depth, utf8);
      var x := DecodeJava(b, c, depth, utf8);
      if x.None? {
        return None;
      }
      PrefixTwice(values, plain, x.value, item.plain, JavaItems(b, c.at, depth, n - i - 1, utf8));
      values, plain := values + [x.value], plain && item.plain;
      i := i + 1;
    }
    assert values + [] == values;
    r := Some(values);
  }

  method DecodeJavaPair(b: seq<byte>, c: Cursor, depth: nat, utf8: Decoder) returns (r: Option<Pair>)
    modifies c
    ensures Matches(JavaPair(b, old(c.at), depth, utf8), r, c.at)
    decreases Left(depth), 1
  {
    r := None;
    var k := DecodeJava(b, c, depth, utf8);
    if k.Some? {
      var x := DecodeJava(b, c, depth, utf8);
      if x.Some? {
        r := Some(Pair(k.value, x.value));
      }
    }
  }

  method DecodeJavaEntries(b: seq<byte>, c: Cursor, depth: nat, n: int, utf8: Decoder) returns (r: Option<seq<Pair>>)
    modifies c
    ensures Matches(JavaEntries(b, old(c.at), depth, n, [], utf8), r, c.at)
    decreases Left(depth), if n <= 0 then 1 else n + 2
  {
    var m: seq<Pair>, i := [], 0;
    ghost var plain := true;
    ghost var whole := JavaEntries(b, c.at, depth, n, [], utf8);
    while i < n
      invariant 0 <= i && (i <= n || i == 0)
      invariant Mark(plain, JavaEntries(b, c.at, depth, n - i, m, utf8)) == whole
    {
      ghost var pair := JavaPair(b, c.at, depth, utf8);
      var e := DecodeJavaPair(b, c, depth, utf8);
      if e.None? {
        return None;
      }
      m, plain := Put(m, e.value.key, e.value.value), plain && pair.plain;
      i := i + 1;
    }
    r := Some(m);
  }
}
