/**
 * The phone's CBOR encoder: what it writes for a value, the comparator that puts map
 * entries in order, and the methods that write into a growing buffer.
 */
module Cbor {
  import opened Bytes

  /**
   * Integers, byte strings, texts, arrays, maps and booleans, as CTAP2 uses them. A text is
   * given by its UTF-8 bytes; a map by its entries in insertion order.
   */
  datatype Value =
    | Integer(i: int)
    | Binary(bytes: seq<byte>)
    | Text(utf8: seq<byte>)
    | Array(items: seq<Value>)
    | Map(entries: seq<Pair>)
    | Bool(b: bool)
    | Null

  datatype Pair = Pair(key: Value, value: Value)

  const LONG := 0x8000_0000_0000_0000
  const INT := 0x8000_0000

  // ---- The bytes of a value -----------------------------------------------------------

  /** The low five bits of a head and the number of bytes that follow it. */
  function Info(v: nat): (info: nat)
    ensures info < 28
  {
    if v < 24 then v else if v < 0x100 then 24 else if v < 0x1_0000 then 25
    else if v < 0x1_0000_0000 then 26 else 27
  }

  function Extra(v: nat): nat {
    if v < 24 then 0 else if v < 0x100 then 1 else if v < 0x1_0000 then 2
    else if v < 0x1_0000_0000 then 4 else 8
  }

  function Head(major: byte, v: nat): (head: seq<byte>)
    requires major < 8
    ensures 1 <= |head| <= 9
  {
    [major * 32 + Info(v)] + BigEndian(v, Extra(v))
  }

  type Entry = (seq<byte>, seq<byte>)

  /** Unsigned comparison of two keys of equal length, byte by byte. */
  predicate LexLess(a: seq<byte>, b: seq<byte>)
    requires |a| == |b|
  {
    a != [] && (a[0] < b[0] || (a[0] == b[0] && LexLess(a[1..], b[1..])))
  }

  /** The encoder's order on keys: shorter first, equal lengths byte by byte. */
  predicate KeyLess(a: seq<byte>, b: seq<byte>) {
    |a| < |b| || (|a| == |b| && LexLess(a, b))
  }

  /** The stable sort of the entries by key. */
  function SortEntries(kv: seq<Entry>): (sorted: seq<Entry>)
    ensures |sorted| == |kv|
  {
    if kv == [] then [] else InsertEntry(kv[0], SortEntries(kv[1..]))
  }

  function InsertEntry(e: Entry, sorted: seq<Entry>): (more: seq<Entry>)
    ensures |more| == |sorted| + 1
  {
    if sorted == [] || !KeyLess(sorted[0].0, e.0) then [e] + sorted
    else [sorted[0]] + InsertEntry(e, sorted[1..])
  }

  function Joined(kv: seq<Entry>): seq<byte> {
    if kv == [] then [] else kv[0].0 + kv[0].1 + Joined(kv[1..])
  }

  /** The bytes of a value without `Null`; `Null` has no encoding and counts as no bytes. */
  function Encode(v: Value): seq<byte>
    decreases v, 0
  {
    match v
    case Integer(i) => if i >= 0 then Head(0, i) else Head(1, -1 - i)
    case Binary(b) => Head(2, |b|) + b
    case Text(t) => Head(3, |t|) + t
    case Array(items) => Head(4, |items|) + EncodeItems(items)
    case Map(entries) => Head(5, |entries|) + Joined(SortEntries(EncodeEntries(entries)))
    case Bool(b) => if b then [0xF5] else [0xF4]
    case Null => []
  }

  function EncodeItems(items: seq<Value>): seq<byte>
    decreases items, 0
  {
    if items == [] then [] else Encode(items[0]) + EncodeItems(items[1..])
  }

  function EncodeEntries(entries: seq<Pair>): (kv: seq<Entry>)
    ensures |kv| == |entries|
    decreases entries, 0
  {
    if entries == [] then []
    else [EncodeEntry(entries[0])] + EncodeEntries(entries[1..])
  }

  function EncodeEntry(e: Pair): Entry
    decreases e, 0
  {
    (Encode(e.key), Encode(e.value))
  }

  /** Whether the encoder gets through the value: it throws on a null anywhere inside. */
  predicate Encodable(v: Value)
    decreases v
  {
    match v
    case Array(items) => forall x <- items :: Encodable(x)
    case Map(entries) => forall e <- entries :: Encodable(e.key) && Encodable(e.value)
    case Null => false
    case _ => true
  }

  // ---- The encoder as it runs -----------------------------------------------------------

  /** java.io.ByteArrayOutputStream. */
  class Output {
    var data: seq<byte>

    constructor ()
      ensures data == []
    {
      data := [];
    }

    /** `write(int)` keeps the low eight bits. */
    method Put(x: nat)
      modifies this
      ensures data == old(data) + [x % 256]
    {
      data := data + [x % 256];
    }

    method PutAll(bytes: seq<byte>)
      modifies this
      ensures data == old(data) + bytes
    {
      data := data + bytes;
    }
  }

  /** `v >> 8 * k`. */
  function Shifted(v: nat, k: nat): nat {
    if k == 0 then v else Shifted(v / 256, k - 1)
  }

  lemma {:induction false} ShiftedOnce(v: nat, k: nat)
    ensures Shifted(v, k) / 256 == Shifted(v, k + 1)
  {
    if k > 0 {
      ShiftedOnce(v / 256, k - 1);
    }
  }

  method WriteBigEndian(out: Output, v: nat, n: nat)
    modifies out
    ensures out.data == old(out.data) + BigEndian(v, n)
  {
    var left := n;
    while left > 0
      invariant 0 <= left <= n
      invariant out.data == old(out.data) + BigEndian(Shifted(v, left), n - left)
    {
      ShiftedOnce(v, left - 1);
      out.Put(Shifted(v, left - 1));
      left := left - 1;
    }
  }

  method WriteHead(out: Output, major: byte, v: nat)
    requires major < 8
    modifies out
    ensures out.data == old(out.data) + Head(major, v)
  {
    var m: nat := major * 32;
    if v < 24 {
      out.Put(m + v);
      WriteBigEndian(out, v, 0);
    } else if v < 0x100 {
      out.Put(m + 24);
      WriteBigEndian(out, v, 1);
    } else if v < 0x1_0000 {
      out.Put(m + 25);
      WriteBigEndian(out, v, 2);
    } else if v < 0x1_0000_0000 {
      out.Put(m + 26);
      WriteBigEndian(out, v, 4);
    } else {
      out.Put(m + 27);
      WriteBigEndian(out, v, 8);
    }
  }

  /** `encode`: a fresh buffer filled by `Write`. */
  method EncodeValue(v: Value) returns (ok: bool, bytes: seq<byte>)
    ensures ok <==> Encodable(v)
    ensures ok ==> bytes == Encode(v)
    decreases v, 1
  {
    var out := new Output();
    ok := Write(out, v);
    bytes := out.data;
  }

  /** `write`; `ok` is false where the Java encoder throws. */
  method Write(out: Output, v: Value) returns (ok: bool)
    modifies out
    ensures ok <==> Encodable(v)
    ensures ok ==> out.data == old(out.data) + Encode(v)
    decreases v, 0
  {
    ok := true;
    match v
    case Integer(i) =>
      if i >= 0 {
        WriteHead(out, 0, i);
      } else {
        WriteHead(out, 1, -1 - i);
      }
    case Binary(b) =>
      WriteString(out, 2, b);
    case Text(t) =>
      WriteString(out, 3, t);
    case Array(items) =>
      ok := WriteArray(out, items);
    case Map(entries) =>
      ok := WriteMap(out, entries);
    case Bool(b) =>
      out.Put(if b then 0xF5 else 0xF4);
    case Null =>
      ok := false;
  }

  method WriteString(out: Output, major: byte, bytes: seq<byte>)
    requires major < 8
    modifies out
    ensures out.data == old(out.data) + (Head(major, |bytes|) + bytes)
  {
    WriteHead(out, major, |bytes|);
    out.PutAll(bytes);
  }

  method WriteArray(out: Output, items: seq<Value>) returns (ok: bool)
    modifies out
    ensures ok <==> forall x <- items :: Encodable(x)
    ensures ok ==> out.data == old(out.data) + (Head(4, |items|) + EncodeItems(items))
    decreases items, 1
  {
    WriteHead(out, 4, |items|);
    ok := WriteItems(out, items);
  }

  method WriteMap(out: Output, entries: seq<Pair>) returns (ok: bool)
    modifies out
    ensures ok <==> forall e <- entries :: Encodable(e.key) && Encodable(e.value)
    ensures ok ==> out.data == old(out.data) + (Head(5, |entries|) + Joined(SortEntries(EncodeEntries(entries))))
    decreases entries, 1
  {
    var kv;
    ok, kv := EncodedEntries(entries);
    if ok {
      kv := SortEntries(kv);
      WriteHead(out, 5, |kv|);
      WriteEntries(out, kv);
    }
  }

  method WriteItems(out: Output, items: seq<Value>) returns (ok: bool)
    modifies out
    ensures ok <==> forall x <- items :: Encodable(x)
    ensures ok ==> out.data == old(out.data) + EncodeItems(items)
    decreases items, 0
  {
    ok := true;
    var i := 0;
    while i < |items|
      invariant 0 <= i <= |items|
      invariant forall j :: 0 <= j < i ==> Encodable(items[j])
      invariant out.data + EncodeItems(items[i..]) == old(out.data) + EncodeItems(items)
    {
      ok := Write(out, items[i]);
      if !ok {
        return;
      }
      i := i + 1;
    }
  }

  method EncodedEntries(entries: seq<Pair>) returns (ok: bool, kv: seq<Entry>)
    ensures ok <==> forall e <- entries :: Encodable(e.key) && Encodable(e.value)
    ensures ok ==> kv == EncodeEntries(entries)
    decreases entries, 0
  {
    ok, kv := true, [];
    var i := 0;
    while i < |entries|
      invariant 0 <= i <= |entries|
      invariant forall j :: 0 <= j < i ==> Encodable(entries[j].key) && Encodable(entries[j].value)
      invariant kv + EncodeEntries(entries[i..]) == EncodeEntries(entries)
    {
      var entry;
      ok, entry := EncodedEntry(entries[i]);
      if !ok {
        return;
      }
      kv := kv + [entry];
      i := i + 1;
    }
  }

  method EncodedEntry(e: Pair) returns (ok: bool, entry: Entry)
    ensures ok <==> Encodable(e.key) && Encodable(e.value)
    ensures ok ==> entry == EncodeEntry(e)
    decreases e, 0
  {
    var key, value;
    ok, key := EncodeValue(e.key);
    if ok {
      ok, value := EncodeValue(e.value);
      entry := (key, value);
    } else {
      entry := ([], []);
    }
  }

  method WriteEntries(out: Output, kv: seq<Entry>)
    modifies out
    ensures out.data == old(out.data) + Joined(kv)
  {
    var i := 0;
    while i < |kv|
      invariant 0 <= i <= |kv|
      invariant out.data + Joined(kv[i..]) == old(out.data) + Joined(kv)
    {
      out.PutAll(kv[i].0);
      out.PutAll(kv[i].1);
      i := i + 1;
    }
  }
}
