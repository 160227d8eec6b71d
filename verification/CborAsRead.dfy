/**
 * What the phone's decoder reads, entry by entry, before its maps put equal keys together; and that
 * what it holds is just that, put together at every level.
 */
module CborAsRead {
  import opened Bytes
  import opened Cbor
  import opened CborDecode
  import opened CborAgree

  /** `item` without the maps: the entries stay as they come. */
  function ReadItem(b: seq<byte>, p: nat, depth: nat, utf8: Decoder): Parsed<Value>
    decreases Left(depth), 0
  {
    if depth > 8 || p >= |b| || !(b[p] / 32 == 4 || b[p] / 32 == 5) then JavaItem(b, p, depth, utf8) else
      match JavaArg(b, p + 1, b[p] % 32)
      case None => Fail
      case Some((v, q)) =>
        if b[p] / 32 == 4 then
          match ReadItems(b, q, depth + 1, v, utf8)
          case Fail => Fail
          case Done(items, end, plain) => Done(Array(items), end, v >= 0 && plain)
        else
          match ReadEntries(b, q, depth + 1, v, utf8)
          case Fail => Fail
          case Done(entries, end, plain) => Done(Map(entries), end, v >= 0 && plain)
  }

  function ReadItems(b: seq<byte>, p: nat, depth: nat, n: int, utf8: Decoder): Parsed<seq<Value>>
    decreases Left(depth), if n <= 0 then 1 else n + 1
  {
    if n <= 0 then Done([], p, true) else
      match ReadItem(b, p, depth, utf8)
      case Fail => Fail
      case Done(x, q, plain) => Prefix([x], plain, ReadItems(b, q, depth, n - 1, utf8))
  }

  function ReadPair(b: seq<byte>, p: nat, depth: nat, utf8: Decoder): Parsed<Pair>
    decreases Left(depth), 1
  {
    match ReadItem(b, p, depth, utf8)
    case Fail => Fail
    case Done(k, q, plain) =>
      match ReadItem(b, q, depth, utf8)
      case Fail => Fail
      case Done(x, end, plain') => Done(Pair(k, x), end, plain && plain')
  }

  function ReadEntries(b: seq<byte>, p: nat, depth: nat, n: int, utf8: Decoder): Parsed<seq<Pair>>
    decreases Left(depth), if n <= 0 then 1 else n + 2
  {
    if n <= 0 then Done([], p, true) else
      match ReadPair(b, p, depth, utf8)
      case Fail => Fail
      case Done(e, q, plain) => Prefix([e], plain, ReadEntries(b, q, depth, n - 1, utf8))
  }

  // ---- What is held is what was read ----------------------------------------------------------

  function Held(r: Parsed<Value>): Parsed<Value> {
    match r
    case Fail => Fail
    case Done(v, end, plain) => Done(Collapse(v), end, plain)
  }

  function HeldItems(r: Parsed<seq<Value>>): Parsed<seq<Value>> {
    match r
    case Fail => Fail
    case Done(items, end, plain) => Done(CollapseItems(items), end, plain)
  }

  function HeldPair(r: Parsed<Pair>): Parsed<Pair> {
    match r
    case Fail => Fail
    case Done(e, end, plain) => Done(CollapseEntry(e), end, plain)
  }

  function HeldEntries(sofar: seq<Pair>, r: Parsed<seq<Pair>>): Parsed<seq<Pair>> {
    match r
    case Fail => Fail
    case Done(entries, end, plain) => Done(PutAll(sofar, CollapseEntries(entries)), end, plain)
  }

  /** On any bytes, from any position: the phone holds what it read, equal keys put together. */
  lemma {:induction false} HeldIsRead(b: seq<byte>, p: nat, depth: nat, utf8: Decoder)
    ensures JavaItem(b, p, depth, utf8) == Held(ReadItem(b, p, depth, utf8))
    decreases Left(depth), 1
  {
    hide JavaItems, JavaEntries, ReadItems, ReadEntries, JavaArg, JavaString;
    if depth <= 8 && p < |b| && (b[p] / 32 == 4 || b[p] / 32 == 5) {
      var arg := JavaArg(b, p + 1, b[p] % 32);
      if arg.Some? {
        var (v, q) := arg.value;
        if b[p] / 32 == 4 {
          ItemsAreRead(b, q, depth + 1, v, utf8);
        } else {
          EntriesAreRead(b, q, depth + 1, v, [], utf8);
        }
      }
    } else {
      ScalarsStay(b, p, depth, utf8);
    }
  }

  lemma ScalarsStay(b: seq<byte>, p: nat, depth: nat, utf8: Decoder)
    requires depth > 8 || p >= |b| || !(b[p] / 32 == 4 || b[p] / 32 == 5)
    ensures Held(JavaItem(b, p, depth, utf8)) == JavaItem(b, p, depth, utf8)
  {
    hide JavaArg;
  }

  lemma {:induction false} ItemsAreRead(b: seq<byte>, p: nat, depth: nat, n: int, utf8: Decoder)
    ensures JavaItems(b, p, depth, n, utf8) == HeldItems(ReadItems(b, p, depth, n, utf8))
    decreases Left(depth), if n <= 0 then 2 else n + 2
  {
    if n > 0 {
      HeldIsRead(b, p, depth, utf8);
      var x := ReadItem(b, p, depth, utf8);
      if x.Done? {
        ItemsAreRead(b, x.end, depth, n - 1, utf8);
        var rest := ReadItems(b, x.end, depth, n - 1, utf8);
        assert rest.Done? ==> ([x.value] + rest.value)[1..] == rest.value;
      }
    }
  }

  lemma {:induction false} PairIsRead(b: seq<byte>, p: nat, depth: nat, utf8: Decoder)
    ensures JavaPair(b, p, depth, utf8) == HeldPair(ReadPair(b, p, depth, utf8))
    decreases Left(depth), 2
  {
    HeldIsRead(b, p, depth, utf8);
    if ReadItem(b, p, depth, utf8).Done? {
      HeldIsRead(b, ReadItem(b, p, depth, utf8).end, depth, utf8);
    }
  }

  lemma {:induction false} EntriesAreRead(b: seq<byte>, p: nat, depth: nat, n: int, sofar: seq<Pair>, utf8: Decoder)
    ensures JavaEntries(b, p, depth, n, sofar, utf8) == HeldEntries(sofar, ReadEntries(b, p, depth, n, utf8))
    decreases Left(depth), if n <= 0 then 3 else n + 3
  {
    hide ReadPair, JavaPair, Put;
    if n > 0 {
      PairIsRead(b, p, depth, utf8);
      var e := ReadPair(b, p, depth, utf8);
      if e.Done? {
        var rest := ReadEntries(b, e.end, depth, n - 1, utf8);
        EntriesAreRead(b, e.end, depth, n - 1, Put(sofar, Collapse(e.value.key), Collapse(e.value.value)), utf8);
        if rest.Done? {
          CollapseFirst(e.value, rest.value, sofar);
        }
      }
    }
  }
}
