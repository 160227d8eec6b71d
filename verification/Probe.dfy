/**
 * Presence-free probes: the daemon's `silent` looks at the raw request, the phone computes `up`
 * from its parameter map. The two must classify every request alike.
 */
module Probe {
  import opened Bytes
  import opened Cbor
  import opened CborDecode
  import opened CborAgree
  import opened CborAsRead
  import opened CborRoundTrip
  import opened CborCanonical

  const GET_ASSERTION: byte := 0x02
  const OPTIONS := Integer(5)
  const UP := Text([0x75, 0x70])

  // ---- The daemon ---------------------------------------------------------------------------

  predicate AsksForNoPresence(e: Pair) {
    e.key == OPTIONS && e.value.Map? && exists o <- e.value.entries :: o.key == UP && o.value == Bool(false)
  }

  predicate Silent(data: seq<byte>) {
    && data != [] && data[0] == GET_ASSERTION
    && match RustItem(data, 1, 0)
       case Done(Map(root), _, _) => exists e <- root :: AsksForNoPresence(e)
       case _ => false
  }

  // ---- The phone ----------------------------------------------------------------------------

  /** `map.get(key)`: null when there is no equal key. */
  function Get(entries: seq<Pair>, key: Value): Value {
    if entries == [] then Null
    else if JavaEquals(entries[0].key, key) then entries[0].value
    else Get(entries[1..], key)
  }

  /** `up` as the phone computes it for a request; None where it throws before it knows. */
  function PhoneUp(data: seq<byte>, utf8: Decoder): Option<bool> {
    if |data| <= 1 then Some(true) else
      match JavaItem(data, 1, 0, utf8)
      case Done(Map(p), _, _) =>
        (match Get(p, OPTIONS)
         case Map(opts) => Some(Get(opts, UP) != Bool(false))
         case Null => Some(true)
         case _ => None)
      case _ => None
  }

  // ---- What the phone's map keeps of the entries ----------------------------------------------

  /** The value of the last entry with this key. */
  function LastValue(entries: seq<Pair>, key: Value): Option<Value> {
    if entries == [] then None else
      var later := LastValue(entries[1..], key);
      if later.Some? then later
      else if entries[0].key == key then Some(entries[0].value)
      else None
  }

  predicate Scalar(key: Value) {
    key.Integer? || key.Text?
  }

  lemma {:induction false} GetAfterPut(entries: seq<Pair>, k: Value, v: Value, key: Value)
    requires Scalar(key)
    ensures Get(Put(entries, k, v), key) == if k == key then v else Get(entries, key)
  {
    if entries != [] {
      GetAfterPut(entries[1..], k, v, key);
      if JavaEquals(entries[0].key, k) {
        assert Put(entries, k, v)[1..] == entries[1..];
      } else {
        assert Put(entries, k, v)[1..] == Put(entries[1..], k, v);
      }
    } else {
      assert [Pair(k, v)][1..] == [];
    }
  }

  lemma {:induction false} GetAfterPutAll(sofar: seq<Pair>, entries: seq<Pair>, key: Value)
    requires Scalar(key)
    ensures Get(PutAll(sofar, CollapseEntries(entries)), key)
         == (if LastValue(entries, key).Some? then Collapse(LastValue(entries, key).value) else Get(sofar, key))
    decreases |entries|
  {
    if entries == [] {
      assert CollapseEntries(entries) == [];
    } else {
      var e, rest := entries[0], entries[1..];
      assert entries == [e] + rest;
      hide Put, Get, PutAll;
      CollapseFirst(e, rest, sofar);
      GetAfterPutAll(Put(sofar, Collapse(e.key), Collapse(e.value)), rest, key);
      GetAfterPut(sofar, Collapse(e.key), Collapse(e.value), key);
    }
  }

  /** Of several equal keys the last one counts, at both levels. */
  predicate LastAsksForNoPresence(root: seq<Pair>) {
    match LastValue(root, OPTIONS)
    case Some(Map(opts)) => LastValue(opts, UP) == Some(Bool(false))
    case _ => false
  }

  lemma {:induction false} LastValueOccurs(entries: seq<Pair>, key: Value) returns (i: nat)
    requires LastValue(entries, key).Some?
    ensures i < |entries| && entries[i].key == key && entries[i].value == LastValue(entries, key).value
  {
    if LastValue(entries[1..], key).Some? {
      i := LastValueOccurs(entries[1..], key);
      i := i + 1;
    } else {
      i := 0;
    }
  }

  lemma LastIsOne(root: seq<Pair>)
    requires LastAsksForNoPresence(root)
    ensures exists e <- root :: AsksForNoPresence(e)
  {
    var i := LastValueOccurs(root, OPTIONS);
    var j := LastValueOccurs(root[i].value.entries, UP);
    assert root[i].value.entries[j] in root[i].value.entries;
    assert AsksForNoPresence(root[i]);
  }

  /** The phone takes exactly these parameter maps for probes. */
  lemma PhoneTakesTheLast(root: seq<Pair>)
    ensures var p := Collapse(Map(root)).entries;
            (Get(p, OPTIONS).Map? && Get(Get(p, OPTIONS).entries, UP) == Bool(false)) <==> LastAsksForNoPresence(root)
  {
    hide Get, PutAll, CollapseEntries;
    GetAfterPutAll([], root, OPTIONS);
    assert Get([], OPTIONS) == Null && Get([], UP) == Null by {
      NothingToGet();
    }
    var options := LastValue(root, OPTIONS);
    if options.Some? && options.value.Map? {
      GetAfterPutAll([], options.value.entries, UP);
    }
  }

  lemma NothingToGet()
    ensures Get([], OPTIONS) == Null && Get([], UP) == Null
  {
  }

  // ---- They agree, exactly ------------------------------------------------------------------

  /**
   * Which getAssertion requests are classified alike, for every request. One that the daemon reads
   * as a map and in which no entry asks for no presence always is; one in which some entry does,
   * exactly when there is no tag and the last "up" of the last options asks for it. Any other
   * that the daemon reads always is; one that it cannot read, exactly unless the phone reads a map
   * in which the last "up" of the last options asks for it.
   */
  lemma ProbesAreClassifiedAlikeIff(data: seq<byte>, utf8: Decoder)
    requires data != [] && data[0] == GET_ASSERTION && |data| < INT && Faithful(utf8)
    ensures (Silent(data) <==> PhoneUp(data, utf8) == Some(false))
       <==> match RustItem(data, 1, 0)
            case Done(Map(root), _, plain) =>
              (exists e <- root :: AsksForNoPresence(e)) ==> plain && LastAsksForNoPresence(root)
            case Done(_, _, _) => true
            case Fail =>
              (match ReadItem(data, 1, 0, utf8)
               case Done(Map(root), _, _) => !LastAsksForNoPresence(root)
               case _ => true)
  {
    assert |data| <= 1 ==> ReadItem(data, 1, 0, utf8).Fail?;
    hide RustItem, JavaItem, ReadItem, Get, Collapse, AsksForNoPresence, LastAsksForNoPresence;
    DecodersAgree(data, 1, 0, utf8);
    var r := RustItem(data, 1, 0);
    if r.Done? {
      if r.value.Map? {
        PhoneTakesTheLast(r.value.entries);
        if LastAsksForNoPresence(r.value.entries) {
          LastIsOne(r.value.entries);
        }
      }
      MapsStayMaps(r.value);
    } else {
      HeldIsRead(data, 1, 0, utf8);
      var read := ReadItem(data, 1, 0, utf8);
      if read.Done? {
        if read.value.Map? {
          PhoneTakesTheLast(read.value.entries);
        }
        MapsStayMaps(read.value);
      }
    }
  }

  lemma MapsStayMaps(v: Value)
    ensures Collapse(v).Map? <==> v.Map?
  {
  }

  /** What only the phone takes for a probe has a malformed text or a number with the top bit set. */
  lemma OnlyMalformedProbesAreUnread(data: seq<byte>, utf8: Decoder)
    requires data != [] && data[0] == GET_ASSERTION && |data| < INT && Faithful(utf8)
    requires RustItem(data, 1, 0).Fail? && PhoneUp(data, utf8) == Some(false)
    ensures JavaItem(data, 1, 0, utf8).Done? && !JavaItem(data, 1, 0, utf8).plain
  {
    hide RustItem, JavaItem;
    DecodersAgree(data, 1, 0, utf8);
  }

  lemma {:induction false} DistinctHasOne(entries: seq<Pair>, key: Value, i: nat)
    requires Distinct(Map(entries)) && Scalar(key) && i < |entries| && entries[i].key == key
    ensures LastValue(entries, key) == Some(entries[i].value)
  {
    if i == 0 {
      if LastValue(entries[1..], key).Some? {
        var j := LastValueOccurs(entries[1..], key);
        assert Same(entries[0].key, entries[j + 1].key);
        assert false;
      }
    } else {
      assert Distinct(Map(entries[1..])) by {
        assert forall j :: 0 <= j < |entries| - 1 ==> entries[1..][j] == entries[j + 1];
      }
      DistinctHasOne(entries[1..], key, i - 1);
    }
  }

  /** With distinct keys the only one is the last one. */
  lemma OneIsLast(root: seq<Pair>)
    requires Distinct(Map(root)) && exists e <- root :: AsksForNoPresence(e)
    ensures LastAsksForNoPresence(root)
  {
    var i :| 0 <= i < |root| && AsksForNoPresence(root[i]);
    DistinctHasOne(root, OPTIONS, i);
    assert DistinctPair(root[i]);
    var opts := root[i].value.entries;
    var j :| 0 <= j < |opts| && opts[j].key == UP && opts[j].value == Bool(false);
    DistinctHasOne(opts, UP, j);
  }

  /**
   * Any getAssertion request that the daemon reads without a tag and in which no map repeats a
   * key is classified alike.
   */
  lemma ProbesAreClassifiedAlike(data: seq<byte>, utf8: Decoder)
    requires data != [] && data[0] == GET_ASSERTION && |data| < INT && Faithful(utf8)
    requires var r := RustItem(data, 1, 0); r.Done? && r.plain && Distinct(r.value)
    ensures Silent(data) <==> PhoneUp(data, utf8) == Some(false)
  {
    hide RustItem, JavaItem, Distinct, AsksForNoPresence, LastAsksForNoPresence, Silent, PhoneUp;
    var r := RustItem(data, 1, 0);
    ProbesAreClassifiedAlikeIff(data, utf8);
    if r.value.Map? && exists e <- r.value.entries :: AsksForNoPresence(e) {
      OneIsLast(r.value.entries);
    }
  }

  /** In particular every parameter map that can be sent, as the encoder writes it. */
  lemma EncodedProbesAreClassifiedAlike(m: Value, post: seq<byte>, utf8: Decoder)
    requires m.Map? && Sendable(m, 8) && Distinct(m) && Faithful(utf8)
    requires |[GET_ASSERTION] + Encode(m) + post| < INT
    ensures var data := [GET_ASSERTION] + Encode(m) + post;
            Silent(data) <==> PhoneUp(data, utf8) == Some(false)
  {
    hide RustItem, JavaItem, Encode, Distinct, Canon, Sendable, Silent, PhoneUp, Writable, At;
    var data := [GET_ASSERTION] + Encode(m) + post;
    AtMiddle([GET_ASSERTION], Encode(m), post);
    RustReadsBack(data, 1, m, 0);
    SendableIsWritable(m, 8);
    CanonKeeps(m);
    ProbesAreClassifiedAlike(data, utf8);
  }

  // ---- Two requests that are classified apart ------------------------------------------------

  /** {5: {"up": false, "up": true}} */
  const REPEATED: seq<byte> := [GET_ASSERTION, 0xA1, 0x05, 0xA2, 0x62, 0x75, 0x70, 0xF4, 0x62, 0x75, 0x70, 0xF5]
  const OFF := Pair(UP, Bool(false))
  const ON := Pair(UP, Bool(true))
  const AS_READ := Map([Pair(OPTIONS, Map([OFF, ON]))])
  const AS_HELD := Map([Pair(OPTIONS, Map([ON]))])

  lemma OptionsAreRead()
    ensures RustItem(REPEATED, 3, 1) == Done(Map([OFF, ON]), 12, true)
  {
    assert REPEATED[5..7] == [0x75, 0x70] && REPEATED[9..11] == [0x75, 0x70];
    assert RustItem(REPEATED, 4, 2) == Done(UP, 7, true);
    assert RustItem(REPEATED, 8, 2) == Done(UP, 11, true);
    PairStep(REPEATED, 4, 2, UP, 7, Bool(false), 8);
    PairStep(REPEATED, 8, 2, UP, 11, Bool(true), 12);
    EntriesStep(REPEATED, 8, 2, 0, ON, 12, [], 12);
    assert [ON] + [] == [ON];
    EntriesStep(REPEATED, 4, 2, 1, OFF, 8, [ON], 12);
    assert [OFF] + [ON] == [OFF, ON];
  }

  lemma TheKeyIsRead()
    ensures RustItem(REPEATED, 2, 1) == Done(OPTIONS, 3, true) && RustEntries(REPEATED, 12, 1, 0) == Done([], 12, true)
  {
  }

  lemma TheEntryIsRead()
    ensures RustEntries(REPEATED, 2, 1, 1) == Done(AS_READ.entries, 12, true)
  {
    hide RustItem, RustPair, RustEntries;
    TheKeyIsRead();
    OptionsAreRead();
    PairStep(REPEATED, 2, 1, OPTIONS, 3, Map([OFF, ON]), 12);
    EntriesStep(REPEATED, 2, 1, 0, AS_READ.entries[0], 12, [], 12);
    assert AS_READ.entries + [] == AS_READ.entries;
  }

  lemma ParametersAreRead()
    ensures RustItem(REPEATED, 1, 0) == Done(AS_READ, 12, true)
  {
    TheEntryIsRead();
    hide RustEntries, RustPair, RustItems;
  }

  lemma OneOptionIsHeld()
    ensures Collapse(Map([OFF, ON])) == Map([ON])
  {
    CollapseFirst(OFF, [ON], []);
    CollapseFirst(ON, [], [OFF]);
    assert [OFF] + [ON] == [OFF, ON] && [ON] + [] == [ON];
    assert Put([], UP, Bool(false)) == [OFF];
    assert Put([OFF], UP, Bool(true)) == [ON];
    assert CollapseEntries([]) == [] && PutAll([ON], []) == [ON];
  }

  lemma OneParameterIsHeld()
    ensures Collapse(AS_READ) == AS_HELD
  {
    hide Collapse, PutAll;
    OneOptionIsHeld();
    CollapseOfOne(OPTIONS, Map([OFF, ON]));
    assert Collapse(OPTIONS) == OPTIONS by {
      CollapseChangesNothing(OPTIONS);
    }
  }

  lemma CollapseOfOne(k: Value, v: Value)
    ensures Collapse(Map([Pair(k, v)])) == Map([Pair(Collapse(k), Collapse(v))])
  {
    assert [Pair(k, v)][1..] == [];
    assert CollapseEntries([Pair(k, v)]) == [CollapseEntry(Pair(k, v))];
    assert PutAll([CollapseEntry(Pair(k, v))], []) == [CollapseEntry(Pair(k, v))];
  }

  /** The daemon sees the first `up`, and the phone's map keeps the last one. */
  lemma RepeatedKeysAreClassifiedApart(utf8: Decoder)
    requires Faithful(utf8)
    ensures Silent(REPEATED) && PhoneUp(REPEATED, utf8) == Some(true)
  {
    hide RustItem, JavaItem, Collapse;
    ParametersAreRead();
    OneParameterIsHeld();
    DecodersAgree(REPEATED, 1, 0, utf8);
    assert OFF in [OFF, ON];
    assert AsksForNoPresence(AS_READ.entries[0]);
  }

  /** {1: a text that is the byte 0xFF, 5: {"up": false}} */
  const MALFORMED: seq<byte> := [GET_ASSERTION, 0xA2, 0x01, 0x61, 0xFF, 0x05, 0xA1, 0x62, 0x75, 0x70, 0xF4]

  lemma TheDaemonRefuses()
    ensures RustItem(MALFORMED, 1, 0).Fail?
  {
    assert MALFORMED[4..5] == [0xFF];
    assert RustItem(MALFORMED, 2, 1) == Done(Integer(1), 3, true);
    assert RustItem(MALFORMED, 3, 1).Fail?;
    assert RustPair(MALFORMED, 2, 1).Fail?;
    assert RustEntries(MALFORMED, 2, 1, 2).Fail?;
  }

  lemma ThePhoneReads(utf8: Decoder)
    requires Faithful(utf8)
    ensures JavaItem(MALFORMED, 6, 1, utf8) == Done(Map([OFF]), 11, true)
    ensures JavaItem(MALFORMED, 3, 1, utf8) == Done(Text(utf8([0xFF])), 5, false)
  {
    assert MALFORMED[8..10] == [0x75, 0x70] && MALFORMED[4..5] == [0xFF];
    assert JavaItem(MALFORMED, 7, 2, utf8) == Done(UP, 10, true);
    assert JavaPair(MALFORMED, 7, 2, utf8) == Done(OFF, 11, true);
    assert JavaEntries(MALFORMED, 11, 2, 0, [OFF], utf8) == Done([OFF], 11, true);
    assert Put([], UP, Bool(false)) == [OFF];
    assert JavaEntries(MALFORMED, 7, 2, 1, [], utf8) == Done([OFF], 11, true);
  }

  lemma ThePhoneReadsBoth(utf8: Decoder)
    requires Faithful(utf8)
    ensures var entries := JavaEntries(MALFORMED, 2, 1, 2, [], utf8);
            && entries.Done?
            && entries.value == [Pair(Integer(1), Text(utf8([0xFF]))), Pair(OPTIONS, Map([OFF]))]
  {
    ThePhoneReads(utf8);
    var first, second := Pair(Integer(1), Text(utf8([0xFF]))), Pair(OPTIONS, Map([OFF]));
    assert JavaPair(MALFORMED, 2, 1, utf8) == Done(first, 5, false);
    assert JavaPair(MALFORMED, 5, 1, utf8) == Done(second, 11, true);
    assert Put([], first.key, first.value) == [first];
    assert Put([first], second.key, second.value) == [first, second];
    assert JavaEntries(MALFORMED, 11, 1, 0, [first, second], utf8) == Done([first, second], 11, true);
    assert JavaEntries(MALFORMED, 5, 1, 1, [first], utf8).Done?;
    assert JavaEntries(MALFORMED, 5, 1, 1, [first], utf8).value == [first, second];
    assert JavaEntries(MALFORMED, 2, 1, 2, [], utf8).Done?;
  }

  lemma ThePhoneReadsTheMap(utf8: Decoder)
    requires Faithful(utf8)
    ensures var item := JavaItem(MALFORMED, 1, 0, utf8);
            && item.Done?
            && item.value == Map([Pair(Integer(1), Text(utf8([0xFF]))), Pair(OPTIONS, Map([OFF]))])
  {
    hide JavaItem, JavaEntries, Faithful;
    ThePhoneReadsBoth(utf8);
    assert MALFORMED[1] / 32 == 5 && MALFORMED[1] % 32 == 2 && JavaArg(MALFORMED, 2, 2) == Some((2, 2));
    MapsAreTheirEntries(MALFORMED, 1, 0, 2, 2, utf8);
  }

  lemma MapsAreTheirEntries(b: seq<byte>, p: nat, depth: nat, v: int, q: nat, utf8: Decoder)
    requires depth <= 8 && p < |b| && b[p] / 32 == 5 && JavaArg(b, p + 1, b[p] % 32) == Some((v, q))
    ensures var item, entries := JavaItem(b, p, depth, utf8), JavaEntries(b, q, depth + 1, v, [], utf8);
            entries.Done? ==> item.Done? && item.value == Map(entries.value)
  {
    hide JavaEntries, JavaItems, JavaString, JavaArg;
  }

  lemma TheOptionsAreOff(text: Value)
    ensures Get([Pair(Integer(1), text), Pair(OPTIONS, Map([OFF]))], OPTIONS) == Map([OFF])
    ensures Get([OFF], UP) == Bool(false)
  {
    assert [Pair(Integer(1), text), Pair(OPTIONS, Map([OFF]))][1..] == [Pair(OPTIONS, Map([OFF]))];
  }

  /** A malformed text that the daemon refuses and the phone repairs. */
  lemma MalformedTextsAreClassifiedApart(utf8: Decoder)
    requires Faithful(utf8)
    ensures !Silent(MALFORMED) && PhoneUp(MALFORMED, utf8) == Some(false)
  {
    hide JavaItem, RustItem, Get, Faithful;
    TheDaemonRefuses();
    ThePhoneReadsTheMap(utf8);
    TheOptionsAreOff(Text(utf8([0xFF])));
  }
}
