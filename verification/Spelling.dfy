/**
 * The other half of reassembly: whatever reports arrive, a message that is completed is spelled by
 * reports of its own channel, a first packet with its command and length and then continuation
 * packets numbered 0, 1, 2 and so on, whose bytes in that order begin with the message.
 */
module Spelling {
  import opened Bytes
  import opened CtapHid
  import EndToEnd

  /** A report that is read as one of this channel's. */
  predicate Own(arrivals: seq<Arrival>, k: nat, c: Channel) {
    k < |arrivals| && |arrivals[k].report| >= 5 && ChannelOf(arrivals[k].report) == c
  }

  /** The bytes that the continuation packets at these positions carry, one after the other. */
  function Carried(arrivals: seq<Arrival>, at: seq<nat>): seq<byte>
    requires forall i :: 0 <= i < |at| ==> at[i] < |arrivals| && |arrivals[at[i]].report| >= 5
  {
    if at == [] then [] else
      Carried(arrivals, at[..|at| - 1]) + arrivals[at[|at| - 1]].report[5..]
  }

  /** `first` begins a message and `at` are its continuation packets, in increasing positions. */
  predicate InOrder(arrivals: seq<Arrival>, first: nat, at: seq<nat>, c: Channel, command: byte, total: nat) {
    && Own(arrivals, first, c) && (forall i :: 0 <= i < |at| ==> Own(arrivals, at[i], c))
    && |arrivals[first].report| >= 7 && arrivals[first].report[4] == command >= 0x80
    && Number(arrivals[first].report[5..7]) == total
    && (command == INIT || !Refused(arrivals[first]))
    && (forall i :: 0 <= i < |at| ==> first < at[i] && arrivals[at[i]].report[4] == i)
    && (forall i, j :: 0 <= i < j < |at| ==> at[i] < at[j])
  }

  /** All that these packets carry. */
  function Whole(arrivals: seq<Arrival>, first: nat, at: seq<nat>): seq<byte>
    requires first < |arrivals| && |arrivals[first].report| >= 7
    requires forall i :: 0 <= i < |at| ==> at[i] < |arrivals| && |arrivals[at[i]].report| >= 5
  {
    arrivals[first].report[7..] + Carried(arrivals, at)
  }

  /** The partial message is what these packets carry, cut at its total. */
  predicate Spelled(arrivals: seq<Arrival>, first: nat, at: seq<nat>, c: Channel, p: Partial) {
    && InOrder(arrivals, first, at, c, p.command, p.total) && p.next == |at|
    && var whole := Whole(arrivals, first, at);
       p.data == whole[..Min(|whole|, p.total)]
  }

  lemma {:induction false} CarriedStays(arrivals: seq<Arrival>, a: Arrival, at: seq<nat>)
    requires forall i :: 0 <= i < |at| ==> at[i] < |arrivals| && |arrivals[at[i]].report| >= 5
    ensures Carried(arrivals + [a], at) == Carried(arrivals, at)
  {
    if at != [] {
      CarriedStays(arrivals, a, at[..|at| - 1]);
    }
  }

  lemma OrderStays(arrivals: seq<Arrival>, a: Arrival, first: nat, at: seq<nat>, c: Channel, command: byte, total: nat)
    requires InOrder(arrivals, first, at, c, command, total)
    ensures InOrder(arrivals + [a], first, at, c, command, total)
    ensures Whole(arrivals + [a], first, at) == Whole(arrivals, first, at)
  {
    hide ChannelOf, Number, Carried;
    CarriedStays(arrivals, a, at);
    var more := arrivals + [a];
    assert more[first] == arrivals[first];
    forall i | 0 <= i < |at|
      ensures more[at[i]] == arrivals[at[i]]
    {
      assert Own(arrivals, at[i], c);
    }
  }

  lemma SpelledStays(arrivals: seq<Arrival>, a: Arrival, first: nat, at: seq<nat>, c: Channel, p: Partial)
    requires Spelled(arrivals, first, at, c, p)
    ensures Spelled(arrivals + [a], first, at, c, p)
  {
    hide InOrder, Whole;
    InOrderMeans(arrivals, first, at, c, p.command, p.total);
    InOrderMeans(arrivals + [a], first, at, c, p.command, p.total);
    OrderStays(arrivals, a, first, at, c, p.command, p.total);
  }

  lemma InOrderMeans(arrivals: seq<Arrival>, first: nat, at: seq<nat>, c: Channel, command: byte, total: nat)
    ensures InOrder(arrivals, first, at, c, command, total) ==>
              && first < |arrivals| && |arrivals[first].report| >= 7
              && forall i :: 0 <= i < |at| ==> at[i] < |arrivals| && |arrivals[at[i]].report| >= 5
  {
    hide ChannelOf, Number;
  }

  lemma FirstSpells(arrivals: seq<Arrival>, a: Arrival, c: Channel)
    requires |a.report| >= 7 && ChannelOf(a.report) == c && a.report[4] >= 0x80
    requires a.report[4] == INIT || !Refused(a)
    ensures var total := Number(a.report[5..7]);
            Spelled(arrivals + [a], |arrivals|, [], c,
                    Partial(a.report[4], total, a.report[7..Min(|a.report|, 7 + total)], 0))
  {
    hide ChannelOf, Number, Refused;
    var whole := a.report[7..];
    assert whole + [] == whole;
  }

  lemma NextInOrder(arrivals: seq<Arrival>, a: Arrival, first: nat, at: seq<nat>, c: Channel, command: byte, total: nat)
    requires InOrder(arrivals, first, at, c, command, total)
    requires |a.report| >= 5 && ChannelOf(a.report) == c && a.report[4] == |at|
    ensures InOrder(arrivals + [a], first, at + [|arrivals|], c, command, total)
  {
    OrderStays(arrivals, a, first, at, c, command, total);
    hide ChannelOf, Number, Refused;
    var more, longer := arrivals + [a], at + [|arrivals|];
    assert more[|arrivals|] == a;
    forall i | 0 <= i < |longer|
      ensures Own(more, longer[i], c) && first < longer[i] && more[longer[i]].report[4] == i
    {
      if i < |at| {
        assert longer[i] == at[i] && Own(more, at[i], c);
      }
    }
    forall i, j | 0 <= i < j < |longer|
      ensures longer[i] < longer[j]
    {
      assert Own(arrivals, at[i], c);
    }
  }

  lemma WholeGrows(arrivals: seq<Arrival>, a: Arrival, first: nat, at: seq<nat>)
    requires first < |arrivals| && |arrivals[first].report| >= 7 && |a.report| >= 5
    requires forall i :: 0 <= i < |at| ==> at[i] < |arrivals| && |arrivals[at[i]].report| >= 5
    ensures var more, longer := arrivals + [a], at + [|arrivals|];
            && (forall i :: 0 <= i < |longer| ==> longer[i] < |more| && |more[longer[i]].report| >= 5)
            && Whole(more, first, longer) == Whole(arrivals, first, at) + a.report[5..]
  {
    var more, longer := arrivals + [a], at + [|arrivals|];
    assert longer[..|longer| - 1] == at && more[|arrivals|] == a;
    CarriedStays(arrivals, a, at);
    assert Carried(more, longer) == Carried(arrivals, at) + a.report[5..];
    hide Carried;
  }

  lemma NextSpells(arrivals: seq<Arrival>, a: Arrival, first: nat, at: seq<nat>, c: Channel, p: Partial)
    requires Open(p) && Spelled(arrivals, first, at, c, p)
    requires |a.report| >= 5 && ChannelOf(a.report) == c && a.report[4] == p.next < 0x80
    ensures var count := Min(p.total - |p.data|, |a.report| - 5);
            Spelled(arrivals + [a], first, at + [|arrivals|], c,
                    p.(data := p.data + a.report[5..5 + count], next := (p.next + 1) % 256))
  {
    InOrderMeans(arrivals, first, at, c, p.command, p.total);
    NextInOrder(arrivals, a, first, at, c, p.command, p.total);
    WholeGrows(arrivals, a, first, at);
    hide InOrder, Whole, ChannelOf;
    var was := Whole(arrivals, first, at);
    assert p.data == was;
  }

  ghost predicate Spells(arrivals: seq<Arrival>, c: Channel, p: Partial) {
    exists first: nat, at: seq<nat> :: Spelled(arrivals, first, at, c, p)
  }

  /** One report: what is stored and what is completed on its channel is spelled. */
  lemma FeedingSpells(arrivals: seq<Arrival>, a: Arrival, c: Channel, p: Option<Partial>)
    requires |a.report| >= 5 && ChannelOf(a.report) == c
    requires p.Some? ==> Open(p.value) && Spells(arrivals, c, p.value)
    ensures var fed := Feed(p, Refused(a), a.report);
            && (fed.partial.Some? ==> Spells(arrivals + [a], c, fed.partial.value))
            && (fed.message.Some? ==> Spells(arrivals + [a], c, fed.message.value))
  {
    hide ChannelOf, Number, Refused, Spelled;
    if p.Some? {
      var first: nat, at :| Spelled(arrivals, first, at, c, p.value);
      SpelledStays(arrivals, a, first, at, c, p.value);
      if a.report[4] == p.value.next && a.report[4] < 0x80 {
        NextSpells(arrivals, a, first, at, c, p.value);
      }
    }
    if a.report[4] >= 0x80 && |a.report| >= 7 && (a.report[4] == INIT || !Refused(a)) {
      FirstSpells(arrivals, a, c);
    }
  }

  ghost predicate AllSpelled(partials: map<Channel, Partial>, arrivals: seq<Arrival>) {
    forall c <- partials :: Spells(arrivals, c, partials[c])
  }

  lemma SpellsStays(arrivals: seq<Arrival>, a: Arrival, c: Channel, p: Partial)
    requires Spells(arrivals, c, p)
    ensures Spells(arrivals + [a], c, p)
  {
    hide Spelled;
    var first: nat, at :| Spelled(arrivals, first, at, c, p);
    SpelledStays(arrivals, a, first, at, c, p);
  }

  lemma ReceivingSpells(partials: map<Channel, Partial>, arrivals: seq<Arrival>, a: Arrival)
    requires AllOpen(partials) && AllSpelled(partials, arrivals)
    ensures var (after, message) := Receive(partials, a);
            && AllSpelled(after, arrivals + [a])
            && (message.Some? ==>
                  exists p: Partial :: p.command == message.value.command && p.data == message.value.data
                                       && |p.data| == p.total && Spells(arrivals + [a], message.value.channel, p))
  {
    hide ChannelOf, Feed, Refused, Spells;
    forall c | c in partials
      ensures Spells(arrivals + [a], c, partials[c])
    {
      SpellsStays(arrivals, a, c, partials[c]);
    }
    if |a.report| >= 5 {
      var c := ChannelOf(a.report);
      FeedingSpells(arrivals, a, c, Lookup(partials, c));
    }
  }

  /** These reports of the message's own channel, in this order, carry the message. */
  predicate SpeltBy(arrivals: seq<Arrival>, first: nat, at: seq<nat>, m: Message) {
    InOrder(arrivals, first, at, m.channel, m.command, |m.data|) && m.data <= Whole(arrivals, first, at)
  }

  ghost predicate SpeltOut(arrivals: seq<Arrival>, m: Message) {
    exists first: nat, at: seq<nat> :: SpeltBy(arrivals, first, at, m)
  }

  lemma SpelledOut(arrivals: seq<Arrival>, m: Message, p: Partial)
    requires Spells(arrivals, m.channel, p) && p.command == m.command && p.data == m.data && |p.data| == p.total
    ensures SpeltOut(arrivals, m)
  {
    var first: nat, at :| Spelled(arrivals, first, at, m.channel, p);
    hide InOrder, Whole;
    assert SpeltBy(arrivals, first, at, m);
  }

  lemma SpeltOutStays(arrivals: seq<Arrival>, a: Arrival, m: Message)
    requires SpeltOut(arrivals, m)
    ensures SpeltOut(arrivals + [a], m)
  {
    var first: nat, at :| SpeltBy(arrivals, first, at, m);
    hide InOrder, Whole;
    InOrderMeans(arrivals + [a], first, at, m.channel, m.command, |m.data|);
    OrderStays(arrivals, a, first, at, m.channel, m.command, |m.data|);
    assert SpeltBy(arrivals + [a], first, at, m);
  }

  /**
   * Whatever reports arrive, on whatever channels and whatever the slot holds meanwhile: every message
   * that is completed is spelled out by reports of its own channel, numbered without a gap.
   */
  lemma {:induction false} MessagesAreSpelledOut(arrivals: seq<Arrival>)
    ensures AllSpelled(EndToEnd.PartialsAfter(map[], arrivals), arrivals)
    ensures forall m <- EndToEnd.FromHost(arrivals) :: SpeltOut(arrivals, m)
    decreases |arrivals|
  {
    hide Receive, SpeltOut, Spells;
    if arrivals != [] {
      var before, a := arrivals[..|arrivals| - 1], arrivals[|arrivals| - 1];
      assert arrivals == before + [a];
      MessagesAreSpelledOut(before);
      var partials := EndToEnd.PartialsAfter(map[], before);
      EndToEnd.ReceiveAllSnoc(map[], before, a);
      ReceivingSpells(partials, before, a);
      var message := Receive(partials, a).1;
      forall m | m in EndToEnd.FromHost(arrivals)
        ensures SpeltOut(arrivals, m)
      {
        if m in EndToEnd.FromHost(before) {
          SpeltOutStays(before, a, m);
        } else {
          assert message == Some(m);
          var p: Partial :| p.command == m.command && p.data == m.data && |p.data| == p.total
                            && Spells(arrivals, m.channel, p);
          SpelledOut(arrivals, m, p);
        }
      }
    }
  }

  /** In every run on bytes with fewer than 2^32 messages, each request is spelled out by the host's own reports. */
  lemma RequestsAreSpelledOut(steps: seq<EndToEnd.Step>, n: nat)
    requires |EndToEnd.FromHost(EndToEnd.DoAll(EndToEnd.BEGIN, steps).arrivals)| < 0x1_0000_0000
    requires n in EndToEnd.DoAll(EndToEnd.BEGIN, steps).core.requests
    ensures var m := EndToEnd.DoAll(EndToEnd.BEGIN, steps);
            SpeltOut(m.arrivals, Message(m.core.requests[n].channel, CBOR, m.core.requests[n].data))
  {
    hide EndToEnd.DoAll, EndToEnd.FromHost, SpeltOut;
    EndToEnd.TheBeginning();
    EndToEnd.AlwaysSourced(EndToEnd.BEGIN, steps);
    MessagesAreSpelledOut(EndToEnd.DoAll(EndToEnd.BEGIN, steps).arrivals);
  }
}
