/**
 * CTAPHID framing as the daemon speaks it to the kernel (section 8.1.4 of CTAP 2.0):
 * cutting a message into reports, putting reports back together per channel, and
 * the single slot for the request in progress.
 */
module CtapHid {
  import opened Bytes

  const PING_CMD: byte := 0x81
  const INIT: byte := 0x86
  const WINK: byte := 0x88
  const CBOR: byte := 0x90
  const CANCEL_CMD: byte := 0x91
  const ERROR: byte := 0xbf
  const ERR_INVALID_CMD: byte := 0x01
  const ERR_INVALID_LEN: byte := 0x03
  const ERR_INVALID_SEQ: byte := 0x04
  const ERR_CHANNEL_BUSY: byte := 0x06
  const ERR_INVALID_CHANNEL: byte := 0x0b
  const CTAP2_ERR_OTHER: byte := 0x7f
  const REPORT := 64
  const FIRST := 57
  const NEXT := 59
  const MAX_MESSAGE := 7609

  type Channel = Word
  const BROADCAST: Channel := 0xffff_ffff

  datatype Message = Message(channel: Channel, command: byte, data: seq<byte>)

  // ---- Cutting a message ----------------------------------------------------------

  /** The continuation packets for `rest`, the first of them numbered `sequence`. */
  function Continuations(channel: Channel, rest: seq<byte>, sequence: byte): seq<seq<byte>>
    decreases |rest|
  {
    if rest == [] then [] else
      var count := Min(|rest|, NEXT);
      [BigEndian(channel, 4) + [sequence] + rest[..count]]
      + Continuations(channel, rest[count..], (sequence + 1) % 256)
  }

  function FirstPacket(channel: Channel, command: byte, data: seq<byte>): seq<byte> {
    BigEndian(channel, 4) + [command] + BigEndian(|data| % 0x1_0000, 2) + data[..Min(|data|, FIRST)]
  }

  function Packets(channel: Channel, command: byte, data: seq<byte>): seq<seq<byte>> {
    [FirstPacket(channel, command, data)] + Continuations(channel, data[Min(|data|, FIRST)..], 0)
  }

  /** A report as the kernel carries it: 64 bytes, zero-filled. */
  function Padded(packet: seq<byte>): (report: seq<byte>)
    ensures |report| == REPORT
    ensures |packet| <= REPORT ==> packet <= report
  {
    var kept := packet[..Min(|packet|, REPORT)];
    kept + seq(REPORT - |kept|, _ => 0)
  }

  function PaddedAll(packets: seq<seq<byte>>): (reports: seq<seq<byte>>)
    ensures |reports| == |packets|
    ensures forall i :: 0 <= i < |packets| ==> reports[i] == Padded(packets[i])
  {
    seq(|packets|, i requires 0 <= i < |packets| => Padded(packets[i]))
  }

  lemma PaddedAllConcat(a: seq<seq<byte>>, b: seq<seq<byte>>)
    ensures PaddedAll(a + b) == PaddedAll(a) + PaddedAll(b)
  {
  }

  lemma {:induction false} ContinuationAt(channel: Channel, rest: seq<byte>, sequence: byte, i: nat)
    requires i < |Continuations(channel, rest, sequence)|
    ensures |Continuations(channel, rest, sequence)[i]| >= 5
    ensures Continuations(channel, rest, sequence)[i][4] == (sequence + i) % 256
    decreases i
  {
    hide BigEndian;
    var count := Min(|rest|, NEXT);
    var later := Continuations(channel, rest[count..], (sequence + 1) % 256);
    assert Continuations(channel, rest, sequence) == [BigEndian(channel, 4) + [sequence] + rest[..count]] + later;
    if i > 0 {
      ContinuationAt(channel, rest[count..], (sequence + 1) % 256, i - 1);
      NextModulo(sequence, i);
    }
  }

  lemma NextModulo(sequence: byte, i: nat)
    requires i > 0
    ensures ((sequence + 1) % 256 + (i - 1)) % 256 == (sequence + i) % 256
  {
  }

  lemma {:induction false} ContinuationCount(channel: Channel, rest: seq<byte>, sequence: byte)
    ensures |Continuations(channel, rest, sequence)| == (|rest| + NEXT - 1) / NEXT
    decreases |rest|
  {
    if rest != [] {
      ContinuationCount(channel, rest[Min(|rest|, NEXT)..], (sequence + 1) % 256);
    }
  }

  /**
   * 7609 = 57 + 128 * 59 is exactly the length up to which every continuation packet keeps
   * bit 7 of its sequence byte clear, that is, cannot be mistaken for a first packet.
   */
  lemma SequenceBytesStayLow(channel: Channel, command: byte, data: seq<byte>)
    ensures (forall i :: 0 < i < |Packets(channel, command, data)| ==>
                |Packets(channel, command, data)[i]| >= 5 && Packets(channel, command, data)[i][4] < 0x80)
            <==> |data| <= MAX_MESSAGE
  {
    var rest := data[Min(|data|, FIRST)..];
    var tail := Continuations(channel, rest, 0);
    ContinuationCount(channel, rest, 0);
    forall i | 0 <= i < |tail|
      ensures |tail[i]| >= 5 && tail[i][4] == i % 256
    {
      ContinuationAt(channel, rest, 0, i);
    }
    if |data| > MAX_MESSAGE {
      assert Packets(channel, command, data)[129] == tail[128];
    }
  }

  // ---- Putting reports together, one channel ---------------------------------------

  datatype Partial = Partial(command: byte, total: nat, data: seq<byte>, next: byte)

  /** What every stored partial message satisfies, whatever packets arrive. */
  predicate Open(p: Partial) {
    |p.data| < p.total <= MAX_MESSAGE && p.next <= 128
  }

  datatype Fed = Fed(partial: Option<Partial>, error: Option<byte>, message: Option<Partial>)

  function Settle(p: Partial): Fed {
    if |p.data| >= p.total then Fed(None, None, Some(p)) else Fed(Some(p), None, None)
  }

  /** One report of at least five bytes on a channel whose stored partial message is `p`. */
  function Feed(p: Option<Partial>, refused: bool, r: seq<byte>): (fed: Fed)
    requires |r| >= 5
    requires p.Some? ==> Open(p.value)
    ensures fed.partial.Some? ==> Open(fed.partial.value)
    ensures fed.message.Some? ==> |fed.message.value.data| == fed.message.value.total <= MAX_MESSAGE
    ensures fed.message.Some? ==> fed.partial.None? && fed.error.None?
  {
    if r[4] >= 0x80 then
      if |r| < 7 then Fed(p, None, None) else
        var total := Number(r[5..7]);
        if total > MAX_MESSAGE then Fed(p, Some(ERR_INVALID_LEN), None)
        else if r[4] == CANCEL_CMD then Fed(p, None, None)
        else if r[4] != INIT && refused then Fed(p, Some(ERR_CHANNEL_BUSY), None)
        else Settle(Partial(r[4], total, r[7..Min(|r|, 7 + total)], 0))
    else if p.None? then Fed(None, None, None)
    else if r[4] != p.value.next then Fed(None, Some(ERR_INVALID_SEQ), None)
    else
      var count := Min(p.value.total - |p.value.data|, |r| - 5);
      Settle(p.value.(data := p.value.data + r[5..5 + count], next := (p.value.next + 1) % 256))
  }

  /** `r` is packet `p`, possibly zero-filled or otherwise padded up to 64 bytes. */
  predicate Carries(r: seq<byte>, p: seq<byte>) {
    p <= r && |r| <= REPORT
  }

  datatype Arrival = Arrival(report: seq<byte>, busy: Option<Channel>)

  function ChannelOf(r: seq<byte>): (c: Channel)
    requires |r| >= 4
  {
    BigEndianOfNumber(r[..4]);
    Pow256Values();
    Number(r[..4])
  }

  predicate Refused(a: Arrival)
    requires |a.report| >= 5
  {
    a.busy.Some? && a.busy.value != ChannelOf(a.report)
  }

  predicate Readable(arrivals: seq<Arrival>) {
    forall a <- arrivals :: |a.report| >= 5
  }

  /** The messages completed by a run of reports that all name one channel. */
  function FeedAll(p: Option<Partial>, arrivals: seq<Arrival>): seq<Partial>
    requires Readable(arrivals)
    requires p.Some? ==> Open(p.value)
    decreases |arrivals|
  {
    if arrivals == [] then [] else
      var fed := Feed(p, Refused(arrivals[0]), arrivals[0].report);
      (if fed.message.Some? then [fed.message.value] else []) + FeedAll(fed.partial, arrivals[1..])
  }

  lemma ChannelOfPacket(channel: Channel, tail: seq<byte>, r: seq<byte>)
    requires BigEndian(channel, 4) + tail <= r
    ensures |r| >= 4 && ChannelOf(r) == channel
  {
    Pow256Values();
    NumberOfBigEndian(channel, 4);
    assert r[..4] == BigEndian(channel, 4);
  }

  /** One continuation packet of 5 + `count` bytes moves `count` bytes into the partial message. */
  lemma FeedOne(p: Partial, chunk: seq<byte>, channel: Channel, r: seq<byte>)
    requires Open(p) && p.next < 128
    requires |chunk| == Min(p.total - |p.data|, NEXT)
    requires Carries(r, BigEndian(channel, 4) + [p.next] + chunk)
    ensures |r| >= 5
    ensures Feed(Some(p), false, r) == Feed(Some(p), true, r)
            == Settle(p.(data := p.data + chunk, next := (p.next + 1) % 256))
  {
    hide BigEndian;
    var packet := BigEndian(channel, 4) + [p.next] + chunk;
    assert r[4] == packet[4] == p.next;
    assert r[5..5 + |chunk|] == packet[5..5 + |chunk|] == chunk;
  }

  lemma CarriesTail(arrivals: seq<Arrival>, packets: seq<seq<byte>>)
    requires |arrivals| == |packets| > 0
    requires forall i :: 0 <= i < |arrivals| ==> Carries(arrivals[i].report, packets[i])
    ensures forall i :: 0 <= i < |arrivals[1..]| ==> Carries(arrivals[1..][i].report, packets[1..][i])
  {
    hide Carries;
  }

  /** Once a partial message waits for `rest`, the continuation packets of `rest` complete it. */
  lemma {:induction false} FeedContinuations(p: Partial, rest: seq<byte>, channel: Channel, arrivals: seq<Arrival>)
    requires Open(p) && rest != [] && |p.data| + |rest| == p.total
    requires |rest| <= (128 - p.next) * NEXT
    requires |arrivals| == |Continuations(channel, rest, p.next)|
    requires forall i :: 0 <= i < |arrivals| ==>
               Carries(arrivals[i].report, Continuations(channel, rest, p.next)[i])
    requires Readable(arrivals)
    ensures |FeedAll(Some(p), arrivals)| == 1
    ensures FeedAll(Some(p), arrivals)[0].command == p.command
    ensures FeedAll(Some(p), arrivals)[0].data == p.data + rest
    decreases |rest|
  {
    hide BigEndian, Carries, Refused, Feed;
    var count := Min(|rest|, NEXT);
    var packets := Continuations(channel, rest, p.next);
    assert packets[0] == BigEndian(channel, 4) + [p.next] + rest[..count];
    assert packets[1..] == Continuations(channel, rest[count..], (p.next + 1) % 256);
    FeedOne(p, rest[..count], channel, arrivals[0].report);
    CarriesTail(arrivals, packets);
    var q := p.(data := p.data + rest[..count], next := (p.next + 1) % 256);
    assert p.data + rest == q.data + rest[count..];
    if count == |rest| {
      assert rest[count..] == [];
      assert arrivals[1..] == [];
    } else {
      FeedContinuations(q, rest[count..], channel, arrivals[1..]);
    }
  }

  /** Reassembly undoes fragmentation on one channel, whatever partial message was stored before. */
  lemma FeedPackets(p: Option<Partial>, m: Message, arrivals: seq<Arrival>)
    requires p.Some? ==> Open(p.value)
    requires m.command >= 0x80 && m.command != CANCEL_CMD && |m.data| <= MAX_MESSAGE
    requires |arrivals| == |Packets(m.channel, m.command, m.data)|
    requires forall i :: 0 <= i < |arrivals| ==>
               Carries(arrivals[i].report, Packets(m.channel, m.command, m.data)[i])
    requires Readable(arrivals)
    requires m.command == INIT || !Refused(arrivals[0])
    ensures |FeedAll(p, arrivals)| == 1
    ensures FeedAll(p, arrivals)[0].command == m.command && FeedAll(p, arrivals)[0].data == m.data
  {
    hide BigEndian, Number, Carries, Refused, Continuations;
    var packets := Packets(m.channel, m.command, m.data);
    var head := Min(|m.data|, FIRST);
    FirstPacketIsRead(m, arrivals[0].report);
    assert packets[1..] == Continuations(m.channel, m.data[head..], 0);
    assert m.data == m.data[..head] + m.data[head..];
    CarriesTail(arrivals, packets);
    var begun := Partial(m.command, |m.data|, m.data[..head], 0);
    if head == |m.data| {
      assert arrivals[1..] == [] by {
        NoContinuations(m.channel, m.data[head..]);
      }
    } else {
      FeedContinuations(begun, m.data[head..], m.channel, arrivals[1..]);
    }
  }

  lemma NoContinuations(channel: Channel, rest: seq<byte>)
    ensures rest == [] ==> Continuations(channel, rest, 0) == []
  {
  }

  /** What a report carrying the first packet says: command, length and the first bytes. */
  lemma FirstPacketIsRead(m: Message, r: seq<byte>)
    requires |m.data| <= MAX_MESSAGE && Carries(r, FirstPacket(m.channel, m.command, m.data))
    ensures var head := Min(|m.data|, FIRST);
            && |r| >= 7 && r[4] == m.command && Number(r[5..7]) == |m.data|
            && r[7..Min(|r|, 7 + |m.data|)] == m.data[..head]
  {
    hide BigEndian, Number;
    var head, length := Min(|m.data|, FIRST), BigEndian(|m.data|, 2);
    var packet := FirstPacket(m.channel, m.command, m.data);
    assert |m.data| % 0x1_0000 == |m.data|;
    assert packet[4] == m.command && packet[5..7] == length && packet[7..] == m.data[..head];
    assert |packet| == 7 + head && r[..|packet|] == packet;
    assert r[5..7] == packet[5..7] && r[7..7 + head] == packet[7..];
    Pow256Values();
    NumberOfBigEndian(|m.data|, 2);
  }

  // ---- All channels together ---------------------------------------------------------

  predicate AllOpen(partials: map<Channel, Partial>) {
    forall c <- partials :: Open(partials[c])
  }

  function Lookup(partials: map<Channel, Partial>, c: Channel): Option<Partial> {
    if c in partials then Some(partials[c]) else None
  }

  function Store(partials: map<Channel, Partial>, c: Channel, p: Option<Partial>): map<Channel, Partial> {
    if p.Some? then partials[c := p.value] else partials - {c}
  }

  /** The stored partial messages after a report, and the message the report completed. */
  function Receive(partials: map<Channel, Partial>, a: Arrival): (result: (map<Channel, Partial>, Option<Message>))
    requires AllOpen(partials)
    ensures AllOpen(result.0)
    ensures result.1.Some? ==> |result.1.value.data| <= MAX_MESSAGE
  {
    if |a.report| < 5 then (partials, None) else
      var c := ChannelOf(a.report);
      var fed := Feed(Lookup(partials, c), Refused(a), a.report);
      (Store(partials, c, fed.partial),
       if fed.message.Some? then Some(Message(c, fed.message.value.command, fed.message.value.data)) else None)
  }

  function ReceiveAll(partials: map<Channel, Partial>, arrivals: seq<Arrival>): seq<Message>
    requires AllOpen(partials)
    decreases |arrivals|
  {
    if arrivals == [] then [] else
      var (rest, message) := Receive(partials, arrivals[0]);
      (if message.Some? then [message.value] else []) + ReceiveAll(rest, arrivals[1..])
  }

  /** The arrivals that `packet` reads as reports of channel `c`, in order. */
  function OnChannel(arrivals: seq<Arrival>, c: Channel): (own: seq<Arrival>)
    ensures Readable(own)
  {
    if arrivals == [] then []
    else if |arrivals[0].report| >= 5 && ChannelOf(arrivals[0].report) == c then
      [arrivals[0]] + OnChannel(arrivals[1..], c)
    else OnChannel(arrivals[1..], c)
  }

  function ForChannel(messages: seq<Message>, c: Channel): seq<Message> {
    if messages == [] then []
    else (if messages[0].channel == c then [messages[0]] else []) + ForChannel(messages[1..], c)
  }

  function Named(c: Channel, done: seq<Partial>): seq<Message> {
    if done == [] then [] else [Message(c, done[0].command, done[0].data)] + Named(c, done[1..])
  }

  /** Channels do not influence one another: what a channel completes depends on its own reports only. */
  lemma {:induction false} ChannelsAreIndependent(partials: map<Channel, Partial>, arrivals: seq<Arrival>, c: Channel)
    requires AllOpen(partials)
    ensures ForChannel(ReceiveAll(partials, arrivals), c)
            == Named(c, FeedAll(Lookup(partials, c), OnChannel(arrivals, c)))
    decreases |arrivals|
  {
    hide Feed, ChannelOf, Refused;
    if arrivals != [] {
      var (rest, message) := Receive(partials, arrivals[0]);
      var later := ReceiveAll(rest, arrivals[1..]);
      ChannelsAreIndependent(rest, arrivals[1..], c);
      if message.Some? {
        assert ([message.value] + later)[1..] == later;
      } else {
        assert [] + later == later;
      }
      var own := OnChannel(arrivals, c);
      if |arrivals[0].report| >= 5 && ChannelOf(arrivals[0].report) == c {
        assert own[1..] == OnChannel(arrivals[1..], c);
        var fed := Feed(Lookup(partials, c), Refused(own[0]), own[0].report);
        assert Lookup(rest, c) == fed.partial;
        var next := FeedAll(fed.partial, own[1..]);
        if fed.message.Some? {
          assert ([fed.message.value] + next)[1..] == next;
        } else {
          assert [] + next == next;
        }
      } else {
        assert Lookup(rest, c) == Lookup(partials, c);
      }
    }
  }

  /**
   * A message cut as `Packets` cuts it, its packets mixed in any way with reports of other
   * channels and with any changes of the busy slot, is dispatched exactly once, unchanged,
   * unless its first packet meets another channel's request.
   */
  lemma ReassemblyUndoesFragmentation(partials: map<Channel, Partial>, arrivals: seq<Arrival>, m: Message)
    requires AllOpen(partials)
    requires m.command >= 0x80 && m.command != CANCEL_CMD && |m.data| <= MAX_MESSAGE
    requires var own := OnChannel(arrivals, m.channel);
             && |own| == |Packets(m.channel, m.command, m.data)|
             && (forall i :: 0 <= i < |own| ==> Carries(own[i].report, Packets(m.channel, m.command, m.data)[i]))
             && (m.command == INIT || !Refused(own[0]))
    ensures ForChannel(ReceiveAll(partials, arrivals), m.channel) == [m]
  {
    var own := OnChannel(arrivals, m.channel);
    ChannelsAreIndependent(partials, arrivals, m.channel);
    FeedPackets(Lookup(partials, m.channel), m, own);
    var done := FeedAll(Lookup(partials, m.channel), own);
    assert done == [done[0]];
    assert Named(m.channel, done[1..]) == [];
  }

  // ---- Interleavings ------------------------------------------------------------------

  /** A report that is not read, or that is another channel's. */
  predicate Foreign(a: Arrival, c: Channel) {
    |a.report| < 5 || ChannelOf(a.report) != c
  }

  /** The packets arrive in order, padded, at these positions; everything in between is foreign. */
  predicate Interleaved(arrivals: seq<Arrival>, packets: seq<seq<byte>>, c: Channel, at: seq<nat>) {
    && |at| == |packets|
    && (forall i :: 0 <= i < |at| ==> at[i] < |arrivals| && Carries(arrivals[at[i]].report, packets[i]))
    && (forall i, j :: 0 <= i < j < |at| ==> at[i] < at[j])
    && (forall k :: 0 <= k < |arrivals| && k !in at ==> Foreign(arrivals[k], c))
  }

  lemma {:induction false} OnChannelConcat(a: seq<Arrival>, b: seq<Arrival>, c: Channel)
    ensures OnChannel(a + b, c) == OnChannel(a, c) + OnChannel(b, c)
  {
    hide ChannelOf;
    if a == [] {
      assert a + b == b;
    } else {
      assert (a + b)[1..] == a[1..] + b;
      OnChannelConcat(a[1..], b, c);
    }
  }

  lemma {:induction false} ForeignersAreSkipped(arrivals: seq<Arrival>, c: Channel)
    requires forall k :: 0 <= k < |arrivals| ==> Foreign(arrivals[k], c)
    ensures OnChannel(arrivals, c) == []
  {
    hide ChannelOf;
    if arrivals != [] {
      assert Foreign(arrivals[0], c);
      assert forall k :: 0 <= k < |arrivals[1..]| ==> arrivals[1..][k] == arrivals[k + 1];
      ForeignersAreSkipped(arrivals[1..], c);
    }
  }

  /** Among all arrivals, exactly the interleaved packets are read on their channel. */
  lemma {:induction false} InterleavedAreOnChannel(
      arrivals: seq<Arrival>, packets: seq<seq<byte>>, c: Channel, at: seq<nat>)
    requires Interleaved(arrivals, packets, c, at)
    requires forall i :: 0 <= i < |packets| ==> |packets[i]| >= 5 && packets[i][..4] == BigEndian(c, 4)
    ensures |OnChannel(arrivals, c)| == |at|
    ensures forall i :: 0 <= i < |at| ==> OnChannel(arrivals, c)[i] == arrivals[at[i]]
  {
    hide ChannelOf, BigEndian;
    if at == [] {
      ForeignersAreSkipped(arrivals, c);
    } else {
      var n := |at| - 1;
      var p := at[n];
      var before, after := arrivals[..p], arrivals[p + 1..];
      assert arrivals == before + [arrivals[p]] + after;
      OnChannelConcat(before + [arrivals[p]], after, c);
      OnChannelConcat(before, [arrivals[p]], c);
      EarlierAreInterleaved(arrivals, packets, c, at);
      InterleavedAreOnChannel(before, packets[..n], c, at[..n]);
      LaterAreForeign(arrivals, packets, c, at);
      ForeignersAreSkipped(after, c);
      CarriedChannel(arrivals[p].report, packets[n], c);
      assert [arrivals[p]][1..] == [];
      assert OnChannel([arrivals[p]], c) == [arrivals[p]];
    }
  }

  lemma EarlierAreInterleaved(arrivals: seq<Arrival>, packets: seq<seq<byte>>, c: Channel, at: seq<nat>)
    requires Interleaved(arrivals, packets, c, at) && at != []
    ensures var n := |at| - 1; Interleaved(arrivals[..at[n]], packets[..n], c, at[..n])
  {
    hide Foreign, Carries;
    var n := |at| - 1;
    forall k | 0 <= k < at[n] && k !in at[..n]
      ensures Foreign(arrivals[..at[n]][k], c)
    {
      assert k !in at by {
        assert at == at[..n] + [at[n]];
      }
    }
  }

  lemma LaterAreForeign(arrivals: seq<Arrival>, packets: seq<seq<byte>>, c: Channel, at: seq<nat>)
    requires Interleaved(arrivals, packets, c, at) && at != []
    ensures var after := arrivals[at[|at| - 1] + 1..]; forall k :: 0 <= k < |after| ==> Foreign(after[k], c)
  {
    hide Foreign, Carries;
    var p := at[|at| - 1];
    var after := arrivals[p + 1..];
    forall k | 0 <= k < |after|
      ensures Foreign(after[k], c)
    {
      assert forall i :: 0 <= i < |at| ==> at[i] != p + 1 + k;
      assert after[k] == arrivals[p + 1 + k];
    }
  }

  lemma CarriedChannel(r: seq<byte>, packet: seq<byte>, c: Channel)
    requires Carries(r, packet) && |packet| >= 5 && packet[..4] == BigEndian(c, 4)
    ensures |r| >= 5 && ChannelOf(r) == c
  {
    hide BigEndian;
    assert packet == BigEndian(c, 4) + packet[4..];
    ChannelOfPacket(c, packet[4..], r);
  }

  lemma {:induction false} ContinuationsNameTheChannel(c: Channel, rest: seq<byte>, sequence: byte)
    ensures forall i :: 0 <= i < |Continuations(c, rest, sequence)| ==>
              |Continuations(c, rest, sequence)[i]| >= 5 && Continuations(c, rest, sequence)[i][..4] == BigEndian(c, 4)
    decreases |rest|
  {
    hide BigEndian;
    if rest != [] {
      ContinuationsNameTheChannel(c, rest[Min(|rest|, NEXT)..], (sequence + 1) % 256);
    }
  }

  /**
   * A message cut as `reply` cuts it arrives with its padded packets at increasing positions among
   * any reports of other channels: it is dispatched exactly once, unchanged, unless its first packet
   * meets another channel's request.
   */
  lemma InterleavedMessagesAreReassembled(
      partials: map<Channel, Partial>, arrivals: seq<Arrival>, m: Message, at: seq<nat>)
    requires AllOpen(partials)
    requires m.command >= 0x80 && m.command != CANCEL_CMD && |m.data| <= MAX_MESSAGE
    requires Interleaved(arrivals, Packets(m.channel, m.command, m.data), m.channel, at)
    requires m.command == INIT || !Refused(arrivals[at[0]])
    ensures ForChannel(ReceiveAll(partials, arrivals), m.channel) == [m]
  {
    hide BigEndian, Feed, Refused;
    ContinuationsNameTheChannel(m.channel, m.data[Min(|m.data|, FIRST)..], 0);
    InterleavedAreOnChannel(arrivals, Packets(m.channel, m.command, m.data), m.channel, at);
    ReassemblyUndoesFragmentation(partials, arrivals, m);
  }
}
