/**
 * The daemon as it runs: the packet reader, the slot for the request in progress, and the handler
 * that asks the phones. What other threads do between a handler's lock sections is given by a
 * `World` (which sends succeed, what each poll finds); their interleavings are in `Protocol`.
 */
module Daemon {
  import opened Bytes
  import opened CtapHid
  import opened Framing
  import opened Rounds
  import Probe

  const KEEPALIVE: byte := 0xbb

  class Request {
    const channel: Channel
    const number: Word
    var pending: seq<Link>

    constructor (channel: Channel, number: Word)
      ensures this.channel == channel && this.number == number && pending == []
    {
      this.channel := channel;
      this.number := number;
      pending := [];
    }
  }

  /** A frame body written to a link. */
  datatype Wire = Wire(link: nat, body: seq<byte>)

  function Wires(links: seq<Link>, body: seq<byte>): (wires: seq<Wire>)
    ensures |wires| == |links|
    ensures forall i :: 0 <= i < |links| ==> wires[i] == Wire(links[i].id, body)
  {
    seq(|links|, i requires 0 <= i < |links| => Wire(links[i].id, body))
  }

  /** The file of connected devices, one per line. */
  function DeviceLines(links: seq<Link>): string {
    if links == [] then "" else links[0].device + "\t" + links[0].caption + "\n" + DeviceLines(links[1..])
  }

  /** What a message other than a well-formed INIT is answered with at once; None starts a request. */
  function AnswerAtOnce(m: Message, anyLink: bool, free: bool): Option<(byte, seq<byte>)> {
    if m.command == INIT then Some((ERROR, [ERR_INVALID_LEN]))
    else if m.channel == 0 || m.channel == BROADCAST then Some((ERROR, [ERR_INVALID_CHANNEL]))
    else if m.command == PING_CMD then Some((PING_CMD, m.data))
    else if m.command == WINK then Some((WINK, []))
    else if m.command != CBOR then Some((ERROR, [ERR_INVALID_CMD]))
    else if m.data == [] || !anyLink then Some((CBOR, [CTAP2_ERR_OTHER]))
    else if !free then Some((ERROR, [ERR_CHANNEL_BUSY]))
    else None
  }

  /** What a message can change outside the table of partial messages. */
  datatype Desk = Desk(reports: seq<seq<byte>>, busy: Request?, next: Word, spawned: seq<(Request, seq<byte>)>)

  /** A message's effect: INIT and errors only write reports; a CBOR message may take the free slot. */
  ghost predicate Effect(m: Message, anyLink: bool, d: Desk, e: Desk) {
    if m.command == INIT && |m.data| == 8 then
      exists given: Channel ::
        && (if m.channel == BROADCAST then given != 0 && given != BROADCAST else given == m.channel)
        && e == d.(reports := d.reports + PaddedAll(Packets(m.channel, INIT, InitReply(m.data, given))))
    else
      var counted := if AnswerAtOnce(m, anyLink, true).None? then (d.next + 1) % 0x1_0000_0000 else d.next;
      match AnswerAtOnce(m, anyLink, d.busy == null)
      case Some((command, data)) =>
        e == d.(reports := d.reports + PaddedAll(Packets(m.channel, command, data)), next := counted)
      case None =>
        e.busy != null && e.busy.channel == m.channel && e.busy.number == d.next
        && e == Desk(d.reports, e.busy, counted, d.spawned + [(e.busy, m.data)])
  }

  /** What the next report finds once INIT on the channel of the request in progress emptied the slot. */
  function Cleared(d: Desk, r: seq<byte>): Desk
    requires |r| >= 5
  {
    if |r| >= 7 && r[4] == INIT && Number(r[5..7]) <= MAX_MESSAGE && d.busy != null && d.busy.channel == ChannelOf(r)
    then d.(busy := null) else d
  }

  /** The effect of one report: an error, a completed message, or nothing. */
  ghost predicate ReportEffect(r: seq<byte>, fed: Fed, anyLink: bool, d: Desk, e: Desk)
    requires |r| >= 5
  {
    var c := ChannelOf(r);
    if fed.error.Some? then e == d.(reports := d.reports + PaddedAll(Packets(c, ERROR, [fed.error.value])))
    else if fed.message.Some? then
      Effect(Message(c, fed.message.value.command, fed.message.value.data), anyLink, Cleared(d, r), e)
    else e == Cleared(d, r)
  }

  function InitReply(nonce: seq<byte>, given: Channel): seq<byte> {
    nonce + BigEndian(given, 4) + [2, 1, 0, 0, 0x0d]
  }

  /** Reports that only tell the host to keep waiting. */
  predicate Keepalives(before: seq<seq<byte>>, after: seq<seq<byte>>, channel: Channel) {
    before <= after && forall i :: |before| <= i < |after| ==> [after[i]] == PaddedAll(Packets(channel, KEEPALIVE, [2]))
  }

  function Completed(c: Channel, p: Option<Partial>): seq<Message> {
    if p.None? then [] else [Message(c, p.value.command, p.value.data)]
  }

  class Daemon {
    var partial: map<Channel, Partial>
    var busy: Request?
    var holders: set<string>
    var last: Option<string>
    var nextRequest: Word
    var nextChannel: Word
    var reports: seq<seq<byte>>
    var sent: seq<Wire>
    var spawned: seq<(Request, seq<byte>)>
    ghost var dispatched: seq<Message>

    predicate Valid()
      reads this
    {
      AllOpen(partial)
    }

    function View(): Desk
      reads this
    {
      Desk(reports, busy, nextRequest, spawned)
    }

    /** The links that a CANCEL or INIT report withdraws from. */
    function Withdrawn(r: seq<byte>): seq<Wire>
      reads this, busy
    {
      if |r| >= 7 && (r[4] == CANCEL_CMD || r[4] == INIT) && Number(r[5..7]) <= MAX_MESSAGE
         && busy != null && busy.channel == ChannelOf(r)
      then Wires(busy.pending, CancelBody(busy.number)) else []
    }

    function BusyChannel(): Option<Channel>
      reads this
    {
      if busy == null then None else Some(busy.channel)
    }

    constructor (firstChannel: Word)
      ensures Valid() && busy == null && partial == map[] && holders == {} && last == None
      ensures nextRequest == 1 && nextChannel == firstChannel
      ensures reports == [] && sent == [] && spawned == [] && dispatched == []
    {
      partial, busy, holders, last := map[], null, {}, None;
      nextRequest, nextChannel := 1, firstChannel;
      reports, sent, spawned, dispatched := [], [], [], [];
    }

    // ---- To the host ----------------------------------------------------------------------

    method SendReport(packet: seq<byte>)
      modifies this`reports
      ensures reports == old(reports) + [Padded(packet)]
    {
      reports := reports + [Padded(packet)];
    }

    /** `reply` cuts the message exactly as `Packets` says. */
    method Reply(channel: Channel, command: byte, data: seq<byte>)
      modifies this`reports
      ensures reports == old(reports) + PaddedAll(Packets(channel, command, data))
    {
      ghost var all := Packets(channel, command, data);
      var first := BigEndian(channel, 4) + [command] + BigEndian(|data| % 0x1_0000, 2) + data[..Min(|data|, FIRST)];
      SendReport(first);
      var rest := data[Min(|data|, FIRST)..];
      var sequence: byte := 0;
      ghost var cut := [first];
      while rest != []
        invariant reports == old(reports) + PaddedAll(cut)
        invariant cut + Continuations(channel, rest, sequence) == all
        decreases |rest|
      {
        var count := Min(|rest|, NEXT);
        var packet := BigEndian(channel, 4) + [sequence] + rest[..count];
        SendReport(packet);
        PaddedAllConcat(cut, [packet]);
        cut := cut + [packet];
        rest := rest[count..];
        sequence := (sequence + 1) % 256;
      }
      assert cut == all;
    }

    method Error(channel: Channel, code: byte)
      modifies this`reports
      ensures reports == old(reports) + PaddedAll(Packets(channel, ERROR, [code]))
    {
      Reply(channel, ERROR, [code]);
    }

    // ---- From the host --------------------------------------------------------------------

    /** The arrival of a report while the slot is as it is now. */
    function Arriving(r: seq<byte>): Arrival
      reads this
    {
      Arrival(r, BusyChannel())
    }

    /** One report: reassembly as `Receive`, and the completed message is dispatched. */
    method Packet(r: seq<byte>, anyLink: bool)
      requires Valid()
      modifies this
      ensures Valid()
      ensures var result := Receive(old(partial), old(Arriving(r)));
              && partial == result.0
              && dispatched == old(dispatched) + (if result.1.Some? then [result.1.value] else [])
      ensures |r| < 5 ==> View() == old(View()) && sent == old(sent)
      ensures |r| >= 5 ==>
                var fed := Feed(Lookup(old(partial), ChannelOf(r)), Refused(old(Arriving(r))), r);
                ReportEffect(r, fed, anyLink, old(View()), View()) && sent == old(sent) + old(Withdrawn(r))
      ensures holders == old(holders) && last == old(last)
    {
      if |r| >= 5 {
        if r[4] >= 0x80 {
          FirstOfMessage(r, anyLink);
        } else {
          NextOfMessage(r, anyLink);
        }
      }
    }

    method FirstOfMessage(r: seq<byte>, anyLink: bool)
      requires Valid() && |r| >= 5 && r[4] >= 0x80
      modifies this
      ensures var c := ChannelOf(r);
              var fed := Feed(Lookup(old(partial), c), Refused(old(Arriving(r))), r);
              && partial == Store(old(partial), c, fed.partial)
              && dispatched == old(dispatched) + Completed(c, fed.message)
              && ReportEffect(r, fed, anyLink, old(View()), View())
      ensures sent == old(sent) + old(Withdrawn(r))
      ensures holders == old(holders) && last == old(last)
    {
      hide Effect, Packets, PaddedAll, Wires, BigEndian, Number;
      var channel := ChannelOf(r);
      assert Store(partial, channel, Lookup(partial, channel)) == partial;
      if |r| < 7 {
        return;
      }
      var total := Number(r[5..7]);
      if total > MAX_MESSAGE {
        Error(channel, ERR_INVALID_LEN);
        return;
      }
      if r[4] == CANCEL_CMD {
        CancelRequest(Some(channel), false);
        return;
      }
      if r[4] == INIT {
        partial := partial - {channel};
        CancelRequest(Some(channel), true);
      } else if busy != null && busy.channel != channel {
        Error(channel, ERR_CHANNEL_BUSY);
        return;
      }
      var p := Partial(r[4], total, r[7..Min(|r|, 7 + total)], 0);
      partial := partial[channel := p];
      assert partial == old(partial)[channel := p] && partial - {channel} == old(partial) - {channel};
      Complete(channel, p, anyLink);
    }

    method NextOfMessage(r: seq<byte>, anyLink: bool)
      requires Valid() && |r| >= 5 && r[4] < 0x80
      modifies this
      ensures var c := ChannelOf(r);
              var fed := Feed(Lookup(old(partial), c), Refused(old(Arriving(r))), r);
              && partial == Store(old(partial), c, fed.partial)
              && dispatched == old(dispatched) + Completed(c, fed.message)
              && ReportEffect(r, fed, anyLink, old(View()), View())
      ensures sent == old(sent)
      ensures holders == old(holders) && last == old(last)
    {
      var channel := ChannelOf(r);
      if channel !in partial {
        assert partial - {channel} == partial;
        return;
      }
      var p := partial[channel];
      if r[4] != p.next {
        partial := partial - {channel};
        Error(channel, ERR_INVALID_SEQ);
        return;
      }
      var count := Min(p.total - |p.data|, |r| - 5);
      p := p.(data := p.data + r[5..5 + count], next := (p.next + 1) % 256);
      partial := partial[channel := p];
      assert partial == old(partial)[channel := p] && partial - {channel} == old(partial) - {channel};
      Complete(channel, p, anyLink);
    }

    /** A stored message that has all its bytes is taken out and dispatched. */
    method Complete(channel: Channel, p: Partial, anyLink: bool)
      requires channel in partial && partial[channel] == p
      modifies this
      ensures partial == Store(old(partial), channel, Settle(p).partial)
      ensures dispatched == old(dispatched) + Completed(channel, Settle(p).message)
      ensures match Settle(p).message
              case None => View() == old(View())
              case Some(q) => Effect(Message(channel, q.command, q.data), anyLink, old(View()), View())
      ensures sent == old(sent) && holders == old(holders) && last == old(last)
    {
      if |p.data| >= p.total {
        partial := partial - {channel};
        Dispatch(Message(channel, p.command, p.data), anyLink);
      }
    }

    /** `next_channel.fetch_add` until the number is a channel one can use. */
    method AssignChannel() returns (given: Channel)
      modifies this`nextChannel
      ensures given == if old(nextChannel) == 0 || old(nextChannel) == BROADCAST then 1 else old(nextChannel)
      ensures nextChannel == given + 1
    {
      given := nextChannel;
      nextChannel := (nextChannel + 1) % 0x1_0000_0000;
      while given == 0 || given == BROADCAST
        invariant nextChannel == (given + 1) % 0x1_0000_0000
        invariant given == old(nextChannel) || (old(nextChannel) == BROADCAST && given == 0)
                  || ((old(nextChannel) == 0 || old(nextChannel) == BROADCAST) && given == 1)
        decreases if given == BROADCAST then 2 else if given == 0 then 1 else 0
      {
        given := nextChannel;
        nextChannel := (nextChannel + 1) % 0x1_0000_0000;
      }
    }

    /** A complete message is answered at once, or takes the free slot and gets a handler. */
    method Dispatch(m: Message, anyLink: bool)
      modifies this
      ensures partial == old(partial) && sent == old(sent) && holders == old(holders) && last == old(last)
      ensures dispatched == old(dispatched) + [m]
      ensures Effect(m, anyLink, old(View()), View())
      ensures busy != old(busy) ==> old(busy) == null && fresh(busy) && busy.pending == []
    {
      dispatched := dispatched + [m];
      if m.command == INIT {
        if |m.data| != 8 {
          Error(m.channel, ERR_INVALID_LEN);
          return;
        }
        var given := m.channel;
        if m.channel == BROADCAST {
          given := AssignChannel();
        }
        Reply(m.channel, INIT, InitReply(m.data, given));
      } else if m.channel == 0 || m.channel == BROADCAST {
        Error(m.channel, ERR_INVALID_CHANNEL);
      } else if m.command == PING_CMD {
        Reply(m.channel, PING_CMD, m.data);
      } else if m.command == WINK {
        Reply(m.channel, WINK, []);
      } else if m.command != CBOR {
        Error(m.channel, ERR_INVALID_CMD);
      } else if m.data == [] || !anyLink {
        Reply(m.channel, CBOR, [CTAP2_ERR_OTHER]);
      } else {
        var request := new Request(m.channel, nextRequest);
        nextRequest := (nextRequest + 1) % 0x1_0000_0000;
        if busy != null {
          Error(m.channel, ERR_CHANNEL_BUSY);
          return;
        }
        busy := request;
        spawned := spawned + [(request, m.data)];
      }
    }

    /** CANCEL, INIT and closing: the links still pending are told, and INIT also empties the slot. */
    method CancelRequest(channel: Option<Channel>, abandon: bool)
      modifies this`busy, this`sent
      ensures busy == if abandon && old(busy) != null && channel == Some(old(busy).channel) then null else old(busy)
      ensures sent == old(sent)
                      + if old(busy) != null && (channel == None || channel == Some(old(busy).channel))
                        then Wires(old(busy.pending), CancelBody(old(busy).number)) else []
    {
      var request := busy;
      if abandon && request != null && channel == Some(request.channel) {
        busy := null;
      }
      if request != null && (channel.None? || channel.value == request.channel) {
        WithdrawFrom(request.number, request.pending);
      }
    }

    method WithdrawFrom(number: Word, links: seq<Link>)
      modifies this`sent
      ensures sent == old(sent) + Wires(links, CancelBody(number))
    {
      var message := CancelBody(number);
      var i := 0;
      while i < |links|
        invariant 0 <= i <= |links|
        invariant sent == old(sent) + Wires(links, CancelBody(number))[..i]
      {
        sent := sent + [Wire(links[i].id, message)];
        i := i + 1;
      }
    }

    predicate RequestIsCurrent(request: Request)
      reads this
    {
      busy == request
    }

    method FinishRequest(request: Request)
      modifies this`busy
      ensures busy == if old(busy) == request then null else old(busy)
    {
      if busy == request {
        busy := null;
      }
    }
  
    // ---- Asking the phones -----------------------------------------------------------------

    /** `by_device`: stable sort by priority, then the first link of each device. */
    method BestLinks(live: seq<Link>) returns (links: seq<Link>)
      ensures links == ByDevice(live)
    {
      var sorted := SortByPriority(live);
      var seen: set<string> := {};
      links := [];
      for i := 0 to |sorted|
        invariant links + FirstPerDevice(sorted[i..], seen) == FirstPerDevice(sorted, {})
      {
        if sorted[i].device !in seen {
          links := links + [sorted[i]];
          seen := seen + {sorted[i].device};
        }
      }
    }

    /** `publish` writes the same devices in the same order. */
    method Publish(live: seq<Link>) returns (text: string)
      ensures text == DeviceLines(ByDevice(live))
    {
      var links := SortByPriority(live);
      var seen: set<string> := {};
      text := "";
      for i := 0 to |links|
        invariant text + DeviceLines(FirstPerDevice(links[i..], seen)) == DeviceLines(FirstPerDevice(links, {}))
      {
        if links[i].device !in seen {
          text := text + (links[i].device + "\t" + links[i].caption + "\n");
          seen := seen + {links[i].device};
          FirstLine(links[i], FirstPerDevice(links[i + 1..], seen));
        }
      }
    }

    /** Sends the request to the targets; those whose send succeeds are pending. */
    method SendToAll(targets: seq<Link>, message: seq<byte>, accepts: set<nat>) returns (took: seq<Link>)
      modifies this`sent
      ensures took == Took(targets, accepts)
      ensures sent == old(sent) + Wires(took, message)
    {
      took := [];
      for i := 0 to |targets|
        invariant took + Took(targets[i..], accepts) == Took(targets, accepts)
        invariant sent == old(sent) + Wires(took, message)
      {
        assert targets[i..][1..] == targets[i + 1..];
        if targets[i].id in accepts {
          OneMoreWire(took, targets[i], message);
          sent := sent + [Wire(targets[i].id, message)];
          took := took + [targets[i]];
        }
      }
    }

    /** One pass over the pending links, ended early by an answer that ends the round. */
    method SweepLinks(f: Fan, answers: map<nat, Answer>, want: Wanted) returns (g: Fan, heard: bool)
      requires !f.done
      ensures g == Sweep(f, f.pending, answers, want)
      ensures heard <==> |g.taken| > |f.taken|
    {
      g, heard := f, false;
      var snapshot := f.pending;
      var i := 0;
      while i < |snapshot|
        invariant 0 <= i <= |snapshot| && !g.done
        invariant Sweep(g, snapshot[i..], answers, want) == Sweep(f, snapshot, answers, want)
        invariant |g.taken| >= |f.taken| && (heard <==> |g.taken| > |f.taken|)
      {
        var link := snapshot[i];
        i := i + 1;
        if link.id in answers {
          var (number, payload) := answers[link.id];
          heard := true;
          g := g.(taken := g.taken + [(link, (number, payload))]);
          if number == 0 && payload == [] {
            g := g.(pending := Drop(g.pending, link), failed := g.failed + [(link, [OTHER])]);
          } else if number == want.number {
            g := g.(pending := Drop(g.pending, link));
            if payload == [] {
              g := g.(failed := g.failed + [(link, [OTHER])]);
            } else if payload[0] == 0 {
              g := g.(wins := g.wins + [(link, payload)], done := !want.waitAll);
            } else {
              g := g.(failed := g.failed + [(link, payload)], done := payload[0] == OPERATION_DENIED && !want.waitAll);
            }
          }
          if g.done {
            return;
          }
        }
      }
    }

    /** `fan_out`: asks, listens pass by pass, and finally withdraws from exactly the still pending. */
    method AskRound(request: Request, targets: seq<Link>, data: seq<byte>, world: World, waitAll: bool) returns (f: Fan)
      modifies this`sent, this`reports, request
      ensures f == FanOut(targets, world, Wanted(request.number, waitAll))
      ensures sent == old(sent) + RoundTraffic(targets, world, request.number, data, f)
      ensures request.pending == []
      ensures Keepalives(old(reports), reports, request.channel)
    {
      var want := Wanted(request.number, waitAll);
      var took := SendToAll(targets, AskBody(request.number, data), world.accepts);
      request.pending := took;
      f := Fan(took, [], [], [], false);
      var ticks := world.ticks;
      ghost var asked := sent;
      while f.pending != [] && !f.done && ticks != []
        invariant Listen(f, ticks, want) == FanOut(targets, world, want)
        invariant sent == asked
        invariant Keepalives(old(reports), reports, request.channel)
        decreases |ticks|
      {
        var heard;
        f, heard := SweepLinks(f, ticks[0].answers, want);
        if !heard && ticks[0].beat {
          ghost var before := reports;
          Reply(request.channel, KEEPALIVE, [2]);
          OneKeepalive(request.channel);
        }
        ticks := ticks[1..];
      }
      request.pending := [];
      WithdrawFrom(request.number, f.pending);
    }

    /**
     * `handle_cbor`: the rounds as planned, the reply as `Ask` says if the request is still current,
     * and the slot is emptied only of this very request.
     */
    method HandleCbor(request: Request, data: seq<byte>, live: seq<Link>, chosen: Option<string>, worlds: seq<World>)
      requires data != [] && |worlds| >= 2
      modifies this, request
      ensures var probe := Probe.Silent(data);
              var rounds := PlanRounds(ByDevice(live), Plan(chosen, data[0], probe, old(holders), old(last)));
              && |rounds| <= 2
              && var verdict := Ask(rounds, worlds[..|rounds|], Wanted(request.number, probe), []);
                 var wins := AllWins(verdict.fans);
                 && (if old(busy) == request then
                       exists middle ::
                         && Keepalives(old(reports), middle, request.channel)
                         && reports == middle + PaddedAll(Packets(request.channel, CBOR, verdict.reply))
                     else Keepalives(old(reports), reports, request.channel))
                 && sent == old(sent) + Traffic(rounds, worlds[..|rounds|], request.number, data, verdict.fans)
                 && (wins != [] && data[0] == GET_ASSERTION ==>
                       && last == Some(wins[0].0.device)
                       && holders == if probe then (set w <- wins :: w.0.device) else old(holders))
                 && (wins == [] || data[0] != GET_ASSERTION ==> last == old(last) && holders == old(holders))
      ensures busy == if old(busy) == request then null else old(busy)
      ensures partial == old(partial)
    {
      hide PlanRounds, ByDevice, Ask, AllWins, Probe.Silent, Packets, PaddedAll, FinalError;
      var devices := BestLinks(live);
      var probe := Probe.Silent(data);
      var rounds := PlanRounds(devices, Plan(chosen, data[0], probe, holders, last));
      var wins, errors := AskRounds(request, rounds, data, worlds[..|rounds|], probe);
      if wins != [] && data[0] == GET_ASSERTION {
        last := Some(wins[0].0.device);
        if probe {
          holders := set w <- wins :: w.0.device;
        }
      }
      ghost var middle := reports;
      if RequestIsCurrent(request) {
        Reply(request.channel, CBOR, if wins != [] then wins[0].1 else FinalError(errors));
      }
      FinishRequest(request);
    }

    /** The rounds of a request, until one is won or fails with more than NO_CREDENTIALS. */
    method AskRounds(request: Request, rounds: seq<seq<Link>>, data: seq<byte>, worlds: seq<World>, probe: bool)
      returns (wins: seq<Reply>, errors: seq<seq<byte>>)
      requires |worlds| == |rounds|
      modifies this`sent, this`reports, request
      ensures var verdict := Ask(rounds, worlds, Wanted(request.number, probe), []);
              && wins == AllWins(verdict.fans)
              && verdict.reply == (if wins != [] then wins[0].1 else FinalError(errors))
              && sent == old(sent) + Traffic(rounds, worlds, request.number, data, verdict.fans)
      ensures Keepalives(old(reports), reports, request.channel)
    {
      hide Ask, Traffic, RoundTraffic, FanOut, AllWins, FinalError;
      var want := Wanted(request.number, probe);
      ghost var whole := Ask(rounds, worlds, want, []);
      NothingRan(whole, want);
      ghost var fans: seq<Fan> := [];
      wins, errors := [], [];
      var i := 0;
      while i < |rounds|
        invariant 0 <= i <= |rounds|
        invariant GoesOn(fans, Ask(rounds[i..], worlds[i..], want, errors)) == whole
        invariant AllWins(fans) == []
        invariant sent + Traffic(rounds[i..], worlds[i..], request.number, data,
                                 Ask(rounds[i..], worlds[i..], want, errors).fans)
                  == old(sent) + Traffic(rounds, worlds, request.number, data, whole.fans)
        invariant Keepalives(old(reports), reports, request.channel)
      {
        RoundsGoOn(rounds, worlds, i);
        if rounds[i] == [] {
          EmptyRound(rounds[i..], worlds[i..], want, errors, data);
        } else {
          FullRound(rounds[i..], worlds[i..], want, errors, data);
          ghost var before := reports;
          var f := AskRound(request, rounds[i], data, worlds[i], probe);
          KeepalivesGoOn(old(reports), before, reports, request.channel);
          AllWinsSnoc(fans, f);
          if f.wins != [] {
            wins := f.wins;
            return;
          }
          var failures := Payloads(f.failed);
          errors := errors + failures;
          if exists e <- failures :: !NoCredentials(e) {
            return;
          }
          OneMoreFan(fans, f, Ask(rounds[i + 1..], worlds[i + 1..], want, errors));
          fans := fans + [f];
        }
        i := i + 1;
      }
      NoRoundLeft(want, errors, data);
      assert fans + [] == fans;
    }
  }

  /** What goes out over the links: each round that ran asks those that take it, then withdraws from the pending. */
  function Traffic(rounds: seq<seq<Link>>, worlds: seq<World>, number: Word, data: seq<byte>, fans: seq<Fan>): seq<Wire>
    requires |worlds| == |rounds|
    decreases |rounds|
  {
    if rounds == [] || fans == [] then []
    else if rounds[0] == [] then Traffic(rounds[1..], worlds[1..], number, data, fans)
    else RoundTraffic(rounds[0], worlds[0], number, data, fans[0])
         + Traffic(rounds[1..], worlds[1..], number, data, fans[1..])
  }

  function RoundTraffic(targets: seq<Link>, world: World, number: Word, data: seq<byte>, fan: Fan): seq<Wire> {
    Wires(Took(targets, world.accepts), AskBody(number, data)) + Wires(fan.pending, CancelBody(number))
  }

  /** The verdict of the rounds to come, with the rounds that ran before them. */
  function GoesOn(fans: seq<Fan>, v: Verdict): Verdict {
    Verdict(v.reply, fans + v.fans)
  }

  lemma OneMoreFan(fans: seq<Fan>, f: Fan, v: Verdict)
    ensures GoesOn(fans, Verdict(v.reply, [f] + v.fans)) == GoesOn(fans + [f], v)
  {
    assert fans + ([f] + v.fans) == (fans + [f]) + v.fans;
  }

  lemma NothingRan(v: Verdict, want: Wanted)
    ensures GoesOn([], v) == v && AllWins([]) == []
  {
    assert [] + v.fans == v.fans;
  }

  lemma NoRoundLeft(want: Wanted, errors: seq<seq<byte>>, data: seq<byte>)
    requires want.number < 0x1_0000_0000
    ensures Ask([], [], want, errors) == Verdict(FinalError(errors), []) && Traffic([], [], want.number, data, []) == []
  {
  }

  lemma EmptyRound(rounds: seq<seq<Link>>, worlds: seq<World>, want: Wanted, errors: seq<seq<byte>>, data: seq<byte>)
    requires |worlds| == |rounds| > 0 && rounds[0] == [] && want.number < 0x1_0000_0000
    ensures var v := Ask(rounds, worlds, want, errors);
            && v == Ask(rounds[1..], worlds[1..], want, errors)
            && Traffic(rounds, worlds, want.number, data, v.fans)
               == Traffic(rounds[1..], worlds[1..], want.number, data, v.fans)
  {
    hide FanOut, RoundTraffic;
  }

  lemma FullRound(rounds: seq<seq<Link>>, worlds: seq<World>, want: Wanted, errors: seq<seq<byte>>, data: seq<byte>)
    requires |worlds| == |rounds| > 0 && rounds[0] != [] && want.number < 0x1_0000_0000
    ensures var v := Ask(rounds, worlds, want, errors);
            var f := FanOut(rounds[0], worlds[0], want);
            var failures := Payloads(f.failed);
            var first := RoundTraffic(rounds[0], worlds[0], want.number, data, f);
            if f.wins != [] then
              v == Verdict(f.wins[0].1, [f]) && Traffic(rounds, worlds, want.number, data, v.fans) == first
            else if exists e <- failures :: !NoCredentials(e) then
              v == Verdict(FinalError(errors + failures), [f])
              && Traffic(rounds, worlds, want.number, data, v.fans) == first
            else
              var later := Ask(rounds[1..], worlds[1..], want, errors + failures);
              v == Verdict(later.reply, [f] + later.fans)
              && Traffic(rounds, worlds, want.number, data, v.fans)
                 == first + Traffic(rounds[1..], worlds[1..], want.number, data, later.fans)
  {
    hide FanOut, RoundTraffic, FinalError;
    var f := FanOut(rounds[0], worlds[0], want);
    var v := Ask(rounds, worlds, want, errors);
    assert v.fans[0] == f;
    if f.wins == [] && forall e <- Payloads(f.failed) :: NoCredentials(e) {
      var later := Ask(rounds[1..], worlds[1..], want, errors + Payloads(f.failed));
      assert v.fans[1..] == later.fans;
    } else {
      assert v.fans[1..] == [];
      NothingMoreGoesOut(rounds[1..], worlds[1..], want.number, data);
    }
  }

  lemma NothingMoreGoesOut(rounds: seq<seq<Link>>, worlds: seq<World>, number: Word, data: seq<byte>)
    requires |worlds| == |rounds|
    ensures Traffic(rounds, worlds, number, data, []) == []
  {
  }

  lemma RoundsGoOn(rounds: seq<seq<Link>>, worlds: seq<World>, i: nat)
    requires i < |rounds| == |worlds|
    ensures rounds[i..][0] == rounds[i] && rounds[i..][1..] == rounds[i + 1..]
    ensures worlds[i..][0] == worlds[i] && worlds[i..][1..] == worlds[i + 1..]
  {
  }

  lemma FirstLine(l: Link, rest: seq<Link>)
    ensures DeviceLines([l] + rest) == l.device + "\t" + l.caption + "\n" + DeviceLines(rest)
  {
    assert ([l] + rest)[1..] == rest;
  }

  lemma OneMoreWire(links: seq<Link>, l: Link, body: seq<byte>)
    ensures Wires(links + [l], body) == Wires(links, body) + [Wire(l.id, body)]
  {
  }

  lemma OneKeepalive(channel: Channel)
    ensures |PaddedAll(Packets(channel, KEEPALIVE, [2]))| == 1
  {
    assert [2][1..] == [];
  }

  lemma KeepalivesGoOn(a: seq<seq<byte>>, b: seq<seq<byte>>, c: seq<seq<byte>>, channel: Channel)
    requires Keepalives(a, b, channel) && Keepalives(b, c, channel)
    ensures Keepalives(a, c, channel)
  {
  }

  lemma {:induction false} AllWinsSnoc(fans: seq<Fan>, f: Fan)
    ensures AllWins(fans + [f]) == AllWins(fans) + f.wins
  {
    if fans == [] {
      assert AllWins([f]) == f.wins + AllWins([]);
    } else {
      assert (fans + [f])[1..] == fans[1..] + [f];
      AllWinsSnoc(fans[1..], f);
    }
  }
}
