/**
 * The whole system on bytes: reports from the kernel, byte streams to and from every phone, reports
 * back to the kernel. Whatever the bytes do, the states of `Protocol` follow, event by event, so its
 * theorems hold of what the host sends and gets.
 */
module EndToEnd {
  import opened Bytes
  import opened CtapHid
  import opened Rounds
  import opened Protocol
  import Framing
  import Probe

  // ---- Streams ------------------------------------------------------------------------------------

  /** The body of a frame to a phone; numbers are 32 bits wide. */
  function Body(f: Frame): seq<byte> {
    match f
    case Ask(n, data) => Framing.AskBody(n % 0x1_0000_0000, data)
    case Withdraw(n) => Framing.CancelBody(n % 0x1_0000_0000)
  }

  function Down(frames: seq<Frame>): seq<byte> {
    if frames == [] then [] else Framing.Frame(Body(frames[0])) + Down(frames[1..])
  }

  /** The body of a phone's answer. */
  function AnswerBody(a: Answer): seq<byte> {
    Framing.PhoneAnswers(BigEndian(a.0, 4), a.1)
  }

  function Up(answers: seq<Answer>): seq<byte> {
    if answers == [] then [] else Framing.Frame(AnswerBody(answers[0])) + Up(answers[1..])
  }

  datatype Cut = Nothing | Broken | Whole(body: seq<byte>, rest: seq<byte>)

  /** What a reader at either end takes next: nothing while bytes are missing, `Broken` at a bad length. */
  function FirstBody(stream: seq<byte>): (cut: Cut)
    ensures Framing.Bodies(stream) == if cut.Whole? then [cut.body] + Framing.Bodies(cut.rest) else []
    ensures Framing.EndOf(stream).BadLength? <==>
              cut.Broken? || (cut.Whole? && Framing.EndOf(cut.rest).BadLength?)
  {
    if |stream| < 4 then Nothing else
      var length := Number(stream[..4]);
      if length < 1 || length > Framing.MAX_BODY then Broken
      else if |stream| < 4 + length then Nothing
      else Whole(stream[4..4 + length], stream[4 + length..])
  }

  const ARRAY := 0x8000_0000

  lemma FirstBodyIsCut(body: seq<byte>, later: seq<byte>)
    requires body != [] && |body| < ARRAY
    ensures FirstBody(Framing.Frame(body) + later)
         == if |body| <= Framing.MAX_BODY then Whole(body, later) else Broken
  {
    hide BigEndian, Number;
    var stream, length := Framing.Frame(body) + later, BigEndian(|body|, 4);
    Pow256Values();
    NumberOfBigEndian(|body|, 4);
    assert stream[..4] == length && stream[4..4 + |body|] == body && stream[4 + |body|..] == later;
  }

  lemma {:induction false} DownConcat(a: seq<Frame>, b: seq<Frame>)
    ensures Down(a + b) == Down(a) + Down(b)
  {
    hide Body, Framing.Frame;
    if a == [] {
      assert a + b == b;
    } else {
      DownConcat(a[1..], b);
      assert (a + b)[1..] == a[1..] + b;
    }
  }

  lemma {:induction false} UpSnoc(answers: seq<Answer>, a: Answer)
    ensures Up(answers + [a]) == Up(answers) + Framing.Frame(AnswerBody(a))
  {
    hide AnswerBody, Framing.Frame;
    if answers == [] {
      assert [] + [a] == [a] && [a][1..] == [];
      assert Up([a]) == Framing.Frame(AnswerBody(a)) + Up([]);
    } else {
      UpSnoc(answers[1..], a);
      assert (answers + [a])[1..] == answers[1..] + [a];
    }
  }

  // ---- The machine on bytes -------------------------------------------------------------------------

  /**
   * `core` is the daemon and the books about its phones, with nothing under way in frames; `down` and
   * `up` are the bytes under way on each link. `arrivals` and `reports` are all reports so far.
   */
  datatype Machine = Machine(
    core: State,
    down: map<nat, seq<byte>>,
    up: map<nat, seq<byte>>,
    partials: map<Channel, Partial>,
    complete: Option<Message>,
    arrivals: seq<Arrival>,
    reports: seq<seq<byte>>)

  const BEGIN := Machine(START, map[], map[], map[], None, [], [])

  datatype Step =
    | Report(bytes: seq<byte>)
    | Dispatch
    | Inside(e: Event)
    | PhoneTakes(link: nat, result: seq<byte>)
    | DaemonTakes(link: nat)

  /** The frames that an event left, as bytes at the end of each link's stream. */
  function Written(down: map<nat, seq<byte>>, outbox: map<nat, seq<Frame>>): map<nat, seq<byte>> {
    map l | l in down.Keys + outbox.Keys :: Queue(down, l) + Down(Queue(outbox, l))
  }

  function ReportsOfOne(r: Sent): seq<seq<byte>> {
    PaddedAll(Packets(r.channel, CBOR, r.payload))
  }

  function ReportsOf(replies: seq<Sent>): seq<seq<byte>> {
    if replies == [] then []
    else ReportsOf(replies[..|replies| - 1]) + ReportsOfOne(replies[|replies| - 1])
  }

  function NewReports(before: seq<Sent>, after: seq<Sent>): seq<seq<byte>> {
    if |after| > |before| then ReportsOfOne(after[|after| - 1]) else []
  }

  /** An event inside the daemon: what it leaves in the outbox and among the replies is written out. */
  function Inner(m: Machine, e: Event): Machine {
    var t := Next(m.core, e);
    m.(core := t.(outbox := map[]), down := Written(m.down, t.outbox),
       reports := m.reports + NewReports(m.core.replies, t.replies))
  }

  /** Events that no report and no byte from a phone causes. */
  predicate Spontaneous(e: Event) {
    e.Connect? || e.Close? || e.Tell? || e.Handler? || e == Cancel(None, false)
  }

  function BusyChannel(s: State): Option<Channel> {
    if s.busy.Some? && s.busy.value in s.requests then Some(s.requests[s.busy.value].channel) else None
  }

  predicate Withdraws(r: seq<byte>) {
    |r| >= 7 && (r[4] == CANCEL_CMD || r[4] == INIT) && Number(r[5..7]) <= MAX_MESSAGE
  }

  function Reported(m: Machine, r: seq<byte>): (n: Machine)
    requires AllOpen(m.partials)
    ensures AllOpen(n.partials)
  {
    if m.complete.Some? then m else
      var a := Arrival(r, BusyChannel(m.core));
      var (partials, message) := Receive(m.partials, a);
      var cleared := if Withdraws(r) then Inner(m, Cancel(Some(ChannelOf(r)), r[4] == INIT)) else m;
      cleared.(partials := partials, complete := message, arrivals := m.arrivals + [a])
  }

  function Dispatched(m: Machine): Machine {
    var taken := m.(complete := None);
    if m.complete.Some? && m.complete.value.command == CBOR
    then Inner(taken, Accept(m.complete.value.channel, m.complete.value.data)) else taken
  }

  /** A result is never empty, and it and its frame fit arrays. */
  predicate Sizable(result: seq<byte>) {
    result != [] && |result| + 5 < ARRAY
  }

  /** The phone on link `l` takes the next frame from its bytes; `result` is what it makes of a request. */
  function PhoneTook(m: Machine, l: nat, result: seq<byte>): Machine {
    if !Sizable(result) then m else
      match FirstBody(Queue(m.down, l))
      case Whole(body, rest) =>
        var read := m.(down := m.down[l := rest]);
        (match Framing.PhoneReads(body)
         case Asked(_, echo, request) =>
           var answer := Framing.Frame(Framing.PhoneAnswers(echo, result));
           read.(up := m.up[l := Queue(m.up, l) + answer],
                 core := m.core.(handled := m.core.handled + {Handled(l, Number(echo), request, result)}))
         case _ => read)
      case _ => m
  }

  /** The daemon's reader of link `l` takes the next frame; at a bad length it closes the link. */
  function DaemonTook(m: Machine, l: nat): Machine {
    match FirstBody(Queue(m.up, l))
    case Whole(body, rest) =>
      var read := m.(up := m.up[l := rest]);
      (match Framing.DecodeResponse(body)
       case Some(a) => read.(core := m.core.(heard := Push(m.core.heard, l, a)))
       case None => read)
    case Broken => Inner(m, Close(l))
    case Nothing => m
  }

  function Do(m: Machine, step: Step): (n: Machine)
    requires AllOpen(m.partials)
    ensures AllOpen(n.partials)
  {
    match step
    case Report(r) => Reported(m, r)
    case Dispatch => Dispatched(m)
    case Inside(e) => if Spontaneous(e) then Inner(m, e) else m
    case PhoneTakes(l, result) => PhoneTook(m, l, result)
    case DaemonTakes(l) => DaemonTook(m, l)
  }

  function DoAll(m: Machine, steps: seq<Step>): (n: Machine)
    requires AllOpen(m.partials)
    ensures AllOpen(n.partials)
    decreases |steps|
  {
    if steps == [] then m else DoAll(Do(m, steps[0]), steps[1..])
  }

  // ---- The events it stands for ------------------------------------------------------------------------

  /** The event of `Protocol` that a step carries out, if any. */
  function Shadow(m: Machine, step: Step): seq<Event> {
    match step
    case Report(r) =>
      if m.complete.None? && Withdraws(r) then [Cancel(Some(ChannelOf(r)), r[4] == INIT)] else []
    case Dispatch =>
      if m.complete.Some? && m.complete.value.command == CBOR
      then [Accept(m.complete.value.channel, m.complete.value.data)] else []
    case Inside(e) => if Spontaneous(e) then [e] else []
    case PhoneTakes(l, result) => if Sizable(result) then [PhoneHandles(l, result)] else []
    case DaemonTakes(l) => if FirstBody(Queue(m.up, l)).Broken? then [Close(l)] else [Deliver(l)]
  }

  function ShadowAll(m: Machine, steps: seq<Step>): seq<Event>
    requires AllOpen(m.partials)
    decreases |steps|
  {
    if steps == [] then [] else Shadow(m, steps[0]) + ShadowAll(Do(m, steps[0]), steps[1..])
  }

  function Bare(s: State): State {
    s.(outbox := map[], inbox := map[])
  }

  /** Every request has a 32-bit number and a message's bytes. */
  predicate BooksFit(s: State) {
    && (forall n <- s.requests :: n < 0x1_0000_0000 && |s.requests[n].data| <= MAX_MESSAGE)
    && s.leaving <= s.requests.Keys
  }

  predicate FrameFits(f: Frame) {
    f.number < 0x1_0000_0000 && (f.Ask? ==> |f.data| <= MAX_MESSAGE)
  }

  predicate AnswerFits(a: Answer) {
    a.0 < 0x1_0000_0000 && |a.1| + 5 < ARRAY
  }

  predicate FramesFit(frames: seq<Frame>) {
    forall i :: 0 <= i < |frames| ==> FrameFits(frames[i])
  }

  predicate AnswersFit(answers: seq<Answer>) {
    forall i :: 0 <= i < |answers| ==> AnswerFits(answers[i])
  }

  /** On every link the bytes to the phone are the frames in its queue. */
  ghost predicate DownIs(down: map<nat, seq<byte>>, outbox: map<nat, seq<Frame>>) {
    forall l: nat :: Queue(down, l) == Down(Queue(outbox, l)) && FramesFit(Queue(outbox, l))
  }

  ghost predicate UpIs(up: map<nat, seq<byte>>, inbox: map<nat, seq<Answer>>) {
    forall l: nat :: Queue(up, l) == Up(Queue(inbox, l)) && AnswersFit(Queue(inbox, l))
  }

  /** The machine is in step with `s`. */
  ghost predicate InStep(m: Machine, s: State) {
    && m.core == Bare(s) && DownIs(m.down, s.outbox) && UpIs(m.up, s.inbox)
    && BooksFit(s) && m.reports == ReportsOf(s.replies)
    && (m.complete.Some? ==> |m.complete.value.data| <= MAX_MESSAGE)
  }

  // ---- What an event inside leaves in the outbox --------------------------------------------------------

  /** `u` and `t` follow from `s` and from `s` with nothing under way: they differ in what was under way only. */
  ghost predicate Grew(s: State, u: State, t: State) {
    && Bare(u) == Bare(t) && u.inbox == s.inbox && t.inbox == map[]
    && forall l: nat :: Queue(u.outbox, l) == Queue(s.outbox, l) + Queue(t.outbox, l)
                        && (BooksFit(s) ==> FramesFit(Queue(t.outbox, l)))
  }

  lemma NothingNew(s: State, u: State, t: State)
    requires Bare(u) == Bare(t) && u.inbox == s.inbox && t.inbox == map[]
    requires u.outbox == s.outbox && t.outbox == map[]
    ensures Grew(s, u, t)
  {
    forall l: nat
      ensures Queue(u.outbox, l) == Queue(s.outbox, l) + Queue(t.outbox, l)
    {
      assert Queue(s.outbox, l) + [] == Queue(s.outbox, l);
    }
  }

  function CountOf(links: seq<Link>, l: nat): nat {
    if links == [] then 0 else (if links[0].id == l then 1 else 0) + CountOf(links[1..], l)
  }

  function Copies(x: Frame, k: nat): (c: seq<Frame>)
    ensures |c| == k && forall i :: 0 <= i < k ==> c[i] == x
  {
    seq(k, _ => x)
  }

  lemma {:induction false} PushedAll(queues: map<nat, seq<Frame>>, links: seq<Link>, x: Frame, l: nat)
    ensures Queue(PushAll(queues, links, x), l) == Queue(queues, l) + Copies(x, CountOf(links, l))
    decreases |links|
  {
    if links != [] {
      PushedAll(Push(queues, links[0].id, x), links[1..], x, l);
    }
  }

  lemma ToldGrows(s: State, n: nat)
    ensures Grew(s, Told(s, n), Told(Bare(s), n))
  {
    var u, t := Told(s, n), Told(Bare(s), n);
    if n !in s.leaving {
      NothingNew(s, u, t);
    } else {
      var links := Queue(s.shared, n);
      hide PushAll;
      forall l: nat
        ensures Queue(u.outbox, l) == Queue(s.outbox, l) + Queue(t.outbox, l)
        ensures BooksFit(s) ==> FramesFit(Queue(t.outbox, l))
      {
        PushedAll(s.outbox, links, Withdraw(n), l);
        PushedAll(map[], links, Withdraw(n), l);
      }
    }
  }

  lemma LinksGrow(s: State, l: nat, device: string, caption: string, priority: nat)
    ensures Grew(s, Connected(s, device, caption, priority), Connected(Bare(s), device, caption, priority))
    ensures Grew(s, Closed(s, l), Closed(Bare(s), l))
  {
    hide Grew, Push;
    NothingNew(s, Connected(s, device, caption, priority), Connected(Bare(s), device, caption, priority));
    NothingNew(s, Closed(s, l), Closed(Bare(s), l));
  }

  lemma AcceptGrows(s: State, channel: Channel, data: seq<byte>)
    ensures Grew(s, Accepted(s, channel, data), Accepted(Bare(s), channel, data))
  {
    hide Grew, Started;
    StayingGrows(s);
    var issued := s.issued + 1;
    var u, t := s.(issued := issued), Bare(s).(issued := issued);
    NothingNew(s, u, t);
    StartGrows(s, u, t, issued % 0x1_0000_0000, Request(channel, data));
  }

  lemma StartGrows(s: State, u: State, t: State, n: nat, request: Request)
    requires Grew(s, u, t)
    ensures Grew(s, Started(u, n, request), Started(t, n, request))
  {
    assert Bare(Started(u, n, request)) == Started(Bare(u), n, request);
    assert Bare(Started(t, n, request)) == Started(Bare(t), n, request);
  }

  lemma CancelGrows(s: State, target: Option<Channel>, abandon: bool)
    ensures Grew(s, Cancelled(s, target, abandon), Cancelled(Bare(s), target, abandon))
  {
    hide Grew;
    StayingGrows(s);
    if s.busy.Some? && s.busy.value in s.requests {
      var n := s.busy.value;
      var leaving, abandoned := s.leaving + {n}, s.abandoned + {n};
      NothingNew(s, s.(leaving := leaving), Bare(s).(leaving := leaving));
      NothingNew(s, s.(leaving := leaving, busy := None, abandoned := abandoned),
                 Bare(s).(leaving := leaving, busy := None, abandoned := abandoned));
    }
  }

  /** Going to a stage adds nothing to the outbox. */
  lemma GoingGrows(s: State, u: State, t: State, n: nat, stage: Stage)
    requires Grew(s, u, t)
    ensures Grew(s, GoTo(u, n, stage), GoTo(t, n, stage))
  {
    assert Bare(GoTo(u, n, stage)) == GoTo(Bare(u), n, stage);
    assert Bare(GoTo(t, n, stage)) == GoTo(Bare(t), n, stage);
  }

  lemma StayingGrows(s: State)
    ensures Grew(s, s, Bare(s))
  {
    NothingNew(s, s, Bare(s));
  }

  lemma SendGrows(s: State, n: nat, ok: bool)
    requires Working(s, n) && s.stages[n].Sending?
    ensures var data, stage := s.requests[n].data, s.stages[n];
            Grew(s, SendOne(s, n, data, stage, ok), SendOne(Bare(s), n, data, stage, ok))
  {
    hide GoTo, Grew;
    var data, stage := s.requests[n].data, s.stages[n];
    var left, took, w := stage.left, stage.took, stage.work;
    if left == [] {
      var u, t := s.(shared := s.shared[n := took]), Bare(s).(shared := s.shared[n := took]);
      NothingNew(s, u, t);
      GoingGrows(s, u, t, n, Listening(Fan(took, [], [], [], false), [], w));
    } else if !ok {
      StayingGrows(s);
      GoingGrows(s, s, Bare(s), n, Sending(left[1..], took, w));
    } else {
      var asked := s.asked + {(left[0].id, n)};
      var u := s.(outbox := Push(s.outbox, left[0].id, Ask(n, data)), asked := asked);
      var t := Bare(s).(outbox := Push(map[], left[0].id, Ask(n, data)), asked := asked);
      OneMoreFrame(s, u, t, n, left[0].id);
      GoingGrows(s, u, t, n, Sending(left[1..], took + [left[0]], w));
    }
  }

  lemma OneMoreFrame(s: State, u: State, t: State, n: nat, l: nat)
    requires Working(s, n) && Bare(u) == Bare(t) && u.inbox == s.inbox && t.inbox == map[]
    requires u.outbox == Push(s.outbox, l, Ask(n, s.requests[n].data))
    requires t.outbox == Push(map[], l, Ask(n, s.requests[n].data))
    ensures Grew(s, u, t)
  {
    forall k: nat
      ensures Queue(u.outbox, k) == Queue(s.outbox, k) + Queue(t.outbox, k)
      ensures BooksFit(s) ==> FramesFit(Queue(t.outbox, k))
    {
    }
  }

  lemma StopGrows(s: State, n: nat)
    requires Working(s, n) && s.stages[n].Listening?
    ensures Grew(s, StopListening(s, n, s.stages[n]), StopListening(Bare(s), n, s.stages[n]))
  {
    var stage := s.stages[n];
    if stage.queue != [] {
      StayingGrows(s);
    } else {
      var shared, links := s.shared[n := []], stage.fan.pending;
      var u := s.(shared := shared, outbox := PushAll(s.outbox, links, Withdraw(n)));
      var t := Bare(s).(shared := shared, outbox := PushAll(map[], links, Withdraw(n)));
      hide PushAll;
      forall l: nat
        ensures Queue(u.outbox, l) == Queue(s.outbox, l) + Queue(t.outbox, l)
        ensures BooksFit(s) ==> FramesFit(Queue(t.outbox, l))
      {
        PushedAll(s.outbox, links, Withdraw(n), l);
        PushedAll(map[], links, Withdraw(n), l);
      }
      assert Grew(s, u, t);
      GoingGrows(s, u, t, n, Leaving(stage.fan, stage.work));
    }
  }

  lemma ListenGrows(s: State, n: nat, want: Wanted)
    requires Working(s, n) && s.stages[n].Listening?
    ensures Grew(s, Listen1(s, n, s.stages[n], want), Listen1(Bare(s), n, s.stages[n], want))
  {
    hide GoTo, Grew, Absorb;
    var stage := s.stages[n];
    var fan, queue, w := stage.fan, stage.queue, stage.work;
    StayingGrows(s);
    if queue == [] {
      GoingGrows(s, s, Bare(s), n, Listening(fan, fan.pending, w));
    } else {
      GoingGrows(s, s, Bare(s), n, Listening(fan, queue[1..], w));
      var answers := Queue(s.heard, queue[0].id);
      if answers != [] {
        var heard := Pop(s.heard, queue[0].id);
        var next := Absorb(fan, queue[0], answers[0], want);
        NothingNew(s, s.(heard := heard), Bare(s).(heard := heard));
        GoingGrows(s, s.(heard := heard), Bare(s).(heard := heard), n,
                   Listening(next, if next.done then [] else queue[1..], w));
      }
    }
  }

  lemma ConcludeGrows(s: State, n: nat)
    requires Working(s, n) && s.stages[n].Leaving?
    ensures var data, stage := s.requests[n].data, s.stages[n];
            Grew(s, ConcludeRound(s, n, data, stage), ConcludeRound(Bare(s), n, data, stage))
  {
    hide GoTo, Grew, FinalError, Payloads, Probe.Silent;
    var data, stage := s.requests[n].data, s.stages[n];
    var fan, w := stage.fan, stage.work;
    var errors := w.errors + Payloads(fan.failed);
    StayingGrows(s);
    if fan.wins != [] {
      var u := Record(s, data[0], Probe.Silent(data), fan.wins);
      var t := Record(Bare(s), data[0], Probe.Silent(data), fan.wins);
      NothingNew(s, u, t);
      GoingGrows(s, u, t, n, Answering(fan.wins[0].1));
    } else {
      GoingGrows(s, s, Bare(s), n, Answering(FinalError(errors)));
      GoingGrows(s, s, Bare(s), n, Between(w.(errors := errors)));
    }
  }

  lemma PlanGrows(s: State, n: nat, chosen: Option<string>)
    requires Working(s, n)
    ensures var data, stage := s.requests[n].data, s.stages[n];
            && (stage.New? ==> Grew(s, GoTo(s, n, Listed(ByDevice(Live(s.links, s.alive)))),
                                    GoTo(Bare(s), n, Listed(ByDevice(Live(s.links, s.alive))))))
            && (stage.Listed? ==> Grew(s, PlanFor(s, n, data, stage.devices, chosen),
                                       PlanFor(Bare(s), n, data, stage.devices, chosen)))
            && (stage.Between? ==> Grew(s, GoTo(s, n, NextRound(stage.work)), GoTo(Bare(s), n, NextRound(stage.work))))
  {
    hide GoTo, Grew, PlanRounds, ByDevice, Live, NextRound, Probe.Silent;
    var data, stage := s.requests[n].data, s.stages[n];
    StayingGrows(s);
    if stage.New? {
      GoingGrows(s, s, Bare(s), n, Listed(ByDevice(Live(s.links, s.alive))));
    } else if stage.Listed? {
      var plan := Plan(chosen, data[0], Probe.Silent(data), s.holders, s.last);
      GoingGrows(s, s, Bare(s), n, Between(Work(PlanRounds(stage.devices, plan), [])));
    } else if stage.Between? {
      GoingGrows(s, s, Bare(s), n, NextRound(stage.work));
    }
  }

  lemma EndGrows(s: State, n: nat, move: Move)
    requires Working(s, n) && (move.Check? || move.Answer? || move.Finish?)
    ensures Grew(s, Protocol.Moved(s, n, move), Protocol.Moved(Bare(s), n, move))
  {
    hide GoTo, Grew;
    var stage := s.stages[n];
    StayingGrows(s);
    match move
    case Check =>
      if stage.Answering? {
        GoingGrows(s, s, Bare(s), n, Replying(stage.payload));
        GoingGrows(s, s, Bare(s), n, Finishing);
      }
    case Answer =>
      if stage.Replying? {
        var replies := s.replies + [Sent(n, s.requests[n].channel, stage.payload)];
        NothingNew(s, s.(replies := replies), Bare(s).(replies := replies));
        GoingGrows(s, s.(replies := replies), Bare(s).(replies := replies), n, Finishing);
      }
    case Finish =>
      if stage.Finishing? {
        var busy := if s.busy == Some(n) then None else s.busy;
        NothingNew(s, s.(busy := busy), Bare(s).(busy := busy));
        GoingGrows(s, s.(busy := busy), Bare(s).(busy := busy), n, Finished);
      }
  }

  lemma MoveGrows(s: State, n: nat, move: Move)
    requires Working(s, n)
    ensures Grew(s, Protocol.Moved(s, n, move), Protocol.Moved(Bare(s), n, move))
  {
    if move.Check? || move.Answer? || move.Finish? {
      EndGrows(s, n, move);
    } else {
      hide Grew, GoTo, PlanFor, SendOne, Listen1, StopListening, ConcludeRound, ByDevice, Live, NextRound, Probe.Silent;
      StayingGrows(s);
      match move
      case Send(ok) => if s.stages[n].Sending? { SendGrows(s, n, ok); }
      case Poll => if s.stages[n].Listening? { ListenGrows(s, n, Wanted(n, Probe.Silent(s.requests[n].data))); }
      case Stop => if s.stages[n].Listening? { StopGrows(s, n); }
      case Conclude => if s.stages[n].Leaving? { ConcludeGrows(s, n); }
      case MakePlan(chosen) => PlanGrows(s, n, chosen);
      case _ => PlanGrows(s, n, None);
    }
  }

  /** An event inside the daemon works the same whatever is under way, and only adds frames that fit. */
  lemma OutboxOnlyGrows(s: State, e: Event)
    requires !e.PhoneHandles? && !e.Deliver?
    ensures Grew(s, Next(s, e), Next(Bare(s), e))
  {
    hide Grew, Protocol.Moved, Told, Connected, Closed, Accepted, Cancelled;
    match e
    case Connect(device, caption, priority) => LinksGrow(s, 0, device, caption, priority);
    case Close(l) => LinksGrow(s, l, "", "", 0);
    case Accept(channel, data) => AcceptGrows(s, channel, data);
    case Cancel(target, abandon) => CancelGrows(s, target, abandon);
    case Tell(n) => ToldGrows(s, n);
    case Handler(n, move) =>
      if Working(s, n) {
        MoveGrows(s, n, move);
      } else {
        StayingGrows(s);
      }
  }

  // ---- The books --------------------------------------------------------------------------------------------

  lemma BooksStayFit(s: State, e: Event)
    requires BooksFit(s) && (e.Accept? ==> |e.data| <= MAX_MESSAGE)
    ensures BooksFit(Next(s, e))
  {
    hide Protocol.Moved, Connected, Closed, Told, PhoneHandled, Delivered;
    match e
    case Accept(_, _) =>
    case Cancel(_, _) =>
    case Tell(n) => TellingLeavesNobody(s, n);
    case Handler(n, move) =>
      if Working(s, n) {
        MovesAreOfFourKinds(s, n, move);
        MovingLeavesNobody(s, n, move);
      }
    case Connect(device, caption, priority) =>
      TransportIsAside(s, e);
      LeavingStays(s, 0, [], device, caption, priority);
    case Close(l) =>
      TransportIsAside(s, e);
      LeavingStays(s, l, [], "", "", 0);
    case PhoneHandles(l, result) =>
      TransportIsAside(s, e);
      LeavingStays(s, l, result, "", "", 0);
    case Deliver(l) =>
      TransportIsAside(s, e);
      LeavingStays(s, l, [], "", "", 0);
  }

  lemma TellingLeavesNobody(s: State, n: nat)
    ensures Told(s, n).leaving == s.leaving && Told(s, n).requests == s.requests
  {
    hide PushAll, Queue;
  }

  lemma LeavingStays(s: State, l: nat, result: seq<byte>, device: string, caption: string, priority: nat)
    ensures Connected(s, device, caption, priority).leaving == s.leaving && Closed(s, l).leaving == s.leaving
    ensures PhoneHandled(s, l, result).leaving == s.leaving && Delivered(s, l).leaving == s.leaving
  {
    hide PushAll, Push, Pop, Queue;
  }

  lemma MovingLeavesNobody(s: State, n: nat, move: Move)
    requires Working(s, n)
    ensures Protocol.Moved(s, n, move).leaving == s.leaving
  {
    hide GoTo, PushAll, Push, Pop, Queue, Absorb, PlanRounds, ByDevice, Live, FinalError, NextRound, Payloads;
    hide Probe.Silent;
    NobodyLeaves();
  }

  lemma NobodyLeaves()
    ensures forall s: State, n: nat, stage: Stage :: GoTo(s, n, stage).leaving == s.leaving
  {
  }

  /** At most one reply is new. */
  lemma RepliesGrowByOne(s: State, e: Event)
    ensures var t := Next(s, e);
            t.replies == s.replies || (t.replies != [] && t.replies[..|t.replies| - 1] == s.replies)
  {
    hide Protocol.Moved, Connected, Closed, Told, PhoneHandled, Delivered;
    match e
    case Accept(_, _) =>
    case Cancel(_, _) =>
    case Handler(n, move) =>
      if Working(s, n) {
        MovesAreOfFourKinds(s, n, move);
      }
    case _ => TransportIsAside(s, e);
  }

  lemma ReportsGrow(before: seq<Sent>, after: seq<Sent>)
    requires after == before || (after != [] && after[..|after| - 1] == before)
    ensures ReportsOf(after) == ReportsOf(before) + NewReports(before, after)
  {
    assert ReportsOf(before) + [] == ReportsOf(before);
  }

  // ---- Step by step --------------------------------------------------------------------------------------------

  lemma WrittenIsDown(m: Machine, s: State, u: State, t: State)
    requires DownIs(m.down, s.outbox) && Grew(s, u, t) && BooksFit(s)
    ensures DownIs(Written(m.down, t.outbox), u.outbox)
  {
    hide Down, FrameFits, BooksFit;
    forall l: nat
      ensures Queue(Written(m.down, t.outbox), l) == Down(Queue(u.outbox, l)) && FramesFit(Queue(u.outbox, l))
    {
      DownConcat(Queue(s.outbox, l), Queue(t.outbox, l));
      DownOfNothing();
      assert Queue(Written(m.down, t.outbox), l) == Queue(m.down, l) + Down(Queue(t.outbox, l));
    }
  }

  lemma DownOfNothing()
    ensures Down([]) == []
  {
  }

  lemma InnerInStep(m: Machine, s: State, e: Event)
    requires InStep(m, s) && !e.PhoneHandles? && !e.Deliver? && (e.Accept? ==> |e.data| <= MAX_MESSAGE)
    ensures InStep(Inner(m, e), Next(s, e))
  {
    hide Next, DownIs, UpIs, BooksFit, Written, NewReports, ReportsOf;
    OutboxOnlyGrows(s, e);
    var u, t := Next(s, e), Next(Bare(s), e);
    WrittenIsDown(m, s, u, t);
    BooksStayFit(s, e);
    RepliesGrowByOne(s, e);
    ReportsGrow(s.replies, u.replies);
  }

  lemma ReportInStep(m: Machine, s: State, r: seq<byte>)
    requires InStep(m, s) && AllOpen(m.partials)
    ensures InStep(Reported(m, r), Run(s, Shadow(m, Report(r))))
  {
    hide Next, Inner, Receive, ChannelOf, DownIs, UpIs, BooksFit, Bare;
    if m.complete.None? && Withdraws(r) {
      var e := Cancel(Some(ChannelOf(r)), r[4] == INIT);
      InnerInStep(m, s, e);
      OneEvent(s, e);
    }
  }

  lemma OneEvent(s: State, e: Event)
    ensures Run(s, [e]) == Next(s, e)
  {
    hide Next;
    assert [e][1..] == [];
  }

  lemma DispatchInStep(m: Machine, s: State)
    requires InStep(m, s)
    ensures InStep(Dispatched(m), Run(s, Shadow(m, Dispatch)))
  {
    hide Next, Inner, DownIs, UpIs, BooksFit, Bare;
    if m.complete.Some? && m.complete.value.command == CBOR {
      var e := Accept(m.complete.value.channel, m.complete.value.data);
      InnerInStep(m.(complete := None), s, e);
      OneEvent(s, e);
    }
  }

  /** What the phone's reader makes of the first frame in the queue. */
  lemma FirstFrameIsRead(frames: seq<Frame>)
    requires frames != [] && FramesFit(frames)
    ensures FirstBody(Down(frames)) == Whole(Body(frames[0]), Down(frames[1..]))
    ensures match frames[0]
            case Ask(n, data) =>
              Framing.PhoneReads(Body(frames[0])).Asked?
              && Framing.PhoneReads(Body(frames[0])).echo == BigEndian(n, 4)
              && Framing.PhoneReads(Body(frames[0])).request == data
              && Number(BigEndian(n, 4)) == n
            case Withdraw(_) => Framing.PhoneReads(Body(frames[0])).Withdrawn?
  {
    assert FrameFits(frames[0]);
    hide Framing.PhoneReads, Framing.Frame, Body, FirstBody, BigEndian, Number;
    BodyIsRead(frames[0]);
    FirstBodyIsCut(Body(frames[0]), Down(frames[1..]));
  }

  lemma BodyIsRead(f: Frame)
    requires FrameFits(f)
    ensures 1 <= |Body(f)| <= Framing.MAX_BODY
    ensures match f
            case Ask(n, data) =>
              Framing.PhoneReads(Body(f)).Asked?
              && Framing.PhoneReads(Body(f)).echo == BigEndian(n, 4)
              && Framing.PhoneReads(Body(f)).request == data
              && Number(BigEndian(n, 4)) == n
            case Withdraw(_) => Framing.PhoneReads(Body(f)).Withdrawn?
  {
    hide Framing.PhoneReads, Framing.DecodeResponse, Framing.PhoneAnswers, Framing.AskBody, Framing.CancelBody;
    Framing.NumbersSurvive(f.number, if f.Ask? then f.data else [], []);
    Pow256Values();
    NumberOfBigEndian(f.number, 4);
    hide BigEndian, Number;
    WithdrawalIsShort(f.number);
    assert f.number % 0x1_0000_0000 == f.number;
  }

  lemma WithdrawalIsShort(n: Word)
    ensures |Framing.CancelBody(n)| == 5 && forall data :: |Framing.AskBody(n, data)| == 5 + |data|
  {
  }

  /** The first frame is taken from the queue and from the bytes. */
  lemma PhoneTakesFirst(m: Machine, l: nat, result: seq<byte>, frames: seq<Frame>)
    requires Sizable(result) && frames != [] && FramesFit(frames) && Queue(m.down, l) == Down(frames)
    ensures
      var down := m.down[l := Down(frames[1..])];
      PhoneTook(m, l, result)
      == match frames[0]
         case Ask(n, data) =>
           m.(down := down, up := m.up[l := Queue(m.up, l) + Framing.Frame(AnswerBody((n, result)))],
              core := m.core.(handled := m.core.handled + {Handled(l, n, data, result)}))
         case Withdraw(_) => m.(down := down)
  {
    FirstFrameIsRead(frames);
    hide Down, Body, FirstBody, Framing.PhoneReads, Framing.Frame, BigEndian, Number;
  }

  lemma PhoneInStep(m: Machine, s: State, l: nat, result: seq<byte>)
    requires InStep(m, s) && Sizable(result)
    ensures InStep(PhoneTook(m, l, result), PhoneHandled(s, l, result))
  {
    var frames := Queue(s.outbox, l);
    assert Queue(m.down, l) == Down(frames) && FramesFit(frames);
    if frames == [] {
      assert Queue(m.down, l) == [];
    } else {
      PhoneTakesFirst(m, l, result, frames);
      FramesAreTaken(m.down, s.outbox, l);
      PhoneHandlesFirst(s, l, result, frames);
      hide PhoneTook, PhoneHandled, Down, Up, AnswerBody, Framing.Frame, DownIs, UpIs, ReportsOf, Pop, Push, FramesFit;
      hide Bare, BooksFit;
      if frames[0].Ask? {
        AnswersAreAdded(m.up, s.inbox, l, (frames[0].number, result));
      }
    }
  }

  lemma PhoneHandlesFirst(s: State, l: nat, result: seq<byte>, frames: seq<Frame>)
    requires Queue(s.outbox, l) == frames != [] && result != [] && BooksFit(s)
    ensures
      var t := PhoneHandled(s, l, result);
      && BooksFit(t) && t.replies == s.replies && t.outbox == Pop(s.outbox, l)
      && match frames[0]
         case Ask(n, data) =>
           Bare(t) == Bare(s).(handled := Bare(s).handled + {Handled(l, n, data, result)})
           && t.inbox == Push(s.inbox, l, (n, result))
         case Withdraw(_) => Bare(t) == Bare(s) && t.inbox == s.inbox
  {
    hide Push, Pop;
  }

  lemma FramesAreTaken(down: map<nat, seq<byte>>, outbox: map<nat, seq<Frame>>, l: nat)
    requires DownIs(down, outbox) && Queue(outbox, l) != []
    ensures DownIs(down[l := Down(Queue(outbox, l)[1..])], Pop(outbox, l))
    ensures FrameFits(Queue(outbox, l)[0])
  {
    hide Down, FrameFits;
    var taken := down[l := Down(Queue(outbox, l)[1..])];
    forall k: nat
      ensures Queue(taken, k) == Down(Queue(Pop(outbox, l), k)) && FramesFit(Queue(Pop(outbox, l), k))
    {
      assert FramesFit(Queue(outbox, k));
    }
  }

  lemma AnswersAreAdded(up: map<nat, seq<byte>>, inbox: map<nat, seq<Answer>>, l: nat, a: Answer)
    requires UpIs(up, inbox) && AnswerFits(a)
    ensures UpIs(up[l := Queue(up, l) + Framing.Frame(AnswerBody(a))], Push(inbox, l, a))
  {
    hide Up, AnswerFits, AnswerBody;
    UpSnoc(Queue(inbox, l), a);
    var more := up[l := Queue(up, l) + Framing.Frame(AnswerBody(a))];
    forall k: nat
      ensures Queue(more, k) == Up(Queue(Push(inbox, l, a), k)) && AnswersFit(Queue(Push(inbox, l, a), k))
    {
      assert AnswersFit(Queue(inbox, k));
    }
  }

  /** What the daemon's reader makes of the first answer in the queue. */
  lemma FirstAnswerIsRead(answers: seq<Answer>)
    requires answers != [] && AnswersFit(answers)
    ensures Framing.DecodeResponse(AnswerBody(answers[0])) == Some(answers[0])
    ensures var cut := FirstBody(Up(answers));
            cut == Whole(AnswerBody(answers[0]), Up(answers[1..])) || cut == Broken
  {
    hide BigEndian, Number;
    assert AnswerFits(answers[0]);
    Pow256Values();
    NumberOfBigEndian(answers[0].0, 4);
    var body := AnswerBody(answers[0]);
    assert body[1..5] == BigEndian(answers[0].0, 4) && body[5..] == answers[0].1;
    FirstBodyIsCut(body, Up(answers[1..]));
  }

  lemma AnswersAreTaken(up: map<nat, seq<byte>>, inbox: map<nat, seq<Answer>>, l: nat)
    requires UpIs(up, inbox) && Queue(inbox, l) != []
    ensures UpIs(up[l := Up(Queue(inbox, l)[1..])], Pop(inbox, l))
  {
    hide Up, AnswerFits;
    var taken := up[l := Up(Queue(inbox, l)[1..])];
    forall k: nat
      ensures Queue(taken, k) == Up(Queue(Pop(inbox, l), k)) && AnswersFit(Queue(Pop(inbox, l), k))
    {
      assert AnswersFit(Queue(inbox, k));
    }
  }

  lemma DaemonInStep(m: Machine, s: State, l: nat)
    requires InStep(m, s)
    ensures InStep(DaemonTook(m, l), Run(s, Shadow(m, DaemonTakes(l))))
  {
    hide Inner, InStep;
    OneEvent(s, Close(l));
    OneEvent(s, Deliver(l));
    if FirstBody(Queue(m.up, l)).Broken? {
      hide *;
      InnerInStep(m, s, Close(l));
      BrokenCloses(m, l);
    } else {
      hide FirstBody, Framing.DecodeResponse;
      ReaderInStep(m, s, l);
    }
  }

  lemma ReaderInStep(m: Machine, s: State, l: nat)
    requires InStep(m, s) && !FirstBody(Queue(m.up, l)).Broken?
    ensures InStep(DaemonTook(m, l), Delivered(s, l))
  {
    var answers := Queue(s.inbox, l);
    assert Queue(m.up, l) == Up(answers) && AnswersFit(answers);
    if answers == [] {
      assert Queue(m.up, l) == [];
    } else {
      FirstAnswerIsRead(answers);
      AnswersAreTaken(m.up, s.inbox, l);
      hide Up, AnswerBody, FirstBody, DownIs, UpIs, BooksFit, ReportsOf, Framing.DecodeResponse, Push, Pop;
    }
  }

  lemma BrokenCloses(m: Machine, l: nat)
    requires FirstBody(Queue(m.up, l)).Broken?
    ensures DaemonTook(m, l) == Inner(m, Close(l)) && Shadow(m, DaemonTakes(l)) == [Close(l)]
  {
    hide Inner, FirstBody;
  }

  lemma TakingIsHandling(m: Machine, s: State, l: nat, result: seq<byte>)
    ensures Next(s, PhoneHandles(l, result)) == PhoneHandled(s, l, result)
    ensures !Sizable(result) ==> PhoneTook(m, l, result) == m
  {
  }

  /** Every step on bytes carries out one event of `Protocol` or none. */
  lemma StepsInStep(m: Machine, s: State, step: Step)
    requires InStep(m, s) && AllOpen(m.partials)
    ensures InStep(Do(m, step), Run(s, Shadow(m, step)))
  {
    hide InStep, Inner, Reported, Dispatched, PhoneTook, DaemonTook, Next;
    match step
    case Report(r) => ReportInStep(m, s, r);
    case Dispatch => DispatchInStep(m, s);
    case Inside(e) =>
      if Spontaneous(e) {
        InnerInStep(m, s, e);
        OneEvent(s, e);
      }
    case PhoneTakes(l, result) =>
      if Sizable(result) {
        PhoneInStep(m, s, l, result);
        OneEvent(s, PhoneHandles(l, result));
      }
      TakingIsHandling(m, s, l, result);
      RunNothing(s);
    case DaemonTakes(l) => DaemonInStep(m, s, l);
  }

  lemma {:induction false} AlwaysInStep(m: Machine, s: State, steps: seq<Step>)
    requires InStep(m, s) && AllOpen(m.partials)
    ensures InStep(DoAll(m, steps), Run(s, ShadowAll(m, steps)))
    decreases |steps|
  {
    hide InStep, Do, Shadow, Next, Run;
    if steps != [] {
      var first := Shadow(m, steps[0]);
      StepsInStep(m, s, steps[0]);
      AlwaysInStep(Do(m, steps[0]), Run(s, first), steps[1..]);
      RunConcat(s, first, ShadowAll(Do(m, steps[0]), steps[1..]));
    } else {
      RunNothing(s);
    }
  }

  // ---- From the host -----------------------------------------------------------------------------------------

  function PartialsAfter(partials: map<Channel, Partial>, arrivals: seq<Arrival>): (after: map<Channel, Partial>)
    requires AllOpen(partials)
    ensures AllOpen(after)
    decreases |arrivals|
  {
    if arrivals == [] then partials else PartialsAfter(Receive(partials, arrivals[0]).0, arrivals[1..])
  }

  lemma {:induction false} ReceiveAllSnoc(partials: map<Channel, Partial>, arrivals: seq<Arrival>, a: Arrival)
    requires AllOpen(partials)
    ensures var (after, message) := Receive(PartialsAfter(partials, arrivals), a);
            && PartialsAfter(partials, arrivals + [a]) == after
            && ReceiveAll(partials, arrivals + [a])
               == ReceiveAll(partials, arrivals) + if message.Some? then [message.value] else []
    decreases |arrivals|
  {
    hide Receive;
    if arrivals == [] {
      assert [] + [a] == [a] && [a][1..] == [];
    } else {
      ReceiveAllSnoc(Receive(partials, arrivals[0]).0, arrivals[1..], a);
      assert (arrivals + [a])[1..] == arrivals[1..] + [a];
    }
  }

  /** All messages that the host's reports completed. */
  function FromHost(arrivals: seq<Arrival>): seq<Message> {
    ReceiveAll(map[], arrivals)
  }

  /** Every request is one of the host's messages, and there are no more requests than messages. */
  predicate Sourced(m: Machine) {
    && m.partials == PartialsAfter(map[], m.arrivals)
    && (m.complete.Some? ==> m.complete.value in FromHost(m.arrivals))
    && (forall n <- m.core.requests ::
          Message(m.core.requests[n].channel, CBOR, m.core.requests[n].data) in FromHost(m.arrivals))
    && m.core.issued + (if m.complete.Some? then 1 else 0) <= |FromHost(m.arrivals)|
  }

  /** Only an accepted message makes a request. */
  lemma OnlyMessagesAreRequests(s: State, e: Event)
    ensures e.Accept? ==>
              forall n <- Next(s, e).requests ::
                || (n in s.requests && Next(s, e).requests[n] == s.requests[n])
                || Next(s, e).requests[n] == Protocol.Request(e.channel, e.data)
    ensures Next(s, e).issued <= s.issued + if e.Accept? then 1 else 0
    ensures !e.Accept? ==> Next(s, e).requests == s.requests
  {
    hide Protocol.Moved, Connected, Closed, Told, PhoneHandled, Delivered;
    match e
    case Accept(_, _) =>
    case Cancel(_, _) =>
    case Handler(n, move) =>
      if Working(s, n) {
        MovesAreOfFourKinds(s, n, move);
      }
    case _ => TransportIsAside(s, e);
  }

  lemma InnerIsSourced(m: Machine, e: Event)
    requires Sourced(m) && !e.Accept?
    ensures Sourced(Inner(m, e))
  {
    hide Next, FromHost, Written, NewReports;
    OnlyMessagesAreRequests(m.core, e);
  }

  lemma ReportIsSourced(m: Machine, r: seq<byte>)
    requires Sourced(m) && AllOpen(m.partials)
    ensures Sourced(Reported(m, r))
  {
    hide Next, Receive, Inner, ChannelOf;
    if m.complete.None? {
      var a := Arrival(r, BusyChannel(m.core));
      ReceiveAllSnoc(map[], m.arrivals, a);
      if Withdraws(r) {
        var e := Cancel(Some(ChannelOf(r)), r[4] == INIT);
        InnerIsSourced(m, e);
        InnerIsAside(m, e);
      }
    }
  }

  lemma InnerIsAside(m: Machine, e: Event)
    ensures var n := Inner(m, e);
            n.partials == m.partials && n.complete == m.complete && n.arrivals == m.arrivals && n.up == m.up
  {
    hide Next, Written, NewReports;
  }

  lemma DispatchIsSourced(m: Machine)
    requires Sourced(m)
    ensures Sourced(Dispatched(m))
  {
    hide Next, FromHost, Written, NewReports;
    if m.complete.Some? && m.complete.value.command == CBOR {
      OnlyMessagesAreRequests(m.core, Accept(m.complete.value.channel, m.complete.value.data));
    }
  }

  /** Nothing that the host's messages are compared with changes. */
  predicate SameSource(m: Machine, n: Machine) {
    && n.partials == m.partials && n.complete == m.complete && n.arrivals == m.arrivals
    && n.core.requests == m.core.requests && n.core.issued == m.core.issued
  }

  lemma SameSourceIsSourced(m: Machine, n: Machine)
    requires Sourced(m) && SameSource(m, n)
    ensures Sourced(n)
  {
    hide FromHost;
  }

  lemma PhonesAreAside(m: Machine, l: nat, result: seq<byte>)
    ensures SameSource(m, PhoneTook(m, l, result))
  {
    hide FirstBody, Framing.PhoneReads, Framing.Frame, Framing.PhoneAnswers, Queue;
  }

  lemma ReadersAreAside(m: Machine, l: nat)
    requires !FirstBody(Queue(m.up, l)).Broken?
    ensures SameSource(m, DaemonTook(m, l))
  {
    hide FirstBody, Framing.DecodeResponse, Queue, Push, Inner;
  }

  lemma StepsAreSourced(m: Machine, step: Step)
    requires Sourced(m) && AllOpen(m.partials)
    ensures Sourced(Do(m, step))
  {
    hide Sourced, SameSource, Inner, Reported, Dispatched, PhoneTook, DaemonTook, FirstBody, Queue;
    match step
    case Report(r) => ReportIsSourced(m, r);
    case Dispatch => DispatchIsSourced(m);
    case Inside(e) => if Spontaneous(e) { InnerIsSourced(m, e); }
    case PhoneTakes(l, result) =>
      PhonesAreAside(m, l, result);
      SameSourceIsSourced(m, PhoneTook(m, l, result));
    case DaemonTakes(l) =>
      if FirstBody(Queue(m.up, l)).Broken? {
        InnerIsSourced(m, Close(l));
        BrokenCloses(m, l);
      } else {
        ReadersAreAside(m, l);
        SameSourceIsSourced(m, DaemonTook(m, l));
      }
  }

  lemma {:induction false} AlwaysSourced(m: Machine, steps: seq<Step>)
    requires Sourced(m) && AllOpen(m.partials)
    ensures Sourced(DoAll(m, steps))
    decreases |steps|
  {
    hide Sourced, Do;
    if steps != [] {
      StepsAreSourced(m, steps[0]);
      AlwaysSourced(Do(m, steps[0]), steps[1..]);
    }
  }

  lemma TheBeginning()
    ensures InStep(BEGIN, START) && Sourced(BEGIN)
  {
  }

  // ---- From the host's bytes to the host's bytes ---------------------------------------------------------------

  /** What `RepliesAreTrue` says of one reply, and that its request was one of the host's messages. */
  ghost predicate Honest(m: Machine, r: Sent) {
    && r.number in m.core.requests && m.core.requests[r.number].channel == r.channel
    && Message(r.channel, CBOR, m.core.requests[r.number].data) in FromHost(m.arrivals)
    && (Failure(r.payload) || (Success(r.payload) && exists l :: Genuine(m.core, l, r.number, r.payload)))
  }

  lemma GenuineBare(s: State, n: nat, payload: seq<byte>)
    ensures (exists l :: Genuine(s, l, n, payload)) ==> exists l :: Genuine(Bare(s), l, n, payload)
  {
    if l :| Genuine(s, l, n, payload) {
      assert Genuine(Bare(s), l, n, payload);
    }
  }

  /**
   * For every run on bytes in which the host sent fewer than 2^32 messages: the reports of the final
   * replies are those of the replies of a run of `Protocol`; each reply answers one of the host's
   * messages on its channel with a failure, or with exactly what one phone, whose reader cut this
   * message from its bytes, returned for it; and no message's request is answered twice.
   */
  lemma HostBytesToHostBytes(steps: seq<Step>)
    requires |FromHost(DoAll(BEGIN, steps).arrivals)| < 0x1_0000_0000
    ensures
      var m := DoAll(BEGIN, steps);
      && m.reports == ReportsOf(m.core.replies)
      && (forall r <- m.core.replies :: Honest(m, r))
      && forall n <- m.core.requests ::
           && RepliesTo(m.core.replies, n) <= 1
           && n in m.core.stages
           && (!Active(m.core.stages[n]) ==> RepliesTo(m.core.replies, n) == 1 || n in m.core.abandoned)
  {
    TheBeginning();
    hide DoAll, ShadowAll, Run, RepliesTo, ReportsOf, FromHost, DownIs, UpIs, BooksFit;
    AlwaysInStep(BEGIN, START, steps);
    AlwaysSourced(BEGIN, steps);
    var m, events := DoAll(BEGIN, steps), ShadowAll(BEGIN, steps);
    var s := Run(START, events);
    RepliesAreTrue(events);
    EveryRequestIsAnsweredOnce(events);
    forall r | r in m.core.replies
      ensures Honest(m, r)
    {
      GenuineBare(s, r.number, r.payload);
    }
  }

  // ---- At the host ------------------------------------------------------------------------------------------------

  /** Reports as the host reads them: nothing is ever refused there. */
  function Heard(reports: seq<seq<byte>>): (arrivals: seq<Arrival>)
    ensures |arrivals| == |reports|
    ensures forall i :: 0 <= i < |reports| ==> arrivals[i] == Arrival(reports[i], None)
  {
    seq(|reports|, i requires 0 <= i < |reports| => Arrival(reports[i], None))
  }

  function RepliesOn(replies: seq<Sent>, c: Channel): seq<Message> {
    if replies == [] then [] else
      var r := replies[|replies| - 1];
      RepliesOn(replies[..|replies| - 1], c) + if r.channel == c then [Message(c, CBOR, r.payload)] else []
  }

  function Left(p: Option<Partial>, arrivals: seq<Arrival>): (q: Option<Partial>)
    requires Readable(arrivals) && (p.Some? ==> Open(p.value))
    ensures q.Some? ==> Open(q.value)
    decreases |arrivals|
  {
    if arrivals == [] then p else Left(Feed(p, Refused(arrivals[0]), arrivals[0].report).partial, arrivals[1..])
  }

  lemma {:induction false} FeedAllConcat(p: Option<Partial>, a: seq<Arrival>, b: seq<Arrival>)
    requires Readable(a) && Readable(b) && (p.Some? ==> Open(p.value))
    ensures FeedAll(p, a + b) == FeedAll(p, a) + FeedAll(Left(p, a), b)
    decreases |a|
  {
    hide Feed, Refused;
    if a == [] {
      assert a + b == b;
    } else {
      assert (a + b)[1..] == a[1..] + b;
      FeedAllConcat(Feed(p, Refused(a[0]), a[0].report).partial, a[1..], b);
    }
  }

  lemma {:induction false} NamedConcat(c: Channel, a: seq<Partial>, b: seq<Partial>)
    ensures Named(c, a + b) == Named(c, a) + Named(c, b)
  {
    if a == [] {
      assert a + b == b;
    } else {
      assert (a + b)[1..] == a[1..] + b;
      NamedConcat(c, a[1..], b);
    }
  }

  lemma {:induction false} AllOnChannel(arrivals: seq<Arrival>, c: Channel)
    requires forall i :: 0 <= i < |arrivals| ==> |arrivals[i].report| >= 5 && ChannelOf(arrivals[i].report) == c
    ensures OnChannel(arrivals, c) == arrivals
  {
    hide ChannelOf;
    if arrivals != [] {
      assert forall i :: 0 <= i < |arrivals[1..]| ==> arrivals[1..][i] == arrivals[i + 1];
      AllOnChannel(arrivals[1..], c);
      assert [arrivals[0]] + arrivals[1..] == arrivals;
    }
  }

  /** The reports of one reply name its channel, and carry its packets. */
  lemma ReportsNameTheirChannel(r: Sent)
    ensures var own, packets := Heard(ReportsOfOne(r)), Packets(r.channel, CBOR, r.payload);
            && |own| == |packets| > 0
            && forall i :: 0 <= i < |own| ==>
                 && |own[i].report| >= 5 && ChannelOf(own[i].report) == r.channel
                 && Carries(own[i].report, packets[i]) && own[i].busy.None?
  {
    hide BigEndian, ChannelOf;
    var own, packets := Heard(ReportsOfOne(r)), Packets(r.channel, CBOR, r.payload);
    ContinuationsNameTheChannel(r.channel, r.payload[Min(|r.payload|, FIRST)..], 0);
    ContinuationsAreShort(r.channel, r.payload[Min(|r.payload|, FIRST)..], 0);
    forall i | 0 <= i < |own|
      ensures |own[i].report| >= 5 && ChannelOf(own[i].report) == r.channel && Carries(own[i].report, packets[i])
    {
      assert packets[i][..4] == BigEndian(r.channel, 4) && 5 <= |packets[i]| <= REPORT;
      CarriedChannel(own[i].report, packets[i], r.channel);
    }
  }

  lemma {:induction false} ContinuationsAreShort(c: Channel, rest: seq<byte>, sequence: byte)
    ensures forall i :: 0 <= i < |Continuations(c, rest, sequence)| ==> |Continuations(c, rest, sequence)[i]| <= REPORT
    decreases |rest|
  {
    hide BigEndian;
    if rest != [] {
      ContinuationsAreShort(c, rest[Min(|rest|, NEXT)..], (sequence + 1) % 256);
    }
  }

  lemma OneReplyIsReadBack(p: Option<Partial>, r: Sent, c: Channel)
    requires |r.payload| <= MAX_MESSAGE && (p.Some? ==> Open(p.value))
    ensures Named(c, FeedAll(p, OnChannel(Heard(ReportsOfOne(r)), c)))
         == if r.channel == c then [Message(c, CBOR, r.payload)] else []
  {
    hide ReportsOfOne, Packets, Carries, ChannelOf, Feed;
    var own := Heard(ReportsOfOne(r));
    ReportsNameTheirChannel(r);
    if r.channel == c {
      AllOnChannel(own, c);
      FeedPackets(p, Message(c, CBOR, r.payload), own);
      var done := FeedAll(p, own);
      assert done == [done[0]] && done[1..] == [];
    } else {
      ForeignersAreSkipped(own, c);
    }
  }

  lemma {:induction false} RepliesAreFed(replies: seq<Sent>, c: Channel)
    requires forall r <- replies :: |r.payload| <= MAX_MESSAGE
    ensures Named(c, FeedAll(None, OnChannel(Heard(ReportsOf(replies)), c))) == RepliesOn(replies, c)
  {
    hide ReportsOfOne, FeedAll, Named;
    if replies == [] {
      NothingIsFed(c);
    } else {
      var last := |replies| - 1;
      var before, own := ReportsOf(replies[..last]), ReportsOfOne(replies[last]);
      RepliesAreFed(replies[..last], c);
      assert Heard(before + own) == Heard(before) + Heard(own);
      OnChannelConcat(Heard(before), Heard(own), c);
      var a, b := OnChannel(Heard(before), c), OnChannel(Heard(own), c);
      FeedAllConcat(None, a, b);
      NamedConcat(c, FeedAll(None, a), FeedAll(Left(None, a), b));
      OneReplyIsReadBack(Left(None, a), replies[last], c);
    }
  }

  lemma NothingIsFed(c: Channel)
    ensures Named(c, FeedAll(None, OnChannel(Heard([]), c))) == []
  {
  }

  /** From the reports of the replies the host puts together exactly the payloads of each channel, in order. */
  lemma RepliesAreReadBack(replies: seq<Sent>, c: Channel)
    requires forall r <- replies :: |r.payload| <= MAX_MESSAGE
    ensures ForChannel(ReceiveAll(map[], Heard(ReportsOf(replies))), c) == RepliesOn(replies, c)
  {
    hide ReportsOf, FeedAll, Named;
    ChannelsAreIndependent(map[], Heard(ReportsOf(replies)), c);
    RepliesAreFed(replies, c);
  }

  lemma {:induction false} RepliesOnAreReplies(replies: seq<Sent>, c: Channel, i: nat) returns (k: nat)
    requires i < |RepliesOn(replies, c)|
    ensures k < |replies| && replies[k].channel == c && RepliesOn(replies, c)[i] == Message(c, CBOR, replies[k].payload)
  {
    var last := |replies| - 1;
    if i < |RepliesOn(replies[..last], c)| {
      k := RepliesOnAreReplies(replies[..last], c, i);
    } else {
      k := last;
    }
  }

  /**
   * What the host puts together from the bytes it gets: every message on a channel is a reply to a
   * message that the host itself sent on that channel, and it is a failure or what a phone returned
   * for that message's bytes.
   */
  lemma WhatTheHostReads(steps: seq<Step>, c: Channel, i: nat)
    requires var m := DoAll(BEGIN, steps);
             && |FromHost(m.arrivals)| < 0x1_0000_0000
             && (forall r <- m.core.replies :: |r.payload| <= MAX_MESSAGE)
             && i < |ForChannel(ReceiveAll(map[], Heard(m.reports)), c)|
    ensures var m := DoAll(BEGIN, steps);
            var read := ForChannel(ReceiveAll(map[], Heard(m.reports)), c)[i];
            exists n :: Honest(m, Sent(n, c, read.data)) && read == Message(c, CBOR, read.data)
  {
    hide DoAll, FromHost, ReceiveAll, ReportsOf, Honest, Heard, RepliesOn, RepliesTo, Active;
    var m := DoAll(BEGIN, steps);
    HostBytesToHostBytes(steps);
    RepliesAreReadBack(m.core.replies, c);
    var k := RepliesOnAreReplies(m.core.replies, c, i);
    var r := m.core.replies[k];
    assert r in m.core.replies && Honest(m, r);
    assert r == Sent(r.number, c, r.payload);
  }
}
