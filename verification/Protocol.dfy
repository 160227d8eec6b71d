/**
 * The whole system as a step relation: the daemon's reader, any number of request handlers, any
 * number of phones behind FIFO links that may close. One event is one mutex section, one send, one
 * poll of a queue, or one request handled by a phone; a run is any sequence of events, and an
 * event that is not possible changes nothing.
 */
module Protocol {
  import opened Bytes
  import opened CtapHid
  import opened Rounds
  import Probe

  datatype Request = Request(channel: Channel, data: seq<byte>)

  /** What the daemon sends to a phone. */
  datatype Frame = Ask(number: nat, data: seq<byte>) | Withdraw(number: nat)

  /** A phone took a request from its link and `handle` returned `result`. */
  datatype Handled = Handled(link: nat, number: nat, data: seq<byte>, result: seq<byte>)

  /** A final CBOR reply to the host. */
  datatype Sent = Sent(number: nat, channel: Channel, payload: seq<byte>)

  datatype Work = Work(rounds: seq<seq<Link>>, errors: seq<seq<byte>>)

  /** Where a handler thread stands. */
  datatype Stage =
    | New
    | Listed(devices: seq<Link>)
    | Between(work: Work)
    | Sending(left: seq<Link>, took: seq<Link>, work: Work)
    | Listening(fan: Fan, queue: seq<Link>, work: Work)
    | Leaving(fan: Fan, work: Work)
    | Answering(payload: seq<byte>)
    | Replying(payload: seq<byte>)
    | Finishing
    | Finished

  datatype State = State(
    issued: nat,
    requests: map<nat, Request>,
    stages: map<nat, Stage>,
    shared: map<nat, seq<Link>>,
    busy: Option<nat>,
    holders: set<string>,
    last: Option<string>,
    links: seq<Link>,
    alive: set<nat>,
    outbox: map<nat, seq<Frame>>,
    inbox: map<nat, seq<Answer>>,
    heard: map<nat, seq<Answer>>,
    asked: set<(nat, nat)>,
    handled: set<Handled>,
    replies: seq<Sent>,
    abandoned: set<nat>,
    leaving: set<nat>)

  const START := State(0, map[], map[], map[], None, {}, None, [], {}, map[], map[], map[], {}, {}, [], {}, {})

  datatype Move =
    | List
    | MakePlan(chosen: Option<string>)
    | Advance
    | Send(ok: bool)
    | Poll
    | Stop
    | Conclude
    | Check
    | Answer
    | Finish

  datatype Event =
    | Connect(device: string, caption: string, priority: nat)
    | Close(link: nat)
    | Accept(channel: Channel, data: seq<byte>)
    | Cancel(target: Option<Channel>, abandon: bool)
    | Tell(number: nat)
    | Handler(number: nat, move: Move)
    | PhoneHandles(link: nat, result: seq<byte>)
    | Deliver(link: nat)

  // ---- Queues ---------------------------------------------------------------------------------

  function Queue<T>(queues: map<nat, seq<T>>, l: nat): seq<T> {
    if l in queues then queues[l] else []
  }

  function Push<T>(queues: map<nat, seq<T>>, l: nat, x: T): map<nat, seq<T>> {
    queues[l := Queue(queues, l) + [x]]
  }

  function Pop<T>(queues: map<nat, seq<T>>, l: nat): map<nat, seq<T>>
    requires Queue(queues, l) != []
  {
    queues[l := Queue(queues, l)[1..]]
  }

  function PushAll(queues: map<nat, seq<Frame>>, links: seq<Link>, x: Frame): map<nat, seq<Frame>>
    decreases |links|
  {
    if links == [] then queues else PushAll(Push(queues, links[0].id, x), links[1..], x)
  }

  // ---- Steps ----------------------------------------------------------------------------------

  function Live(links: seq<Link>, alive: set<nat>): seq<Link> {
    if links == [] then []
    else (if links[0].id in alive then [links[0]] else []) + Live(links[1..], alive)
  }

  function Next(s: State, e: Event): State {
    match e
    case Connect(device, caption, priority) => Connected(s, device, caption, priority)
    case Close(l) => Closed(s, l)
    case Accept(channel, data) => Accepted(s, channel, data)
    case Cancel(target, abandon) => Cancelled(s, target, abandon)
    case Tell(n) => Told(s, n)
    case Handler(n, move) => Handle(s, n, move)
    case PhoneHandles(l, result) => PhoneHandled(s, l, result)
    case Deliver(l) => Delivered(s, l)
  }

  function Connected(s: State, device: string, caption: string, priority: nat): State {
    var id := |s.links|;
    s.(links := s.links + [Link(id, device, caption, priority)], alive := s.alive + {id})
  }

  /** The closing mark enters the queue of answers once. */
  function Closed(s: State, l: nat): State {
    if l in s.alive then s.(alive := s.alive - {l}, heard := Push(s.heard, l, (0, []))) else s
  }

  /** A complete CBOR message: it takes a number even when it is then refused as busy. */
  function Accepted(s: State, channel: Channel, data: seq<byte>): State {
    if data == [] || s.alive == {} || channel == 0 || channel == BROADCAST then s else
      var counted := s.(issued := s.issued + 1);
      if s.busy.Some? then counted else Started(counted, counted.issued % 0x1_0000_0000, Request(channel, data))
  }

  /** The request enters the slot and gets a handler. */
  function Started(s: State, number: nat, request: Request): State {
    s.(busy := Some(number), requests := s.requests[number := request],
       stages := s.stages[number := New], shared := s.shared[number := []])
  }

  /** CANCEL or closing withdraws; INIT on the request's own channel also abandons it. */
  function Cancelled(s: State, target: Option<Channel>, abandon: bool): State {
    if s.busy.None? || s.busy.value !in s.requests then s else
      var n := s.busy.value;
      var channel := s.requests[n].channel;
      var noted := if target.None? || target.value == channel then s.(leaving := s.leaving + {n}) else s;
      if abandon && target == Some(channel) then noted.(busy := None, abandoned := s.abandoned + {n}) else noted
  }

  /** A separate section: whoever is pending by then is told. */
  function Told(s: State, n: nat): State {
    if n !in s.leaving then s else s.(outbox := PushAll(s.outbox, Queue(s.shared, n), Withdraw(n)))
  }

  function PhoneHandled(s: State, l: nat, result: seq<byte>): State {
    var frames := Queue(s.outbox, l);
    if frames == [] || result == [] then s else
      var rest := s.(outbox := Pop(s.outbox, l));
      if frames[0].Withdraw? then rest
      else rest.(handled := s.handled + {Handled(l, frames[0].number, frames[0].data, result)},
                 inbox := Push(s.inbox, l, (frames[0].number, result)))
  }

  function Delivered(s: State, l: nat): State {
    var answers := Queue(s.inbox, l);
    if answers == [] then s
    else s.(inbox := Pop(s.inbox, l), heard := Push(s.heard, l, answers[0]))
  }

  function GoTo(s: State, n: nat, stage: Stage): State {
    s.(stages := s.stages[n := stage])
  }

  predicate Working(s: State, n: nat) {
    n in s.requests && n in s.stages && s.requests[n].data != []
  }

  /** One step of the handler of request `n`; a move that its stage does not offer changes nothing. */
  function Handle(s: State, n: nat, move: Move): State {
    if Working(s, n) then Moved(s, n, move) else s
  }

  function Moved(s: State, n: nat, move: Move): State
    requires Working(s, n)
  {
    var request, stage := s.requests[n], s.stages[n];
    match move
    case List => if stage.New? then GoTo(s, n, Listed(ByDevice(Live(s.links, s.alive)))) else s
    case MakePlan(chosen) => if stage.Listed? then PlanFor(s, n, request.data, stage.devices, chosen) else s
    case Advance => if stage.Between? then GoTo(s, n, NextRound(stage.work)) else s
    case Send(ok) => if stage.Sending? then SendOne(s, n, request.data, stage, ok) else s
    case Poll => if stage.Listening? then Listen1(s, n, stage, Wanted(n, Probe.Silent(request.data))) else s
    case Stop => if stage.Listening? then StopListening(s, n, stage) else s
    case Conclude => if stage.Leaving? then ConcludeRound(s, n, request.data, stage) else s
    case Check =>
      if stage.Answering? then GoTo(s, n, if s.busy == Some(n) then Replying(stage.payload) else Finishing) else s
    case Answer =>
      if stage.Replying? then
        GoTo(s.(replies := s.replies + [Sent(n, request.channel, stage.payload)]), n, Finishing) else s
    case Finish =>
      if stage.Finishing? then GoTo(s.(busy := if s.busy == Some(n) then None else s.busy), n, Finished) else s
  }

  function PlanFor(s: State, n: nat, data: seq<byte>, devices: seq<Link>, chosen: Option<string>): State
    requires data != []
  {
    var plan := Plan(chosen, data[0], Probe.Silent(data), s.holders, s.last);
    GoTo(s, n, Between(Work(PlanRounds(devices, plan), [])))
  }

  function NextRound(w: Work): Stage {
    if w.rounds == [] then Answering(FinalError(w.errors))
    else if w.rounds[0] == [] then Between(w.(rounds := w.rounds[1..]))
    else Sending(w.rounds[0], [], w.(rounds := w.rounds[1..]))
  }

  function SendOne(s: State, n: nat, data: seq<byte>, stage: Stage, ok: bool): State
    requires stage.Sending?
  {
    var left, took, w := stage.left, stage.took, stage.work;
    if left == [] then
      GoTo(s.(shared := s.shared[n := took]), n, Listening(Fan(took, [], [], [], false), [], w))
    else if !ok then GoTo(s, n, Sending(left[1..], took, w))
    else GoTo(s.(outbox := Push(s.outbox, left[0].id, Ask(n, data)), asked := s.asked + {(left[0].id, n)}),
              n, Sending(left[1..], took + [left[0]], w))
  }

  /** A new pass begins only while links are pending, nothing ended the round and the slot is still ours. */
  function Listen1(s: State, n: nat, stage: Stage, want: Wanted): State
    requires stage.Listening?
  {
    var fan, queue, w := stage.fan, stage.queue, stage.work;
    if queue == [] then
      if fan.pending != [] && !fan.done && s.busy == Some(n) then GoTo(s, n, Listening(fan, fan.pending, w)) else s
    else
      var l := queue[0];
      var answers := Queue(s.heard, l.id);
      if answers == [] then GoTo(s, n, Listening(fan, queue[1..], w)) else
        var next := Absorb(fan, l, answers[0], want);
        GoTo(s.(heard := Pop(s.heard, l.id)), n, Listening(next, if next.done then [] else queue[1..], w))
  }

  function StopListening(s: State, n: nat, stage: Stage): State
    requires stage.Listening?
  {
    if stage.queue != [] then s
    else GoTo(s.(shared := s.shared[n := []], outbox := PushAll(s.outbox, stage.fan.pending, Withdraw(n))),
              n, Leaving(stage.fan, stage.work))
  }

  function ConcludeRound(s: State, n: nat, data: seq<byte>, stage: Stage): State
    requires stage.Leaving? && data != []
  {
    var fan, w := stage.fan, stage.work;
    var errors := w.errors + Payloads(fan.failed);
    if fan.wins != [] then GoTo(Record(s, data[0], Probe.Silent(data), fan.wins), n, Answering(fan.wins[0].1))
    else if exists e <- Payloads(fan.failed) :: !NoCredentials(e) then GoTo(s, n, Answering(FinalError(errors)))
    else GoTo(s, n, Between(w.(errors := errors)))
  }

  /** The last winner of a GetAssertion is remembered, and after a probe everyone who held a key. */
  function Record(s: State, command: byte, probe: bool, wins: seq<Reply>): State
    requires wins != []
  {
    if command != GET_ASSERTION then s
    else s.(last := Some(wins[0].0.device),
            holders := if probe then set w <- wins :: w.0.device else s.holders)
  }

  function Run(s: State, events: seq<Event>): State
    decreases |events|
  {
    if events == [] then s else Run(Next(s, events[0]), events[1..])
  }

  lemma RunCons(s: State, e: Event, rest: seq<Event>)
    ensures Run(s, [e] + rest) == Run(Next(s, e), rest)
  {
    assert ([e] + rest)[1..] == rest;
  }

  lemma {:induction false} RunConcat(s: State, first: seq<Event>, rest: seq<Event>)
    ensures Run(s, first + rest) == Run(Run(s, first), rest)
    decreases |first|
  {
    hide Next;
    if first == [] {
      assert first + rest == rest;
    } else {
      assert (first + rest)[1..] == first[1..] + rest;
      RunConcat(Next(s, first[0]), first[1..], rest);
    }
  }

  lemma RunNothing(s: State)
    ensures Run(s, []) == s
  {
  }

  /** Every case of a move goes to one stage, whatever else it changes. */
  lemma WhereItGoes()
    ensures forall s: State, n: nat, stage: Stage ::
              n in GoTo(s, n, stage).stages && GoTo(s, n, stage).stages[n] == stage
  {
  }

  // ---- What replies rest on -------------------------------------------------------------------

  /** `result` is what the phone on link `l`, asked for request `n`, returned for that request's bytes. */
  predicate Genuine(s: State, l: nat, n: nat, result: seq<byte>) {
    && n in s.requests && (l, n) in s.asked
    && Handled(l, n, s.requests[n].data, result) in s.handled && result != []
  }

  predicate Failure(payload: seq<byte>) {
    payload != [] && payload[0] != 0
  }

  predicate Success(payload: seq<byte>) {
    payload != [] && payload[0] == 0
  }

  /** A success that some phone returned for request `n`, or a non-zero status. */
  ghost predicate Truthful(s: State, n: nat, payload: seq<byte>) {
    Failure(payload) || (Success(payload) && exists l :: Genuine(s, l, n, payload))
  }

  predicate TrueFrames(s: State, l: nat, frames: seq<Frame>) {
    forall i :: 0 <= i < |frames| && frames[i].Ask? ==>
      && frames[i].number in s.requests && s.requests[frames[i].number].data == frames[i].data
      && (l, frames[i].number) in s.asked
  }

  predicate TrueAnswers(s: State, l: nat, answers: seq<Answer>) {
    forall i :: 0 <= i < |answers| ==> Closes(answers[i]) || Genuine(s, l, answers[i].0, answers[i].1)
  }

  predicate TrueFan(s: State, n: nat, fan: Fan) {
    && (forall i :: 0 <= i < |fan.wins| ==> Success(fan.wins[i].1) && Genuine(s, fan.wins[i].0.id, n, fan.wins[i].1))
    && (forall i :: 0 <= i < |fan.failed| ==> Failure(fan.failed[i].1))
  }

  predicate Failures(errors: seq<seq<byte>>) {
    forall i :: 0 <= i < |errors| ==> Failure(errors[i])
  }

  ghost predicate TrueStage(s: State, n: nat, stage: Stage) {
    match stage
    case Between(w) => Failures(w.errors)
    case Sending(_, _, w) => Failures(w.errors)
    case Listening(fan, _, w) => Failures(w.errors) && TrueFan(s, n, fan)
    case Leaving(fan, w) => Failures(w.errors) && TrueFan(s, n, fan)
    case Answering(payload) => Truthful(s, n, payload)
    case Replying(payload) => Truthful(s, n, payload)
    case _ => true
  }

  ghost predicate TrueReply(s: State, r: Sent) {
    r.number in s.requests && s.requests[r.number].channel == r.channel && Truthful(s, r.number, r.payload)
  }

  /** Everything `s` holds is true of the requests, sends and answers of `t`. */
  ghost predicate TrueIn(t: State, s: State) {
    && (forall n <- s.requests :: 1 <= n <= s.issued)
    && (forall l <- s.outbox :: TrueFrames(t, l, s.outbox[l]))
    && (forall l <- s.inbox :: TrueAnswers(t, l, s.inbox[l]))
    && (forall l <- s.heard :: TrueAnswers(t, l, s.heard[l]))
    && (forall n <- s.stages :: TrueStage(t, n, s.stages[n]))
    && (forall i :: 0 <= i < |s.replies| ==> TrueReply(t, s.replies[i]))
  }

  ghost predicate Truth(s: State) {
    TrueIn(s, s)
  }

  /** What has been accepted, asked and handled stays so. */
  predicate Grows(s: State, t: State) {
    && (forall n <- s.requests :: n in t.requests && t.requests[n] == s.requests[n])
    && s.asked <= t.asked && s.handled <= t.handled
  }

  lemma TruthfulGrows(s: State, t: State, n: nat, payload: seq<byte>)
    requires Grows(s, t) && Truthful(s, n, payload)
    ensures Truthful(t, n, payload)
  {
    if !Failure(payload) {
      var l :| Genuine(s, l, n, payload);
      assert Genuine(t, l, n, payload);
    }
  }

  lemma StageGrows(s: State, t: State, n: nat, stage: Stage)
    requires Grows(s, t) && TrueStage(s, n, stage)
    ensures TrueStage(t, n, stage)
  {
    match stage
    case Answering(payload) => TruthfulGrows(s, t, n, payload);
    case Replying(payload) => TruthfulGrows(s, t, n, payload);
    case _ =>
  }

  /** Truth does not get lost. */
  lemma TruthGrows(s: State, t: State)
    requires Grows(s, t) && Truth(s)
    ensures TrueIn(t, s)
  {
    hide Truthful, TrueStage, Failures;
    forall n | n in s.stages
      ensures TrueStage(t, n, s.stages[n])
    {
      StageGrows(s, t, n, s.stages[n]);
    }
    forall i | 0 <= i < |s.replies|
      ensures TrueReply(t, s.replies[i])
    {
      assert TrueReply(s, s.replies[i]);
      TruthfulGrows(s, t, s.replies[i].number, s.replies[i].payload);
    }
  }

  // ---- One component at a time ------------------------------------------------------------------

  lemma StageIsTrue(s: State, n: nat, stage: Stage)
    requires Truth(s) && TrueStage(s, n, stage)
    ensures Truth(GoTo(s, n, stage)) && Grows(s, GoTo(s, n, stage))
  {
    hide TrueStage, TrueReply, TrueFrames, TrueAnswers;
    TruthGrows(s, GoTo(s, n, stage));
    StageGrows(s, GoTo(s, n, stage), n, stage);
  }

  lemma FramesAreTrue(s: State, outbox: map<nat, seq<Frame>>)
    requires Truth(s) && forall l <- outbox :: TrueFrames(s, l, outbox[l])
    ensures var t := s.(outbox := outbox); Truth(t) && Grows(s, t)
  {
    hide TrueStage, TrueReply, TrueAnswers;
    TruthGrows(s, s.(outbox := outbox));
  }

  lemma InboxIsTrue(s: State, inbox: map<nat, seq<Answer>>)
    requires Truth(s) && forall l <- inbox :: TrueAnswers(s, l, inbox[l])
    ensures var t := s.(inbox := inbox); Truth(t) && Grows(s, t)
  {
    hide TrueStage, TrueReply, TrueFrames;
    TruthGrows(s, s.(inbox := inbox));
  }

  lemma HeardIsTrue(s: State, heard: map<nat, seq<Answer>>)
    requires Truth(s) && forall l <- heard :: TrueAnswers(s, l, heard[l])
    ensures var t := s.(heard := heard); Truth(t) && Grows(s, t)
  {
    hide TrueStage, TrueReply, TrueFrames;
    TruthGrows(s, s.(heard := heard));
  }

  lemma ReplyIsTrue(s: State, r: Sent)
    requires Truth(s) && TrueReply(s, r)
    ensures var t := s.(replies := s.replies + [r]); Truth(t) && Grows(s, t)
  {
    hide TrueStage, TrueFrames, TrueAnswers;
    var t := s.(replies := s.replies + [r]);
    TruthGrows(s, t);
    TruthfulGrows(s, t, r.number, r.payload);
  }

  lemma MoreIsTrue(s: State, asked: set<(nat, nat)>, handled: set<Handled>)
    requires Truth(s)
    ensures var t := s.(asked := s.asked + asked, handled := s.handled + handled); Truth(t) && Grows(s, t)
  {
    TruthGrows(s, s.(asked := s.asked + asked, handled := s.handled + handled));
  }

  /** Fields that no claim mentions. */
  lemma RestIsFree(s: State, t: State)
    requires Truth(s) && s.issued <= t.issued
    requires s.requests == t.requests && s.stages == t.stages && s.outbox == t.outbox && s.inbox == t.inbox
    requires s.heard == t.heard && s.asked == t.asked && s.handled == t.handled && s.replies == t.replies
    ensures Truth(t) && Grows(s, t)
  {
    hide TrueStage, TrueReply, TrueFrames, TrueAnswers;
    TruthGrows(s, t);
  }

  lemma GrowsOn(s: State, t: State, u: State)
    requires Grows(s, t) && Grows(t, u)
    ensures Grows(s, u)
  {
  }

  lemma {:induction false} WithdrawalsAreTrue(t: State, queues: map<nat, seq<Frame>>, links: seq<Link>, n: nat)
    requires forall l <- queues :: TrueFrames(t, l, queues[l])
    ensures forall l <- PushAll(queues, links, Withdraw(n)) :: TrueFrames(t, l, PushAll(queues, links, Withdraw(n))[l])
    decreases |links|
  {
    if links != [] {
      WithdrawalsAreTrue(t, Push(queues, links[0].id, Withdraw(n)), links[1..], n);
    }
  }

  lemma ErrorsAreFailures(w: Work, failed: seq<Reply>)
    requires Failures(w.errors) && forall i :: 0 <= i < |failed| ==> Failure(failed[i].1)
    ensures Failures(w.errors + Payloads(failed))
    ensures Failure(FinalError(w.errors + Payloads(failed)))
  {
    hide FinalError, FirstOther;
    var errors := w.errors + Payloads(failed);
    FinalErrorFails(errors);
  }

  lemma FinalErrorFails(errors: seq<seq<byte>>)
    requires Failures(errors)
    ensures Failure(FinalError(errors))
  {
    NoCredentialsIsUnanimous(errors);
    if errors == [] {
      assert FinalError(errors) == [OTHER];
    } else {
      var i :| 0 <= i < |errors| && errors[i] == FinalError(errors);
    }
  }

  lemma AbsorbIsTrue(t: State, n: nat, fan: Fan, l: Link, answer: Answer, want: Wanted)
    requires TrueFan(t, n, fan) && want.number == n
    requires Closes(answer) || Genuine(t, l.id, answer.0, answer.1)
    ensures TrueFan(t, n, Absorb(fan, l, answer, want))
  {
    hide Drop;
  }

  lemma PollIsTrue(s: State, n: nat, stage: Stage, want: Wanted)
    requires Truth(s) && want.number == n && stage.Listening? && TrueStage(s, n, stage)
    ensures var t := Listen1(s, n, stage, want); Truth(t) && Grows(s, t)
  {
    hide Absorb, Failures, TrueFan, Truth, Grows, Genuine, GoTo;
    var fan, queue, w := stage.fan, stage.queue, stage.work;
    if queue == [] {
      StageIsTrue(s, n, Listening(fan, fan.pending, w));
      RestIsFree(s, s);
    } else if Queue(s.heard, queue[0].id) == [] {
      StageIsTrue(s, n, Listening(fan, queue[1..], w));
    } else {
      AbsorbedIsTrue(s, n, stage, want);
    }
  }

  lemma AbsorbedIsTrue(s: State, n: nat, stage: Stage, want: Wanted)
    requires Truth(s) && want.number == n && stage.Listening? && TrueStage(s, n, stage)
    requires stage.queue != [] && Queue(s.heard, stage.queue[0].id) != []
    ensures var t := Listen1(s, n, stage, want); Truth(t) && Grows(s, t)
  {
    hide Absorb, Failures, TrueFan, Grows, Genuine, GoTo, TrueReply, TrueFrames;
    var l := stage.queue[0];
    var answers := Queue(s.heard, l.id);
    assert TrueAnswers(s, l.id, answers);
    AnswersMove(s, s.heard, l.id, answers[0]);
    AbsorbIsTrue(s, n, stage.fan, l, answers[0], want);
    var u := s.(heard := Pop(s.heard, l.id));
    HeardIsTrue(s, u.heard);
    var next := Absorb(stage.fan, l, answers[0], want);
    FanGrows(s, u, n, next);
    StageIsTrue(u, n, Listening(next, if next.done then [] else stage.queue[1..], stage.work));
    GrowsOn(s, u, Listen1(s, n, stage, want));
  }

  lemma FanGrows(s: State, t: State, n: nat, fan: Fan)
    requires Grows(s, t) && TrueFan(s, n, fan)
    ensures TrueFan(t, n, fan)
  {
  }

  lemma SendIsTrue(s: State, n: nat, stage: Stage, ok: bool)
    requires Truth(s) && n in s.requests && stage.Sending? && TrueStage(s, n, stage)
    ensures var t := SendOne(s, n, s.requests[n].data, stage, ok); Truth(t) && Grows(s, t)
  {
    hide Failures, TrueFan, Truth, Grows, GoTo, Push;
    var left, took, w := stage.left, stage.took, stage.work;
    if left == [] {
      var u := s.(shared := s.shared[n := took]);
      RestIsFree(s, u);
      EmptyFan(u, n, took);
      StageIsTrue(u, n, Listening(Fan(took, [], [], [], false), [], w));
      GrowsOn(s, u, SendOne(s, n, s.requests[n].data, stage, ok));
    } else if !ok {
      StageIsTrue(s, n, Sending(left[1..], took, w));
    } else {
      var u := s.(asked := s.asked + {(left[0].id, n)});
      MoreIsTrue(s, {(left[0].id, n)}, {});
      assert u == s.(asked := s.asked + {(left[0].id, n)}, handled := s.handled + {});
      AskIsTrue(u, left[0].id, n);
      var v := u.(outbox := Push(u.outbox, left[0].id, Ask(n, s.requests[n].data)));
      FramesAreTrue(u, v.outbox);
      StageIsTrue(v, n, Sending(left[1..], took + [left[0]], w));
      GrowsOn(s, u, v);
      GrowsOn(s, v, SendOne(s, n, s.requests[n].data, stage, ok));
    }
  }

  lemma StopIsTrue(s: State, n: nat, stage: Stage)
    requires Truth(s) && stage.Listening? && TrueStage(s, n, stage)
    ensures var t := StopListening(s, n, stage); Truth(t) && Grows(s, t)
  {
    hide Failures, TrueFan, Grows, GoTo, PushAll, TrueReply, TrueAnswers, TrueFrames;
    if stage.queue != [] {
      RestIsFree(s, s);
    } else {
      var u := s.(shared := s.shared[n := []]);
      RestIsFree(s, u);
      WithdrawalsAreTrue(u, u.outbox, stage.fan.pending, n);
      var v := u.(outbox := PushAll(u.outbox, stage.fan.pending, Withdraw(n)));
      FramesAreTrue(u, v.outbox);
      GrowsOn(s, u, v);
      FanGrows(s, v, n, stage.fan);
      StageIsTrue(v, n, Leaving(stage.fan, stage.work));
      GrowsOn(s, v, StopListening(s, n, stage));
    }
  }

  lemma ConcludeIsTrue(s: State, n: nat, data: seq<byte>, stage: Stage)
    requires Truth(s) && stage.Leaving? && TrueStage(s, n, stage) && data != []
    ensures var t := ConcludeRound(s, n, data, stage); Truth(t) && Grows(s, t)
  {
    hide Truth, Failures, TrueFan, Grows, GoTo, FinalError, Payloads, Truthful;
    ConclusionIsTrue(s, n, stage.fan, stage.work);
    var errors := stage.work.errors + Payloads(stage.fan.failed);
    if stage.fan.wins != [] {
      var u := Record(s, data[0], Probe.Silent(data), stage.fan.wins);
      RestIsFree(s, u);
      TruthfulGrows(s, u, n, stage.fan.wins[0].1);
      StageIsTrue(u, n, Answering(stage.fan.wins[0].1));
      GrowsOn(s, u, ConcludeRound(s, n, data, stage));
    } else {
      StageIsTrue(s, n, Answering(FinalError(errors)));
      StageIsTrue(s, n, Between(stage.work.(errors := errors)));
    }
  }

  lemma AnswerIsTrue(s: State, n: nat, payload: seq<byte>)
    requires Truth(s) && n in s.requests && Truthful(s, n, payload)
    ensures var t := GoTo(s.(replies := s.replies + [Sent(n, s.requests[n].channel, payload)]), n, Finishing);
            Truth(t) && Grows(s, t)
  {
    hide Truth, Grows, GoTo, Truthful;
    var r := Sent(n, s.requests[n].channel, payload);
    var u := s.(replies := s.replies + [r]);
    ReplyIsTrue(s, r);
    StageIsTrue(u, n, Finishing);
    GrowsOn(s, u, GoTo(u, n, Finishing));
  }

  lemma FinishIsTrue(s: State, n: nat)
    requires Truth(s)
    ensures var t := GoTo(s.(busy := if s.busy == Some(n) then None else s.busy), n, Finished); Truth(t) && Grows(s, t)
  {
    hide Truth, Grows, GoTo;
    var u := s.(busy := if s.busy == Some(n) then None else s.busy);
    RestIsFree(s, u);
    StageIsTrue(u, n, Finished);
    GrowsOn(s, u, GoTo(u, n, Finished));
  }

  lemma HandlerIsTrue(s: State, n: nat, move: Move)
    requires Truth(s) && Working(s, n)
    ensures var t := Moved(s, n, move); Truth(t) && Grows(s, t)
  {
    hide PlanRounds, ByDevice, Live, FinalError, Truthful, TrueFan, Failures, Grows, GoTo,
         SendOne, Listen1, StopListening, ConcludeRound;
    hide TrueFrames, TrueAnswers, TrueReply;
    var stage := s.stages[n];
    assert TrueStage(s, n, stage);
    RestIsFree(s, s);
    match move
    case List => StageIsTrue(s, n, Listed(ByDevice(Live(s.links, s.alive))));
    case MakePlan(chosen) =>
      if stage.Listed? {
        var plan := Plan(chosen, s.requests[n].data[0], Probe.Silent(s.requests[n].data), s.holders, s.last);
        NoFailuresYet();
        StageIsTrue(s, n, Between(Work(PlanRounds(stage.devices, plan), [])));
      }
    case Advance =>
      if stage.Between? {
        AdvanceIsTrue(s, n, stage.work);
        StageIsTrue(s, n, NextRound(stage.work));
      }
    case Send(ok) =>
      if stage.Sending? {
        SendIsTrue(s, n, stage, ok);
      }
    case Poll =>
      if stage.Listening? {
        PollIsTrue(s, n, stage, Wanted(n, Probe.Silent(s.requests[n].data)));
      }
    case Stop =>
      if stage.Listening? {
        StopIsTrue(s, n, stage);
      }
    case Conclude =>
      if stage.Leaving? {
        ConcludeIsTrue(s, n, s.requests[n].data, stage);
      }
    case Check =>
      if stage.Answering? {
        StageIsTrue(s, n, Replying(stage.payload));
        StageIsTrue(s, n, Finishing);
      }
    case Answer =>
      if stage.Replying? {
        AnswerIsTrue(s, n, stage.payload);
      }
    case Finish => FinishIsTrue(s, n);
  }

  lemma NoFailuresYet()
    ensures Failures([])
  {
  }

  lemma EmptyFan(t: State, n: nat, took: seq<Link>)
    ensures TrueFan(t, n, Fan(took, [], [], [], false))
  {
  }

  lemma AskIsTrue(t: State, l: nat, n: nat)
    requires Truth(t) && n in t.requests && (l, n) in t.asked
    ensures var more := Push(t.outbox, l, Ask(n, t.requests[n].data));
            forall k <- more :: TrueFrames(t, k, more[k])
  {
    hide TrueStage, TrueReply, TrueAnswers;
  }

  lemma AdvanceIsTrue(t: State, n: nat, w: Work)
    requires Failures(w.errors)
    ensures Truthful(t, n, FinalError(w.errors))
  {
    FinalErrorFails(w.errors);
  }

  lemma ConclusionIsTrue(t: State, n: nat, fan: Fan, w: Work)
    requires TrueFan(t, n, fan) && Failures(w.errors)
    ensures fan.wins != [] ==> Truthful(t, n, fan.wins[0].1)
    ensures Failures(w.errors + Payloads(fan.failed))
    ensures Truthful(t, n, FinalError(w.errors + Payloads(fan.failed)))
  {
    ErrorsAreFailures(w, fan.failed);
    if fan.wins != [] {
      assert Genuine(t, fan.wins[0].0.id, n, fan.wins[0].1);
    }
  }

  lemma AnswersMove(t: State, queues: map<nat, seq<Answer>>, l: nat, a: Answer)
    requires forall k <- queues :: TrueAnswers(t, k, queues[k])
    requires Closes(a) || Genuine(t, l, a.0, a.1)
    ensures forall k <- Push(queues, l, a) :: TrueAnswers(t, k, Push(queues, l, a)[k])
    ensures Queue(queues, l) != [] ==> forall k <- Pop(queues, l) :: TrueAnswers(t, k, Pop(queues, l)[k])
  {
    hide Genuine;
  }

  lemma PhoneIsTrue(s: State, l: nat, result: seq<byte>)
    requires Truth(s)
    ensures var t := PhoneHandled(s, l, result); Truth(t) && Grows(s, t)
  {
    hide TrueStage, TrueReply, TrueAnswers, Grows;
    var frames := Queue(s.outbox, l);
    if frames == [] || result == [] {
      RestIsFree(s, s);
    } else {
      var f := frames[0];
      assert TrueFrames(s, l, frames) && TrueFrames(s, l, frames[1..]);
      var u := s.(outbox := Pop(s.outbox, l));
      FramesAreTrue(s, u.outbox);
      if f.Ask? {
        assert f.number in s.requests && s.requests[f.number].data == f.data && (l, f.number) in s.asked;
        ResultIsTrue(u, l, f.number, result);
        GrowsOn(s, u, PhoneHandled(s, l, result));
      }
    }
  }

  lemma ResultIsTrue(u: State, l: nat, n: nat, result: seq<byte>)
    requires Truth(u) && n in u.requests && (l, n) in u.asked && result != []
    ensures var t := u.(handled := u.handled + {Handled(l, n, u.requests[n].data, result)},
                        inbox := Push(u.inbox, l, (n, result)));
            Truth(t) && Grows(u, t)
  {
    hide TrueStage, TrueReply, TrueFrames, Grows;
    var h := Handled(l, n, u.requests[n].data, result);
    var v := u.(handled := u.handled + {h});
    MoreIsTrue(u, {}, {h});
    assert v == u.(asked := u.asked + {}, handled := u.handled + {h});
    AnswersMove(v, v.inbox, l, (n, result));
    var w := v.(inbox := Push(v.inbox, l, (n, result)));
    InboxIsTrue(v, w.inbox);
    GrowsOn(u, v, w);
  }

  lemma DeliveryIsTrue(s: State, l: nat)
    requires Truth(s)
    ensures var t := Delivered(s, l); Truth(t) && Grows(s, t)
  {
    hide TrueStage, TrueReply, TrueFrames, Genuine, Grows;
    var answers := Queue(s.inbox, l);
    if answers == [] {
      RestIsFree(s, s);
    } else {
      assert TrueAnswers(s, l, answers);
      AnswersMove(s, s.heard, l, answers[0]);
      AnswersMove(s, s.inbox, l, answers[0]);
      var u := s.(heard := Push(s.heard, l, answers[0]));
      HeardIsTrue(s, u.heard);
      DeliveredIsTrue(s, u, Pop(s.inbox, l));
      GrowsOn(s, u, Delivered(s, l));
    }
  }

  lemma DeliveredIsTrue(s: State, u: State, inbox: map<nat, seq<Answer>>)
    requires Truth(u) && Grows(s, u) && forall l <- inbox :: TrueAnswers(s, l, inbox[l])
    ensures var t := u.(inbox := inbox); Truth(t) && Grows(u, t)
  {
    hide TrueStage, TrueReply, TrueFrames, Truth;
    forall l | l in inbox
      ensures TrueAnswers(u, l, inbox[l])
    {
      assert TrueAnswers(s, l, inbox[l]);
    }
    InboxIsTrue(u, inbox);
  }

  lemma RequestIsTrue(s: State, n: nat, request: Request)
    requires Truth(s) && n !in s.requests && 1 <= n <= s.issued
    ensures var t := s.(requests := s.requests[n := request]); Truth(t) && Grows(s, t)
  {
    hide TrueStage, TrueReply, TrueFrames, TrueAnswers;
    TruthGrows(s, s.(requests := s.requests[n := request]));
  }

  lemma StartIsTrue(s: State, n: nat, request: Request)
    requires Truth(s) && n !in s.requests && 1 <= n <= s.issued
    ensures Truth(Started(s, n, request)) && Grows(s, Started(s, n, request))
  {
    hide Truth, Grows;
    var u := s.(requests := s.requests[n := request]);
    RequestIsTrue(s, n, request);
    var v := u.(busy := Some(n), shared := s.shared[n := []]);
    RestIsFree(u, v);
    StageIsTrue(v, n, New);
    GrowsOn(s, u, v);
    GrowsOn(s, v, GoTo(v, n, New));
  }

  lemma AcceptIsTrue(s: State, channel: Channel, data: seq<byte>)
    requires Truth(s) && Accepted(s, channel, data).issued < 0x1_0000_0000
    ensures var t := Accepted(s, channel, data); Truth(t) && Grows(s, t)
  {
    hide Grows, Started, TrueStage, TrueReply, TrueFrames, TrueAnswers;
    var counted := s.(issued := s.issued + 1);
    assert Started(counted, counted.issued % 0x1_0000_0000, Request(channel, data)).issued == counted.issued by {
      StartCounts(counted, counted.issued % 0x1_0000_0000, Request(channel, data));
    }
    RestIsFree(s, s);
    RestIsFree(s, counted);
    if s.issued + 1 < 0x1_0000_0000 && counted.issued !in s.requests {
      StartIsTrue(counted, counted.issued, Request(channel, data));
      GrowsOn(s, counted, Started(counted, counted.issued, Request(channel, data)));
    }
  }

  lemma StartCounts(s: State, n: nat, request: Request)
    ensures Started(s, n, request).issued == s.issued
  {
  }

  lemma CancelIsTrue(s: State, target: Option<Channel>, abandon: bool)
    requires Truth(s)
    ensures var t := Cancelled(s, target, abandon); Truth(t) && Grows(s, t)
  {
    hide Truth, Grows;
    RestIsFree(s, Cancelled(s, target, abandon));
  }

  lemma TellIsTrue(s: State, n: nat)
    requires Truth(s)
    ensures var t := Told(s, n); Truth(t) && Grows(s, t)
  {
    hide TrueStage, TrueReply, TrueFrames, TrueAnswers, Grows, PushAll;
    RestIsFree(s, s);
    WithdrawalsAreTrue(s, s.outbox, Queue(s.shared, n), n);
    FramesAreTrue(s, PushAll(s.outbox, Queue(s.shared, n), Withdraw(n)));
  }

  lemma CloseIsTrue(s: State, l: nat)
    requires Truth(s)
    ensures var t := Closed(s, l); Truth(t) && Grows(s, t)
  {
    hide TrueStage, TrueReply, TrueFrames, TrueAnswers, Grows;
    AnswersMove(s, s.heard, l, (0, []));
    var u := s.(heard := Push(s.heard, l, (0, [])));
    HeardIsTrue(s, u.heard);
    RestIsFree(u, u.(alive := s.alive - {l}));
    GrowsOn(s, u, u.(alive := s.alive - {l}));
    RestIsFree(s, s);
  }

  lemma ConnectIsTrue(s: State, device: string, caption: string, priority: nat)
    requires Truth(s)
    ensures var t := Connected(s, device, caption, priority); Truth(t) && Grows(s, t)
  {
    hide Truth, Grows;
    RestIsFree(s, Connected(s, device, caption, priority));
  }

  lemma TruthKept(s: State, e: Event)
    requires Truth(s) && Next(s, e).issued < 0x1_0000_0000
    ensures Truth(Next(s, e)) && Grows(s, Next(s, e))
  {
    hide Truth, Grows, Moved, Connected, Closed, Accepted, Cancelled, Told, PhoneHandled, Delivered;
    match e
    case Connect(device, caption, priority) => ConnectIsTrue(s, device, caption, priority);
    case Close(l) => CloseIsTrue(s, l);
    case Accept(channel, data) => AcceptIsTrue(s, channel, data);
    case Cancel(target, abandon) => CancelIsTrue(s, target, abandon);
    case Tell(n) => TellIsTrue(s, n);
    case Handler(n, move) =>
      RestIsFree(s, s);
      if Working(s, n) {
        HandlerIsTrue(s, n, move);
      }
    case PhoneHandles(l, result) => PhoneIsTrue(s, l, result);
    case Deliver(l) => DeliveryIsTrue(s, l);
  }

  lemma {:induction false} RunIsMonotone(s: State, events: seq<Event>)
    ensures s.issued <= Run(s, events).issued
    decreases |events|
  {
    hide Next;
    if events != [] {
      HandlersIssueNothing(s, events[0]);
      RunIsMonotone(Next(s, events[0]), events[1..]);
    }
  }

  lemma HandlersIssueNothing(s: State, e: Event)
    ensures s.issued <= Next(s, e).issued
  {
    hide Moved, PushAll, Push, Pop, Queue;
    if e.Handler? && Working(s, e.number) {
      MovesAreOfFourKinds(s, e.number, e.move);
    }
  }

  // ---- What a handler's move can touch --------------------------------------------------------------

  /** Before its handler begins to finish, a request is active. */
  predicate Active(stage: Stage) {
    !stage.Finishing? && !stage.Finished?
  }

  predicate SameBooks(s: State, t: State) {
    t.requests == s.requests && t.abandoned == s.abandoned && t.issued == s.issued
  }

  /** A move of an active handler that leaves slot and replies alone and stays active. */
  predicate Quiet(s: State, t: State, n: nat)
    requires n in s.stages
  {
    && SameBooks(s, t) && t.busy == s.busy && t.replies == s.replies && n in t.stages
    && t.stages == s.stages[n := t.stages[n]]
    && (t.stages[n] == s.stages[n] || (Active(s.stages[n]) && Active(t.stages[n])))
  }

  lemma GoingIsQuiet(s: State, u: State, n: nat, stage: Stage)
    requires n in s.stages && Active(s.stages[n]) && Active(stage)
    requires SameBooks(s, u) && u.busy == s.busy && u.replies == s.replies && u.stages == s.stages
    ensures Quiet(s, GoTo(u, n, stage), n)
  {
  }

  lemma StayingIsQuiet(s: State, n: nat)
    requires n in s.stages
    ensures Quiet(s, s, n)
  {
  }

  lemma SendIsQuiet(s: State, n: nat, data: seq<byte>, ok: bool)
    requires n in s.stages && s.stages[n].Sending?
    ensures Quiet(s, SendOne(s, n, data, s.stages[n], ok), n)
  {
    hide Quiet, GoTo, Push;
    var stage := s.stages[n];
    var left, took, w := stage.left, stage.took, stage.work;
    if left == [] {
      GoingIsQuiet(s, s.(shared := s.shared[n := took]), n, Listening(Fan(took, [], [], [], false), [], w));
    } else if !ok {
      GoingIsQuiet(s, s, n, Sending(left[1..], took, w));
    } else {
      var u := s.(outbox := Push(s.outbox, left[0].id, Ask(n, data)), asked := s.asked + {(left[0].id, n)});
      GoingIsQuiet(s, u, n, Sending(left[1..], took + [left[0]], w));
    }
  }

  lemma ListenIsQuiet(s: State, n: nat, want: Wanted)
    requires n in s.stages && s.stages[n].Listening?
    ensures Quiet(s, Listen1(s, n, s.stages[n], want), n)
    ensures Quiet(s, StopListening(s, n, s.stages[n]), n)
  {
    hide Quiet, GoTo, Absorb, PushAll, Pop, Queue;
    var stage := s.stages[n];
    var fan, queue, w := stage.fan, stage.queue, stage.work;
    StayingIsQuiet(s, n);
    if queue == [] {
      GoingIsQuiet(s, s, n, Listening(fan, fan.pending, w));
      GoingIsQuiet(s, s.(shared := s.shared[n := []], outbox := PushAll(s.outbox, fan.pending, Withdraw(n))), n,
                   Leaving(fan, w));
    } else {
      var answers := Queue(s.heard, queue[0].id);
      GoingIsQuiet(s, s, n, Listening(fan, queue[1..], w));
      if answers != [] {
        var next := Absorb(fan, queue[0], answers[0], want);
        GoingIsQuiet(s, s.(heard := Pop(s.heard, queue[0].id)), n,
                     Listening(next, if next.done then [] else queue[1..], w));
      }
    }
  }

  lemma PlanAndConclusionAreQuiet(s: State, n: nat, data: seq<byte>, chosen: Option<string>)
    requires n in s.stages && data != []
    ensures s.stages[n].Listed? ==> Quiet(s, PlanFor(s, n, data, s.stages[n].devices, chosen), n)
    ensures s.stages[n].Leaving? ==> Quiet(s, ConcludeRound(s, n, data, s.stages[n]), n)
    ensures s.stages[n].Between? ==> Quiet(s, GoTo(s, n, NextRound(s.stages[n].work)), n)
  {
    hide Quiet, GoTo, PlanRounds, FinalError, Payloads;
    var stage := s.stages[n];
    if stage.Listed? {
      var plan := Plan(chosen, data[0], Probe.Silent(data), s.holders, s.last);
      GoingIsQuiet(s, s, n, Between(Work(PlanRounds(stage.devices, plan), [])));
    } else if stage.Between? {
      GoingIsQuiet(s, s, n, NextRound(stage.work));
    } else if stage.Leaving? {
      var fan, w := stage.fan, stage.work;
      var errors := w.errors + Payloads(fan.failed);
      if fan.wins != [] {
        GoingIsQuiet(s, Record(s, data[0], Probe.Silent(data), fan.wins), n, Answering(fan.wins[0].1));
      } else {
        GoingIsQuiet(s, s, n, Answering(FinalError(errors)));
        GoingIsQuiet(s, s, n, Between(w.(errors := errors)));
      }
    }
  }

  /** The four kinds of move: quiet, dropped because the slot is lost, replied, finished. */
  datatype Kind = Silently | Dropped | Replied | Ended

  function KindOf(s: State, n: nat, move: Move): Kind
    requires n in s.stages
  {
    var stage := s.stages[n];
    if move.Check? && stage.Answering? && s.busy != Some(n) then Dropped
    else if move.Answer? && stage.Replying? then Replied
    else if move.Finish? && stage.Finishing? then Ended
    else Silently
  }

  lemma MovesAreOfFourKinds(s: State, n: nat, move: Move)
    requires Working(s, n)
    ensures var t := Moved(s, n, move);
            && SameBooks(s, t) && n in t.stages && t.stages == s.stages[n := t.stages[n]]
            && match KindOf(s, n, move)
               case Silently => Quiet(s, t, n)
               case Dropped => t.stages[n] == Finishing && t.busy == s.busy && t.replies == s.replies
               case Replied =>
                 t.stages[n] == Finishing && t.busy == s.busy
                 && t.replies == s.replies + [Sent(n, s.requests[n].channel, s.stages[n].payload)]
               case Ended =>
                 t.stages[n] == Finished && t.replies == s.replies
                 && t.busy == if s.busy == Some(n) then None else s.busy
  {
    hide PlanFor, SendOne, Listen1, StopListening, ConcludeRound, ByDevice, Live, NextRound;
    var data, stage := s.requests[n].data, s.stages[n];
    StayingIsQuiet(s, n);
    match move
    case List =>
      if stage.New? {
        GoingIsQuiet(s, s, n, Listed(ByDevice(Live(s.links, s.alive))));
      }
    case MakePlan(chosen) => PlanAndConclusionAreQuiet(s, n, data, chosen);
    case Advance => PlanAndConclusionAreQuiet(s, n, data, None);
    case Conclude => PlanAndConclusionAreQuiet(s, n, data, None);
    case Send(ok) =>
      if stage.Sending? {
        SendIsQuiet(s, n, data, ok);
      }
    case Poll =>
      if stage.Listening? {
        ListenIsQuiet(s, n, Wanted(n, Probe.Silent(data)));
      }
    case Stop =>
      if stage.Listening? {
        ListenIsQuiet(s, n, Wanted(n, Probe.Silent(data)));
      }
    case _ =>
  }

  lemma {:induction false} TruthAlways(s: State, events: seq<Event>)
    requires Truth(s) && Run(s, events).issued < 0x1_0000_0000
    ensures Truth(Run(s, events))
    decreases |events|
  {
    hide Next, Truth;
    if events != [] {
      RunIsMonotone(Next(s, events[0]), events[1..]);
      TruthKept(s, events[0]);
      TruthAlways(Next(s, events[0]), events[1..]);
    }
  }

  /**
   * In every run with fewer than 2^32 requests, whatever the interleaving, however many phones and
   * whenever links close: each final reply goes to the channel of its request, and it is either a
   * non-zero status or exactly the success that one phone, asked for this very request, returned
   * for its bytes.
   */
  lemma RepliesAreTrue(events: seq<Event>)
    requires Run(START, events).issued < 0x1_0000_0000
    ensures var s := Run(START, events);
            forall r <- s.replies ::
              && r.number in s.requests && s.requests[r.number].channel == r.channel
              && (Failure(r.payload)
                  || (Success(r.payload) && exists l :: Genuine(s, l, r.number, r.payload)))
  {
    hide Run, Genuine;
    TruthAlways(START, events);
    var s := Run(START, events);
    forall r | r in s.replies
      ensures TrueReply(s, r)
    {
    }
  }

  // ---- The slot -----------------------------------------------------------------------------------

  /** Every event but an accepted message, a move and a cancel leaves requests, slot and replies alone. */
  predicate Aside(s: State, t: State) {
    SameBooks(s, t) && t.busy == s.busy && t.stages == s.stages && t.replies == s.replies
  }

  lemma TransportIsAside(s: State, e: Event)
    requires e.Connect? || e.Close? || e.Tell? || e.PhoneHandles? || e.Deliver?
    ensures Aside(s, Next(s, e))
  {
    hide Connected, Closed, PhoneHandled, Delivered, PushAll;
    if e.Connect? {
      ConnectingIsAside(s, e.device, e.caption, e.priority);
    } else if e.PhoneHandles? {
      HandlingIsAside(s, e.link, e.result);
    } else if !e.Tell? {
      ClosingAndDeliveryAreAside(s, e.link);
    }
  }

  lemma ConnectingIsAside(s: State, device: string, caption: string, priority: nat)
    ensures Aside(s, Connected(s, device, caption, priority))
  {
  }

  lemma HandlingIsAside(s: State, l: nat, result: seq<byte>)
    ensures Aside(s, PhoneHandled(s, l, result))
  {
    hide Push, Pop, Queue;
  }

  lemma ClosingAndDeliveryAreAside(s: State, l: nat)
    ensures Aside(s, Closed(s, l)) && Aside(s, Delivered(s, l))
  {
    hide Push, Pop, Queue;
  }

  /** One event: the slot passes from one request to another only through empty. */
  lemma SlotPassesThroughEmpty(s: State, e: Event)
    ensures s.busy.Some? ==> Next(s, e).busy == s.busy || Next(s, e).busy.None?
    ensures s.busy.None? && Next(s, e).busy.Some? ==> e.Accept?
  {
    hide Moved, PushAll, Connected, Closed, PhoneHandled, Delivered;
    match e
    case Accept(_, _) =>
    case Cancel(_, _) =>
    case Handler(n, move) =>
      if Working(s, n) {
        MovesAreOfFourKinds(s, n, move);
      }
    case _ => TransportIsAside(s, e);
  }

  /**
   * Only two things empty the slot: the handler of the very request in it finishes, or INIT on the
   * channel of that request abandons it. In particular a handler that was abandoned never clears a
   * newer request.
   */
  lemma OnlyItsOwnHandlerOrInitEmptiesTheSlot(s: State, e: Event)
    requires s.busy.Some? && Next(s, e).busy != s.busy
    ensures || e == Handler(s.busy.value, Finish)
            || (e.Cancel? && e.abandon && s.busy.value in s.requests
                && e.target == Some(s.requests[s.busy.value].channel)
                && Next(s, e).abandoned == s.abandoned + {s.busy.value})
  {
    hide Moved, PushAll, Connected, Closed, PhoneHandled, Delivered;
    match e
    case Accept(_, _) =>
    case Cancel(_, _) =>
    case Handler(n, move) =>
      if Working(s, n) {
        MovesAreOfFourKinds(s, n, move);
      }
    case _ => TransportIsAside(s, e);
  }

  function RepliesTo(replies: seq<Sent>, n: nat): nat {
    if replies == [] then 0
    else RepliesTo(replies[..|replies| - 1], n) + if replies[|replies| - 1].number == n then 1 else 0
  }

  /** Replied to exactly once, or not at all because INIT abandoned it. */
  predicate Settled(s: State, n: nat) {
    RepliesTo(s.replies, n) == 1 || (RepliesTo(s.replies, n) == 0 && n in s.abandoned)
  }

  predicate InOrder(s: State, n: nat, stage: Stage) {
    match stage
    case Finished => Settled(s, n) && s.busy != Some(n)
    case Finishing => Settled(s, n)
    case _ => RepliesTo(s.replies, n) == 0 && (s.busy == Some(n) || n in s.abandoned)
  }

  predicate Discipline(s: State) {
    && s.requests.Keys == s.stages.Keys
    && (forall n <- s.requests :: 1 <= n <= s.issued && s.requests[n].data != [])
    && (s.busy.Some? ==> s.busy.value in s.requests)
    && (forall i :: 0 <= i < |s.replies| ==> s.replies[i].number in s.requests)
    && (forall n <- s.stages :: InOrder(s, n, s.stages[n]))
  }

  lemma {:induction false} NoReplyYet(replies: seq<Sent>, n: nat)
    requires forall i :: 0 <= i < |replies| ==> replies[i].number != n
    ensures RepliesTo(replies, n) == 0
  {
    if replies != [] {
      NoReplyYet(replies[..|replies| - 1], n);
    }
  }

  lemma OneMoreReply(replies: seq<Sent>, r: Sent, n: nat)
    ensures RepliesTo(replies + [r], n) == RepliesTo(replies, n) + if r.number == n then 1 else 0
  {
    assert (replies + [r])[..|replies|] == replies;
  }

  lemma HandlersAreDisciplined(s: State, n: nat, move: Move)
    requires Discipline(s) && Working(s, n)
    ensures Discipline(Moved(s, n, move))
  {
    hide Moved, RepliesTo;
    var t := Moved(s, n, move);
    MovesAreOfFourKinds(s, n, move);
    assert InOrder(s, n, s.stages[n]);
    forall m | m in t.stages
      ensures InOrder(t, m, t.stages[m])
    {
      assert InOrder(s, m, s.stages[m]);
      if KindOf(s, n, move).Replied? {
        OneMoreReply(s.replies, Sent(n, s.requests[n].channel, s.stages[n].payload), m);
      }
    }
  }

  lemma StartIsDisciplined(s: State, n: nat, request: Request)
    requires Discipline(s) && s.busy.None? && request.data != [] && n !in s.requests && 1 <= n <= s.issued
    ensures Discipline(Started(s, n, request))
  {
    hide RepliesTo, Started;
    NoReplyYet(s.replies, n);
    StartIs(s, n, request);
    var t := Started(s, n, request);
    forall m | m in t.stages
      ensures InOrder(t, m, t.stages[m])
    {
      if m != n {
        assert InOrder(s, m, s.stages[m]);
      }
    }
  }

  lemma StartIs(s: State, n: nat, request: Request)
    ensures
      var t := Started(s, n, request);
      && t.busy == Some(n) && t.requests == s.requests[n := request] && t.stages == s.stages[n := New]
      && t.replies == s.replies && t.abandoned == s.abandoned && t.issued == s.issued
  {
  }

  lemma AcceptIsDisciplined(s: State, channel: Channel, data: seq<byte>)
    requires Discipline(s) && Accepted(s, channel, data).issued < 0x1_0000_0000
    ensures Discipline(Accepted(s, channel, data))
  {
    hide Started, InOrder;
    var counted := s.(issued := s.issued + 1);
    StartCounts(counted, counted.issued % 0x1_0000_0000, Request(channel, data));
    OrderSurvives(s, counted);
    if s.busy.None? && data != [] && counted.issued < 0x1_0000_0000 {
      StartIsDisciplined(counted, counted.issued, Request(channel, data));
    }
  }

  lemma CancelIsDisciplined(s: State, target: Option<Channel>, abandon: bool)
    requires Discipline(s)
    ensures Discipline(Cancelled(s, target, abandon))
  {
    hide Discipline;
    OrderSurvives(s, Cancelled(s, target, abandon));
  }

  lemma StepsAreDisciplined(s: State, e: Event)
    requires Discipline(s) && Next(s, e).issued < 0x1_0000_0000
    ensures Discipline(Next(s, e))
  {
    hide Moved, Discipline, Told, Connected, Closed, Accepted, Cancelled, PhoneHandled, Delivered;
    OrderSurvives(s, s);
    match e
    case Handler(n, move) =>
      if Working(s, n) {
        HandlersAreDisciplined(s, n, move);
      }
    case Accept(channel, data) => AcceptIsDisciplined(s, channel, data);
    case Cancel(target, abandon) => CancelIsDisciplined(s, target, abandon);
    case _ =>
      TransportIsAside(s, e);
      OrderSurvives(s, Next(s, e));
  }

  lemma OrderSurvives(s: State, t: State)
    requires Discipline(s)
    requires t.stages == s.stages && t.replies == s.replies && t.requests == s.requests && s.issued <= t.issued
    requires s.abandoned <= t.abandoned
    requires t.busy == s.busy || (s.busy.Some? && t.busy.None? && s.busy.value in t.abandoned)
    ensures Discipline(t)
  {
    hide RepliesTo;
    forall m | m in t.stages
      ensures InOrder(t, m, t.stages[m])
    {
      assert InOrder(s, m, s.stages[m]);
    }
  }

  lemma {:induction false} DisciplineAlways(s: State, events: seq<Event>)
    requires Discipline(s) && Run(s, events).issued < 0x1_0000_0000
    ensures Discipline(Run(s, events))
    decreases |events|
  {
    hide Next, Discipline;
    if events != [] {
      RunIsMonotone(Next(s, events[0]), events[1..]);
      StepsAreDisciplined(s, events[0]);
      DisciplineAlways(Next(s, events[0]), events[1..]);
    }
  }

  /**
   * In every run: no accepted request gets two final replies; one whose handler is done got exactly
   * one, unless INIT on its own channel abandoned it; one whose handler still works and was not
   * abandoned still holds the slot.
   */
  lemma EveryRequestIsAnsweredOnce(events: seq<Event>)
    requires Run(START, events).issued < 0x1_0000_0000
    ensures var s := Run(START, events);
            && s.requests.Keys == s.stages.Keys
            && forall n <- s.requests ::
                 && RepliesTo(s.replies, n) <= 1
                 && (!Active(s.stages[n]) ==> RepliesTo(s.replies, n) == 1 || n in s.abandoned)
                 && (Active(s.stages[n]) ==> RepliesTo(s.replies, n) == 0 && (s.busy == Some(n) || n in s.abandoned))
  {
    hide Run, RepliesTo;
    DisciplineAlways(START, events);
    var s := Run(START, events);
    forall n | n in s.requests
      ensures InOrder(s, n, s.stages[n])
    {
    }
  }
}
