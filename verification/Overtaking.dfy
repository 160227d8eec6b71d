/**
 * A concrete run in which the sign-in that INIT abandoned is concluded last: the host was sent the
 * success of one phone, and its getNextAssertion goes to the other.
 */
module Overtaking {
  import opened Bytes
  import opened CtapHid
  import opened Rounds
  import opened Protocol
  import Probe
  import Witnesses

  const A := Link(0, "a", "A", 0)
  const B := Link(1, "b", "B", 0)
  const PHONES := [A, B]
  const WON: seq<byte> := [0x00, 0xa0]
  const SIGN_IN: seq<byte> := [GET_ASSERTION]
  const ALONE := Work([], [])

  /** The part of a state that matters here, beside the queues. */
  datatype Page = Page(
    issued: nat,
    requests: map<nat, Request>,
    stages: map<nat, Stage>,
    busy: Option<nat>,
    last: Option<string>,
    replies: seq<Sent>,
    abandoned: set<nat>,
    asked: set<(nat, nat)>)

  function PageOf(s: State): Page {
    Page(s.issued, s.requests, s.stages, s.busy, s.last, s.replies, s.abandoned, s.asked)
  }

  predicate Silence<T(==)>(queues: map<nat, seq<T>>) {
    forall k <- queues :: queues[k] == []
  }

  predicate SilentBut<T(==)>(queues: map<nat, seq<T>>, l: nat) {
    forall k <- queues :: k == l || queues[k] == []
  }

  /** Both phones are there, and the queues between them and the daemon are empty. */
  predicate At(s: State, p: Page) {
    && PageOf(s) == p && s.links == PHONES && s.alive == {0, 1}
    && Silence(s.outbox) && Silence(s.inbox) && Silence(s.heard)
  }

  // ---- One sign-in, asked of one chosen phone -----------------------------------------------------

  /** What is on the way between the daemon and the phone asked. */
  datatype Wire = Wire(out: seq<Frame>, back: seq<Answer>, heard: seq<Answer>)

  const QUIET := Wire([], [], [])

  /** Request `n` got from page `p` to this stage, with this much on the wire to `l`. */
  predicate During(s: State, p: Page, n: nat, l: Link, stage: Stage, asked: set<(nat, nat)>, wire: Wire) {
    && PageOf(s) == p.(stages := p.stages[n := stage], asked := p.asked + asked)
    && s.links == PHONES && s.alive == {0, 1}
    && Queue(s.outbox, l.id) == wire.out && Queue(s.inbox, l.id) == wire.back && Queue(s.heard, l.id) == wire.heard
    && SilentBut(s.outbox, l.id) && SilentBut(s.inbox, l.id) && SilentBut(s.heard, l.id)
  }

  /** Request `n` is a sign-in in the slot, and `l` one of the two phones. */
  predicate Asks(p: Page, n: nat, l: Link) {
    n in p.requests && n in p.stages && p.requests[n].data == SIGN_IN && p.busy == Some(n) && l in PHONES
  }

  lemma BothAreListed()
    ensures ByDevice(Live(PHONES, {0, 1})) == PHONES
    ensures Find(PHONES, "a") == [A] && Find(PHONES, "b") == [B]
  {
    assert PHONES[1..] == [B] && [B][1..] == [];
    assert Live([B], {0, 1}) == [B] + Live([], {0, 1}) == [B];
    assert Live(PHONES, {0, 1}) == [A] + [B] == PHONES;
    assert SortByPriority([B]) == Insert(B, []) == [B] + [] == [B];
    assert SortByPriority(PHONES) == Insert(A, [B]) == [A] + [B] == PHONES;
    assert FirstPerDevice([B], {"a"}) == [B] + FirstPerDevice([], {"a"} + {"b"}) == [B];
    assert {} + {"a"} == {"a"};
    assert FirstPerDevice(PHONES, {}) == [A] + FirstPerDevice([B], {"a"});
    assert Find([B], "b") == [B];
  }

  /** A move that only changes the stage. */
  lemma OnlyTheStage(s: State, p: Page, n: nat, l: Link, a: Stage, b: Stage, asked: set<(nat, nat)>, wire: Wire)
    requires During(s, p, n, l, a, asked, wire)
    ensures During(GoTo(s, n, b), p, n, l, b, asked, wire)
  {
    assert p.stages[n := a][n := b] == p.stages[n := b];
  }

  lemma TheChosenIsPlanned(s: State, p: Page, n: nat, l: Link)
    requires Asks(p, n, l) && During(s, p, n, l, New, {}, QUIET)
    ensures var t := Next(s, Handler(n, List));
            var u := Next(t, Handler(n, MakePlan(Some(l.device))));
            During(Next(u, Handler(n, Advance)), p, n, l, Sending([l], [], ALONE), {}, QUIET)
  {
    BothAreListed();
    hide During, GoTo, ByDevice, Live, Find, Probe.Silent;
    PageDuring(s, p, n, l, New, {}, QUIET);
    OnlyTheStage(s, p, n, l, New, Listed(PHONES), {}, QUIET);
    var t := GoTo(s, n, Listed(PHONES));
    PageDuring(t, p, n, l, Listed(PHONES), {}, QUIET);
    OnlyTheStage(t, p, n, l, Listed(PHONES), Between(Work([[l]], [])), {}, QUIET);
    var u := GoTo(t, n, Between(Work([[l]], [])));
    PageDuring(u, p, n, l, Between(Work([[l]], [])), {}, QUIET);
    assert [[l]][1..] == [];
    OnlyTheStage(u, p, n, l, Between(Work([[l]], [])), Sending([l], [], ALONE), {}, QUIET);
  }

  lemma PageDuring(s: State, p: Page, n: nat, l: Link, stage: Stage, asked: set<(nat, nat)>, wire: Wire)
    requires Asks(p, n, l) && During(s, p, n, l, stage, asked, wire)
    ensures Working(s, n) && s.stages[n] == stage && s.requests[n].data == SIGN_IN && s.busy == Some(n)
    ensures s.links == PHONES && s.alive == {0, 1}
  {
  }

  lemma TheChosenIsAsked(s: State, p: Page, n: nat, l: Link)
    requires Asks(p, n, l) && During(s, p, n, l, Sending([l], [], ALONE), {}, QUIET)
    ensures During(Next(s, Handler(n, Send(true))), p, n, l, Sending([], [l], ALONE), {(l.id, n)},
                   Wire([Ask(n, SIGN_IN)], [], []))
  {
    assert [l][1..] == [] && [] + [l] == [l] && [] + [Ask(n, SIGN_IN)] == [Ask(n, SIGN_IN)];
    var u := s.(outbox := Push(s.outbox, l.id, Ask(n, SIGN_IN)), asked := s.asked + {(l.id, n)});
    assert During(u, p, n, l, Sending([l], [], ALONE), {(l.id, n)}, Wire([Ask(n, SIGN_IN)], [], []));
    OnlyTheStage(u, p, n, l, Sending([l], [], ALONE), Sending([], [l], ALONE), {(l.id, n)},
                 Wire([Ask(n, SIGN_IN)], [], []));
  }

  lemma ListeningBegins(s: State, p: Page, n: nat, l: Link, asked: set<(nat, nat)>, wire: Wire)
    requires Asks(p, n, l) && During(s, p, n, l, Sending([], [l], ALONE), asked, wire)
    ensures During(Next(s, Handler(n, Send(true))), p, n, l, Listening(Fan([l], [], [], [], false), [], ALONE),
                   asked, wire)
  {
    var u := s.(shared := s.shared[n := [l]]);
    assert During(u, p, n, l, Sending([], [l], ALONE), asked, wire);
    OnlyTheStage(u, p, n, l, Sending([], [l], ALONE), Listening(Fan([l], [], [], [], false), [], ALONE), asked, wire);
  }

  lemma ItSaysYes(s: State, p: Page, n: nat, l: Link, stage: Stage, asked: set<(nat, nat)>)
    requires During(s, p, n, l, stage, asked, Wire([Ask(n, SIGN_IN)], [], []))
    ensures During(Next(s, PhoneHandles(l.id, WON)), p, n, l, stage, asked, Wire([], [(n, WON)], []))
  {
    assert [Ask(n, SIGN_IN)][1..] == [] && [] + [(n, WON)] == [(n, WON)];
  }

  lemma TheYesArrives(s: State, p: Page, n: nat, l: Link, stage: Stage, asked: set<(nat, nat)>)
    requires During(s, p, n, l, stage, asked, Wire([], [(n, WON)], []))
    ensures During(Next(s, Deliver(l.id)), p, n, l, stage, asked, Wire([], [], [(n, WON)]))
  {
    assert [(n, WON)][1..] == [] && [] + [(n, WON)] == [(n, WON)];
  }

  function Won(n: nat, l: Link): Fan {
    Fan([], [(l, WON)], [], [(l, (n, WON))], !Probe.Silent(SIGN_IN))
  }

  lemma ThePassBegins(s: State, p: Page, n: nat, l: Link, asked: set<(nat, nat)>, wire: Wire)
    requires Asks(p, n, l) && During(s, p, n, l, Listening(Fan([l], [], [], [], false), [], ALONE), asked, wire)
    ensures During(Next(s, Handler(n, Poll)), p, n, l, Listening(Fan([l], [], [], [], false), [l], ALONE), asked, wire)
  {
    hide During, GoTo, Absorb, Probe.Silent;
    var a, b := Listening(Fan([l], [], [], [], false), [], ALONE), Listening(Fan([l], [], [], [], false), [l], ALONE);
    PageDuring(s, p, n, l, a, asked, wire);
    OnlyTheStage(s, p, n, l, a, b, asked, wire);
  }

  lemma TheYesIsRead(n: nat, l: Link)
    requires n > 0
    ensures Absorb(Fan([l], [], [], [], false), l, (n, WON), Wanted(n, Probe.Silent(SIGN_IN))) == Won(n, l)
  {
    hide Probe.Silent;
    assert Drop([l], l) == [];
    assert [] + [(l, WON)] == [(l, WON)] && [] + [(l, (n, WON))] == [(l, (n, WON))];
  }

  lemma TheYesIsTaken(s: State, p: Page, n: nat, l: Link, stage: Stage, asked: set<(nat, nat)>)
    requires During(s, p, n, l, stage, asked, Wire([], [], [(n, WON)]))
    ensures During(s.(heard := Pop(s.heard, l.id)), p, n, l, stage, asked, QUIET)
    ensures Queue(s.heard, l.id) == [(n, WON)]
  {
    assert [(n, WON)][1..] == [];
  }

  lemma TheYesIsHeard(s: State, p: Page, n: nat, l: Link, asked: set<(nat, nat)>)
    requires Asks(p, n, l) && n > 0
    requires During(s, p, n, l, Listening(Fan([l], [], [], [], false), [l], ALONE), asked, Wire([], [], [(n, WON)]))
    ensures During(Next(s, Handler(n, Poll)), p, n, l, Listening(Won(n, l), [], ALONE), asked, QUIET)
  {
    TheYesIsRead(n, l);
    hide Absorb, Probe.Silent, Won, During, GoTo, Pop, Queue;
    assert [l][1..] == [];
    var u := s.(heard := Pop(s.heard, l.id));
    var a := Listening(Fan([l], [], [], [], false), [l], ALONE);
    PageDuring(s, p, n, l, a, asked, Wire([], [], [(n, WON)]));
    TheYesIsTaken(s, p, n, l, a, asked);
    OnlyTheStage(u, p, n, l, a, Listening(Won(n, l), [], ALONE), asked, QUIET);
  }

  lemma TheRoundEnds(s: State, p: Page, n: nat, l: Link, asked: set<(nat, nat)>)
    requires Asks(p, n, l) && During(s, p, n, l, Listening(Won(n, l), [], ALONE), asked, QUIET)
    ensures During(Next(s, Handler(n, Stop)), p, n, l, Leaving(Won(n, l), ALONE), asked, QUIET)
  {
    hide Probe.Silent;
    var u := s.(shared := s.shared[n := []]);
    assert During(u, p, n, l, Listening(Won(n, l), [], ALONE), asked, QUIET);
    OnlyTheStage(u, p, n, l, Listening(Won(n, l), [], ALONE), Leaving(Won(n, l), ALONE), asked, QUIET);
  }

  /** The handler asks the chosen phone, which agrees; what follows from that is not yet recorded. */
  function Planning(n: nat, l: Link): seq<Event> {
    [Handler(n, List), Handler(n, MakePlan(Some(l.device))), Handler(n, Advance)]
  }

  function Exchange(n: nat, l: Link): seq<Event> {
    [Handler(n, Send(true)), Handler(n, Send(true)), PhoneHandles(l.id, WON), Deliver(l.id), Handler(n, Poll),
     Handler(n, Poll), Handler(n, Stop)]
  }

  lemma TheRoundIsWon(s: State, p: Page, n: nat, l: Link, rest: seq<Event>) returns (t: State)
    requires At(s, p) && Asks(p, n, l) && p.stages[n] == New && n > 0
    ensures At(t, p.(stages := p.stages[n := Leaving(Won(n, l), ALONE)], asked := p.asked + {(l.id, n)}))
    ensures Run(s, Planning(n, l) + (Exchange(n, l) + rest)) == Run(t, rest)
  {
    StartsDuring(s, p, n, l);
    hide At, During, Next, Run, Won, Asks;
    var s3 := Next(Next(Next(s, Planning(n, l)[0]), Planning(n, l)[1]), Planning(n, l)[2]);
    TheChosenIsPlanned(s, p, n, l);
    var e, asked := Exchange(n, l), {(l.id, n)};
    var s4 := Next(s3, e[0]);
    TheChosenIsAsked(s3, p, n, l);
    var s5 := Next(s4, e[1]);
    ListeningBegins(s4, p, n, l, asked, Wire([Ask(n, SIGN_IN)], [], []));
    var waiting := Listening(Fan([l], [], [], [], false), [], ALONE);
    var s6 := Next(s5, e[2]);
    ItSaysYes(s5, p, n, l, waiting, asked);
    var s7 := Next(s6, e[3]);
    TheYesArrives(s6, p, n, l, waiting, asked);
    var s8 := Next(s7, e[4]);
    ThePassBegins(s7, p, n, l, asked, Wire([], [], [(n, WON)]));
    var s9 := Next(s8, e[5]);
    TheYesIsHeard(s8, p, n, l, asked);
    t := Next(s9, e[6]);
    TheRoundEnds(s9, p, n, l, asked);
    EndsDuring(t, p, n, l, Leaving(Won(n, l), ALONE), asked);
    Witnesses.RunThree(s, Planning(n, l), e + rest);
    RunConcat(s3, e, rest);
    Witnesses.RunSeven(s3, e);
  }

  lemma StartsDuring(s: State, p: Page, n: nat, l: Link)
    requires At(s, p) && n in p.stages && p.stages[n] == New
    ensures During(s, p, n, l, New, {}, QUIET)
  {
    assert p.stages[n := New] == p.stages && p.asked + {} == p.asked;
  }

  lemma EndsDuring(s: State, p: Page, n: nat, l: Link, stage: Stage, asked: set<(nat, nat)>)
    requires During(s, p, n, l, stage, asked, QUIET)
    ensures At(s, p.(stages := p.stages[n := stage], asked := p.asked + asked))
  {
  }

  // ---- Single events --------------------------------------------------------------------------------

  lemma ThePhonesConnect()
    ensures At(Next(Next(START, Connect("a", "A", 0)), Connect("b", "B", 0)),
               Page(0, map[], map[], None, None, [], {}, {}))
  {
    assert [] + [A] == [A] && [A] + [B] == PHONES && {} + {0} == {0} && {0} + {1} == {0, 1};
  }

  lemma ARequestComes(s: State, p: Page, channel: Channel, data: seq<byte>)
    requires At(s, p) && p.busy.None? && p.issued < 0xFFFF_FFFF && data != [] && channel != 0 && channel != BROADCAST
    ensures var n := p.issued + 1;
            At(Next(s, Accept(channel, data)),
               p.(issued := n, busy := Some(n), requests := p.requests[n := Request(channel, data)],
                  stages := p.stages[n := New]))
  {
    assert 0 in s.alive;
  }

  lemma InitComes(s: State, p: Page, n: nat)
    requires At(s, p) && p.busy == Some(n) && n in p.requests
    ensures At(Next(s, Cancel(Some(p.requests[n].channel), true)), p.(busy := None, abandoned := p.abandoned + {n}))
  {
  }

  lemma TheWinIsRecorded(s: State, p: Page, n: nat, l: Link)
    requires At(s, p) && n in p.requests && n in p.stages && p.requests[n].data == SIGN_IN
    requires p.stages[n] == Leaving(Won(n, l), ALONE)
    ensures At(Next(s, Handler(n, Conclude)), p.(last := Some(l.device), stages := p.stages[n := Answering(WON)]))
  {
    hide Probe.Silent, FinalError, Payloads;
  }

  lemma TheHostIsTold(s: State, p: Page, n: nat)
    requires At(s, p) && n in p.requests && n in p.stages && p.requests[n].data != [] && p.busy == Some(n)
    requires p.stages[n] == Answering(WON)
    ensures At(Next(Next(Next(s, Handler(n, Check)), Handler(n, Answer)), Handler(n, Finish)),
               p.(busy := None, replies := p.replies + [Sent(n, p.requests[n].channel, WON)],
                  stages := p.stages[n := Finished]))
  {
    assert p.stages[n := Replying(WON)][n := Finishing] == p.stages[n := Finishing];
    assert p.stages[n := Finishing][n := Finished] == p.stages[n := Finished];
  }

  lemma TheRememberedIsPlanned(s: State, p: Page, n: nat)
    requires At(s, p) && n in p.requests && n in p.stages && p.stages[n] == New
    requires p.requests[n].data == [GET_NEXT_ASSERTION] && p.last == Some("b")
    ensures At(Next(Next(s, Handler(n, List)), Handler(n, MakePlan(None))),
               p.(stages := p.stages[n := Between(Work([[B]], []))]))
  {
    hide Probe.Silent, ByDevice, Live, Find;
    BothAreListed();
    assert p.stages[n := Listed(PHONES)][n := Between(Work([[B]], []))] == p.stages[n := Between(Work([[B]], []))];
  }

  // ---- The run ------------------------------------------------------------------------------------------

  const CONNECTED := [Connect("a", "A", 0), Connect("b", "B", 0), Accept(1, SIGN_IN)]
  const ABANDONED := [Cancel(Some(1), true), Accept(2, SIGN_IN)]
  const ANSWERED := [Handler(2, Conclude), Handler(2, Check), Handler(2, Answer), Handler(2, Finish)]
  const OVERTAKEN := [
    Handler(1, Conclude), Accept(2, [GET_NEXT_ASSERTION]), Handler(3, List), Handler(3, MakePlan(None))]

  const FIRST := Page(1, map[1 := Request(1, SIGN_IN)], map[1 := New], Some(1), None, [], {}, {})
  const SECOND := Page(2, map[1 := Request(1, SIGN_IN), 2 := Request(2, SIGN_IN)],
                       map[1 := Leaving(Won(1, B), ALONE), 2 := New], Some(2), None, [], {1}, {(1, 1)})
  const BOTH := SECOND.(stages := map[1 := Leaving(Won(1, B), ALONE), 2 := Leaving(Won(2, A), ALONE)],
                        asked := {(1, 1), (0, 2)})
  const TOLD := BOTH.(stages := map[1 := Leaving(Won(1, B), ALONE), 2 := Finished], busy := None, last := Some("a"),
                      replies := [Sent(2, 2, WON)])

  lemma TheFirstIsAccepted(rest: seq<Event>) returns (s: State)
    ensures At(s, FIRST) && Run(START, CONNECTED + rest) == Run(s, rest)
  {
    hide At, Next, Run;
    ThePhonesConnect();
    var t := Next(Next(START, CONNECTED[0]), CONNECTED[1]);
    ARequestComes(t, Page(0, map[], map[], None, None, [], {}, {}), 1, SIGN_IN);
    s := Next(t, CONNECTED[2]);
    Witnesses.RunThree(START, CONNECTED, rest);
  }

  lemma TheSecondIsAccepted(s: State, rest: seq<Event>) returns (t: State)
    requires At(s, FIRST.(stages := map[1 := Leaving(Won(1, B), ALONE)], asked := {(1, 1)}))
    ensures At(t, SECOND) && Run(s, ABANDONED + rest) == Run(t, rest)
  {
    hide At, Next, Run, Won;
    var p := FIRST.(stages := map[1 := Leaving(Won(1, B), ALONE)], asked := {(1, 1)});
    InitComes(s, p, 1);
    assert {} + {1} == {1};
    var u := Next(s, ABANDONED[0]);
    ARequestComes(u, p.(busy := None, abandoned := {1}), 2, SIGN_IN);
    t := Next(u, ABANDONED[1]);
    RunCons(s, ABANDONED[0], [ABANDONED[1]] + rest);
    RunCons(u, ABANDONED[1], rest);
    assert ABANDONED + rest == [ABANDONED[0]] + ([ABANDONED[1]] + rest);
  }

  lemma TheSecondIsAnswered(s: State, rest: seq<Event>) returns (t: State)
    requires At(s, BOTH)
    ensures At(t, TOLD) && Run(s, ANSWERED + rest) == Run(t, rest)
  {
    hide At, Next, Run, Won;
    TheWinIsRecorded(s, BOTH, 2, A);
    var u := Next(s, ANSWERED[0]);
    var p := BOTH.(last := Some("a"), stages := map[1 := Leaving(Won(1, B), ALONE), 2 := Answering(WON)]);
    assert BOTH.stages[2 := Answering(WON)] == p.stages;
    TheHostIsTold(u, p, 2);
    assert p.stages[2 := Finished] == TOLD.stages && [] + [Sent(2, 2, WON)] == [Sent(2, 2, WON)];
    var tail := [ANSWERED[1], ANSWERED[2], ANSWERED[3]];
    t := Next(Next(Next(u, tail[0]), tail[1]), tail[2]);
    RunCons(s, ANSWERED[0], tail + rest);
    Witnesses.RunThree(u, tail, rest);
    assert ANSWERED + rest == [ANSWERED[0]] + (tail + rest);
  }

  lemma TheFirstOvertakes(s: State) returns (p: Page)
    requires At(s, TOLD)
    ensures At(Run(s, OVERTAKEN), p)
    ensures p.replies == [Sent(2, 2, WON)] && p.asked == {(1, 1), (0, 2)} && p.abandoned == {1} && p.busy == Some(3)
    ensures 3 in p.requests && p.requests[3] == Request(2, [GET_NEXT_ASSERTION])
    ensures 3 in p.stages && p.stages[3] == Between(Work([[B]], []))
  {
    hide At, Next, Run, Won;
    TheWinIsRecorded(s, TOLD, 1, B);
    var u := Next(s, OVERTAKEN[0]);
    var q := TOLD.(last := Some("b"), stages := TOLD.stages[1 := Answering(WON)]);
    ARequestComes(u, q, 2, [GET_NEXT_ASSERTION]);
    var v := Next(u, OVERTAKEN[1]);
    var r := q.(issued := 3, busy := Some(3), requests := q.requests[3 := Request(2, [GET_NEXT_ASSERTION])],
                stages := q.stages[3 := New]);
    TheRememberedIsPlanned(v, r, 3);
    p := r.(stages := r.stages[3 := Between(Work([[B]], []))]);
    var tail := [OVERTAKEN[1], OVERTAKEN[2], OVERTAKEN[3]];
    RunCons(s, OVERTAKEN[0], tail);
    Witnesses.RunThree(u, tail, []);
    RunNothing(Next(Next(v, OVERTAKEN[2]), OVERTAKEN[3]));
    assert OVERTAKEN == [OVERTAKEN[0]] + tail && tail + [] == tail;
  }

  /**
   * Phone b wins the sign-in of channel 1, but INIT abandons it before its handler concludes; phone a
   * wins the sign-in of channel 2 and that success is the only one the host is sent. Then the first
   * handler concludes, and the getNextAssertion of channel 2 is planned for b.
   */
  lemma NextCanGoToAPhoneTheHostNeverHeardOf()
    ensures
      var s := Run(START, CONNECTED + (Planning(1, B) + (Exchange(1, B) + (ABANDONED
                          + (Planning(2, A) + (Exchange(2, A) + (ANSWERED + OVERTAKEN)))))));
      && s.replies == [Sent(2, 2, WON)] && s.asked == {(1, 1), (0, 2)} && s.abandoned == {1} && s.busy == Some(3)
      && 3 in s.requests && s.requests[3] == Request(2, [GET_NEXT_ASSERTION])
      && 3 in s.stages && s.stages[3] == Between(Work([[B]], []))
  {
    hide Next, Run, Won, At, Planning, Exchange;
    var last := ANSWERED + OVERTAKEN;
    var middle := ABANDONED + (Planning(2, A) + (Exchange(2, A) + last));
    var s1 := TheFirstIsAccepted(Planning(1, B) + (Exchange(1, B) + middle));
    var s2 := TheRoundIsWon(s1, FIRST, 1, B, middle);
    assert FIRST.stages[1 := Leaving(Won(1, B), ALONE)] == map[1 := Leaving(Won(1, B), ALONE)];
    assert FIRST.asked + {(1, 1)} == {(1, 1)};
    var s3 := TheSecondIsAccepted(s2, Planning(2, A) + (Exchange(2, A) + last));
    var s4 := TheRoundIsWon(s3, SECOND, 2, A, last);
    assert SECOND.stages[2 := Leaving(Won(2, A), ALONE)] == BOTH.stages;
    assert SECOND.asked + {(0, 2)} == BOTH.asked;
    var s5 := TheSecondIsAnswered(s4, OVERTAKEN);
    var p := TheFirstOvertakes(s5);
    PageIsSeen(Run(s5, OVERTAKEN), p);
  }

  lemma PageIsSeen(s: State, p: Page)
    requires At(s, p)
    ensures s.replies == p.replies && s.asked == p.asked && s.abandoned == p.abandoned && s.busy == p.busy
    ensures s.requests == p.requests && s.stages == p.stages
  {
  }
}
