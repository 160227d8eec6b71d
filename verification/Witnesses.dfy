/**
 * Concrete runs of the whole system: one request that succeeds, and one whose reply is sent although
 * INIT took the slot just before.
 */
module Witnesses {
  import opened Bytes
  import Rounds
  import opened Protocol

  /** One phone, and a getInfo of channel 1. */
  const ONLY := Rounds.Link(0, "phone", "Phone", 0)
  const ASKED := START.(
    links := [ONLY], alive := {0}, issued := 1, busy := Some(1), requests := map[1 := Request(1, [0x04])],
    stages := map[1 := New], shared := map[1 := []])

  lemma OneRequestIsAccepted(rest: seq<Event>)
    ensures Run(START, [Connect("phone", "Phone", 0)] + ([Accept(1, [0x04])] + rest)) == Run(ASKED, rest)
  {
    RunCons(START, Connect("phone", "Phone", 0), [Accept(1, [0x04])] + rest);
    var s := Next(START, Connect("phone", "Phone", 0));
    assert s == START.(links := [ONLY], alive := {0}) by {
      assert [] + [ONLY] == [ONLY] && {} + {0} == {0};
    }
    RunCons(s, Accept(1, [0x04]), rest);
    assert 0 in s.alive;
    assert Next(s, Accept(1, [0x04])) == ASKED;
  }

  /** After the phone went away, with the handler at this stage. */
  function Alone(stage: Stage): State {
    ASKED.(alive := {}, heard := map[0 := [(0, [])]], stages := map[1 := stage])
  }

  lemma ThePhoneGoesAway()
    ensures Next(ASKED, Close(0)) == Alone(New)
  {
    assert 0 in ASKED.alive;
    assert {0} - {0} == {};
    assert Queue(ASKED.heard, 0) + [(0, [])] == [(0, [])];
  }

  lemma NobodyIsListed()
    ensures Next(Alone(New), Handler(1, List)) == Alone(Listed([]))
  {
    assert [ONLY][1..] == [];
    assert map[1 := New][1 := Listed([])] == map[1 := Listed([])];
  }

  lemma OneEmptyRoundIsPlanned()
    ensures Next(Alone(Listed([])), Handler(1, MakePlan(None))) == Alone(Between(Work([[]], [])))
  {
    assert map[1 := Listed([])][1 := Between(Work([[]], []))] == map[1 := Between(Work([[]], []))];
  }

  lemma TheRoundsRunOut()
    ensures Next(Alone(Between(Work([[]], []))), Handler(1, Advance)) == Alone(Between(Work([], [])))
    ensures Next(Alone(Between(Work([], []))), Handler(1, Advance)) == Alone(Answering([0x7f]))
  {
    var rounds: seq<seq<Rounds.Link>> := [[]];
    assert rounds[1..] == [];
    assert map[1 := Between(Work([[]], []))][1 := Between(Work([], []))] == map[1 := Between(Work([], []))];
    assert map[1 := Between(Work([], []))][1 := Answering([0x7f])] == map[1 := Answering([0x7f])];
  }

  lemma TheSlotIsStillOurs()
    ensures Next(Alone(Answering([0x7f])), Handler(1, Check)) == Alone(Replying([0x7f]))
  {
    assert map[1 := Answering([0x7f])][1 := Replying([0x7f])] == map[1 := Replying([0x7f])];
  }

  lemma InitTakesTheSlot()
    ensures
      Next(Alone(Replying([0x7f])), Cancel(Some(1), true))
          == Alone(Replying([0x7f])).(busy := None, abandoned := {1}, leaving := {1})
  {
    assert Queue(ASKED.shared, 1) == [];
    assert {} + {1} == {1};
  }

  const UNHEARD := [
    Handler(1, List), Handler(1, MakePlan(None)), Handler(1, Advance), Handler(1, Advance), Handler(1, Check),
    Cancel(Some(1), true), Handler(1, Answer)]

  /**
   * The phone goes away before it is asked, and INIT arrives between the handler's last look at the
   * slot and its reply: the reply is still sent.
   */
  lemma RepliesCanFollowInit()
    ensures
      var s := Run(START, [Connect("phone", "Phone", 0)] + ([Accept(1, [0x04])] + ([Close(0)] + UNHEARD)));
      s.busy == None && s.abandoned == {1} && s.replies == [Sent(1, 1, [0x7f])]
  {
    hide Next, Run, Alone, ASKED;
    OneRequestIsAccepted([Close(0)] + UNHEARD);
    RunCons(ASKED, Close(0), UNHEARD);
    ThePhoneGoesAway();
    NobodyIsListed();
    OneEmptyRoundIsPlanned();
    TheRoundsRunOut();
    TheSlotIsStillOurs();
    InitTakesTheSlot();
    TheReplyIsSent();
    RunSeven(Alone(New), UNHEARD);
  }

  lemma TheReplyIsSent()
    ensures
      var abandoned := Alone(Replying([0x7f])).(busy := None, abandoned := {1}, leaving := {1});
      var s := Next(abandoned, Handler(1, Answer));
      s.busy == None && s.abandoned == {1} && s.replies == [Sent(1, 1, [0x7f])]
  {
    assert Alone(Replying([0x7f])).replies + [Sent(1, 1, [0x7f])] == [Sent(1, 1, [0x7f])];
  }

  lemma RunSeven(s: State, e: seq<Event>)
    requires |e| == 7
    ensures Run(s, e) == Next(Next(Next(Next(Next(Next(Next(s, e[0]), e[1]), e[2]), e[3]), e[4]), e[5]), e[6])
  {
    hide Next;
    var s1 := Next(s, e[0]);
    var s2 := Next(s1, e[1]);
    var s3 := Next(s2, e[2]);
    var s4 := Next(s3, e[3]);
    var s5 := Next(s4, e[4]);
    var s6 := Next(s5, e[5]);
    RunCons(s6, e[6], []);
    RunCons(s5, e[5], e[6..]);
    RunCons(s4, e[4], e[5..]);
    RunCons(s3, e[3], e[4..]);
    RunCons(s2, e[2], e[3..]);
    RunCons(s1, e[1], e[2..]);
    RunCons(s, e[0], e[1..]);
    assert e[6..] == [e[6]] + [] && e[5..] == [e[5]] + e[6..] && e[4..] == [e[4]] + e[5..];
    assert e[3..] == [e[3]] + e[4..] && e[2..] == [e[2]] + e[3..] && e[1..] == [e[1]] + e[2..] && e == [e[0]] + e[1..];
  }

  // ---- A request that succeeds ----------------------------------------------------------------------

  const WON: seq<byte> := [0x00, 0xa0]
  const NOTHING_LEFT := Work([], [])
  const WAITING := Rounds.Fan([ONLY], [], [], [], false)
  const WINNER := Rounds.Fan([], [(ONLY, WON)], [], [(ONLY, (1, WON))], true)

  function At(stage: Stage): State {
    ASKED.(stages := map[1 := stage])
  }

  /** From when the phone was asked until its answer is heard: what is on the way to it and back. */
  function Sent1(stage: Stage, outbox: seq<Frame>, shared: seq<Rounds.Link>): State {
    At(stage).(asked := {(0, 1)}, outbox := map[0 := outbox], shared := map[1 := shared])
  }

  function Handled1(stage: Stage, inbox: seq<Rounds.Answer>, heard: map<nat, seq<Rounds.Answer>>): State {
    Sent1(stage, [], [ONLY]).(handled := {Handled(0, 1, [0x04], WON)}, inbox := map[0 := inbox], heard := heard)
  }

  function Done1(stage: Stage): State {
    Handled1(stage, [], map[0 := []]).(shared := map[1 := []])
  }

  lemma TheOnlyDeviceIsPlanned()
    ensures Next(ASKED, Handler(1, List)) == At(Listed([ONLY]))
    ensures Next(At(Listed([ONLY])), Handler(1, MakePlan(None))) == At(Between(Work([[ONLY]], [])))
    ensures Next(At(Between(Work([[ONLY]], []))), Handler(1, Advance)) == At(Sending([ONLY], [], NOTHING_LEFT))
  {
    assert Live([ONLY], {0}) == [ONLY] by {
      assert [ONLY][1..] == [] && [ONLY] + [] == [ONLY];
    }
    OneDevice();
    assert ASKED.links == [ONLY] && ASKED.alive == {0};
    assert map[1 := New][1 := Listed([ONLY])] == map[1 := Listed([ONLY])];
    assert [ONLY][..1] == [ONLY];
    assert map[1 := Listed([ONLY])][1 := Between(Work([[ONLY]], []))] == map[1 := Between(Work([[ONLY]], []))];
    assert [[ONLY]][1..] == [];
    assert map[1 := Between(Work([[ONLY]], []))][1 := Sending([ONLY], [], NOTHING_LEFT)]
           == map[1 := Sending([ONLY], [], NOTHING_LEFT)];
  }

  lemma OneDevice()
    ensures Rounds.ByDevice([ONLY]) == [ONLY]
  {
    assert [ONLY][1..] == [];
    assert Rounds.SortByPriority([ONLY]) == [ONLY] by {
      assert Rounds.SortByPriority([]) == [];
      assert [ONLY] + [] == [ONLY];
    }
    assert Rounds.FirstPerDevice([], {"phone"}) == [];
    assert {} + {"phone"} == {"phone"};
    assert [ONLY] + [] == [ONLY];
  }

  lemma TheOnlyDeviceIsAsked()
    ensures Next(At(Sending([ONLY], [], NOTHING_LEFT)), Handler(1, Send(true)))
         == Sent1(Sending([], [ONLY], NOTHING_LEFT), [Ask(1, [0x04])], [])
  {
    assert [ONLY][1..] == [];
    assert Queue(ASKED.outbox, 0) + [Ask(1, [0x04])] == [Ask(1, [0x04])];
    assert map[1 := Sending([ONLY], [], NOTHING_LEFT)][1 := Sending([], [ONLY], NOTHING_LEFT)]
        == map[1 := Sending([], [ONLY], NOTHING_LEFT)];
    var none: seq<Rounds.Link> := [];
    assert none + [ONLY] == [ONLY];
    assert ASKED.asked + {(0, 1)} == {(0, 1)};
  }

  lemma TheRoundBegins()
    ensures Next(Sent1(Sending([], [ONLY], NOTHING_LEFT), [Ask(1, [0x04])], []), Handler(1, Send(true)))
         == Sent1(Listening(WAITING, [], NOTHING_LEFT), [Ask(1, [0x04])], [ONLY])
  {
    assert map[1 := Sending([], [ONLY], NOTHING_LEFT)][1 := Listening(WAITING, [], NOTHING_LEFT)]
        == map[1 := Listening(WAITING, [], NOTHING_LEFT)];
    var none: seq<Rounds.Link> := [];
    assert map[1 := none][1 := [ONLY]] == map[1 := [ONLY]];
  }

  lemma ThePhoneAnswers()
    ensures Next(Sent1(Listening(WAITING, [], NOTHING_LEFT), [Ask(1, [0x04])], [ONLY]), PhoneHandles(0, WON))
         == Handled1(Listening(WAITING, [], NOTHING_LEFT), [(1, WON)], map[])
    ensures Next(Handled1(Listening(WAITING, [], NOTHING_LEFT), [(1, WON)], map[]), Deliver(0))
         == Handled1(Listening(WAITING, [], NOTHING_LEFT), [], map[0 := [(1, WON)]])
  {
    assert [Ask(1, [0x04])][1..] == [];
    assert map[0 := [Ask(1, [0x04])]][0 := []] == map[0 := []];
    assert ASKED.handled + {Handled(0, 1, [0x04], WON)} == {Handled(0, 1, [0x04], WON)};
    assert Queue(ASKED.inbox, 0) + [(1, WON)] == [(1, WON)];
    assert [(1, WON)][1..] == [];
    assert map[0 := [(1, WON)]][0 := []] == map[0 := []];
  }

  lemma TheOnlyLinkIsPolled()
    ensures Next(Handled1(Listening(WAITING, [], NOTHING_LEFT), [], map[0 := [(1, WON)]]), Handler(1, Poll))
         == Handled1(Listening(WAITING, [ONLY], NOTHING_LEFT), [], map[0 := [(1, WON)]])
  {
    assert map[1 := Listening(WAITING, [], NOTHING_LEFT)][1 := Listening(WAITING, [ONLY], NOTHING_LEFT)]
        == map[1 := Listening(WAITING, [ONLY], NOTHING_LEFT)];
  }

  lemma TheAnswerIsHeard()
    ensures Next(Handled1(Listening(WAITING, [ONLY], NOTHING_LEFT), [], map[0 := [(1, WON)]]), Handler(1, Poll))
         == Handled1(Listening(WINNER, [], NOTHING_LEFT), [], map[0 := []])
  {
    assert [(1, WON)][1..] == [] && [ONLY][1..] == [];
    assert map[0 := [(1, WON)]][0 := []] == map[0 := []];
    assert Rounds.Drop([ONLY], ONLY) == [];
    assert WAITING.taken + [(ONLY, (1, WON))] == WINNER.taken && WAITING.wins + [(ONLY, WON)] == WINNER.wins;
    assert map[1 := Listening(WAITING, [ONLY], NOTHING_LEFT)][1 := Listening(WINNER, [], NOTHING_LEFT)]
        == map[1 := Listening(WINNER, [], NOTHING_LEFT)];
  }

  lemma TheRoundEnds()
    ensures Next(Handled1(Listening(WINNER, [], NOTHING_LEFT), [], map[0 := []]), Handler(1, Stop))
            == Done1(Leaving(WINNER, NOTHING_LEFT))
  {
    assert map[1 := [ONLY]][1 := []] == map[1 := []];
    assert map[1 := Listening(WINNER, [], NOTHING_LEFT)][1 := Leaving(WINNER, NOTHING_LEFT)]
           == map[1 := Leaving(WINNER, NOTHING_LEFT)];
  }

  lemma TheRoundIsWon()
    ensures Next(Done1(Leaving(WINNER, NOTHING_LEFT)), Handler(1, Conclude)) == Done1(Answering(WON))
  {
    assert map[1 := Leaving(WINNER, NOTHING_LEFT)][1 := Answering(WON)] == map[1 := Answering(WON)];
  }

  lemma TheWinStillHasTheSlot()
    ensures Next(Done1(Answering(WON)), Handler(1, Check)) == Done1(Replying(WON))
  {
    assert map[1 := Answering(WON)][1 := Replying(WON)] == map[1 := Replying(WON)];
  }

  lemma TheWinIsSent()
    ensures Next(Done1(Replying(WON)), Handler(1, Answer)).replies == [Sent(1, 1, WON)]
  {
    assert ASKED.replies + [Sent(1, 1, WON)] == [Sent(1, 1, WON)];
  }

  const PLANNED := [Handler(1, List), Handler(1, MakePlan(None)), Handler(1, Advance)]
  const EXCHANGED := [
    Handler(1, Send(true)), Handler(1, Send(true)), PhoneHandles(0, WON), Deliver(0), Handler(1, Poll),
    Handler(1, Poll), Handler(1, Stop)]
  const CONCLUDED := [Handler(1, Conclude), Handler(1, Check), Handler(1, Answer)]

  lemma RunThree(s: State, e: seq<Event>, rest: seq<Event>)
    requires |e| == 3
    ensures Run(s, e + rest) == Run(Next(Next(Next(s, e[0]), e[1]), e[2]), rest)
  {
    hide Next;
    RunCons(s, e[0], [e[1]] + ([e[2]] + rest));
    RunCons(Next(s, e[0]), e[1], [e[2]] + rest);
    RunCons(Next(Next(s, e[0]), e[1]), e[2], rest);
    assert e + rest == [e[0]] + ([e[1]] + ([e[2]] + rest));
  }

  /** One phone, one request: asked, answered, heard, and the phone's own bytes sent to the host. */
  lemma OneRequestSucceeds()
    ensures
      var s := Run(START, [Connect("phone", "Phone", 0)]
                          + ([Accept(1, [0x04])] + (PLANNED + (EXCHANGED + CONCLUDED))));
      s.replies == [Sent(1, 1, WON)]
  {
    hide Next, Run, At, Sent1, Handled1, Done1, ASKED;
    OneRequestIsAccepted(PLANNED + (EXCHANGED + CONCLUDED));
    TheOnlyDeviceIsPlanned();
    TheOnlyDeviceIsAsked();
    TheRoundBegins();
    ThePhoneAnswers();
    TheOnlyLinkIsPolled();
    TheAnswerIsHeard();
    TheRoundEnds();
    TheRoundIsWon();
    TheWinStillHasTheSlot();
    TheWinIsSent();
    RunThree(ASKED, PLANNED, EXCHANGED + CONCLUDED);
    RunConcat(At(Sending([ONLY], [], NOTHING_LEFT)), EXCHANGED, CONCLUDED);
    RunSeven(At(Sending([ONLY], [], NOTHING_LEFT)), EXCHANGED);
    RunThree(Done1(Leaving(WINNER, NOTHING_LEFT)), CONCLUDED, []);
    assert CONCLUDED + [] == CONCLUDED;
    RunNothing(Next(Done1(Replying(WON)), Handler(1, Answer)));
  }
}
