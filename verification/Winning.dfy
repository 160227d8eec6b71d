/**
 * Which device getNextAssertion goes to. The daemon remembers the winner of the sign-in that was
 * concluded last; the host expects the device whose success it was sent last.
 */
module Winning {
  import opened Bytes
  import opened CtapHid
  import opened Rounds
  import opened Protocol
  import opened History
  import Probe

  // ---- What the history says of the wins ----------------------------------------------------------

  predicate Concluded(stage: Stage) {
    stage.Answering? || stage.Replying? || stage.Finishing? || stage.Finished?
  }

  predicate SignIn(s: State, n: nat) {
    n in s.requests && s.requests[n].data != [] && s.requests[n].data[0] == GET_ASSERTION
  }

  predicate Won(h: Past, n: nat) {
    exists i :: 0 <= i < |h.wins| && h.wins[i].number == n
  }

  function LastDevice(wins: seq<Win>): Option<string> {
    if wins == [] then None else Some(wins[|wins| - 1].device)
  }

  /** The position of the first reply to `n`; the length when there is none. */
  function ReplyAt(replies: seq<Sent>, n: nat): (k: nat)
    ensures k <= |replies| && (k < |replies| ==> replies[k].number == n)
    ensures forall i :: 0 <= i < k ==> replies[i].number != n
  {
    if replies == [] || replies[0].number == n then 0 else 1 + ReplyAt(replies[1..], n)
  }

  predicate Replied(s: State, n: nat) {
    ReplyAt(s.replies, n) < |s.replies|
  }

  /** A sign-in's payload under way is a success exactly when it was won. */
  predicate PayloadOk(s: State, h: Past, n: nat, stage: Stage) {
    match stage
    case Answering(payload) => SignIn(s, n) ==> (Success(payload) <==> Won(h, n))
    case Replying(payload) => SignIn(s, n) ==> (Success(payload) <==> Won(h, n))
    case Finishing => true
    case Finished => true
    case _ => !Won(h, n)
  }

  predicate ReplyOk(s: State, h: Past, r: Sent) {
    SignIn(s, r.number) ==> (Success(r.payload) <==> Won(h, r.number))
  }

  /** Of two wins, the earlier one's reply is the earlier one, unless INIT abandoned one of them. */
  predicate OrderOk(s: State, n: nat, m: nat) {
    Replied(s, m) ==> n in s.abandoned || m in s.abandoned || ReplyAt(s.replies, n) < ReplyAt(s.replies, m)
  }

  predicate WinsOk(s: State, h: Past) {
    && s.last == LastDevice(h.wins)
    && (forall w <- h.wins :: w.number in s.stages && SignIn(s, w.number))
    && (forall i, j :: 0 <= i < j < |h.wins| ==> h.wins[i].number != h.wins[j].number)
    && (forall n <- s.stages :: PayloadOk(s, h, n, s.stages[n]))
    && (forall i :: 0 <= i < |s.replies| ==> ReplyOk(s, h, s.replies[i]))
    && (forall i, j :: 0 <= i < j < |h.wins| ==> OrderOk(s, h.wins[i].number, h.wins[j].number))
  }

  // ---- Steps that win nothing -------------------------------------------------------------------------

  /** Nothing that the wins are about changes, but a slot may be emptied and a request abandoned. */
  predicate Untouched(s: State, t: State) {
    && t.last == s.last && t.stages == s.stages && t.requests == s.requests && t.replies == s.replies
    && s.abandoned <= t.abandoned
  }

  lemma UntouchedIsOk(s: State, t: State, h: Past)
    requires WinsOk(s, h) && Untouched(s, t)
    ensures WinsOk(t, h)
  {
    hide Won, ReplyAt, Success;
    forall n | n in t.stages
      ensures PayloadOk(t, h, n, t.stages[n])
    {
      assert PayloadOk(s, h, n, s.stages[n]);
    }
    forall i | 0 <= i < |t.replies|
      ensures ReplyOk(t, h, t.replies[i])
    {
      assert ReplyOk(s, h, s.replies[i]);
    }
    forall i, j | 0 <= i < j < |h.wins|
      ensures OrderOk(t, h.wins[i].number, h.wins[j].number)
    {
      assert OrderOk(s, h.wins[i].number, h.wins[j].number);
    }
  }

  lemma TransportWinsNothing(s: State, e: Event)
    requires e.Connect? || e.Close? || e.Tell? || e.PhoneHandles? || e.Deliver?
    ensures Next(s, e).last == s.last && Next(s, e).abandoned == s.abandoned
  {
    hide PushAll, Push, Pop, Queue, SameBooks, Connected, Closed, Told, PhoneHandled, Delivered;
    match e
    case Connect(device, caption, priority) => LastStays(s, 0, 0, [], device, caption, priority);
    case Close(l) => LastStays(s, l, 0, [], "", "", 0);
    case Tell(n) => LastStays(s, 0, n, [], "", "", 0);
    case PhoneHandles(l, result) => LastStays(s, l, 0, result, "", "", 0);
    case Deliver(l) => LastStays(s, l, 0, [], "", "", 0);
  }

  lemma LastStays(s: State, l: nat, n: nat, result: seq<byte>, device: string, caption: string, priority: nat)
    ensures Connected(s, device, caption, priority).last == s.last && Closed(s, l).last == s.last
    ensures Told(s, n).last == s.last && PhoneHandled(s, l, result).last == s.last && Delivered(s, l).last == s.last
    ensures Connected(s, device, caption, priority).abandoned == s.abandoned && Closed(s, l).abandoned == s.abandoned
    ensures Told(s, n).abandoned == s.abandoned && PhoneHandled(s, l, result).abandoned == s.abandoned
    ensures Delivered(s, l).abandoned == s.abandoned
  {
    hide PushAll, Push, Pop, Queue;
  }

  lemma StartWinsNothing(s: State, h: Past, n: nat, request: Request)
    requires WinsOk(s, h) && n !in s.stages && n !in s.requests
    requires forall i :: 0 <= i < |s.replies| ==> s.replies[i].number in s.requests
    requires s.requests.Keys == s.stages.Keys
    ensures WinsOk(Started(s, n, request), h)
  {
    hide ReplyAt, Success;
    var t := Started(s, n, request);
    forall m | m in t.stages
      ensures PayloadOk(t, h, m, t.stages[m])
    {
      if m != n {
        assert PayloadOk(s, h, m, s.stages[m]);
      } else {
        assert !Won(h, n);
      }
    }
    forall i | 0 <= i < |t.replies|
      ensures ReplyOk(t, h, t.replies[i])
    {
      assert ReplyOk(s, h, s.replies[i]);
    }
    forall i, j | 0 <= i < j < |h.wins|
      ensures OrderOk(t, h.wins[i].number, h.wins[j].number)
    {
      assert OrderOk(s, h.wins[i].number, h.wins[j].number);
    }
  }

  // ---- A handler's moves ---------------------------------------------------------------------------------

  lemma {:induction false} ReplyAtSnoc(replies: seq<Sent>, r: Sent, n: nat)
    ensures ReplyAt(replies + [r], n)
         == if ReplyAt(replies, n) < |replies| then ReplyAt(replies, n)
            else if r.number == n then |replies| else |replies| + 1
  {
    if replies == [] {
      assert [] + [r] == [r] && [r][1..] == [];
    } else {
      assert (replies + [r])[1..] == replies[1..] + [r];
      ReplyAtSnoc(replies[1..], r, n);
    }
  }

  lemma {:induction false} RepliedIff(replies: seq<Sent>, n: nat)
    ensures ReplyAt(replies, n) < |replies| <==> RepliesTo(replies, n) > 0
  {
    if replies != [] {
      var last := |replies| - 1;
      RepliedIff(replies[..last], n);
      assert replies == replies[..last] + [replies[last]];
      ReplyAtSnoc(replies[..last], replies[last], n);
    }
  }

  /** Which moves a handler makes without winning, replying or changing `last`. */
  predicate WinsNothing(s: State, n: nat, move: Move)
    requires n in s.stages
  {
    !(move.Answer? && s.stages[n].Replying?) && !(move.Conclude? && s.stages[n].Leaving?)
  }

  lemma LastMoves(s: State, n: nat, move: Move)
    requires Working(s, n) && WinsNothing(s, n, move)
    ensures Protocol.Moved(s, n, move).last == s.last
  {
    hide ConcludeRound, PushAll, Push, Pop, Queue, Absorb, PlanRounds, ByDevice, Live, FinalError, Probe.Silent;
  }

  /** A payload that is not a win is a failure. */
  lemma ErrorsAreNoWins(s: State, n: nat)
    requires Truth(s) && Working(s, n) && s.stages[n].Between? && s.stages[n].work.rounds == []
    ensures !Success(FinalError(s.stages[n].work.errors))
  {
    hide TrueFrames, TrueAnswers, TrueReply, FinalError;
    assert TrueStage(s, n, s.stages[n]);
    FinalErrorFails(s.stages[n].work.errors);
  }

  lemma PayloadsAreOk(s: State, h: Past, n: nat)
    requires WinsOk(s, h) && n in s.stages
    ensures PayloadOk(s, h, n, s.stages[n])
  {
  }

  /** How a quiet move changes the handler's stage, as far as payloads are concerned. */
  predicate StageStep(a: Stage, b: Stage) {
    match b
    case Answering(p) => a == b || (a.Between? && a.work.rounds == [] && p == FinalError(a.work.errors))
    case Replying(p) => a == b || a == Answering(p)
    case Finishing => true
    case Finished => true
    case _ => !Concluded(a)
  }

  lemma QuietStages(s: State, n: nat, move: Move)
    requires Working(s, n) && WinsNothing(s, n, move)
    ensures var t := Protocol.Moved(s, n, move); n in t.stages && StageStep(s.stages[n], t.stages[n])
  {
    hide GoTo, PushAll, Push, Pop, Queue, Absorb, PlanRounds, ByDevice, Live, FinalError, Probe.Silent;
    hide ConcludeRound;
    WhereItGoes();
  }

  lemma QuietMovesAreOk(s: State, h: Past, n: nat, move: Move)
    requires WinsOk(s, h) && Truth(s) && Working(s, n) && WinsNothing(s, n, move)
    ensures var t := Protocol.Moved(s, n, move); n in t.stages && PayloadOk(s, h, n, t.stages[n])
  {
    hide Truth, Won, Success, Protocol.Moved, WinsOk, FinalError;
    QuietStages(s, n, move);
    PayloadsAreOk(s, h, n);
    if s.stages[n].Between? && s.stages[n].work.rounds == [] {
      ErrorsAreNoWins(s, n);
    }
  }

  /** Only the handler of `n` moved, and neither won nor replied. */
  lemma OneStageMoved(s: State, t: State, h: Past, g: Past, n: nat)
    requires WinsOk(s, h) && n in s.stages && n in t.stages && t.stages == s.stages[n := t.stages[n]]
    requires t.requests == s.requests && t.abandoned == s.abandoned && t.replies == s.replies && t.last == s.last
    requires g.wins == h.wins && PayloadOk(t, g, n, t.stages[n])
    ensures WinsOk(t, g)
  {
    hide ReplyAt, Success;
    forall m | m in t.stages
      ensures PayloadOk(t, g, m, t.stages[m])
    {
      if m != n {
        assert PayloadOk(s, h, m, s.stages[m]);
      }
    }
    forall i | 0 <= i < |t.replies|
      ensures ReplyOk(t, g, t.replies[i])
    {
      assert ReplyOk(s, h, s.replies[i]);
    }
    forall i, j | 0 <= i < j < |g.wins|
      ensures OrderOk(t, g.wins[i].number, g.wins[j].number)
    {
      assert OrderOk(s, h.wins[i].number, h.wins[j].number);
    }
  }

  lemma QuietHandlerIsOk(s: State, h: Past, n: nat, move: Move)
    requires WinsOk(s, h) && Truth(s) && Working(s, n) && WinsNothing(s, n, move)
    ensures WinsOk(Protocol.Moved(s, n, move), NotedMove(s, h, n, move))
  {
    hide Protocol.Moved, NotedMove, Truth, WinsOk, SameBooks, PayloadOk;
    var t, g := Protocol.Moved(s, n, move), NotedMove(s, h, n, move);
    LastMoves(s, n, move);
    QuietMovesAreOk(s, h, n, move);
    MovesAreOfFourKinds(s, n, move);
    WinsAreNoted(s, h, n, move);
    BooksStay(s, t);
    SameWinsSamePayload(t, s, h, g, n, t.stages[n]);
    OneStageMoved(s, t, h, g, n);
  }

  lemma SameWinsSamePayload(t: State, s: State, h: Past, g: Past, n: nat, stage: Stage)
    requires PayloadOk(s, h, n, stage) && t.requests == s.requests && g.wins == h.wins
    ensures PayloadOk(t, g, n, stage)
  {
    hide Success;
  }

  lemma BooksStay(s: State, t: State)
    requires SameBooks(s, t)
    ensures t.requests == s.requests && t.abandoned == s.abandoned
  {
  }

  lemma WinsAreNoted(s: State, h: Past, n: nat, move: Move)
    requires Working(s, n)
    ensures var stage := s.stages[n];
            NotedMove(s, h, n, move).wins
            == if move.Conclude? && stage.Leaving? && stage.fan.wins != [] && SignIn(s, n)
               then h.wins + [Win(n, stage.fan.wins[0].0.device)] else h.wins
  {
    hide PlanNow;
  }

  /** What concluding does, as far as the wins are concerned. */
  lemma Conclusion(s: State, h: Past, n: nat)
    requires WinsOk(s, h) && Truth(s) && Working(s, n) && s.stages[n].Leaving?
    ensures
      var t, g := Protocol.Moved(s, n, Conclude), NotedMove(s, h, n, Conclude);
      var won := s.stages[n].fan.wins != [] && SignIn(s, n);
      && SameBooks(s, t) && t.replies == s.replies && n in t.stages && t.stages == s.stages[n := t.stages[n]]
      && g.wins == (if won then h.wins + [Win(n, s.stages[n].fan.wins[0].0.device)] else h.wins)
      && t.last == (if won then Some(s.stages[n].fan.wins[0].0.device) else s.last)
      && !Won(h, n)
      && match t.stages[n]
         case Answering(payload) => SignIn(s, n) ==> (Success(payload) <==> won)
         case Between(_) => !won
         case _ => false
  {
    PayloadsAreOk(s, h, n);
    WinsAreNoted(s, h, n, Conclude);
    ConcludedPayloads(s, n);
    MovesAreOfFourKinds(s, n, Conclude);
    hide Truth, Won, WinsOk, Protocol.Moved, NotedMove, Success;
  }

  /** A handler that leaves its round answers with a success exactly when somebody won. */
  lemma ConcludedPayloads(s: State, n: nat)
    requires Truth(s) && Working(s, n) && s.stages[n].Leaving?
    ensures
      var t, wins := Protocol.Moved(s, n, Conclude), s.stages[n].fan.wins;
      && t.last == (if wins != [] && SignIn(s, n) then Some(wins[0].0.device) else s.last)
      && n in t.stages
      && match t.stages[n]
         case Answering(payload) => Success(payload) <==> wins != []
         case Between(_) => wins == []
         case _ => false
  {
    assert TrueStage(s, n, s.stages[n]);
    hide Truth, FinalError, Payloads, Probe.Silent, TrueFrames, TrueAnswers, TrueReply, Genuine;
    ErrorsAreFailures(s.stages[n].work, s.stages[n].fan.failed);
  }

  /** The win of a handler that has not replied is added. */
  lemma OneMoreWin(s: State, t: State, h: Past, g: Past, n: nat, w: Win)
    requires WinsOk(s, h) && n in s.stages && n in t.stages && t.stages == s.stages[n := t.stages[n]]
    requires t.requests == s.requests && t.abandoned == s.abandoned && t.replies == s.replies
    requires w.number == n && g.wins == h.wins + [w] && t.last == Some(w.device) && SignIn(s, n)
    requires !Won(h, n) && !Replied(s, n) && PayloadOk(t, g, n, t.stages[n])
    ensures WinsOk(t, g)
  {
    hide ReplyAt, Success;
    WonOnceMore(h, g, n);
    forall m | m in t.stages
      ensures PayloadOk(t, g, m, t.stages[m])
    {
      if m != n {
        assert PayloadOk(s, h, m, s.stages[m]);
      }
    }
    forall i | 0 <= i < |t.replies|
      ensures ReplyOk(t, g, t.replies[i])
    {
      assert ReplyOk(s, h, s.replies[i]);
      NotReplied(s.replies, n, i);
    }
    forall i, j | 0 <= i < j < |g.wins|
      ensures OrderOk(t, g.wins[i].number, g.wins[j].number)
    {
      if j < |h.wins| {
        assert OrderOk(s, h.wins[i].number, h.wins[j].number);
      }
    }
  }

  lemma ConcludingIsOk(s: State, h: Past, n: nat)
    requires WinsOk(s, h) && Truth(s) && Discipline(s) && Working(s, n) && s.stages[n].Leaving?
    ensures WinsOk(Protocol.Moved(s, n, Conclude), NotedMove(s, h, n, Conclude))
  {
    assert InOrder(s, n, s.stages[n]);
    RepliedIff(s.replies, n);
    Conclusion(s, h, n);
    hide Protocol.Moved, NotedMove, Truth, ReplyAt, Success, RepliesTo, Discipline, WinsOk, SameBooks, Won;
    var t, g := Protocol.Moved(s, n, Conclude), NotedMove(s, h, n, Conclude);
    BooksStay(s, t);
    WonOnceMore(h, g, n);
    if s.stages[n].fan.wins != [] && SignIn(s, n) {
      OneMoreWin(s, t, h, g, n, Win(n, s.stages[n].fan.wins[0].0.device));
    } else {
      OneStageMoved(s, t, h, g, n);
    }
  }

  lemma NotReplied(replies: seq<Sent>, n: nat, i: nat)
    requires ReplyAt(replies, n) >= |replies| && i < |replies|
    ensures replies[i].number != n
  {
  }

  /** At most the win of `n` is new. */
  lemma WonOnceMore(h: Past, g: Past, n: nat)
    requires !Won(h, n)
    requires || g.wins == h.wins
             || (|g.wins| == |h.wins| + 1 && g.wins == h.wins + [g.wins[|h.wins|]] && g.wins[|h.wins|].number == n)
    ensures Won(g, n) <==> g.wins != h.wins
    ensures forall m :: m != n ==> (Won(g, m) <==> Won(h, m))
    ensures forall i :: 0 <= i < |h.wins| ==> h.wins[i].number != n
  {
    if g.wins != h.wins {
      assert g.wins[|h.wins|].number == n;
      forall m | m != n
        ensures Won(g, m) <==> Won(h, m)
      {
        if Won(h, m) {
          var i :| 0 <= i < |h.wins| && h.wins[i].number == m;
          assert g.wins[i].number == m;
        }
      }
    }
  }

  lemma AnswerMoves(s: State, h: Past, n: nat)
    requires Working(s, n) && s.stages[n].Replying?
    ensures
      var t, g := Protocol.Moved(s, n, Answer), NotedMove(s, h, n, Answer);
      && SameBooks(s, t) && t.last == s.last && g.wins == h.wins && t.stages == s.stages[n := Finishing]
      && t.replies == s.replies + [Sent(n, s.requests[n].channel, s.stages[n].payload)]
  {
  }

  /** A winner that has not replied yet when another one replies: INIT abandoned one of the two. */
  lemma UnrepliedWinner(s: State, h: Past, a: nat, n: nat)
    requires WinsOk(s, h) && Discipline(s) && n in s.stages && s.stages[n].Replying?
    requires a in s.stages && Won(h, a) && a != n && !Replied(s, a)
    ensures a in s.abandoned || n in s.abandoned
  {
    assert PayloadOk(s, h, a, s.stages[a]);
    assert InOrder(s, a, s.stages[a]) && InOrder(s, n, s.stages[n]);
    RepliedIff(s.replies, a);
    hide ReplyAt, RepliesTo, Success;
  }

  lemma ReplyKeepsOrder(s: State, h: Past, t: State, r: Sent, i: nat, j: nat)
    requires WinsOk(s, h) && Discipline(s) && r.number in s.stages && s.stages[r.number].Replying?
    requires t.abandoned == s.abandoned && t.replies == s.replies + [r]
    requires i < j < |h.wins|
    ensures OrderOk(t, h.wins[i].number, h.wins[j].number)
  {
    var a, b := h.wins[i].number, h.wins[j].number;
    var n := r.number;
    assert h.wins[i] in h.wins && h.wins[j] in h.wins;
    assert OrderOk(s, a, b) && a != b;
    assert InOrder(s, n, s.stages[n]);
    RepliedIff(s.replies, n);
    hide RepliesTo, Discipline, WinsOk, ReplyAt;
    ReplyAtSnoc(s.replies, r, a);
    ReplyAtSnoc(s.replies, r, b);
    if b == n && !Replied(s, a) {
      assert Won(h, a);
      UnrepliedWinner(s, h, a, n);
    }
  }

  lemma AnsweringIsOk(s: State, h: Past, n: nat)
    requires WinsOk(s, h) && Discipline(s) && Working(s, n) && s.stages[n].Replying?
    ensures WinsOk(Protocol.Moved(s, n, Answer), NotedMove(s, h, n, Answer))
  {
    AnswerMoves(s, h, n);
    assert PayloadOk(s, h, n, s.stages[n]);
    hide Protocol.Moved, NotedMove, ReplyAt, Success, RepliesTo, Discipline;
    var t, g := Protocol.Moved(s, n, Answer), NotedMove(s, h, n, Answer);
    var r := Sent(n, s.requests[n].channel, s.stages[n].payload);
    forall m | m in t.stages
      ensures PayloadOk(t, g, m, t.stages[m])
    {
      assert PayloadOk(s, h, m, s.stages[m]);
    }
    forall i | 0 <= i < |t.replies|
      ensures ReplyOk(t, g, t.replies[i])
    {
      if i < |s.replies| {
        assert ReplyOk(s, h, s.replies[i]);
      } else {
        assert t.replies[i] == r;
      }
    }
    forall i, j | 0 <= i < j < |g.wins|
      ensures OrderOk(t, g.wins[i].number, g.wins[j].number)
    {
      ReplyKeepsOrder(s, h, t, r, i, j);
    }
  }

  // ---- Every event -----------------------------------------------------------------------------------------

  lemma AcceptanceWinsNothing(s: State, h: Past, channel: Channel, data: seq<byte>)
    requires WinsOk(s, h) && Discipline(s) && Accepted(s, channel, data).issued < 0x1_0000_0000
    ensures WinsOk(Accepted(s, channel, data), h)
  {
    hide Started, InOrder, WinsOk;
    var counted := s.(issued := s.issued + 1);
    UntouchedIsOk(s, counted, h);
    UntouchedIsOk(s, s, h);
    StartCounts(counted, counted.issued % 0x1_0000_0000, Request(channel, data));
    if counted.issued < 0x1_0000_0000 {
      assert counted.issued !in s.stages;
      StartWinsNothing(counted, h, counted.issued, Request(channel, data));
    }
  }

  lemma MovesKeepWins(s: State, h: Past, n: nat, move: Move)
    requires WinsOk(s, h) && Truth(s) && Discipline(s) && Working(s, n)
    ensures WinsOk(Protocol.Moved(s, n, move), NotedMove(s, h, n, move))
  {
    hide WinsOk, Truth, Discipline, Protocol.Moved, NotedMove;
    if move.Answer? && s.stages[n].Replying? {
      AnsweringIsOk(s, h, n);
    } else if move.Conclude? && s.stages[n].Leaving? {
      ConcludingIsOk(s, h, n);
    } else {
      QuietHandlerIsOk(s, h, n, move);
    }
  }

  lemma CancellingWinsNothing(s: State, h: Past, target: Option<Channel>, abandon: bool)
    requires WinsOk(s, h)
    ensures WinsOk(Cancelled(s, target, abandon), h)
  {
    hide WinsOk;
    UntouchedIsOk(s, Cancelled(s, target, abandon), h);
  }

  lemma TransportKeepsWins(s: State, h: Past, e: Event)
    requires WinsOk(s, h) && (e.Connect? || e.Close? || e.Tell? || e.PhoneHandles? || e.Deliver?)
    ensures WinsOk(Next(s, e), h)
  {
    hide WinsOk, Next, SameBooks;
    TransportIsAside(s, e);
    TransportWinsNothing(s, e);
    BooksStay(s, Next(s, e));
    UntouchedIsOk(s, Next(s, e), h);
  }

  lemma WinsKept(s: State, h: Past, e: Event)
    requires WinsOk(s, h) && Truth(s) && Discipline(s) && Next(s, e).issued < 0x1_0000_0000
    ensures WinsOk(Next(s, e), Noted(s, h, e))
  {
    hide WinsOk, Truth, Discipline, Connected, Closed, Accepted, Cancelled, Told, PhoneHandled, Delivered;
    hide Protocol.Moved, NotedMove;
    match e
    case Accept(channel, data) => AcceptanceWinsNothing(s, h, channel, data);
    case Cancel(target, abandon) => CancellingWinsNothing(s, h, target, abandon);
    case Handler(n, move) =>
      if Working(s, n) {
        MovesKeepWins(s, h, n, move);
      }
    case _ => TransportKeepsWins(s, h, e);
  }

  lemma NothingIsWonAtFirst()
    ensures WinsOk(START, NOTHING) && Truth(START) && Discipline(START)
  {
  }

  lemma {:induction false} WinsAlways(s: State, h: Past, events: seq<Event>)
    requires WinsOk(s, h) && Truth(s) && Discipline(s) && Run(s, events).issued < 0x1_0000_0000
    ensures WinsOk(Run(s, events), Recorded(s, h, events)) && Discipline(Run(s, events))
    decreases |events|
  {
    hide Next, Noted, WinsOk, Truth, Discipline;
    if events != [] {
      RunIsMonotone(Next(s, events[0]), events[1..]);
      TruthKept(s, events[0]);
      StepsAreDisciplined(s, events[0]);
      WinsKept(s, h, events[0]);
      WinsAlways(Next(s, events[0]), Noted(s, h, events[0]), events[1..]);
    }
  }

  // ---- What getNextAssertion follows ---------------------------------------------------------------------------

  /** The plan names at most one link, and that of the device that had won last by then. */
  predicate FollowsLatest(plan: Planned, wins: seq<Win>) {
    && |plan.links| <= 1 && plan.wins <= |wins|
    && forall l <- plan.links :: plan.wins > 0 && l.device == wins[plan.wins - 1].device
  }

  predicate PlanFollows(s: State, h: Past, n: nat)
    requires n in h.plans
  {
    && n in s.requests && s.requests[n].data != [] && h.plans[n].wins <= |h.wins|
    && (s.requests[n].data[0] == GET_NEXT_ASSERTION && h.plans[n].chosen.None? ==> FollowsLatest(h.plans[n], h.wins))
  }

  predicate PlansFollow(s: State, h: Past) {
    forall n <- h.plans :: PlanFollows(s, h, n)
  }

  lemma PlanFollowsNow(s: State, h: Past, data: seq<byte>, devices: seq<Link>, chosen: Option<string>)
    requires data != [] && s.last == LastDevice(h.wins)
    ensures var plan := PlanNow(s, h, data, devices, chosen);
            plan.wins == |h.wins| && plan.chosen == chosen
            && (data[0] == GET_NEXT_ASSERTION && chosen.None? ==> FollowsLatest(plan, h.wins))
  {
    if data[0] == GET_NEXT_ASSERTION {
      NextAssertionFollowsTheWinner(devices, Plan(chosen, data[0], Probe.Silent(data), s.holders, s.last));
    }
  }

  lemma PlansAreNoted(s: State, h: Past, n: nat, move: Move, m: nat)
    requires Working(s, n) && PlansFollow(s, h) && s.last == LastDevice(h.wins)
    requires m in NotedMove(s, h, n, move).plans
    ensures PlanFollows(s, NotedMove(s, h, n, move), m)
  {
    WinsAreNoted(s, h, n, move);
    hide PlanNow;
    if move.MakePlan? && s.stages[n].Listed? && m == n {
      PlanFollowsNow(s, h, s.requests[n].data, s.stages[n].devices, move.chosen);
    } else {
      assert PlanFollows(s, h, m);
    }
  }

  lemma RequestsStay(s: State, e: Event, m: nat)
    requires Discipline(s) && Next(s, e).issued < 0x1_0000_0000 && m in s.requests
    ensures m in Next(s, e).requests && Next(s, e).requests[m] == s.requests[m]
  {
    hide Protocol.Moved, Connected, Closed, Told, PhoneHandled, Delivered, InOrder, RepliesTo;
    match e
    case Accept(_, _) =>
    case Cancel(_, _) =>
    case Handler(n, move) =>
      if Working(s, n) {
        MovesAreOfFourKinds(s, n, move);
      }
    case _ => TransportIsAside(s, e);
  }

  lemma PlansKept(s: State, h: Past, e: Event)
    requires PlansFollow(s, h) && WinsOk(s, h) && Discipline(s) && Next(s, e).issued < 0x1_0000_0000
    ensures PlansFollow(Next(s, e), Noted(s, h, e))
  {
    hide Next, NotedMove, Discipline, PayloadOk, ReplyOk, OrderOk;
    var g := Noted(s, h, e);
    forall m | m in g.plans
      ensures PlanFollows(Next(s, e), g, m)
    {
      if e.Handler? && Working(s, e.number) {
        PlansAreNoted(s, h, e.number, e.move, m);
      } else {
        assert PlanFollows(s, h, m);
      }
      RequestsStay(s, e, m);
    }
  }

  lemma {:induction false} PlansAlways(s: State, h: Past, events: seq<Event>)
    requires PlansFollow(s, h) && WinsOk(s, h) && Truth(s) && Discipline(s) && Run(s, events).issued < 0x1_0000_0000
    ensures PlansFollow(Run(s, events), Recorded(s, h, events))
    decreases |events|
  {
    hide Next, Noted, WinsOk, Truth, Discipline, PlansFollow;
    if events != [] {
      RunIsMonotone(Next(s, events[0]), events[1..]);
      TruthKept(s, events[0]);
      StepsAreDisciplined(s, events[0]);
      WinsKept(s, h, events[0]);
      PlansKept(s, h, events[0]);
      PlansAlways(Next(s, events[0]), Noted(s, h, events[0]), events[1..]);
    }
  }

  /**
   * In every run a getNextAssertion without a choice is sent only to the device that won the
   * getAssertion concluded last when its handler planned, and to one link of it at most.
   */
  lemma NextFollowsTheLatestWin(events: seq<Event>, i: nat)
    requires Run(START, events).issued < 0x1_0000_0000
    requires var s, h := Run(START, events), Recorded(START, NOTHING, events);
             && i < |h.questions|
             && var n := h.questions[i].number;
                && n in s.requests && s.requests[n].data != [] && s.requests[n].data[0] == GET_NEXT_ASSERTION
                && n in h.plans && h.plans[n].chosen.None?
    ensures var h := Recorded(START, NOTHING, events);
            var plan := h.plans[h.questions[i].number];
            && 0 < plan.wins <= |h.wins| && h.questions[i].link.device == h.wins[plan.wins - 1].device
            && forall j :: 0 <= j < |h.questions| && h.questions[j].number == h.questions[i].number ==>
                 h.questions[j].link == h.questions[i].link
  {
    hide Run, Recorded;
    AskingAlways(START, NOTHING, events);
    PlansAlways(START, NOTHING, events);
    QuestionFollows(Run(START, events), Recorded(START, NOTHING, events), i);
  }

  lemma QuestionFollows(s: State, h: Past, i: nat)
    requires AskingOk(s, h) && PlansFollow(s, h) && i < |h.questions|
    requires var n := h.questions[i].number;
             && n in s.requests && s.requests[n].data != [] && s.requests[n].data[0] == GET_NEXT_ASSERTION
             && n in h.plans && h.plans[n].chosen.None?
    ensures var plan := h.plans[h.questions[i].number];
            && 0 < plan.wins <= |h.wins| && h.questions[i].link.device == h.wins[plan.wins - 1].device
            && forall j :: 0 <= j < |h.questions| && h.questions[j].number == h.questions[i].number ==>
                 h.questions[j].link == h.questions[i].link
  {
    hide AskingOk, PlansFollow, PlanFollows;
    var n := h.questions[i].number;
    QuestionsArePlanned(s, h, n, i);
    PlansFollowEach(s, h, n);
    OnlyOneIsPlanned(h.questions, h.plans[n], h.wins, i);
  }

  lemma PlansFollowEach(s: State, h: Past, n: nat)
    requires PlansFollow(s, h) && n in h.plans && n in s.requests && s.requests[n].data != []
    requires s.requests[n].data[0] == GET_NEXT_ASSERTION && h.plans[n].chosen.None?
    ensures FollowsLatest(h.plans[n], h.wins)
  {
    assert PlanFollows(s, h, n);
  }

  lemma OnlyOneIsPlanned(questions: seq<Question>, plan: Planned, wins: seq<Win>, i: nat)
    requires i < |questions| && FollowsLatest(plan, wins)
    requires forall j :: 0 <= j < |questions| && questions[j].number == questions[i].number ==>
               questions[j].link in plan.links
    ensures 0 < plan.wins <= |wins| && questions[i].link.device == wins[plan.wins - 1].device
    ensures forall j :: 0 <= j < |questions| && questions[j].number == questions[i].number ==>
              questions[j].link == questions[i].link
  {
    assert plan.links == [questions[i].link];
  }

  lemma QuestionsArePlanned(s: State, h: Past, n: nat, i: nat)
    requires AskingOk(s, h) && n in h.plans && i < |h.questions| && h.questions[i].number == n
    ensures forall j :: 0 <= j < |h.questions| && h.questions[j].number == n ==> h.questions[j].link in h.plans[n].links
  {
    assert h.questions[i] in h.questions;
    assert HandlerOk(s, h, n);
    hide AskedBy, AskingOk, QuestionsOf, HandlerOk;
    forall j | 0 <= j < |h.questions| && h.questions[j].number == n
      ensures h.questions[j].link in h.plans[n].links
    {
      QuestionIsPlanned(s, h, n, j);
    }
  }

  lemma QuestionIsPlanned(s: State, h: Past, n: nat, j: nat)
    requires n in s.stages && n in s.requests && HandlerOk(s, h, n) && n in h.plans
    requires j < |h.questions| && h.questions[j].number == n
    ensures h.questions[j].link in h.plans[n].links
  {
    hide QuestionsOf, FanOk, OnePerDevice, Ranked;
    var k := QuestionAt(h.questions, n, j);
    var mine, plan := QuestionsOf(h.questions, n), h.plans[n].links;
    var reached := plan[..|plan| - |Rest(s.stages[n])|];
    assert mine[k] in reached;
    var x :| 0 <= x < |reached| && reached[x] == mine[k];
    assert plan[x] == mine[k];
  }

  // ---- What the host expects --------------------------------------------------------------------------------------

  /** The sign-in whose success was sent to the host last. */
  function LastSuccess(s: State, replies: seq<Sent>): Option<nat> {
    if replies == [] then None else
      var r := replies[|replies| - 1];
      if SignIn(s, r.number) && Success(r.payload) then Some(r.number) else LastSuccess(s, replies[..|replies| - 1])
  }

  function WinAt(wins: seq<Win>, n: nat): (k: nat)
    ensures k <= |wins| && (k < |wins| ==> wins[k].number == n)
    ensures forall i :: 0 <= i < k ==> wins[i].number != n
  {
    if wins == [] || wins[0].number == n then 0 else 1 + WinAt(wins[1..], n)
  }

  /** The wins that were concluded after the one of `n`. */
  function LaterWins(wins: seq<Win>, n: nat): seq<Win>
    requires WinAt(wins, n) < |wins|
  {
    wins[WinAt(wins, n) + 1..]
  }

  lemma {:induction false} LastSuccessAt(s: State, replies: seq<Sent>) returns (q: nat)
    requires LastSuccess(s, replies).Some?
    ensures q < |replies| && replies[q].number == LastSuccess(s, replies).value
    ensures SignIn(s, replies[q].number) && Success(replies[q].payload)
    ensures forall i :: q < i < |replies| ==> !(SignIn(s, replies[i].number) && Success(replies[i].payload))
  {
    var last := |replies| - 1;
    if SignIn(s, replies[last].number) && Success(replies[last].payload) {
      q := last;
    } else {
      q := LastSuccessAt(s, replies[..last]);
    }
  }

  lemma {:induction false} OnlyReply(replies: seq<Sent>, n: nat, q: nat)
    requires q < |replies| && replies[q].number == n && RepliesTo(replies, n) <= 1
    ensures ReplyAt(replies, n) == q
  {
    var last := |replies| - 1;
    assert replies == replies[..last] + [replies[last]];
    ReplyAtSnoc(replies[..last], replies[last], n);
    RepliedIff(replies[..last], n);
    if q < last {
      OnlyReplyEarlier(replies, n, q);
      OnlyReply(replies[..last], n, q);
    }
  }

  lemma OnlyReplyEarlier(replies: seq<Sent>, n: nat, q: nat)
    requires q < |replies| - 1 && replies[q].number == n && RepliesTo(replies, n) <= 1
    ensures RepliesTo(replies[..|replies| - 1], n) <= 1
  {
  }

  lemma WonSuccess(s: State, h: Past) returns (n: nat)
    requires WinsOk(s, h) && LastSuccess(s, s.replies).Some?
    ensures n == LastSuccess(s, s.replies).value && Won(h, n) && WinAt(h.wins, n) < |h.wins|
  {
    var q := LastSuccessAt(s, s.replies);
    assert ReplyOk(s, h, s.replies[q]);
    n := s.replies[q].number;
    var i :| 0 <= i < |h.wins| && h.wins[i].number == n;
  }

  /**
   * While another request holds the slot, and unless INIT abandoned the request that was answered
   * last, every win concluded after its own is an abandoned request's.
   */
  lemma LaterWinsAreAbandoned(s: State, h: Past, k: nat, n: nat, j: nat)
    requires WinsOk(s, h) && Discipline(s) && k in s.stages && s.busy == Some(k) && !Concluded(s.stages[k])
    requires LastSuccess(s, s.replies) == Some(n) && Won(h, n) && n !in s.abandoned
    requires WinAt(h.wins, n) < j < |h.wins|
    ensures h.wins[j].number in s.abandoned
  {
    var m := h.wins[j].number;
    if m !in s.abandoned {
      var i := WinAt(h.wins, n);
      assert h.wins[i].number == n && n != m && OrderOk(s, n, m);
      assert h.wins[j] in h.wins && h.wins[i] in h.wins && Won(h, m);
      assert PayloadOk(s, h, m, s.stages[m]) && InOrder(s, m, s.stages[m]) && InOrder(s, n, s.stages[n]);
      RepliedIff(s.replies, m);
      hide ReplyAt, RepliesTo, Success, WinAt, LastSuccess, WinsOk, Discipline;
      assert Replied(s, m);
      WhereItReplied(s.replies, m);
      assert ReplyOk(s, h, s.replies[ReplyAt(s.replies, m)]);
      NoLaterSuccess(s, n, m);
      assert false;
    }
  }

  lemma NoLaterSuccess(s: State, n: nat, m: nat)
    requires LastSuccess(s, s.replies) == Some(n) && RepliesTo(s.replies, n) <= 1
    requires Replied(s, m) && SignIn(s, m) && Success(s.replies[ReplyAt(s.replies, m)].payload)
    ensures ReplyAt(s.replies, m) <= ReplyAt(s.replies, n)
  {
    hide ReplyAt, RepliesTo, Success, LastSuccess;
    WhereItReplied(s.replies, m);
    var q := LastSuccessAt(s, s.replies);
    OnlyReply(s.replies, n, q);
  }

  lemma WhereItReplied(replies: seq<Sent>, m: nat)
    requires ReplyAt(replies, m) < |replies|
    ensures replies[ReplyAt(replies, m)].number == m
  {
  }

  /**
   * In every run, when a getNextAssertion is about to be planned by the request in the slot: the
   * device remembered is the one whose success the host got last exactly when no sign-in was
   * concluded since that one's, or the last of those was won by the same device. Unless that
   * success was itself sent for an abandoned request, all of those were abandoned requests'.
   */
  lemma NextGoesToTheRepliedDeviceIff(events: seq<Event>, k: nat)
    requires Run(START, events).issued < 0x1_0000_0000
    requires var s := Run(START, events);
             k in s.stages && s.stages[k].Listed? && s.busy == Some(k) && LastSuccess(s, s.replies).Some?
    ensures var s, h := Run(START, events), Recorded(START, NOTHING, events);
            var n := LastSuccess(s, s.replies).value;
            && WinAt(h.wins, n) < |h.wins|
            && var device, later := h.wins[WinAt(h.wins, n)].device, LaterWins(h.wins, n);
               && (s.last == Some(device) <==> later == [] || later[|later| - 1].device == device)
               && (n !in s.abandoned ==> forall w <- later :: w.number in s.abandoned)
  {
    hide Run, Recorded, LastSuccess, WinAt, WinsOk, Truth, Discipline;
    NothingIsWonAtFirst();
    WinsAlways(START, NOTHING, events);
    RememberedIff(Run(START, events), Recorded(START, NOTHING, events), k);
  }

  lemma RememberedIff(s: State, h: Past, k: nat)
    requires WinsOk(s, h) && Discipline(s)
    requires k in s.stages && s.stages[k].Listed? && s.busy == Some(k) && LastSuccess(s, s.replies).Some?
    ensures var n := LastSuccess(s, s.replies).value;
            && WinAt(h.wins, n) < |h.wins|
            && var device, later := h.wins[WinAt(h.wins, n)].device, LaterWins(h.wins, n);
               && (s.last == Some(device) <==> later == [] || later[|later| - 1].device == device)
               && (n !in s.abandoned ==> forall w <- later :: w.number in s.abandoned)
  {
    hide Discipline, PayloadOk, ReplyOk, OrderOk, LastSuccess, WinAt;
    var n := WonSuccess(s, h);
    var at := WinAt(h.wins, n);
    var later := LaterWins(h.wins, n);
    if later == [] {
      assert at == |h.wins| - 1;
    } else {
      assert later[|later| - 1] == h.wins[|h.wins| - 1];
    }
    if n !in s.abandoned {
      forall w | w in later
        ensures w.number in s.abandoned
      {
        var x :| 0 <= x < |later| && later[x] == w;
        assert h.wins[at + 1 + x] == w;
        LaterWinsAreAbandoned(s, h, k, n, at + 1 + x);
      }
    }
  }

  /** In particular with no abandoned winner the host's device is remembered. */
  lemma WithoutAbandonedWinnersItDoes(events: seq<Event>, k: nat)
    requires Run(START, events).issued < 0x1_0000_0000
    requires var s := Run(START, events);
             k in s.stages && s.stages[k].Listed? && s.busy == Some(k) && LastSuccess(s, s.replies).Some?
    requires var s, h := Run(START, events), Recorded(START, NOTHING, events);
             forall i :: 0 <= i < |h.wins| ==> h.wins[i].number !in s.abandoned
    ensures var s, h := Run(START, events), Recorded(START, NOTHING, events);
            var at := WinAt(h.wins, LastSuccess(s, s.replies).value);
            at < |h.wins| && s.last == Some(h.wins[at].device)
  {
    hide Run, Recorded, LastSuccess, WinsOk, Truth, Discipline;
    NothingIsWonAtFirst();
    WinsAlways(START, NOTHING, events);
    var s, h := Run(START, events), Recorded(START, NOTHING, events);
    RememberedIff(s, h, k);
    var n := LastSuccess(s, s.replies).value;
    assert h.wins[WinAt(h.wins, n)].number == n;
    LaterWinsAreWins(h.wins, n, s.abandoned);
  }

  lemma LaterWinsAreWins(wins: seq<Win>, n: nat, abandoned: set<nat>)
    requires WinAt(wins, n) < |wins| && forall w <- LaterWins(wins, n) :: w.number in abandoned
    ensures LaterWins(wins, n) == [] || wins[|wins| - 1].number in abandoned
  {
    var later := LaterWins(wins, n);
    if later != [] {
      assert later[|later| - 1] == wins[|wins| - 1];
    }
  }
}
