/**
 * What really goes over the links in a run: every frame that ever entered a link's queue and every
 * mark or answer that ever reached the daemon, read off the states themselves. Each request asked is
 * a frame sent, whoever is still pending when a round ends is told to withdraw, and so is everybody
 * in the round when the request is cancelled.
 */
module Traffic {
  import opened Bytes
  import opened CtapHid
  import opened Rounds
  import opened Protocol
  import opened History
  import opened Verdicts
  import EndToEnd
  import Probe

  /** All that was ever queued, link by link. */
  datatype Ever = Ever(sent: map<nat, seq<Frame>>, heard: map<nat, seq<Answer>>)

  const SILENT := Ever(map[], map[])

  /** What a queue has gained; a queue from which something was taken has gained nothing. */
  function Gained<T>(before: seq<T>, after: seq<T>): seq<T> {
    if |after| > |before| then after[|before|..] else []
  }

  function More<T>(ever: map<nat, seq<T>>, before: map<nat, seq<T>>, after: map<nat, seq<T>>): map<nat, seq<T>> {
    map l | l in ever.Keys + after.Keys :: Queue(ever, l) + Gained(Queue(before, l), Queue(after, l))
  }

  function Seen(s: State, ever: Ever, e: Event): Ever {
    var t := Next(s, e);
    Ever(More(ever.sent, s.outbox, t.outbox), More(ever.heard, s.heard, t.heard))
  }

  function SeenAll(s: State, ever: Ever, events: seq<Event>): Ever
    decreases |events|
  {
    if events == [] then ever else SeenAll(Next(s, events[0]), Seen(s, ever, events[0]), events[1..])
  }

  lemma MoreIs<T>(ever: map<nat, seq<T>>, before: map<nat, seq<T>>, after: map<nat, seq<T>>, l: nat)
    ensures Queue(More(ever, before, after), l) == Queue(ever, l) + Gained(Queue(before, l), Queue(after, l))
  {
  }

  // ---- What one move sends -----------------------------------------------------------------------------

  /** The frames that a move of `n` adds to the queue of link `l`. */
  function Adds(s: State, n: nat, move: Move, l: nat): seq<Frame>
    requires Working(s, n)
  {
    var stage := s.stages[n];
    if move == Send(true) && stage.Sending? && stage.left != [] && stage.left[0].id == l then
      [Ask(n, s.requests[n].data)]
    else if move.Stop? && stage.Listening? && stage.queue == [] then
      EndToEnd.Copies(Withdraw(n), EndToEnd.CountOf(stage.fan.pending, l))
    else []
  }

  lemma MovesSend(s: State, n: nat, move: Move, l: nat)
    requires Working(s, n)
    ensures Queue(Protocol.Moved(s, n, move).outbox, l) == Queue(s.outbox, l) + Adds(s, n, move, l)
  {
    var stage := s.stages[n];
    assert Queue(s.outbox, l) + [] == Queue(s.outbox, l);
    if stage.Listening? && move.Stop? {
      StopSends(s, n, l);
    } else if stage.Sending? && move.Send? {
      SendSends(s, n, move.ok, l);
    } else {
      OthersSendNothing(s, n, move);
    }
  }

  lemma StopSends(s: State, n: nat, l: nat)
    requires Working(s, n) && s.stages[n].Listening?
    ensures Queue(StopListening(s, n, s.stages[n]).outbox, l) == Queue(s.outbox, l) + Adds(s, n, Stop, l)
  {
    hide PushAll, Queue, GoTo;
    OutboxStays(s, l);
    assert Queue(s.outbox, l) + [] == Queue(s.outbox, l);
    EndToEnd.PushedAll(s.outbox, s.stages[n].fan.pending, Withdraw(n), l);
  }

  lemma SendSends(s: State, n: nat, ok: bool, l: nat)
    requires Working(s, n) && s.stages[n].Sending?
    ensures Queue(SendOne(s, n, s.requests[n].data, s.stages[n], ok).outbox, l)
         == Queue(s.outbox, l) + Adds(s, n, Send(ok), l)
  {
    hide Queue, GoTo, Push;
    OutboxStays(s, l);
    assert Queue(s.outbox, l) + [] == Queue(s.outbox, l);
    if s.stages[n].left != [] {
      PushIs(s.outbox, s.stages[n].left[0].id, Ask(n, s.requests[n].data), l);
    }
  }

  lemma OthersSendNothing(s: State, n: nat, move: Move)
    requires Working(s, n) && !(s.stages[n].Listening? && move.Stop?) && !(s.stages[n].Sending? && move.Send?)
    ensures Protocol.Moved(s, n, move).outbox == s.outbox
  {
    hide PushAll, Queue, Pop, Absorb, PlanRounds, ByDevice, Live, FinalError, NextRound, Payloads, Probe.Silent, GoTo;
    OutboxStays(s, 0);
  }

  lemma OutboxStays(s: State, l: nat)
    ensures forall t: State, n: nat, stage: Stage :: GoTo(t, n, stage).outbox == t.outbox
  {
  }

  lemma PushIs<T>(queues: map<nat, seq<T>>, k: nat, x: T, l: nat)
    ensures Queue(Push(queues, k, x), l) == Queue(queues, l) + if k == l then [x] else []
  {
  }

  lemma GainedIs<T>(before: seq<T>, x: seq<T>)
    ensures Gained(before, before + x) == x
  {
  }

  lemma SeenGrows(s: State, ever: Ever, e: Event, l: nat)
    ensures forall f <- Queue(ever.sent, l) :: f in Queue(Seen(s, ever, e).sent, l)
    ensures forall f <- Queue(ever.heard, l) :: f in Queue(Seen(s, ever, e).heard, l)
  {
    hide Next, Gained;
    MoreIs(ever.sent, s.outbox, Next(s, e).outbox, l);
    MoreIs(ever.heard, s.heard, Next(s, e).heard, l);
  }

  lemma MoveIsSeen(s: State, ever: Ever, n: nat, move: Move, l: nat)
    requires Working(s, n)
    ensures Queue(Seen(s, ever, Handler(n, move)).sent, l) == Queue(ever.sent, l) + Adds(s, n, move, l)
  {
    hide Protocol.Moved, Adds, Gained, More;
    MovesSend(s, n, move, l);
    MoreIs(ever.sent, s.outbox, Next(s, Handler(n, move)).outbox, l);
    GainedIs(Queue(s.outbox, l), Adds(s, n, move, l));
  }

  // ---- Every question is a frame --------------------------------------------------------------------------

  predicate AsksSent(s: State, ever: Ever) {
    && (forall x <- s.asked :: x.1 in s.requests && Ask(x.1, s.requests[x.1].data) in Queue(ever.sent, x.0))
    && (forall l <- ever.sent :: forall i :: 0 <= i < |ever.sent[l]| && ever.sent[l][i].Ask? ==>
          && (l, ever.sent[l][i].number) in s.asked
          && ever.sent[l][i].number in s.requests && s.requests[ever.sent[l][i].number].data == ever.sent[l][i].data)
  }

  lemma MoveAsks(s: State, ever: Ever, n: nat, move: Move)
    requires AsksSent(s, ever) && Working(s, n)
    ensures AsksSent(Next(s, Handler(n, move)), Seen(s, ever, Handler(n, move)))
  {
    hide Protocol.Moved, Seen, Adds;
    var e := Handler(n, move);
    var t, more := Next(s, e), Seen(s, ever, e);
    AskedMoves(s, n, move);
    MovesAreOfFourKinds(s, n, move);
    forall x | x in t.asked
      ensures x.1 in t.requests && Ask(x.1, t.requests[x.1].data) in Queue(more.sent, x.0)
    {
      MoveIsSeen(s, ever, n, move, x.0);
      AddsTheQuestion(s, n, move, x.0);
    }
    forall l, i | l in more.sent && 0 <= i < |more.sent[l]| && more.sent[l][i].Ask?
      ensures (l, more.sent[l][i].number) in t.asked
      ensures more.sent[l][i].number in t.requests && t.requests[more.sent[l][i].number].data == more.sent[l][i].data
    {
      MoveIsSeen(s, ever, n, move, l);
      AddsTheQuestion(s, n, move, l);
      var was := Queue(ever.sent, l);
      assert Queue(more.sent, l) == more.sent[l];
      if i < |was| {
        assert more.sent[l][i] == was[i];
      } else {
        assert more.sent[l][i] == Adds(s, n, move, l)[i - |was|];
      }
    }
  }

  lemma AddsTheQuestion(s: State, n: nat, move: Move, l: nat)
    requires Working(s, n)
    ensures var stage := s.stages[n];
            && (move == Send(true) && stage.Sending? && stage.left != [] && stage.left[0].id == l ==>
                  Ask(n, s.requests[n].data) in Adds(s, n, move, l))
            && forall i :: 0 <= i < |Adds(s, n, move, l)| && Adds(s, n, move, l)[i].Ask? ==>
                 && move == Send(true) && stage.Sending? && stage.left != [] && stage.left[0].id == l
                 && Adds(s, n, move, l)[i] == Ask(n, s.requests[n].data)
  {
  }

  /** The frames that an event outside the handlers adds to the queue of link `l`. */
  function Tells(s: State, e: Event, l: nat): seq<Frame> {
    if e.Tell? && e.number in s.leaving then
      EndToEnd.Copies(Withdraw(e.number), EndToEnd.CountOf(Queue(s.shared, e.number), l))
    else []
  }

  lemma TellingSends(s: State, n: nat, l: nat)
    ensures Queue(Told(s, n).outbox, l) == Queue(s.outbox, l) + Tells(s, Tell(n), l)
  {
    hide PushAll;
    assert Queue(s.outbox, l) + [] == Queue(s.outbox, l);
    EndToEnd.PushedAll(s.outbox, Queue(s.shared, n), Withdraw(n), l);
  }

  lemma OutsideSends(s: State, device: string, caption: string, priority: nat, l: nat, target: Option<Channel>,
                     abandon: bool)
    ensures Connected(s, device, caption, priority).outbox == s.outbox && Closed(s, l).outbox == s.outbox
    ensures Cancelled(s, target, abandon).outbox == s.outbox && Delivered(s, l).outbox == s.outbox
  {
    hide Push, Pop, Queue;
  }

  lemma AcceptSends(s: State, channel: Channel, data: seq<byte>)
    ensures Accepted(s, channel, data).outbox == s.outbox
  {
  }

  lemma PhonesOnlyTake(s: State, l: nat, result: seq<byte>, k: nat)
    ensures Gained(Queue(s.outbox, k), Queue(PhoneHandled(s, l, result).outbox, k)) == []
  {
    hide Push;
  }

  lemma GainsNothing<T>(before: seq<T>)
    ensures Gained(before, before) == []
  {
  }

  lemma EventIsSeen(s: State, ever: Ever, e: Event, l: nat)
    requires !e.Handler?
    ensures Queue(Seen(s, ever, e).sent, l) == Queue(ever.sent, l) + Tells(s, e, l)
  {
    hide More, Gained, Told, Connected, Closed, Accepted, Cancelled, PhoneHandled, Delivered, Queue;
    MoreIs(ever.sent, s.outbox, Next(s, e).outbox, l);
    GainsNothing(Queue(s.outbox, l));
    match e
    case Tell(n) =>
      TellingSends(s, n, l);
      GainedIs(Queue(s.outbox, l), Tells(s, e, l));
    case Accept(channel, data) => AcceptSends(s, channel, data);
    case Connect(device, caption, priority) => OutsideSends(s, device, caption, priority, 0, None, false);
    case Close(k) => OutsideSends(s, "", "", 0, k, None, false);
    case Deliver(k) => OutsideSends(s, "", "", 0, k, None, false);
    case Cancel(target, abandon) => OutsideSends(s, "", "", 0, 0, target, abandon);
    case PhoneHandles(k, result) => PhonesOnlyTake(s, k, result, l);
  }

  lemma TellsNoQuestion(s: State, e: Event, l: nat)
    ensures forall i :: 0 <= i < |Tells(s, e, l)| ==> Tells(s, e, l)[i].Withdraw?
  {
  }

  lemma EventAsks(s: State, ever: Ever, e: Event)
    requires AsksSent(s, ever) && !e.Handler?
    requires Next(s, e).asked == s.asked
    requires forall n <- s.requests :: n in Next(s, e).requests && Next(s, e).requests[n] == s.requests[n]
    ensures AsksSent(Next(s, e), Seen(s, ever, e))
  {
    hide Next, Seen, Tells;
    var t, more := Next(s, e), Seen(s, ever, e);
    forall x | x in t.asked
      ensures x.1 in t.requests && Ask(x.1, t.requests[x.1].data) in Queue(more.sent, x.0)
    {
      EventIsSeen(s, ever, e, x.0);
    }
    forall l, i | l in more.sent && 0 <= i < |more.sent[l]| && more.sent[l][i].Ask?
      ensures (l, more.sent[l][i].number) in t.asked
      ensures more.sent[l][i].number in t.requests && t.requests[more.sent[l][i].number].data == more.sent[l][i].data
    {
      EventIsSeen(s, ever, e, l);
      TellsNoQuestion(s, e, l);
      var was := Queue(ever.sent, l);
      assert Queue(more.sent, l) == more.sent[l];
      if i < |was| {
        assert more.sent[l][i] == was[i];
      }
    }
  }

  // ---- Everybody pending is told -------------------------------------------------------------------------

  lemma {:induction false} PendingIsCounted(links: seq<Link>, k: Link)
    requires k in links
    ensures EndToEnd.CountOf(links, k.id) > 0
  {
    if links[0] != k {
      PendingIsCounted(links[1..], k);
    }
  }

  lemma CopiesHold(x: Frame, k: nat)
    ensures k > 0 ==> x in EndToEnd.Copies(x, k)
  {
    if k > 0 {
      assert EndToEnd.Copies(x, k)[0] == x;
    }
  }

  predicate AllTold(n: nat, fan: Fan, ever: Ever) {
    forall k <- fan.pending :: Withdraw(n) in Queue(ever.sent, k.id)
  }

  /** Of every round that a handler has left, whoever was still pending was told to withdraw. */
  predicate PendingTold(s: State, g: Ledger, ever: Ever) {
    && (forall n <- g.accounts :: forall i :: 0 <= i < |g.accounts[n].fans| ==> AllTold(n, g.accounts[n].fans[i], ever))
    && (forall n <- s.stages :: s.stages[n].Leaving? ==> AllTold(n, s.stages[n].fan, ever))
  }

  lemma ToldStays(s: State, ever: Ever, e: Event, n: nat, fan: Fan)
    requires AllTold(n, fan, ever)
    ensures AllTold(n, fan, Seen(s, ever, e))
  {
    hide Seen;
    forall k | k in fan.pending
      ensures Withdraw(n) in Queue(Seen(s, ever, e).sent, k.id)
    {
      SeenGrows(s, ever, e, k.id);
    }
  }

  lemma StoppingTells(s: State, ever: Ever, n: nat)
    requires Working(s, n) && s.stages[n].Listening? && s.stages[n].queue == []
    ensures AllTold(n, s.stages[n].fan, Seen(s, ever, Handler(n, Stop)))
  {
    hide Seen;
    forall k | k in s.stages[n].fan.pending
      ensures Withdraw(n) in Queue(Seen(s, ever, Handler(n, Stop)).sent, k.id)
    {
      MoveIsSeen(s, ever, n, Stop, k.id);
      PendingIsCounted(s.stages[n].fan.pending, k);
      CopiesHold(Withdraw(n), EndToEnd.CountOf(s.stages[n].fan.pending, k.id));
    }
  }

  /** Which rounds a move adds to its account, and when it leaves one. */
  lemma FansMove(s: State, g: Ledger, n: nat, move: Move)
    requires Working(s, n)
    ensures
      var t, g', stage := Protocol.Moved(s, n, move), EnteredMove(s, g, n, move), s.stages[n];
      && n in t.stages
      && (n in g'.accounts ==>
            || g'.accounts[n].fans == []
            || (n in g.accounts && g'.accounts[n].fans == g.accounts[n].fans)
            || (n in g.accounts && stage.Leaving? && g'.accounts[n].fans == g.accounts[n].fans + [stage.fan]))
      && (t.stages[n].Leaving? ==>
            || t.stages[n] == stage
            || (move.Stop? && stage.Listening? && stage.queue == [] && t.stages[n].fan == stage.fan))
  {
    hide GoTo, PushAll, Push, Pop, Queue, Absorb, PlanRounds, ByDevice, Live, FinalError, Payloads;
    hide Present, Agreed, Probe.Silent, Record;
    WhereItGoes();
  }

  lemma MoveTells(s: State, g: Ledger, ever: Ever, n: nat, move: Move)
    requires PendingTold(s, g, ever) && Working(s, n)
    ensures PendingTold(Next(s, Handler(n, move)), EnteredMove(s, g, n, move), Seen(s, ever, Handler(n, move)))
  {
    hide Protocol.Moved, EnteredMove, Seen, AllTold;
    var e := Handler(n, move);
    var t, g', more := Next(s, e), EnteredMove(s, g, n, move), Seen(s, ever, e);
    MovesAreOfFourKinds(s, n, move);
    FansMove(s, g, n, move);
    forall m, i | m in g'.accounts && 0 <= i < |g'.accounts[m].fans|
      ensures AllTold(m, g'.accounts[m].fans[i], more)
    {
      if m != n {
        OthersKeepTheirAccounts(s, NOTHING, g, n, move, m);
        assert g'.accounts[m] == g.accounts[m];
        ToldStays(s, ever, e, m, g.accounts[m].fans[i]);
      } else if i < |g.accounts[n].fans| {
        ToldStays(s, ever, e, n, g.accounts[n].fans[i]);
      } else {
        ToldStays(s, ever, e, n, s.stages[n].fan);
      }
    }
    forall m | m in t.stages && t.stages[m].Leaving?
      ensures AllTold(m, t.stages[m].fan, more)
    {
      if s.stages[m].Leaving? {
        ToldStays(s, ever, e, m, s.stages[m].fan);
      } else {
        StoppingTells(s, ever, n);
      }
    }
  }

  lemma EventTells(s: State, g: Ledger, ever: Ever, e: Event)
    requires PendingTold(s, g, ever)
    requires forall n <- Next(s, e).stages :: Next(s, e).stages[n].Leaving? ==>
               n in s.stages && s.stages[n] == Next(s, e).stages[n]
    ensures PendingTold(Next(s, e), g, Seen(s, ever, e))
  {
    hide Next, Seen, AllTold;
    var t, more := Next(s, e), Seen(s, ever, e);
    forall n, i | n in g.accounts && 0 <= i < |g.accounts[n].fans|
      ensures AllTold(n, g.accounts[n].fans[i], more)
    {
      ToldStays(s, ever, e, n, g.accounts[n].fans[i]);
    }
    forall n | n in t.stages && t.stages[n].Leaving?
      ensures AllTold(n, t.stages[n].fan, more)
    {
      ToldStays(s, ever, e, n, s.stages[n].fan);
    }
  }

  // ---- Whom a cancellation reaches -------------------------------------------------------------------------

  /** While a handler listens, the links that CANCEL and INIT tell are those that took the round. */
  predicate SharedIs(s: State, g: Ledger) {
    forall n <- s.stages :: s.stages[n].Listening? ==> n in g.accounts && Queue(s.shared, n) == g.accounts[n].round
  }

  lemma SharedMoves(s: State, n: nat, move: Move)
    requires Working(s, n)
    ensures
      var stage := s.stages[n];
      Protocol.Moved(s, n, move).shared
      == if move.Send? && stage.Sending? && stage.left == [] then s.shared[n := stage.took]
         else if move.Stop? && stage.Listening? && stage.queue == [] then s.shared[n := []]
         else s.shared
  {
    hide GoTo, PushAll, Push, Pop, Queue, Absorb, PlanRounds, ByDevice, Live, FinalError, Payloads, NextRound;
    hide Probe.Silent;
    SharedStays();
  }

  lemma SharedStays()
    ensures forall s: State, n: nat, stage: Stage :: GoTo(s, n, stage).shared == s.shared
  {
  }

  lemma ListeningMove(s: State, g: Ledger, n: nat, move: Move)
    requires Working(s, n)
    ensures
      var t, g', stage := Protocol.Moved(s, n, move), EnteredMove(s, g, n, move), s.stages[n];
      && n in t.stages
      && (t.stages[n].Listening? ==>
            || (stage.Sending? && move.Send? && stage.left == [])
            || (stage.Listening? && !(move.Stop? && stage.queue == [])))
      && (n in g.accounts && t.stages[n].Listening? ==>
            n in g'.accounts && g'.accounts[n].round == g.accounts[n].round)
  {
    hide GoTo, PushAll, Push, Pop, Queue, Absorb, PlanRounds, ByDevice, Live, FinalError, Payloads;
    hide Present, Agreed, Probe.Silent, Record;
    WhereItGoes();
  }

  lemma SendingRound(s: State, h: Past, g: Ledger, n: nat)
    requires Working(s, n) && AccountOk(s, h, g, n) && s.stages[n].Sending?
    ensures n in g.accounts && g.accounts[n].round == s.stages[n].took
  {
    hide WellPlanned, Undecided, Flatten;
  }

  lemma MoveShares(s: State, h: Past, g: Ledger, n: nat, move: Move)
    requires SharedIs(s, g) && Working(s, n) && AccountOk(s, h, g, n)
    ensures SharedIs(Protocol.Moved(s, n, move), EnteredMove(s, g, n, move))
  {
    hide Protocol.Moved, EnteredMove, AccountOk;
    var t, g' := Protocol.Moved(s, n, move), EnteredMove(s, g, n, move);
    MovesAreOfFourKinds(s, n, move);
    SharedMoves(s, n, move);
    ListeningMove(s, g, n, move);
    if s.stages[n].Sending? {
      SendingRound(s, h, g, n);
    }
    forall m | m in t.stages && t.stages[m].Listening?
      ensures m in g'.accounts && Queue(t.shared, m) == g'.accounts[m].round
    {
      if m != n {
        OthersKeepTheirAccounts(s, h, g, n, move, m);
      }
    }
  }

  // ---- Closing marks ----------------------------------------------------------------------------------------

  /** Every link that is gone has left its mark among what the daemon hears. */
  predicate MarksHeard(s: State, ever: Ever) {
    forall l :: 0 <= l < |s.links| && l !in s.alive ==> (0, []) in Queue(ever.heard, l)
  }

  lemma ClosingMarks(s: State, ever: Ever, l: nat)
    requires l in s.alive
    ensures (0, []) in Queue(Seen(s, ever, Close(l)).heard, l)
  {
    hide More, Gained;
    var mark: Answer := (0, []);
    MoreIs(ever.heard, s.heard, Closed(s, l).heard, l);
    PushIs(s.heard, l, mark, l);
    GainedIs(Queue(s.heard, l), [mark]);
    assert [mark][0] == mark;
  }

  lemma LinksStay(s: State, e: Event)
    requires !e.Connect? && !e.Close?
    ensures Next(s, e).links == s.links && Next(s, e).alive == s.alive
  {
    hide Protocol.Moved, Accepted, Cancelled, Told, PhoneHandled, Delivered;
    match e
    case Handler(n, move) =>
      if Working(s, n) {
        MovesKeepLinks(s, n, move);
      }
    case Accept(channel, data) => AcceptKeepsLinks(s, channel, data);
    case Cancel(target, abandon) => CancelKeepsLinks(s, target, abandon);
    case Tell(n) => TellingKeepsLinks(s, n);
    case PhoneHandles(l, result) => PhonesKeepLinks(s, l, result);
    case Deliver(l) => DeliveryKeepsLinks(s, l);
  }

  lemma MovesKeepLinks(s: State, n: nat, move: Move)
    requires Working(s, n)
    ensures Protocol.Moved(s, n, move).links == s.links && Protocol.Moved(s, n, move).alive == s.alive
  {
    hide GoTo, PushAll, Push, Pop, Queue, Absorb, PlanRounds, ByDevice, Live, FinalError, Payloads, NextRound;
    hide Probe.Silent;
    GoingKeepsLinks();
  }

  lemma GoingKeepsLinks()
    ensures forall s: State, n: nat, stage: Stage ::
              GoTo(s, n, stage).links == s.links && GoTo(s, n, stage).alive == s.alive
  {
  }

  lemma AcceptKeepsLinks(s: State, channel: Channel, data: seq<byte>)
    ensures Accepted(s, channel, data).links == s.links && Accepted(s, channel, data).alive == s.alive
  {
    hide Started;
    StartKeepsLinks();
  }

  lemma StartKeepsLinks()
    ensures forall s: State, n: nat, request: Request ::
              Started(s, n, request).links == s.links && Started(s, n, request).alive == s.alive
  {
  }

  lemma CancelKeepsLinks(s: State, target: Option<Channel>, abandon: bool)
    ensures Cancelled(s, target, abandon).links == s.links && Cancelled(s, target, abandon).alive == s.alive
  {
  }

  lemma TellingKeepsLinks(s: State, n: nat)
    ensures Told(s, n).links == s.links && Told(s, n).alive == s.alive && Told(s, n).shared == s.shared
  {
    hide PushAll, Queue;
  }

  lemma PhonesKeepLinks(s: State, l: nat, result: seq<byte>)
    ensures var t := PhoneHandled(s, l, result); t.links == s.links && t.alive == s.alive && t.shared == s.shared
  {
    hide Push, Pop, Queue;
  }

  lemma DeliveryKeepsLinks(s: State, l: nat)
    ensures Delivered(s, l).links == s.links && Delivered(s, l).alive == s.alive && Delivered(s, l).shared == s.shared
  {
    hide Push, Pop, Queue;
  }

  lemma MarksAreKept(s: State, ever: Ever, e: Event)
    requires MarksHeard(s, ever)
    ensures MarksHeard(Next(s, e), Seen(s, ever, e))
  {
    hide Seen, Protocol.Moved, Accepted, Cancelled, Told, PhoneHandled, Delivered;
    var t := Next(s, e);
    if !e.Connect? && !e.Close? {
      LinksStay(s, e);
    }
    forall l | 0 <= l < |t.links| && l !in t.alive
      ensures (0, []) in Queue(Seen(s, ever, e).heard, l)
    {
      SeenGrows(s, ever, e, l);
      if e.Close? && l == e.link && l in s.alive {
        ClosingMarks(s, ever, l);
      }
    }
  }

  // ---- Every run --------------------------------------------------------------------------------------------

  predicate TrafficOk(s: State, g: Ledger, ever: Ever) {
    AsksSent(s, ever) && PendingTold(s, g, ever) && SharedIs(s, g) && MarksHeard(s, ever)
  }

  /** What the events outside the handlers leave alone. */
  lemma EventsShare(s: State, g: Ledger, e: Event)
    requires SharedIs(s, g) && !e.Handler? && !e.Accept?
    ensures SharedIs(Next(s, e), g)
  {
    hide Connected, Closed, Cancelled, Told, PhoneHandled, Delivered;
    EventIsAside(s, e);
    match e
    case Connect(device, caption, priority) => ConnectingShares(s, device, caption, priority);
    case Close(l) => ClosingShares(s, l);
    case Cancel(target, abandon) => CancellingShares(s, target, abandon);
    case Tell(n) => TellingKeepsLinks(s, n);
    case PhoneHandles(l, result) => PhonesKeepLinks(s, l, result);
    case Deliver(l) => DeliveryKeepsLinks(s, l);
  }

  lemma ConnectingShares(s: State, device: string, caption: string, priority: nat)
    ensures Connected(s, device, caption, priority).shared == s.shared
  {
  }

  lemma ClosingShares(s: State, l: nat)
    ensures Closed(s, l).shared == s.shared
  {
    hide Push;
  }

  lemma CancellingShares(s: State, target: Option<Channel>, abandon: bool)
    ensures Cancelled(s, target, abandon).shared == s.shared
  {
  }

  /** A new request gets a stage, and everything else stays. */
  lemma AcceptAdds(s: State, channel: Channel, data: seq<byte>)
    requires Discipline(s) && Accepted(s, channel, data).issued < 0x1_0000_0000
    ensures
      var t := Accepted(s, channel, data);
      && t.asked == s.asked
      && (forall n <- s.requests :: n in t.requests && t.requests[n] == s.requests[n])
      && (forall n <- t.stages ::
            if n in s.stages then t.stages[n] == s.stages[n] && Queue(t.shared, n) == Queue(s.shared, n)
            else t.stages[n] == New)
  {
    hide Started, InOrder, RepliesTo;
    var counted := s.(issued := s.issued + 1);
    StartCounts(counted, counted.issued % 0x1_0000_0000, Request(channel, data));
    if counted.issued < 0x1_0000_0000 {
      assert counted.issued !in s.requests;
      StartAdds(counted, counted.issued, Request(channel, data));
    }
  }

  lemma StartAdds(s: State, n: nat, request: Request)
    requires n !in s.requests && n !in s.stages
    ensures
      var t := Started(s, n, request);
      && t.asked == s.asked
      && (forall m <- s.requests :: m in t.requests && t.requests[m] == s.requests[m])
      && (forall m <- t.stages ::
            if m in s.stages then t.stages[m] == s.stages[m] && Queue(t.shared, m) == Queue(s.shared, m)
            else t.stages[m] == New)
  {
  }

  lemma TrafficIsKept(s: State, h: Past, g: Ledger, ever: Ever, e: Event)
    requires TrafficOk(s, g, ever) && LedgerOk(s, h, g) && Discipline(s) && Next(s, e).issued < 0x1_0000_0000
    ensures TrafficOk(Next(s, e), Entered(s, g, e), Seen(s, ever, e))
  {
    hide AsksSent, PendingTold, MarksHeard, Seen, Protocol.Moved, EnteredMove, Connected, Closed, Accepted, Cancelled;
    hide Told, PhoneHandled, Delivered, Discipline, RuledReply, RowOk;
    MarksAreKept(s, ever, e);
    match e
    case Handler(n, move) =>
      if Working(s, n) {
        assert AccountOk(s, h, g, n);
        MoveAsks(s, ever, n, move);
        MoveTells(s, g, ever, n, move);
        MoveShares(s, h, g, n, move);
      } else {
        IdleAsks(s, ever, e);
        EventTells(s, g, ever, e);
      }
    case Accept(channel, data) =>
      AcceptAdds(s, channel, data);
      EventAsks(s, ever, e);
      EventTells(s, g, ever, e);
    case _ =>
      EventIsAside(s, e);
      AskedStays(s, e);
      EventAsks(s, ever, e);
      EventTells(s, g, ever, e);
      EventsShare(s, g, e);
  }

  lemma AskedStays(s: State, e: Event)
    requires !e.Handler? && !e.Accept?
    ensures Next(s, e).asked == s.asked
  {
    hide Connected, Closed, Cancelled, Told, PhoneHandled, Delivered;
    if e.Connect? {
      ConnectingAsksNobody(s, e.device, e.caption, e.priority);
    } else {
      TransportAsksNobody(s, e);
    }
  }

  lemma ConnectingAsksNobody(s: State, device: string, caption: string, priority: nat)
    ensures Connected(s, device, caption, priority).asked == s.asked
  {
  }

  lemma IdleAsks(s: State, ever: Ever, e: Event)
    requires AsksSent(s, ever) && Next(s, e) == s
    ensures AsksSent(Next(s, e), Seen(s, ever, e))
  {
    hide Next, Gained;
    forall l: nat
      ensures Queue(Seen(s, ever, e).sent, l) == Queue(ever.sent, l)
    {
      MoreIs(ever.sent, s.outbox, s.outbox, l);
      GainsNothing(Queue(s.outbox, l));
    }
    var more := Seen(s, ever, e);
    forall l, i | l in more.sent && 0 <= i < |more.sent[l]| && more.sent[l][i].Ask?
      ensures (l, more.sent[l][i].number) in s.asked
      ensures more.sent[l][i].number in s.requests && s.requests[more.sent[l][i].number].data == more.sent[l][i].data
    {
      assert Queue(more.sent, l) == more.sent[l];
    }
  }

  lemma {:induction false} TrafficAlways(s: State, h: Past, g: Ledger, ever: Ever, events: seq<Event>)
    requires TrafficOk(s, g, ever) && LedgerOk(s, h, g) && AskingOk(s, h) && Discipline(s)
    requires Run(s, events).issued < 0x1_0000_0000
    ensures TrafficOk(Run(s, events), Kept(s, g, events), SeenAll(s, ever, events))
    decreases |events|
  {
    hide Next, Noted, Entered, Seen, TrafficOk, LedgerOk, AskingOk, Discipline;
    if events != [] {
      RunIsMonotone(Next(s, events[0]), events[1..]);
      StepsAreDisciplined(s, events[0]);
      AskingKept(s, h, events[0]);
      LedgerIsKept(s, h, g, events[0]);
      TrafficIsKept(s, h, g, ever, events[0]);
      TrafficAlways(Next(s, events[0]), Noted(s, h, events[0]), Entered(s, g, events[0]), Seen(s, ever, events[0]),
                    events[1..]);
    }
  }

  lemma NothingWasSent()
    ensures TrafficOk(START, BLANK, SILENT)
  {
  }

  /**
   * In every run: a link was asked for a request exactly when a frame with that request's number and
   * bytes was put on it; whoever was pending when a round ended was sent a CANCEL with the request's
   * number; while a handler listens, the links that a cancellation tells are those that took the round;
   * and every link that is gone left its closing mark where the daemon reads.
   */
  lemma WhatGoesOverTheLinks(events: seq<Event>)
    requires Run(START, events).issued < 0x1_0000_0000
    ensures
      var s, g, ever := Run(START, events), Kept(START, BLANK, events), SeenAll(START, SILENT, events);
      && (forall x <- s.asked :: x.1 in s.requests && Ask(x.1, s.requests[x.1].data) in Queue(ever.sent, x.0))
      && (forall l <- ever.sent :: forall i :: 0 <= i < |ever.sent[l]| && ever.sent[l][i].Ask? ==>
            (l, ever.sent[l][i].number) in s.asked)
      && (forall n <- g.accounts :: forall i :: 0 <= i < |g.accounts[n].fans| ==>
            forall k <- g.accounts[n].fans[i].pending :: Withdraw(n) in Queue(ever.sent, k.id))
      && (forall n <- s.stages :: s.stages[n].Listening? ==>
            n in g.accounts && Queue(s.shared, n) == g.accounts[n].round)
      && (forall l :: 0 <= l < |s.links| && l !in s.alive ==> (0, []) in Queue(ever.heard, l))
  {
    TheFirstLedger();
    NothingWasSent();
    hide LedgerOk, AskingOk, Discipline, Run, Kept, SeenAll;
    TrafficAlways(START, NOTHING, BLANK, SILENT, events);
    var s, g, ever := Run(START, events), Kept(START, BLANK, events), SeenAll(START, SILENT, events);
    forall n, i | n in g.accounts && 0 <= i < |g.accounts[n].fans|
      ensures AllTold(n, g.accounts[n].fans[i], ever)
    {
    }
  }

  /** A cancellation that is told while the handler listens reaches everyone who took the round. */
  lemma CancellationsReachTheRound(s: State, g: Ledger, n: nat, k: Link)
    requires SharedIs(s, g) && n in s.leaving && n in s.stages && s.stages[n].Listening?
    requires k in g.accounts[n].round
    ensures Withdraw(n) in Queue(Next(s, Tell(n)).outbox, k.id)
  {
    TellingSends(s, n, k.id);
    PendingIsCounted(Queue(s.shared, n), k);
    CopiesHold(Withdraw(n), EndToEnd.CountOf(Queue(s.shared, n), k.id));
  }
}
