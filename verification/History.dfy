/**
 * What happened so far, beside the state of the whole system: whom each request planned to ask,
 * which questions were sent, who took each round, and which sign-ins were won.
 */
module History {
  import opened Bytes
  import opened CtapHid
  import opened Rounds
  import opened Protocol
  import Probe

  /** `wins` is the number of sign-ins that were won when the plan was made. */
  datatype Planned = Planned(links: seq<Link>, chosen: Option<string>, wins: nat)

  /** A question sent to a link for a request. */
  datatype Question = Question(link: Link, number: nat)

  /** A getAssertion concluded with a success of this device. */
  datatype Win = Win(number: nat, device: string)

  datatype Past = Past(plans: map<nat, Planned>, questions: seq<Question>, rounds: map<nat, seq<Link>>, wins: seq<Win>)

  const NOTHING := Past(map[], [], map[], [])

  function Noted(s: State, h: Past, e: Event): Past {
    if e.Handler? && Working(s, e.number) then NotedMove(s, h, e.number, e.move) else h
  }

  function NotedMove(s: State, h: Past, n: nat, move: Move): Past
    requires Working(s, n)
  {
    var data, stage := s.requests[n].data, s.stages[n];
    match move
    case MakePlan(chosen) =>
      if stage.Listed? then h.(plans := h.plans[n := PlanNow(s, h, data, stage.devices, chosen)]) else h
    case Send(ok) =>
      if !stage.Sending? then h
      else if stage.left == [] then h.(rounds := h.rounds[n := stage.took])
      else if ok then h.(questions := h.questions + [Question(stage.left[0], n)])
      else h
    case Conclude =>
      if stage.Leaving? && stage.fan.wins != [] && data[0] == GET_ASSERTION
      then h.(wins := h.wins + [Win(n, stage.fan.wins[0].0.device)]) else h
    case _ => h
  }

  function PlanNow(s: State, h: Past, data: seq<byte>, devices: seq<Link>, chosen: Option<string>): Planned
    requires data != []
  {
    var plan := Plan(chosen, data[0], Probe.Silent(data), s.holders, s.last);
    Planned(Flatten(PlanRounds(devices, plan)), chosen, |h.wins|)
  }

  function Recorded(s: State, h: Past, events: seq<Event>): Past
    decreases |events|
  {
    if events == [] then h else Recorded(Next(s, events[0]), Noted(s, h, events[0]), events[1..])
  }

  // ---- Whom a request asked ---------------------------------------------------------------------

  function QuestionsOf(questions: seq<Question>, n: nat): seq<Link> {
    if questions == [] then [] else
      var last := questions[|questions| - 1];
      QuestionsOf(questions[..|questions| - 1], n) + if last.number == n then [last.link] else []
  }

  function AskedBy(questions: seq<Question>): set<(nat, nat)> {
    if questions == [] then {} else
      AskedBy(questions[..|questions| - 1]) + {(questions[|questions| - 1].link.id, questions[|questions| - 1].number)}
  }

  lemma QuestionsSnoc(questions: seq<Question>, q: Question, n: nat)
    ensures QuestionsOf(questions + [q], n) == QuestionsOf(questions, n) + if q.number == n then [q.link] else []
    ensures AskedBy(questions + [q]) == AskedBy(questions) + {(q.link.id, q.number)}
  {
    assert (questions + [q])[..|questions|] == questions;
  }

  lemma {:induction false} NoQuestions(questions: seq<Question>, n: nat)
    requires forall q <- questions :: q.number != n
    ensures QuestionsOf(questions, n) == []
  {
    if questions != [] {
      NoQuestions(questions[..|questions| - 1], n);
    }
  }

  /** Links are numbered in the order in which they were added. */
  predicate Numbered(links: seq<Link>) {
    forall i :: 0 <= i < |links| ==> links[i].id == i
  }

  /** The links of a request that no round has reached yet. */
  function Rest(stage: Stage): seq<Link> {
    match stage
    case Between(w) => Flatten(w.rounds)
    case Sending(left, _, w) => left + Flatten(w.rounds)
    case Listening(_, _, w) => Flatten(w.rounds)
    case Leaving(_, w) => Flatten(w.rounds)
    case _ => []
  }

  /** `mine` were asked, `rest` were not reached yet, and no device occurs twice in the plan. */
  predicate Underway(links: seq<Link>, plan: seq<Link>, mine: seq<Link>, rest: seq<Link>) {
    && OnePerDevice(plan) && Among(plan, links)
    && |rest| <= |plan| && plan[|plan| - |rest|..] == rest
    && OnePerDevice(mine) && Among(mine, plan[..|plan| - |rest|])
  }

  predicate FanOk(data: seq<byte>, mine: seq<Link>, round: Option<seq<Link>>, n: nat, stage: Stage) {
    match stage
    case Sending(_, took, _) => OnePerDevice(took) && Among(took, mine)
    case Listening(fan, queue, _) =>
      && round.Some? && Among(round.value, mine) && FanInvariant(fan, round.value, Wanted(n, Probe.Silent(data)))
      && Among(queue, fan.pending) && DistinctIds(queue) && (queue != [] ==> !fan.done)
    case Leaving(fan, _) =>
      round.Some? && Among(round.value, mine) && FanInvariant(fan, round.value, Wanted(n, Probe.Silent(data)))
    case _ => true
  }

  predicate StageOk(links: seq<Link>, data: seq<byte>, plan: Option<Planned>, mine: seq<Link>,
                    round: Option<seq<Link>>, n: nat, stage: Stage)
  {
    match stage
    case New => mine == []
    case Listed(devices) => mine == [] && Ranked(devices) && OnePerDevice(devices) && Among(devices, links)
    case _ => plan.Some? && Underway(links, plan.value.links, mine, Rest(stage)) && FanOk(data, mine, round, n, stage)
  }

  function At<T>(m: map<nat, T>, n: nat): Option<T> {
    if n in m then Some(m[n]) else None
  }

  predicate HandlerOk(s: State, h: Past, n: nat)
    requires n in s.stages && n in s.requests
  {
    StageOk(s.links, s.requests[n].data, At(h.plans, n), QuestionsOf(h.questions, n), At(h.rounds, n), n, s.stages[n])
  }

  predicate AskingOk(s: State, h: Past) {
    && Numbered(s.links) && s.asked == AskedBy(h.questions)
    && (forall q <- h.questions :: q.number in s.stages)
    && s.requests.Keys == s.stages.Keys
    && (forall n <- s.stages :: HandlerOk(s, h, n))
  }

  lemma NumberedIsDistinct(links: seq<Link>, part: seq<Link>)
    requires Numbered(links) && Among(part, links) && OnePerDevice(part)
    ensures DistinctIds(part)
  {
    forall i, j | 0 <= i < j < |part|
      ensures part[i].id != part[j].id
    {
      var x :| 0 <= x < |links| && links[x] == part[i];
      var y :| 0 <= y < |links| && links[y] == part[j];
      assert part[i].device != part[j].device;
    }
  }

  lemma {:induction false} LiveComeFrom(links: seq<Link>, alive: set<nat>)
    ensures Among(Live(links, alive), links)
  {
    if links != [] {
      LiveComeFrom(links[1..], alive);
      var live := Live(links[1..], alive);
      assert forall i :: 0 <= i < |live| ==> live[i] in links[1..];
      assert links == [links[0]] + links[1..];
    }
  }

  lemma {:induction false} LiveIsOldestFirst(links: seq<Link>, alive: set<nat>)
    requires OldestFirst(links)
    ensures OldestFirst(Live(links, alive))
  {
    if links != [] {
      var rest := links[1..];
      assert forall j :: 0 <= j < |rest| ==> rest[j] == links[j + 1];
      LiveIsOldestFirst(rest, alive);
      LiveComeFrom(rest, alive);
      var live := Live(rest, alive);
      forall i | 0 <= i < |live|
        ensures links[0].id < live[i].id
      {
        var j :| 0 <= j < |rest| && rest[j] == live[i];
      }
      if links[0].id in alive {
        FirstIsOldest(links[0], live);
      } else {
        assert [] + live == live;
      }
    }
  }

  lemma FirstIsOldest(l: Link, live: seq<Link>)
    requires OldestFirst(live) && forall i :: 0 <= i < |live| ==> l.id < live[i].id
    ensures OldestFirst([l] + live)
  {
  }

  lemma ListingIsOk(links: seq<Link>, alive: set<nat>)
    requires Numbered(links)
    ensures var devices := ByDevice(Live(links, alive));
            Ranked(devices) && OnePerDevice(devices) && Among(devices, links)
  {
    LiveIsOldestFirst(links, alive);
    LiveComeFrom(links, alive);
    var live := Live(links, alive);
    ByDeviceIsBest(live);
    hide ByDevice, Ranked, Live;
    forall i | 0 <= i < |ByDevice(live)|
      ensures ByDevice(live)[i] in links
    {
      assert ByDevice(live)[i] in live;
    }
  }

  lemma PlanningIsOk(links: seq<Link>, devices: seq<Link>, plan: Plan)
    requires Ranked(devices) && OnePerDevice(devices) && Among(devices, links)
    ensures var all := Flatten(PlanRounds(devices, plan)); Underway(links, all, [], all)
  {
    NobodyIsAskedTwice(devices, plan);
    var all := Flatten(PlanRounds(devices, plan));
    hide PlanRounds, Flatten, Ranked;
    assert all[|all| - |all|..] == all;
    forall i | 0 <= i < |all|
      ensures all[i] in links
    {
      assert all[i] in devices;
    }
  }

  lemma FlattenFirst<T>(parts: seq<seq<T>>)
    ensures parts != [] ==> Flatten(parts) == parts[0] + Flatten(parts[1..])
    ensures parts == [] ==> Flatten(parts) == []
  {
  }

  /** The next link of the plan is asked, or skipped because its send fails. */
  lemma NextIsAsked(links: seq<Link>, plan: seq<Link>, mine: seq<Link>, took: seq<Link>, left: seq<Link>,
                    later: seq<Link>)
    requires left != [] && Underway(links, plan, mine, left + later)
    requires OnePerDevice(took) && Among(took, mine)
    ensures Underway(links, plan, mine, left[1..] + later)
    ensures Underway(links, plan, mine + [left[0]], left[1..] + later)
    ensures OnePerDevice(took + [left[0]]) && Among(took + [left[0]], mine + [left[0]])
  {
    var rest, fewer := left + later, left[1..] + later;
    var k := |plan| - |rest|;
    assert rest == [left[0]] + fewer;
    assert plan[k] == left[0] && plan[k + 1..] == fewer;
    assert plan[..k + 1] == plan[..k] + [left[0]];
    forall i | 0 <= i < |mine|
      ensures mine[i] in plan[..k + 1] && mine[i].device != left[0].device
    {
      var j :| 0 <= j < k && plan[..k][j] == mine[i];
      assert plan[j] == mine[i];
    }
    forall i | 0 <= i < |took|
      ensures took[i] in mine + [left[0]] && took[i].device != left[0].device
    {
      var j :| 0 <= j < |mine| && mine[j] == took[i];
    }
  }

  lemma RoundStarts(links: seq<Link>, plan: seq<Link>, mine: seq<Link>, rest: seq<Link>, took: seq<Link>, want: Wanted)
    requires Numbered(links) && Underway(links, plan, mine, rest) && OnePerDevice(took) && Among(took, mine)
    ensures FanInvariant(Fan(took, [], [], [], false), took, want)
  {
    forall i | 0 <= i < |took|
      ensures took[i] in links
    {
      var j :| 0 <= j < |mine| && mine[j] == took[i];
      var k :| 0 <= k < |plan| - |rest| && plan[..|plan| - |rest|][k] == mine[j];
      assert plan[k] in links;
    }
    NumberedIsDistinct(links, took);
  }

  lemma NothingRemains(links: seq<Link>, plan: seq<Link>, mine: seq<Link>, rest: seq<Link>)
    requires Underway(links, plan, mine, rest)
    ensures Underway(links, plan, mine, [])
  {
    var k := |plan| - |rest|;
    assert plan[..|plan|] == plan && plan[|plan|..] == [];
    forall i | 0 <= i < |mine|
      ensures mine[i] in plan
    {
      var j :| 0 <= j < k && plan[..k][j] == mine[i];
      assert plan[j] == mine[i];
    }
  }

  // ---- One move of a handler -----------------------------------------------------------------------

  /** Everything about one handler that the invariant speaks of. */
  datatype Sheet = Sheet(plan: Option<Planned>, mine: seq<Link>, round: Option<seq<Link>>, stage: Stage)

  predicate SheetOk(links: seq<Link>, data: seq<byte>, n: nat, x: Sheet) {
    StageOk(links, data, x.plan, x.mine, x.round, n, x.stage)
  }

  function SheetOf(s: State, h: Past, n: nat): Sheet
    requires n in s.stages
  {
    Sheet(At(h.plans, n), QuestionsOf(h.questions, n), At(h.rounds, n), s.stages[n])
  }

  /** After a move: links stay, and the handler's sheet is in order. */
  predicate MovedOk(s: State, h: Past, n: nat, move: Move)
    requires Working(s, n)
  {
    var t, g := Protocol.Moved(s, n, move), NotedMove(s, h, n, move);
    t.links == s.links && n in t.stages && SheetOk(s.links, s.requests[n].data, n, SheetOf(t, g, n))
  }

  function AfterLast(x: Sheet): Sheet
    requires x.stage.Sending?
  {
    var took := x.stage.took;
    x.(round := Some(took), stage := Listening(Fan(took, [], [], [], false), [], x.stage.work))
  }

  lemma SheetAfterLast(links: seq<Link>, data: seq<byte>, n: nat, x: Sheet)
    requires x.stage.Sending? && x.stage.left == [] && SheetOk(links, data, n, x) && Numbered(links)
    ensures SheetOk(links, data, n, AfterLast(x))
  {
    hide Flatten, OnePerDevice, FanInvariant, Underway, Probe.Silent, Numbered, DistinctIds;
    var later, took := Flatten(x.stage.work.rounds), x.stage.took;
    assert [] + later == later;
    RoundStarts(links, x.plan.value.links, x.mine, later, took, Wanted(n, Probe.Silent(data)));
    NothingIsDistinct();
  }

  lemma RoundBegins(s: State, h: Past, n: nat, ok: bool)
    requires Working(s, n) && Numbered(s.links) && HandlerOk(s, h, n) && s.stages[n].Sending? && s.stages[n].left == []
    ensures MovedOk(s, h, n, Send(ok))
  {
    var x := SheetOf(s, h, n);
    assert SheetOk(s.links, s.requests[n].data, n, x);
    hide SheetOk, QuestionsOf, HandlerOk, Numbered;
    SheetAfterLast(s.links, s.requests[n].data, n, x);
  }

  lemma NothingIsDistinct()
    ensures DistinctIds([])
  {
  }

  function AfterSend(x: Sheet, ok: bool): Sheet
    requires x.stage.Sending? && x.stage.left != []
  {
    var left, took, w := x.stage.left, x.stage.took, x.stage.work;
    if ok then x.(mine := x.mine + [left[0]], stage := Sending(left[1..], took + [left[0]], w))
    else x.(stage := Sending(left[1..], took, w))
  }

  lemma SheetAfterSend(links: seq<Link>, data: seq<byte>, n: nat, x: Sheet, ok: bool)
    requires x.stage.Sending? && x.stage.left != [] && SheetOk(links, data, n, x)
    ensures SheetOk(links, data, n, AfterSend(x, ok))
  {
    hide Flatten, OnePerDevice, FanInvariant, Underway, Among, Probe.Silent;
    NextIsAsked(links, x.plan.value.links, x.mine, x.stage.took, x.stage.left, Flatten(x.stage.work.rounds));
  }

  lemma OneIsSkipped(s: State, h: Past, n: nat)
    requires Working(s, n) && HandlerOk(s, h, n) && s.stages[n].Sending? && s.stages[n].left != []
    ensures MovedOk(s, h, n, Send(false))
  {
    var x := SheetOf(s, h, n);
    assert SheetOk(s.links, s.requests[n].data, n, x);
    hide SheetOk, QuestionsOf, HandlerOk;
    SheetAfterSend(s.links, s.requests[n].data, n, x, false);
  }

  lemma OneIsAsked(s: State, h: Past, n: nat)
    requires Working(s, n) && HandlerOk(s, h, n) && s.stages[n].Sending? && s.stages[n].left != []
    ensures MovedOk(s, h, n, Send(true))
  {
    var x := SheetOf(s, h, n);
    assert SheetOk(s.links, s.requests[n].data, n, x);
    hide SheetOk, QuestionsOf, HandlerOk, AskedBy, Push;
    SheetAfterSend(s.links, s.requests[n].data, n, x, true);
    QuestionsSnoc(h.questions, Question(s.stages[n].left[0], n), n);
  }

  lemma ListeningIsOk(s: State, h: Past, n: nat, move: Move)
    requires Working(s, n) && HandlerOk(s, h, n) && s.stages[n].Listening? && (move.Poll? || move.Stop?)
    ensures MovedOk(s, h, n, move)
  {
    hide Flatten, FanInvariant, Underway, QuestionsOf, PushAll, Absorb;
    var stage, want := s.stages[n], Wanted(n, Probe.Silent(s.requests[n].data));
    var fan, queue, round := stage.fan, stage.queue, h.rounds[n];
    if move.Poll? {
      if queue == [] {
        PendingIsDistinct(fan, round, want);
      } else {
        var answers := Queue(s.heard, queue[0].id);
        DistinctTail(queue);
        if answers != [] {
          assert queue[0] in fan.pending;
          AbsorbKeeps(fan, round, queue[0], answers[0], want);
          OthersStayPending(fan, queue, answers[0], want);
        }
      }
    }
  }

  lemma PendingIsDistinct(fan: Fan, round: seq<Link>, want: Wanted)
    requires FanInvariant(fan, round, want)
    ensures DistinctIds(fan.pending) && Among(fan.pending, fan.pending)
  {
  }

  lemma DistinctTail(links: seq<Link>)
    requires links != [] && DistinctIds(links)
    ensures DistinctIds(links[1..])
  {
  }

  lemma ConcludingIsOk(s: State, h: Past, n: nat)
    requires Working(s, n) && HandlerOk(s, h, n) && s.stages[n].Leaving?
    ensures MovedOk(s, h, n, Conclude)
  {
    hide Flatten, FanInvariant, Underway, QuestionsOf, FinalError, Payloads, Probe.Silent;
    NothingRemains(s.links, h.plans[n].links, QuestionsOf(h.questions, n), Flatten(s.stages[n].work.rounds));
  }

  lemma AdvancingIsOk(s: State, h: Past, n: nat)
    requires Working(s, n) && HandlerOk(s, h, n) && s.stages[n].Between?
    ensures MovedOk(s, h, n, Advance)
  {
    hide Flatten, Underway, QuestionsOf, FinalError, Probe.Silent, OnePerDevice, Among;
    var rounds := s.stages[n].work.rounds;
    FlattenFirst(rounds);
    if rounds != [] && rounds[0] == [] {
      assert rounds[0] + Flatten(rounds[1..]) == Flatten(rounds[1..]);
    }
    NobodyYet(QuestionsOf(h.questions, n));
  }

  lemma NobodyYet(mine: seq<Link>)
    ensures OnePerDevice([]) && Among([], mine)
  {
  }

  lemma PlanMoveIsOk(s: State, h: Past, n: nat, move: Move)
    requires Working(s, n) && Numbered(s.links) && HandlerOk(s, h, n)
    requires (s.stages[n].New? && move.List?) || (s.stages[n].Listed? && move.MakePlan?)
    ensures MovedOk(s, h, n, move)
  {
    hide Flatten, Underway, QuestionsOf, PlanRounds, ByDevice, Ranked, OnePerDevice;
    var data := s.requests[n].data;
    if move.List? {
      ListingIsOk(s.links, s.alive);
    } else {
      PlanningIsOk(s.links, s.stages[n].devices, Plan(move.chosen, data[0], Probe.Silent(data), s.holders, s.last));
    }
  }

  /** Every move keeps what the invariant says of its handler. */
  lemma MoveIsOk(s: State, h: Past, n: nat, move: Move)
    requires Working(s, n) && Numbered(s.links) && HandlerOk(s, h, n)
    ensures MovedOk(s, h, n, move)
  {
    var stage := s.stages[n];
    hide MovedOk, HandlerOk, Numbered;
    if (stage.New? && move.List?) || (stage.Listed? && move.MakePlan?) {
      PlanMoveIsOk(s, h, n, move);
    } else if stage.Sending? && move.Send? {
      if stage.left == [] {
        RoundBegins(s, h, n, move.ok);
      } else if move.ok {
        OneIsAsked(s, h, n);
      } else {
        OneIsSkipped(s, h, n);
      }
    } else if stage.Listening? && (move.Poll? || move.Stop?) {
      ListeningIsOk(s, h, n, move);
    } else if stage.Leaving? && move.Conclude? {
      ConcludingIsOk(s, h, n);
    } else if stage.Between? && move.Advance? {
      AdvancingIsOk(s, h, n);
    } else {
      EndingIsOk(s, h, n, move);
    }
  }

  /** The last moves ask nobody, and a move that the stage does not offer changes nothing. */
  lemma EndingIsOk(s: State, h: Past, n: nat, move: Move)
    requires Working(s, n) && HandlerOk(s, h, n)
    requires var stage := s.stages[n];
             && !(stage.New? && move.List?) && !(stage.Listed? && move.MakePlan?) && !(stage.Sending? && move.Send?)
             && !(stage.Listening? && (move.Poll? || move.Stop?)) && !(stage.Leaving? && move.Conclude?)
             && !(stage.Between? && move.Advance?)
    ensures MovedOk(s, h, n, move)
  {
    hide Underway, QuestionsOf, FanInvariant, Flatten, Probe.Silent, Ranked, OnePerDevice, DistinctIds, Among;
  }

  // ---- Every event -----------------------------------------------------------------------------------

  lemma OthersAreUnnoted(s: State, h: Past, n: nat, move: Move, m: nat)
    requires Working(s, n) && m != n
    ensures var g := NotedMove(s, h, n, move);
            At(g.plans, m) == At(h.plans, m) && At(g.rounds, m) == At(h.rounds, m)
            && QuestionsOf(g.questions, m) == QuestionsOf(h.questions, m)
  {
    hide QuestionsOf, AskedBy, PlanNow;
    if move.Send? && s.stages[n].Sending? && s.stages[n].left != [] {
      QuestionsSnoc(h.questions, Question(s.stages[n].left[0], n), m);
    }
  }

  lemma QuestionsAreNoted(s: State, h: Past, n: nat, move: Move)
    requires Working(s, n) && s.asked == AskedBy(h.questions)
    requires forall q <- h.questions :: q.number in s.stages
    ensures var g := NotedMove(s, h, n, move);
            && Protocol.Moved(s, n, move).asked == AskedBy(g.questions)
            && forall q <- g.questions :: q.number in s.stages
  {
    hide QuestionsOf, AskedBy, PlanNow, PlanFor, Listen1, StopListening, PushAll, ByDevice, Live;
    AskedMoves(s, n, move);
    if move.Send? && s.stages[n].Sending? && s.stages[n].left != [] {
      QuestionsSnoc(h.questions, Question(s.stages[n].left[0], n), n);
    }
  }

  lemma AskedMoves(s: State, n: nat, move: Move)
    requires Working(s, n)
    ensures var asked := Protocol.Moved(s, n, move).asked;
            var stage := s.stages[n];
            asked == if move == Send(true) && stage.Sending? && stage.left != []
                     then s.asked + {(stage.left[0].id, n)} else s.asked
  {
    hide Listen1, StopListening, ConcludeRound, PlanFor, ByDevice, Live, FinalError, Probe.Silent, Push;
    var data, stage := s.requests[n].data, s.stages[n];
    if stage.Listening? {
      ListeningAsksNobody(s, n, stage, Wanted(n, Probe.Silent(data)));
    } else if stage.Leaving? {
      ConcludingAsksNobody(s, n, data, stage);
    } else if stage.Listed? && move.MakePlan? {
      PlanningAsksNobody(s, n, data, stage.devices, move.chosen);
    }
  }

  lemma ListeningAsksNobody(s: State, n: nat, stage: Stage, want: Wanted)
    requires stage.Listening?
    ensures Listen1(s, n, stage, want).asked == s.asked && StopListening(s, n, stage).asked == s.asked
  {
    hide PushAll, Pop, Queue, Absorb, GoTo;
    var answers := if stage.queue == [] then [] else Queue(s.heard, stage.queue[0].id);
    NobodyIsAsked(s.(shared := s.shared[n := []], outbox := PushAll(s.outbox, stage.fan.pending, Withdraw(n))));
    NobodyIsAsked(s);
    if answers != [] {
      NobodyIsAsked(s.(heard := Pop(s.heard, stage.queue[0].id)));
    }
  }

  lemma ConcludingAsksNobody(s: State, n: nat, data: seq<byte>, stage: Stage)
    requires stage.Leaving? && data != []
    ensures ConcludeRound(s, n, data, stage).asked == s.asked
  {
    hide FinalError, Payloads, Probe.Silent, GoTo, Record;
    NobodyIsAsked(s);
  }

  lemma NobodyIsAsked(s: State)
    ensures forall n: nat, stage: Stage :: GoTo(s, n, stage).asked == s.asked
    ensures forall n: nat, stage: Stage, command: byte, probe: bool, wins: seq<Reply> ::
              wins != [] ==> GoTo(Record(s, command, probe, wins), n, stage).asked == s.asked
  {
  }

  lemma PlanningAsksNobody(s: State, n: nat, data: seq<byte>, devices: seq<Link>, chosen: Option<string>)
    requires data != []
    ensures PlanFor(s, n, data, devices, chosen).asked == s.asked
  {
    hide PlanRounds, Probe.Silent;
  }

  lemma HandlerIsNoted(s: State, h: Past, n: nat, move: Move)
    requires AskingOk(s, h) && Working(s, n)
    ensures AskingOk(Next(s, Handler(n, move)), Noted(s, h, Handler(n, move)))
  {
    hide Protocol.Moved, NotedMove, StageOk, AskedBy, QuestionsOf, Numbered;
    var t, g := Protocol.Moved(s, n, move), NotedMove(s, h, n, move);
    assert HandlerOk(s, h, n);
    MoveIsOk(s, h, n, move);
    QuestionsAreNoted(s, h, n, move);
    MovesAreOfFourKinds(s, n, move);
    forall m | m in t.stages
      ensures m in t.requests && HandlerOk(t, g, m)
    {
      if m != n {
        OthersAreUnnoted(s, h, n, move, m);
        assert HandlerOk(s, h, m);
      }
    }
  }

  lemma MoreLinksAreOk(links: seq<Link>, l: Link, data: seq<byte>, plan: Option<Planned>, mine: seq<Link>,
                       round: Option<seq<Link>>, n: nat, stage: Stage)
    requires StageOk(links, data, plan, mine, round, n, stage)
    ensures StageOk(links + [l], data, plan, mine, round, n, stage)
  {
    hide FanOk, OnePerDevice, Ranked, Rest;
    assert forall k :: k in links ==> k in links + [l];
  }

  lemma ConnectionIsNoted(s: State, h: Past, device: string, caption: string, priority: nat)
    requires AskingOk(s, h)
    ensures AskingOk(Connected(s, device, caption, priority), h)
  {
    var t := Connected(s, device, caption, priority);
    var l := Link(|s.links|, device, caption, priority);
    hide StageOk, AskedBy, QuestionsOf;
    forall m | m in t.stages
      ensures HandlerOk(t, h, m)
    {
      assert HandlerOk(s, h, m);
      MoreLinksAreOk(s.links, l, s.requests[m].data, At(h.plans, m), QuestionsOf(h.questions, m), At(h.rounds, m), m,
                     s.stages[m]);
    }
  }

  lemma StartIsNoted(s: State, h: Past, n: nat, request: Request)
    requires AskingOk(s, h) && n !in s.stages
    ensures AskingOk(Started(s, n, request), h)
  {
    hide StageOk, AskedBy, QuestionsOf, Numbered;
    var t := Started(s, n, request);
    NoQuestions(h.questions, n);
    NewIsOk(s.links, request.data, At(h.plans, n), At(h.rounds, n), n);
    forall m | m in t.stages
      ensures m in t.requests && HandlerOk(t, h, m)
    {
      if m != n {
        assert HandlerOk(s, h, m);
      }
    }
  }

  lemma AcceptanceIsNoted(s: State, h: Past, channel: Channel, data: seq<byte>)
    requires AskingOk(s, h) && Discipline(s) && Accepted(s, channel, data).issued < 0x1_0000_0000
    ensures AskingOk(Accepted(s, channel, data), h)
  {
    hide HandlerOk, AskedBy, InOrder, QuestionsOf, Numbered, Started;
    var counted := s.(issued := s.issued + 1);
    hide AskingOk;
    AskingIsAbout(s, counted, h);
    StartCounts(counted, counted.issued % 0x1_0000_0000, Request(channel, data));
    if counted.issued < 0x1_0000_0000 {
      assert counted.issued !in s.stages;
      StartIsNoted(counted, h, counted.issued, Request(channel, data));
    }
  }

  lemma NewIsOk(links: seq<Link>, data: seq<byte>, plan: Option<Planned>, round: Option<seq<Link>>, n: nat)
    ensures StageOk(links, data, plan, [], round, n, New)
  {
  }

  predicate SameAsked(s: State, t: State) {
    t.links == s.links && t.asked == s.asked && t.stages == s.stages && t.requests == s.requests
  }

  lemma TransportAsksNobody(s: State, e: Event)
    requires e.Close? || e.Cancel? || e.Tell? || e.PhoneHandles? || e.Deliver?
    ensures SameAsked(s, Next(s, e))
  {
    hide SameAsked, Closed, Cancelled, Told, PhoneHandled, Delivered;
    match e
    case Close(l) => ClosingAsksNobody(s, l);
    case Cancel(target, abandon) => CancellingAsksNobody(s, target, abandon);
    case Tell(n) => TellingAsksNobody(s, n);
    case PhoneHandles(l, result) => HandlingAsksNobody(s, l, result);
    case Deliver(l) => ClosingAsksNobody(s, l);
  }

  lemma ClosingAsksNobody(s: State, l: nat)
    ensures SameAsked(s, Closed(s, l)) && SameAsked(s, Delivered(s, l))
  {
    hide Push, Pop, Queue;
  }

  lemma CancellingAsksNobody(s: State, target: Option<Channel>, abandon: bool)
    ensures SameAsked(s, Cancelled(s, target, abandon))
  {
  }

  lemma TellingAsksNobody(s: State, n: nat)
    ensures SameAsked(s, Told(s, n))
  {
    hide PushAll, Queue;
  }

  lemma HandlingAsksNobody(s: State, l: nat, result: seq<byte>)
    ensures SameAsked(s, PhoneHandled(s, l, result))
  {
    hide Push, Pop, Queue;
  }

  lemma AskingKept(s: State, h: Past, e: Event)
    requires AskingOk(s, h) && Discipline(s) && Next(s, e).issued < 0x1_0000_0000
    ensures AskingOk(Next(s, e), Noted(s, h, e))
  {
    hide AskingOk, Discipline, Connected, Accepted, Protocol.Moved, NotedMove, SameAsked, Closed, Cancelled;
    hide Told, PhoneHandled, Delivered;
    match e
    case Connect(device, caption, priority) => ConnectionIsNoted(s, h, device, caption, priority);
    case Accept(channel, data) => AcceptanceIsNoted(s, h, channel, data);
    case Handler(n, move) =>
      if Working(s, n) {
        HandlerIsNoted(s, h, n, move);
      }
    case _ =>
      TransportAsksNobody(s, e);
      AskingIsAbout(s, Next(s, e), h);
  }

  lemma AskingIsAbout(s: State, t: State, h: Past)
    requires AskingOk(s, h) && SameAsked(s, t)
    ensures AskingOk(t, h)
  {
    hide StageOk, AskedBy, QuestionsOf;
    forall m | m in t.stages
      ensures HandlerOk(t, h, m)
    {
      assert HandlerOk(s, h, m);
    }
  }

  lemma {:induction false} AskingAlways(s: State, h: Past, events: seq<Event>)
    requires AskingOk(s, h) && Discipline(s) && Run(s, events).issued < 0x1_0000_0000
    ensures AskingOk(Run(s, events), Recorded(s, h, events))
    decreases |events|
  {
    hide Next, Noted, Discipline, AskingOk;
    if events != [] {
      RunIsMonotone(Next(s, events[0]), events[1..]);
      StepsAreDisciplined(s, events[0]);
      AskingKept(s, h, events[0]);
      AskingAlways(Next(s, events[0]), Noted(s, h, events[0]), events[1..]);
    }
  }

  lemma {:induction false} QuestionAt(questions: seq<Question>, n: nat, i: nat) returns (k: nat)
    requires i < |questions| && questions[i].number == n
    ensures k < |QuestionsOf(questions, n)| && QuestionsOf(questions, n)[k] == questions[i].link
    ensures k == |QuestionsOf(questions[..i], n)|
  {
    var last := |questions| - 1;
    if i == last {
      k := |QuestionsOf(questions[..last], n)|;
    } else {
      k := QuestionAt(questions[..last], n, i);
      assert questions[..last][..i] == questions[..i];
    }
  }

  lemma {:induction false} QuestionsGrow(questions: seq<Question>, n: nat, i: nat, j: nat)
    requires i < j <= |questions| && questions[i].number == n
    ensures |QuestionsOf(questions[..i], n)| < |QuestionsOf(questions[..j], n)|
    decreases j
  {
    assert questions[..j][..j - 1] == questions[..j - 1];
    if i < j - 1 {
      QuestionsGrow(questions, n, i, j - 1);
    }
  }

  /**
   * In every run, whatever links come and go while a request goes through its rounds: two questions
   * sent for one request go to different devices.
   */
  lemma NoDeviceIsAskedTwice(events: seq<Event>, i: nat, j: nat)
    requires Run(START, events).issued < 0x1_0000_0000
    requires i < j < |Recorded(START, NOTHING, events).questions|
    requires var q := Recorded(START, NOTHING, events).questions; q[i].number == q[j].number
    ensures var q := Recorded(START, NOTHING, events).questions; q[i].link.device != q[j].link.device
  {
    var s, h := Run(START, events), Recorded(START, NOTHING, events);
    AskingAlways(START, NOTHING, events);
    var n := h.questions[i].number;
    assert h.questions[i] in h.questions;
    assert HandlerOk(s, h, n);
    hide Run, Recorded, FanOk, Among, QuestionsOf;
    var x := QuestionAt(h.questions, n, i);
    var y := QuestionAt(h.questions, n, j);
    QuestionsGrow(h.questions, n, i, j);
    assert OnePerDevice(QuestionsOf(h.questions, n)) by {
      QuestionsAreOnePerDevice(s, h, n);
    }
  }

  lemma QuestionsAreOnePerDevice(s: State, h: Past, n: nat)
    requires n in s.stages && n in s.requests && HandlerOk(s, h, n)
    ensures OnePerDevice(QuestionsOf(h.questions, n))
  {
    hide QuestionsOf, FanOk, Among;
  }

  lemma {:induction false} AskedWasSent(questions: seq<Question>, l: nat, n: nat) returns (i: nat)
    requires (l, n) in AskedBy(questions)
    ensures i < |questions| && questions[i].link.id == l && questions[i].number == n
  {
    var last := |questions| - 1;
    if questions[last].link.id == l && questions[last].number == n {
      i := last;
    } else {
      i := AskedWasSent(questions[..last], l, n);
    }
  }

  /** In every run the links asked for one request are of different devices. */
  lemma AskedLinksAreOfDifferentDevices(events: seq<Event>, l: nat, k: nat, n: nat)
    requires Run(START, events).issued < 0x1_0000_0000
    requires var s := Run(START, events); (l, n) in s.asked && (k, n) in s.asked && l != k
    ensures var s := Run(START, events); l < |s.links| && k < |s.links| && s.links[l].device != s.links[k].device
  {
    var s, h := Run(START, events), Recorded(START, NOTHING, events);
    AskingAlways(START, NOTHING, events);
    var i := AskedWasSent(h.questions, l, n);
    var j := AskedWasSent(h.questions, k, n);
    assert h.questions[i] in h.questions;
    assert HandlerOk(s, h, n);
    hide Run, Recorded, FanOk, AskedBy;
    AskedAreLinks(s, h, n, i);
    AskedAreLinks(s, h, n, j);
    if i < j {
      NoDeviceIsAskedTwice(events, i, j);
    } else {
      NoDeviceIsAskedTwice(events, j, i);
    }
  }

  lemma AskedAreLinks(s: State, h: Past, n: nat, i: nat)
    requires AskingOk(s, h) && i < |h.questions| && h.questions[i].number == n
    ensures var l := h.questions[i].link; l.id < |s.links| && s.links[l.id] == l
  {
    assert h.questions[i] in h.questions;
    assert HandlerOk(s, h, n);
    hide QuestionsOf, FanOk, AskedBy, OnePerDevice;
    var k := QuestionAt(h.questions, n, i);
    MineAreLinks(s, h, n, k);
  }

  lemma MineAreLinks(s: State, h: Past, n: nat, k: nat)
    requires Numbered(s.links) && n in s.stages && n in s.requests && HandlerOk(s, h, n)
             && k < |QuestionsOf(h.questions, n)|
    ensures var l := QuestionsOf(h.questions, n)[k]; l.id < |s.links| && s.links[l.id] == l
  {
    hide QuestionsOf, FanOk, OnePerDevice, Ranked;
    var mine, plan := QuestionsOf(h.questions, n), h.plans[n].links;
    var reached := plan[..|plan| - |Rest(s.stages[n])|];
    assert mine[k] in reached;
    var j :| 0 <= j < |reached| && reached[j] == mine[k];
    assert plan[j] == mine[k] && plan[j] in s.links;
    var i :| 0 <= i < |s.links| && s.links[i] == mine[k];
  }

  /** In every run each round under way conserves the links that took it, as `FanOutConserves` says of one round. */
  lemma EveryRoundConserves(events: seq<Event>, n: nat)
    requires Run(START, events).issued < 0x1_0000_0000
    requires var s := Run(START, events); n in s.stages && (s.stages[n].Listening? || s.stages[n].Leaving?)
    ensures var s, h := Run(START, events), Recorded(START, NOTHING, events);
            && n in h.rounds && n in s.requests
            && FanInvariant(s.stages[n].fan, h.rounds[n], Wanted(n, Probe.Silent(s.requests[n].data)))
            && Among(h.rounds[n], QuestionsOf(h.questions, n))
  {
    AskingAlways(START, NOTHING, events);
    var s, h := Run(START, events), Recorded(START, NOTHING, events);
    assert HandlerOk(s, h, n);
  }
}
