/**
 * What every final reply rests on. Beside the state of the whole system each request keeps an account:
 * which devices were there when it began, whom it planned to ask, whom it tried, who took which round,
 * which links each pass polled and what it found there, and how each round ended.
 */
module Verdicts {
  import opened Bytes
  import opened CtapHid
  import opened Rounds
  import opened Protocol
  import opened History
  import opened CborDecode
  import Probe

  datatype Account = Account(
    present: set<string>,
    chosen: Option<string>,
    holders: set<string>,
    plan: seq<Link>,
    tried: seq<Link>,
    round: seq<Link>,
    pass: seq<Link>,
    polled: seq<Link>,
    found: seq<(Link, Answer)>,
    rounds: seq<seq<Link>>,
    fans: seq<Fan>)

  /** `held` are the devices that agreed in the last probe that anybody won. */
  datatype Ledger = Ledger(accounts: map<nat, Account>, held: set<string>)

  const BLANK := Ledger(map[], {})

  function Present(s: State): set<string> {
    set l | l in s.links && l.id in s.alive :: l.device
  }

  /** The devices whose answer to this request was a success. */
  function Agreed(taken: seq<(Link, Answer)>, n: nat): set<string> {
    set x | x in taken && x.1.0 == n && x.1.1 != [] && x.1.1[0] == 0 :: x.0.device
  }

  function Entered(s: State, g: Ledger, e: Event): Ledger {
    if e.Handler? && Working(s, e.number) then EnteredMove(s, g, e.number, e.move) else g
  }

  function EnteredMove(s: State, g: Ledger, n: nat, move: Move): Ledger
    requires Working(s, n)
  {
    var data, stage := s.requests[n].data, s.stages[n];
    if stage.New? && move.List? then
      g.(accounts := g.accounts[n := Account(Present(s), None, {}, [], [], [], [], [], [], [], [])])
    else if n !in g.accounts then g
    else
      g.(accounts := g.accounts[n := Continued(s, g.held, g.accounts[n], data, stage, move, s.busy == Some(n))],
         held := if move.Conclude? && stage.Leaving? && stage.fan.wins != [] && Probe.Silent(data)
                 then Agreed(stage.fan.taken, n) else g.held)
  }

  /** The account after a move; `mine` when the request holds the slot. */
  function Continued(
      s: State, held: set<string>, a: Account, data: seq<byte>, stage: Stage, move: Move, mine: bool): Account
    requires data != []
  {
    match move
    case MakePlan(chosen) =>
      if !stage.Listed? then a else
        var plan := Plan(chosen, data[0], Probe.Silent(data), s.holders, s.last);
        a.(chosen := chosen, holders := held, plan := Flatten(PlanRounds(stage.devices, plan)))
    case Send(ok) =>
      if !stage.Sending? then a
      else if stage.left == [] then a.(pass := [], polled := [], found := [])
      else a.(tried := a.tried + [stage.left[0]], round := if ok then a.round + [stage.left[0]] else a.round)
    case Poll =>
      if !stage.Listening? then a
      else if stage.queue == [] then
        if stage.fan.pending != [] && !stage.fan.done && mine then a.(pass := stage.fan.pending, polled := []) else a
      else
        var answers := Queue(s.heard, stage.queue[0].id);
        a.(polled := a.polled + [stage.queue[0]],
           found := if answers == [] then a.found else a.found + [(stage.queue[0], answers[0])])
    case Conclude =>
      if !stage.Leaving? then a else a.(round := [], rounds := a.rounds + [a.round], fans := a.fans + [stage.fan])
    case _ => a
  }

  function Kept(s: State, g: Ledger, events: seq<Event>): Ledger
    decreases |events|
  {
    if events == [] then g else Kept(Next(s, events[0]), Entered(s, g, events[0]), events[1..])
  }

  // ---- What an account says ---------------------------------------------------------------------------

  /** Without a choice, all commands but two plan to ask every device that was there. */
  predicate Reaches(data: seq<byte>, a: Account)
    requires data != []
  {
    a.chosen.None? && data[0] != GET_INFO && data[0] != GET_NEXT_ASSERTION ==>
      forall d <- a.present :: exists l <- a.plan :: l.device == d
  }

  /** In a getAssertion that is no probe, the holders that the last probe found come before all others. */
  predicate HoldersLead(data: seq<byte>, a: Account)
    requires data != []
  {
    a.chosen.None? && data[0] == GET_ASSERTION && !Probe.Silent(data) ==>
      forall i, j :: 0 <= i < j < |a.plan| && a.plan[j].device in a.holders ==> a.plan[i].device in a.holders
  }

  predicate WellPlanned(data: seq<byte>, a: Account)
    requires data != []
  {
    Reaches(data, a) && HoldersLead(data, a)
  }

  /** Every round that ended accounts for the links that took it. */
  predicate Balanced(n: nat, data: seq<byte>, a: Account) {
    |a.rounds| == |a.fans|
    && forall i :: 0 <= i < |a.fans| ==> FanInvariant(a.fans[i], a.rounds[i], Wanted(n, Probe.Silent(data)))
  }

  predicate NoneSettles(fans: seq<Fan>) {
    forall i :: 0 <= i < |fans| ==> !Settles(fans[i])
  }

  /** While no round has settled the request: its failures so far. */
  predicate Undecided(n: nat, data: seq<byte>, a: Account, errors: seq<seq<byte>>) {
    Balanced(n, data, a) && NoneSettles(a.fans) && errors == AllFailures(a.fans)
  }

  predicate Listens(a: Account, fan: Fan, queue: seq<Link>) {
    a.found == fan.taken && (!fan.done ==> a.polled + queue == a.pass)
  }

  /**
   * The reply follows from the rounds: the first win, or what sums up the failures of all rounds; and
   * part of the plan is left out only after a round that was won or failed with more than
   * NO_CREDENTIALS.
   */
  predicate Ruling(n: nat, data: seq<byte>, a: Account, payload: seq<byte>)
    requires data != []
  {
    && WellPlanned(data, a) && Balanced(n, data, a)
    && (a.fans != [] ==> NoneSettles(a.fans[..|a.fans| - 1]))
    && a.tried <= a.plan && (a.tried == a.plan || (a.fans != [] && Settles(a.fans[|a.fans| - 1])))
    && payload == if AllWins(a.fans) != [] then AllWins(a.fans)[0].1 else FinalError(AllFailures(a.fans))
  }

  predicate Listing(a: Account, devices: seq<Link>) {
    && (forall d <- a.present :: exists l <- devices :: l.device == d)
    && a.tried == [] && a.round == [] && a.rounds == [] && a.fans == []
  }

  /** What the account says of its handler's stage; `took` is who took the round under way. */
  predicate RowOk(n: nat, data: seq<byte>, took: Option<seq<Link>>, account: Option<Account>, stage: Stage)
    requires data != []
  {
    stage.New? || (account.Some? && StageFits(n, data, took, account.value, stage))
  }

  predicate StageFits(n: nat, data: seq<byte>, took: Option<seq<Link>>, a: Account, stage: Stage)
    requires data != []
  {
    match stage
    case Listed(devices) => Listing(a, devices)
    case Between(w) =>
      WellPlanned(data, a) && Undecided(n, data, a, w.errors) && a.round == [] && a.tried + Flatten(w.rounds) == a.plan
    case Sending(left, links, w) =>
      WellPlanned(data, a) && Undecided(n, data, a, w.errors) && a.round == links
      && a.tried + left + Flatten(w.rounds) == a.plan
    case Listening(fan, queue, w) =>
      WellPlanned(data, a) && Undecided(n, data, a, w.errors) && took == Some(a.round) && Listens(a, fan, queue)
      && a.tried + Flatten(w.rounds) == a.plan
    case Leaving(fan, w) =>
      WellPlanned(data, a) && Undecided(n, data, a, w.errors) && took == Some(a.round) && a.found == fan.taken
      && a.tried + Flatten(w.rounds) == a.plan
    case Answering(payload) => Ruling(n, data, a, payload)
    case Replying(payload) => Ruling(n, data, a, payload)
    case _ => true
  }

  predicate AccountOk(s: State, h: Past, g: Ledger, n: nat)
    requires n in s.stages && n in s.requests && s.requests[n].data != []
  {
    RowOk(n, s.requests[n].data, At(h.rounds, n), At(g.accounts, n), s.stages[n])
  }

  predicate RuledReply(s: State, g: Ledger, r: Sent) {
    && r.number in s.requests && s.requests[r.number].data != [] && r.number in g.accounts
    && r.number in s.stages && !Active(s.stages[r.number])
    && Ruling(r.number, s.requests[r.number].data, g.accounts[r.number], r.payload)
  }

  predicate LedgerOk(s: State, h: Past, g: Ledger) {
    && s.requests.Keys == s.stages.Keys && s.holders == g.held
    && (forall n <- s.stages :: s.requests[n].data != [] && AccountOk(s, h, g, n))
    && (forall i :: 0 <= i < |s.replies| ==> RuledReply(s, g, s.replies[i]))
  }

  // ---- One move ---------------------------------------------------------------------------------------

  lemma {:induction false} LiveIff(links: seq<Link>, alive: set<nat>)
    ensures forall l :: l in Live(links, alive) <==> l in links && l.id in alive
  {
    if links != [] {
      LiveIff(links[1..], alive);
      assert links == [links[0]] + links[1..];
    }
  }

  lemma ListingFits(s: State)
    requires Numbered(s.links)
    ensures Listing(Account(Present(s), None, {}, [], [], [], [], [], [], [], []), ByDevice(Live(s.links, s.alive)))
  {
    var live := Live(s.links, s.alive);
    LiveIff(s.links, s.alive);
    LiveIsOldestFirst(s.links, s.alive);
    ByDeviceIsBest(live);
    hide ByDevice, Live, Ranked, OnePerDevice;
    forall d | d in Present(s)
      ensures exists l <- ByDevice(live) :: l.device == d
    {
      var k :| k in s.links && k.id in s.alive && k.device == d;
      assert k in live;
    }
  }

  lemma SameMembers<T>(a: seq<T>, b: seq<T>)
    requires multiset(a) == multiset(b)
    ensures forall x :: x in a <==> x in b
  {
    forall x
      ensures x in a <==> x in b
    {
      assert x in multiset(a) <==> x in multiset(b);
    }
  }

  lemma PlanReaches(devices: seq<Link>, a: Account, data: seq<byte>, plan: Plan)
    requires data != [] && Listing(a, devices)
    requires a.plan == Flatten(PlanRounds(devices, plan)) && a.chosen == plan.chosen
    requires plan.command == data[0] && plan.probe == Probe.Silent(data) && plan.holders == a.holders
    ensures WellPlanned(data, a)
  {
    hide Probe.Silent, PlanRounds;
    if a.chosen.None? && data[0] != GET_INFO && data[0] != GET_NEXT_ASSERTION {
      EveryDeviceIsReached(devices, plan);
      SameMembers(a.plan, devices);
      forall d | d in a.present
        ensures exists l <- a.plan :: l.device == d
      {
        var l :| l in devices && l.device == d;
        assert l in a.plan;
      }
      if data[0] == GET_ASSERTION && !Probe.Silent(data) {
        HoldingFirst(Holding(devices, a.holders, true), Holding(devices, a.holders, false), a.holders);
      }
    }
  }

  lemma HoldingFirst(first: seq<Link>, rest: seq<Link>, holders: set<string>)
    requires (forall l <- first :: l.device in holders) && (forall l <- rest :: l.device !in holders)
    ensures var all := first + rest;
            forall i, j :: 0 <= i < j < |all| && all[j].device in holders ==> all[i].device in holders
  {
  }

  lemma PlanFits(n: nat, devices: seq<Link>, a: Account, b: Account, data: seq<byte>, plan: Plan)
    requires data != [] && Listing(a, devices)
    requires b == a.(chosen := plan.chosen, holders := plan.holders, plan := Flatten(PlanRounds(devices, plan)))
    requires plan.command == data[0] && plan.probe == Probe.Silent(data)
    ensures StageFits(n, data, None, b, Between(Work(PlanRounds(devices, plan), [])))
  {
    PlanReaches(devices, b, data, plan);
    hide WellPlanned, Flatten, PlanRounds, Probe.Silent;
    assert [] + b.plan == b.plan;
    assert AllFailures([]) == [];
  }

  lemma {:induction false} NobodyWon(fans: seq<Fan>)
    requires NoneSettles(fans)
    ensures AllWins(fans) == []
  {
    if fans != [] {
      assert !Settles(fans[0]);
      assert forall i :: 0 <= i < |fans[1..]| ==> fans[1..][i] == fans[i + 1];
      NobodyWon(fans[1..]);
    }
  }

  lemma {:induction false} OneMoreRound(fans: seq<Fan>, fan: Fan)
    ensures AllWins(fans + [fan]) == AllWins(fans) + fan.wins
    ensures AllFailures(fans + [fan]) == AllFailures(fans) + Payloads(fan.failed)
  {
    if fans == [] {
      assert [] + [fan] == [fan] && [fan][1..] == [];
      assert fan.wins + [] == fan.wins && Payloads(fan.failed) + [] == Payloads(fan.failed);
    } else {
      OneMoreRound(fans[1..], fan);
      assert (fans + [fan])[1..] == fans[1..] + [fan];
    }
  }

  lemma AdvanceFits(n: nat, data: seq<byte>, took: Option<seq<Link>>, a: Account, w: Work)
    requires data != [] && StageFits(n, data, took, a, Between(w))
    ensures StageFits(n, data, took, a, NextRound(w))
  {
    hide WellPlanned, Flatten, FinalError, FanInvariant, Settles, AllFailures, AllWins, Probe.Silent;
    FlattenFirst(w.rounds);
    if w.rounds == [] {
      NobodyWon(a.fans);
      assert a.tried + [] == a.tried;
    } else if w.rounds[0] == [] {
      assert [] + Flatten(w.rounds[1..]) == Flatten(w.rounds[1..]);
    } else {
      assert a.tried + (w.rounds[0] + Flatten(w.rounds[1..])) == a.tried + w.rounds[0] + Flatten(w.rounds[1..]);
    }
  }

  /** Whom it planned to ask and what its rounds came to are as before. */
  lemma SameSoFar(n: nat, data: seq<byte>, a: Account, b: Account)
    requires data != []
    requires b.present == a.present && b.chosen == a.chosen && b.holders == a.holders && b.plan == a.plan
    ensures WellPlanned(data, b) <==> WellPlanned(data, a)
    ensures b.rounds == a.rounds && b.fans == a.fans ==> (Balanced(n, data, b) <==> Balanced(n, data, a))
  {
    hide FanInvariant, Probe.Silent;
  }

  lemma SendFits(n: nat, data: seq<byte>, took: Option<seq<Link>>, a: Account, stage: Stage, ok: bool)
    requires data != [] && stage.Sending? && stage.left != [] && StageFits(n, data, took, a, stage)
    ensures var l, w := stage.left[0], stage.work;
            StageFits(n, data, took, a.(tried := a.tried + [l], round := if ok then a.round + [l] else a.round),
                      Sending(stage.left[1..], if ok then stage.took + [l] else stage.took, w))
  {
    hide WellPlanned, Balanced, Flatten, Settles, AllFailures, Probe.Silent;
    SameSoFar(n, data, a, a.(tried := a.tried + [stage.left[0]],
                             round := if ok then a.round + [stage.left[0]] else a.round));
    var left, later := stage.left, Flatten(stage.work.rounds);
    assert left == [left[0]] + left[1..];
    assert a.tried + left + later == a.tried + [left[0]] + left[1..] + later;
  }

  lemma RoundFits(n: nat, data: seq<byte>, took: Option<seq<Link>>, a: Account, stage: Stage)
    requires data != [] && stage.Sending? && stage.left == [] && StageFits(n, data, took, a, stage)
    ensures StageFits(n, data, Some(stage.took), a.(pass := [], polled := [], found := []),
                      Listening(Fan(stage.took, [], [], [], false), [], stage.work))
  {
    hide WellPlanned, Balanced, Flatten, Settles, AllFailures, Probe.Silent;
    SameSoFar(n, data, a, a.(pass := [], polled := [], found := []));
    assert a.tried + [] == a.tried;
  }

  lemma PassFits(n: nat, data: seq<byte>, took: Option<seq<Link>>, a: Account, fan: Fan, w: Work)
    requires data != [] && StageFits(n, data, took, a, Listening(fan, [], w))
    ensures StageFits(n, data, took, a.(pass := fan.pending, polled := []), Listening(fan, fan.pending, w))
  {
    hide WellPlanned, Balanced, Flatten, Settles, AllFailures, Probe.Silent;
    SameSoFar(n, data, a, a.(pass := fan.pending, polled := []));
    assert [] + fan.pending == fan.pending;
  }

  lemma PollFits(n: nat, data: seq<byte>, took: Option<seq<Link>>, a: Account, stage: Stage, answers: seq<Answer>,
                 want: Wanted)
    requires data != [] && stage.Listening? && stage.queue != [] && !stage.fan.done
    requires StageFits(n, data, took, a, stage)
    ensures
      var fan, queue, w := stage.fan, stage.queue, stage.work;
      var b := a.(polled := a.polled + [queue[0]],
                  found := if answers == [] then a.found else a.found + [(queue[0], answers[0])]);
      var next := if answers == [] then fan else Absorb(fan, queue[0], answers[0], want);
      StageFits(n, data, took, b, Listening(next, if next.done then [] else queue[1..], w))
  {
    hide WellPlanned, Balanced, Flatten, Settles, AllFailures, Probe.Silent;
    var queue := stage.queue;
    SameSoFar(n, data, a, a.(polled := a.polled + [queue[0]],
                             found := if answers == [] then a.found else a.found + [(queue[0], answers[0])]));
    assert queue == [queue[0]] + queue[1..];
    assert a.polled + queue == a.polled + [queue[0]] + queue[1..];
    if answers != [] {
      AbsorbEnds(stage.fan, queue[0], answers[0], want);
    }
    hide Absorb;
  }

  lemma StopFits(n: nat, data: seq<byte>, took: Option<seq<Link>>, a: Account, fan: Fan, w: Work)
    requires data != [] && StageFits(n, data, took, a, Listening(fan, [], w))
    ensures StageFits(n, data, took, a, Leaving(fan, w))
  {
    hide WellPlanned, Flatten, FanInvariant, Settles, AllFailures, Probe.Silent;
  }

  lemma BalanceGrows(n: nat, data: seq<byte>, a: Account, fan: Fan)
    requires Balanced(n, data, a) && FanInvariant(fan, a.round, Wanted(n, Probe.Silent(data)))
    ensures Balanced(n, data, a.(round := [], rounds := a.rounds + [a.round], fans := a.fans + [fan]))
  {
    hide FanInvariant, Probe.Silent;
  }

  lemma OneMoreUnsettled(fans: seq<Fan>, fan: Fan)
    requires NoneSettles(fans) && !Settles(fan)
    ensures NoneSettles(fans + [fan])
  {
    hide Settles;
  }

  lemma RulingFollows(n: nat, data: seq<byte>, a: Account, fans: seq<Fan>, fan: Fan)
    requires data != [] && WellPlanned(data, a) && Balanced(n, data, a)
    requires a.fans == fans + [fan] && NoneSettles(fans) && Settles(fan) && a.tried <= a.plan
    ensures Ruling(n, data, a, if fan.wins != [] then fan.wins[0].1
                               else FinalError(AllFailures(fans) + Payloads(fan.failed)))
  {
    hide WellPlanned, Balanced, Settles, AllFailures, FinalError, Payloads;
    NobodyWon(fans);
    OneMoreRound(fans, fan);
    assert [] + fan.wins == fan.wins;
    assert a.fans[..|a.fans| - 1] == fans && a.fans[|a.fans| - 1] == fan;
  }

  function Closing(a: Account, fan: Fan): Account {
    a.(round := [], rounds := a.rounds + [a.round], fans := a.fans + [fan])
  }

  lemma ClosingFits(n: nat, data: seq<byte>, took: Option<seq<Link>>, a: Account, fan: Fan, w: Work)
    requires data != [] && StageFits(n, data, took, a, Leaving(fan, w))
    requires FanInvariant(fan, a.round, Wanted(n, Probe.Silent(data)))
    ensures var b := Closing(a, fan);
            && WellPlanned(data, b) && Balanced(n, data, b) && NoneSettles(a.fans) && w.errors == AllFailures(a.fans)
            && b.tried + Flatten(w.rounds) == b.plan
  {
    SameSoFar(n, data, a, Closing(a, fan));
    BalanceGrows(n, data, a, fan);
    hide WellPlanned, Balanced, NoneSettles, AllFailures, FanInvariant, Flatten, Probe.Silent;
  }

  lemma SettledFits(n: nat, data: seq<byte>, took: Option<seq<Link>>, a: Account, fan: Fan, w: Work)
    requires data != [] && StageFits(n, data, took, a, Leaving(fan, w)) && Settles(fan)
    requires FanInvariant(fan, a.round, Wanted(n, Probe.Silent(data)))
    ensures StageFits(n, data, took, Closing(a, fan),
                      Answering(if fan.wins != [] then fan.wins[0].1 else FinalError(w.errors + Payloads(fan.failed))))
  {
    hide StageFits, Ruling, FanInvariant, FinalError, Payloads, AllFailures, WellPlanned, Balanced, NoneSettles;
    hide Settles;
    ClosingFits(n, data, took, a, fan, w);
    assert a.tried <= a.plan;
    RulingFollows(n, data, Closing(a, fan), a.fans, fan);
    RulingFits(n, data, took, Closing(a, fan),
               if fan.wins != [] then fan.wins[0].1 else FinalError(w.errors + Payloads(fan.failed)));
  }

  lemma RulingFits(n: nat, data: seq<byte>, took: Option<seq<Link>>, a: Account, payload: seq<byte>)
    requires data != [] && Ruling(n, data, a, payload)
    ensures StageFits(n, data, took, a, Answering(payload))
  {
    hide Ruling;
  }

  lemma UnsettledFits(n: nat, data: seq<byte>, took: Option<seq<Link>>, a: Account, fan: Fan, w: Work)
    requires data != [] && StageFits(n, data, took, a, Leaving(fan, w)) && !Settles(fan)
    requires FanInvariant(fan, a.round, Wanted(n, Probe.Silent(data)))
    ensures StageFits(n, data, took, Closing(a, fan), Between(w.(errors := w.errors + Payloads(fan.failed))))
  {
    ClosingFits(n, data, took, a, fan, w);
    OneMoreUnsettled(a.fans, fan);
    OneMoreRound(a.fans, fan);
    hide WellPlanned, Balanced, NoneSettles, Settles, FanInvariant, Payloads, AllFailures, Flatten;
  }

  // ---- Every move of a handler ----------------------------------------------------------------------------

  /** After a move its handler's account is in order. */
  predicate AccountedMove(s: State, h: Past, g: Ledger, n: nat, move: Move)
    requires Working(s, n)
  {
    var t := Protocol.Moved(s, n, move);
    && n in t.stages
    && RowOk(n, s.requests[n].data, At(NotedMove(s, h, n, move).rounds, n),
             At(EnteredMove(s, g, n, move).accounts, n), t.stages[n])
  }

  /** What the move does to the records of its own request. */
  lemma OwnRecords(s: State, h: Past, g: Ledger, n: nat, move: Move)
    requires Working(s, n)
    ensures var stage := s.stages[n];
            && (!stage.New? && n in g.accounts ==>
                  At(EnteredMove(s, g, n, move).accounts, n)
                  == Some(Continued(s, g.held, g.accounts[n], s.requests[n].data, stage, move, s.busy == Some(n))))
            && At(NotedMove(s, h, n, move).rounds, n)
               == if move.Send? && stage.Sending? && stage.left == [] then Some(stage.took) else At(h.rounds, n)
  {
    hide Continued, Agreed, PlanNow, Probe.Silent;
  }

  lemma Follows(s: State, h: Past, g: Ledger, n: nat, move: Move, stage: Stage, a: Account)
    requires Working(s, n) && !s.stages[n].New? && n in g.accounts
    requires n in Protocol.Moved(s, n, move).stages && Protocol.Moved(s, n, move).stages[n] == stage
    requires a == Continued(s, g.held, g.accounts[n], s.requests[n].data, s.stages[n], move, s.busy == Some(n))
    requires var took := if move.Send? && s.stages[n].Sending? && s.stages[n].left == [] then Some(s.stages[n].took)
                         else At(h.rounds, n);
             StageFits(n, s.requests[n].data, took, a, stage)
    ensures AccountedMove(s, h, g, n, move)
  {
    hide Protocol.Moved, NotedMove, EnteredMove, Continued, StageFits;
    OwnRecords(s, h, g, n, move);
  }

  lemma ListMove(s: State, h: Past, g: Ledger, n: nat)
    requires Working(s, n) && Numbered(s.links) && s.stages[n].New?
    ensures AccountedMove(s, h, g, n, List)
  {
    ListingFits(s);
    hide Listing, Present, ByDevice, Live, Numbered;
  }

  lemma PlanMove(s: State, h: Past, g: Ledger, n: nat, chosen: Option<string>)
    requires Working(s, n) && s.stages[n].Listed? && AccountOk(s, h, g, n) && s.holders == g.held
    ensures AccountedMove(s, h, g, n, MakePlan(chosen))
  {
    var data, stage := s.requests[n].data, s.stages[n];
    assert StageFits(n, data, At(h.rounds, n), g.accounts[n], stage);
    var a, move := g.accounts[n], MakePlan(chosen);
    var plan := Plan(chosen, data[0], Probe.Silent(data), s.holders, s.last);
    var b := a.(chosen := chosen, holders := g.held, plan := Flatten(PlanRounds(stage.devices, plan)));
    PlanFits(n, stage.devices, a, b, data, plan);
    PlanIgnoresTook(n, data, At(h.rounds, n), b, Work(PlanRounds(stage.devices, plan), []));
    hide StageFits, Flatten, PlanRounds, Probe.Silent, NotedMove, EnteredMove, GoTo, AccountedMove, AccountOk;
    WhereItGoes();
    Follows(s, h, g, n, move, Between(Work(PlanRounds(stage.devices, plan), [])), b);
  }

  lemma PlanIgnoresTook(n: nat, data: seq<byte>, took: Option<seq<Link>>, a: Account, w: Work)
    requires data != [] && StageFits(n, data, None, a, Between(w))
    ensures StageFits(n, data, took, a, Between(w))
  {
    hide WellPlanned, Undecided, Flatten;
  }

  lemma AdvanceMove(s: State, h: Past, g: Ledger, n: nat)
    requires Working(s, n) && s.stages[n].Between? && AccountOk(s, h, g, n)
    ensures AccountedMove(s, h, g, n, Advance)
  {
    AdvanceFits(n, s.requests[n].data, At(h.rounds, n), g.accounts[n], s.stages[n].work);
    hide StageFits, NextRound, NotedMove, EnteredMove, GoTo, AccountedMove;
    WhereItGoes();
    Follows(s, h, g, n, Advance, NextRound(s.stages[n].work), g.accounts[n]);
  }

  lemma SendMove(s: State, h: Past, g: Ledger, n: nat, ok: bool)
    requires Working(s, n) && s.stages[n].Sending? && AccountOk(s, h, g, n)
    ensures AccountedMove(s, h, g, n, Send(ok))
  {
    var data, stage, took := s.requests[n].data, s.stages[n], At(h.rounds, n);
    assert StageFits(n, data, took, g.accounts[n], stage);
    hide StageFits, Push, NotedMove, EnteredMove, GoTo, AccountedMove, AccountOk;
    WhereItGoes();
    var b := Continued(s, g.held, g.accounts[n], data, stage, Send(ok), s.busy == Some(n));
    var l := stage.left;
    if l == [] {
      RoundFits(n, data, took, g.accounts[n], stage);
      Follows(s, h, g, n, Send(ok), Listening(Fan(stage.took, [], [], [], false), [], stage.work), b);
    } else {
      SendFits(n, data, took, g.accounts[n], stage, ok);
      Follows(s, h, g, n, Send(ok), Sending(l[1..], if ok then stage.took + [l[0]] else stage.took, stage.work), b);
    }
  }

  lemma ListenMove(s: State, h: Past, g: Ledger, n: nat, move: Move)
    requires Working(s, n) && s.stages[n].Listening? && (move.Poll? || move.Stop?) && AccountOk(s, h, g, n)
    requires HandlerOk(s, h, n)
    ensures AccountedMove(s, h, g, n, move)
  {
    var data, stage, took := s.requests[n].data, s.stages[n], At(h.rounds, n);
    var fan, queue, w := stage.fan, stage.queue, stage.work;
    assert StageFits(n, data, took, g.accounts[n], stage);
    assert queue != [] ==> !fan.done;
    hide StageFits, HandlerOk, AccountOk, Absorb, PushAll, Pop, Queue, Probe.Silent, NotedMove, EnteredMove, GoTo;
    hide AccountedMove;
    WhereItGoes();
    var b := Continued(s, g.held, g.accounts[n], data, stage, move, s.busy == Some(n));
    if queue == [] {
      PassFits(n, data, took, g.accounts[n], fan, w);
      StopFits(n, data, took, g.accounts[n], fan, w);
      Follows(s, h, g, n, move, Protocol.Moved(s, n, move).stages[n], b);
    } else if move.Stop? {
      Follows(s, h, g, n, move, stage, b);
    } else {
      var answers, want := Queue(s.heard, queue[0].id), Wanted(n, Probe.Silent(data));
      PollFits(n, data, took, g.accounts[n], stage, answers, want);
      var next := if answers == [] then fan else Absorb(fan, queue[0], answers[0], want);
      Follows(s, h, g, n, move, Listening(next, if next.done then [] else queue[1..], w), b);
    }
  }

  function Concluded(fan: Fan, w: Work): Stage {
    if Settles(fan) then
      Answering(if fan.wins != [] then fan.wins[0].1 else FinalError(w.errors + Payloads(fan.failed)))
    else Between(w.(errors := w.errors + Payloads(fan.failed)))
  }

  lemma WhereItConcludes(s: State, n: nat)
    requires Working(s, n) && s.stages[n].Leaving?
    ensures var t := Protocol.Moved(s, n, Conclude);
            n in t.stages && t.stages[n] == Concluded(s.stages[n].fan, s.stages[n].work)
  {
    hide GoTo, Record, FinalError, Payloads, NoCredentials, Probe.Silent;
    WhereItGoes();
  }

  lemma LeavingKnows(s: State, h: Past, g: Ledger, n: nat)
    requires Working(s, n) && s.stages[n].Leaving? && AccountOk(s, h, g, n) && HandlerOk(s, h, n)
    ensures n in g.accounts && StageFits(n, s.requests[n].data, At(h.rounds, n), g.accounts[n], s.stages[n])
    ensures FanInvariant(s.stages[n].fan, g.accounts[n].round, Wanted(n, Probe.Silent(s.requests[n].data)))
  {
    hide WellPlanned, Undecided, Flatten, Underway, FanInvariant, Probe.Silent;
  }

  lemma ConcludedFits(n: nat, data: seq<byte>, took: Option<seq<Link>>, a: Account, fan: Fan, w: Work)
    requires data != [] && StageFits(n, data, took, a, Leaving(fan, w))
    requires FanInvariant(fan, a.round, Wanted(n, Probe.Silent(data)))
    ensures StageFits(n, data, took, Closing(a, fan), Concluded(fan, w))
  {
    hide StageFits, FanInvariant, FinalError, Payloads, Settles, Probe.Silent;
    if Settles(fan) {
      SettledFits(n, data, took, a, fan, w);
    } else {
      UnsettledFits(n, data, took, a, fan, w);
    }
  }

  lemma ConcludeMove(s: State, h: Past, g: Ledger, n: nat)
    requires Working(s, n) && s.stages[n].Leaving? && AccountOk(s, h, g, n) && HandlerOk(s, h, n)
    ensures AccountedMove(s, h, g, n, Conclude)
  {
    LeavingKnows(s, h, g, n);
    var data, stage, took := s.requests[n].data, s.stages[n], At(h.rounds, n);
    var fan, w, a := stage.fan, stage.work, g.accounts[n];
    assert Working(s, n) && data != [] && stage == Leaving(fan, w);
    hide *;
    WhereItConcludes(s, n);
    ConcludedFits(n, data, took, a, fan, w);
    ContinuedCloses(s, g.held, a, data, stage, s.busy == Some(n));
    Follows(s, h, g, n, Conclude, Concluded(fan, w), Closing(a, fan));
  }

  lemma ContinuedCloses(s: State, held: set<string>, a: Account, data: seq<byte>, stage: Stage, mine: bool)
    requires data != [] && stage.Leaving?
    ensures Continued(s, held, a, data, stage, Conclude, mine) == Closing(a, stage.fan)
  {
  }

  lemma OtherMove(s: State, h: Past, g: Ledger, n: nat, move: Move)
    requires Working(s, n) && AccountOk(s, h, g, n)
    requires var stage := s.stages[n];
             && !(stage.New? && move.List?) && !(stage.Listed? && move.MakePlan?) && !(stage.Sending? && move.Send?)
             && !(stage.Listening? && (move.Poll? || move.Stop?)) && !(stage.Leaving? && move.Conclude?)
             && !(stage.Between? && move.Advance?)
    ensures AccountedMove(s, h, g, n, move)
  {
    hide Ruling, WellPlanned, Undecided, Listens, Listing, Flatten, Probe.Silent;
  }

  lemma MoveIsAccounted(s: State, h: Past, g: Ledger, n: nat, move: Move)
    requires Working(s, n) && AccountOk(s, h, g, n) && s.holders == g.held && Numbered(s.links) && HandlerOk(s, h, n)
    ensures AccountedMove(s, h, g, n, move)
  {
    var stage := s.stages[n];
    hide AccountedMove, AccountOk, HandlerOk, Numbered;
    if stage.New? && move.List? {
      ListMove(s, h, g, n);
    } else if stage.Listed? && move.MakePlan? {
      PlanMove(s, h, g, n, move.chosen);
    } else if stage.Between? && move.Advance? {
      AdvanceMove(s, h, g, n);
    } else if stage.Sending? && move.Send? {
      SendMove(s, h, g, n, move.ok);
    } else if stage.Listening? && (move.Poll? || move.Stop?) {
      ListenMove(s, h, g, n, move);
    } else if stage.Leaving? && move.Conclude? {
      ConcludeMove(s, h, g, n);
    } else {
      OtherMove(s, h, g, n, move);
    }
  }

  // ---- Every event -----------------------------------------------------------------------------------------

  lemma OthersKeepTheirAccounts(s: State, h: Past, g: Ledger, n: nat, move: Move, m: nat)
    requires Working(s, n) && m != n
    ensures At(EnteredMove(s, g, n, move).accounts, m) == At(g.accounts, m)
    ensures At(NotedMove(s, h, n, move).rounds, m) == At(h.rounds, m)
  {
    hide Continued, Agreed, PlanNow, Probe.Silent;
  }

  lemma {:induction false} WinnersAgreed(taken: seq<(Link, Answer)>, n: nat)
    ensures (set w <- WinsOf(taken, n) :: w.0.device) == Agreed(taken, n)
  {
    if taken != [] {
      var last := |taken| - 1;
      var x := taken[last];
      WinnersAgreed(taken[..last], n);
      assert taken == taken[..last] + [x];
      var won := x.1.0 == n && x.1.1 != [] && x.1.1[0] == 0;
      var wins := WinsOf(taken[..last], n);
      assert WinsOf(taken, n) == wins + if won then [(x.0, x.1.1)] else [];
      assert Agreed(taken, n) == Agreed(taken[..last], n) + if won then {x.0.device} else {};
    }
  }

  lemma HeldMoves(s: State, g: Ledger, n: nat, move: Move)
    requires Working(s, n) && s.holders == g.held && (s.stages[n].New? || n in g.accounts)
    requires s.stages[n].Leaving? ==> s.stages[n].fan.wins == WinsOf(s.stages[n].fan.taken, n)
    ensures Protocol.Moved(s, n, move).holders == EnteredMove(s, g, n, move).held
  {
    hide GoTo, PushAll, Push, Pop, Queue, Absorb, PlanRounds, ByDevice, Live, NextRound, FinalError, Payloads;
    hide Continued, Present, Agreed, RustItem;
    HoldersStay();
    if s.stages[n].Leaving? {
      WinnersAgreed(s.stages[n].fan.taken, n);
    }
  }

  lemma HoldersStay()
    ensures forall s: State, n: nat, stage: Stage :: GoTo(s, n, stage).holders == s.holders
  {
  }

  lemma SettledAccountsRest(s: State, g: Ledger, n: nat, move: Move)
    requires Working(s, n) && (!Active(s.stages[n]) || s.stages[n].Replying?)
    ensures At(EnteredMove(s, g, n, move).accounts, n) == At(g.accounts, n)
  {
    hide Agreed, Probe.Silent;
  }

  lemma AnswerIsRuled(s: State, h: Past, g: Ledger, n: nat)
    requires Working(s, n) && s.stages[n].Replying? && AccountOk(s, h, g, n)
    ensures n in g.accounts && Ruling(n, s.requests[n].data, g.accounts[n], s.stages[n].payload)
  {
    hide Ruling;
  }

  lemma OldRepliesStayRuled(s: State, h: Past, g: Ledger, n: nat, move: Move, r: Sent)
    requires Working(s, n) && RuledReply(s, g, r)
    ensures RuledReply(Protocol.Moved(s, n, move), EnteredMove(s, g, n, move), r)
  {
    hide Protocol.Moved, EnteredMove, Ruling;
    MovesAreOfFourKinds(s, n, move);
    if r.number == n {
      SettledAccountsRest(s, g, n, move);
    } else {
      OthersKeepTheirAccounts(s, h, g, n, move, r.number);
    }
  }

  lemma NewReplyIsRuled(s: State, h: Past, g: Ledger, n: nat)
    requires Working(s, n) && s.stages[n].Replying? && AccountOk(s, h, g, n)
    ensures RuledReply(Protocol.Moved(s, n, Answer), EnteredMove(s, g, n, Answer),
                       Sent(n, s.requests[n].channel, s.stages[n].payload))
  {
    hide Protocol.Moved, EnteredMove, Ruling, AccountOk;
    MovesAreOfFourKinds(s, n, Answer);
    AnswerIsRuled(s, h, g, n);
    SettledAccountsRest(s, g, n, Answer);
  }

  lemma RepliesStayRuled(s: State, h: Past, g: Ledger, n: nat, move: Move)
    requires Working(s, n) && AccountOk(s, h, g, n)
    requires forall i :: 0 <= i < |s.replies| ==> RuledReply(s, g, s.replies[i])
    ensures var t := Protocol.Moved(s, n, move);
            forall i :: 0 <= i < |t.replies| ==> RuledReply(t, EnteredMove(s, g, n, move), t.replies[i])
  {
    hide Protocol.Moved, EnteredMove, RuledReply, AccountOk;
    var t := Protocol.Moved(s, n, move);
    MovesAreOfFourKinds(s, n, move);
    forall i | 0 <= i < |t.replies|
      ensures RuledReply(t, EnteredMove(s, g, n, move), t.replies[i])
    {
      if i < |s.replies| {
        OldRepliesStayRuled(s, h, g, n, move, s.replies[i]);
      } else {
        NewReplyIsRuled(s, h, g, n);
      }
    }
  }

  lemma FanIsClassified(s: State, h: Past, n: nat)
    requires Working(s, n) && HandlerOk(s, h, n) && s.stages[n].Leaving?
    ensures s.stages[n].fan.wins == WinsOf(s.stages[n].fan.taken, n)
  {
    hide Underway, WinsOf, FailuresOf, Probe.Silent;
  }

  lemma StageHasAccount(s: State, h: Past, g: Ledger, n: nat)
    requires Working(s, n) && AccountOk(s, h, g, n)
    ensures s.stages[n].New? || n in g.accounts
  {
    hide StageFits;
  }

  lemma HandlerIsAccounted(s: State, h: Past, g: Ledger, n: nat, move: Move)
    requires LedgerOk(s, h, g) && AskingOk(s, h) && Working(s, n)
    ensures LedgerOk(Protocol.Moved(s, n, move), NotedMove(s, h, n, move), EnteredMove(s, g, n, move))
  {
    assert HandlerOk(s, h, n) && AccountOk(s, h, g, n);
    assert Numbered(s.links);
    hide Protocol.Moved, EnteredMove, NotedMove, HandlerOk, AccountOk, RuledReply, Numbered, AskingOk, AccountedMove;
    MoveIsAccounted(s, h, g, n, move);
    StageHasAccount(s, h, g, n);
    if s.stages[n].Leaving? {
      FanIsClassified(s, h, n);
    }
    HeldMoves(s, g, n, move);
    RepliesStayRuled(s, h, g, n, move);
    OthersStayAccounted(s, h, g, n, move);
  }

  lemma OthersStayAccounted(s: State, h: Past, g: Ledger, n: nat, move: Move)
    requires LedgerOk(s, h, g) && Working(s, n) && AccountedMove(s, h, g, n, move)
    ensures var t, h', g' := Protocol.Moved(s, n, move), NotedMove(s, h, n, move), EnteredMove(s, g, n, move);
            && t.requests == s.requests && t.stages.Keys == s.stages.Keys
            && forall m <- t.stages :: t.requests[m].data != [] && AccountOk(t, h', g', m)
  {
    hide Protocol.Moved, EnteredMove, NotedMove, RowOk, RuledReply;
    var t, h', g' := Protocol.Moved(s, n, move), NotedMove(s, h, n, move), EnteredMove(s, g, n, move);
    MovesAreOfFourKinds(s, n, move);
    forall m | m in t.stages
      ensures t.requests[m].data != [] && AccountOk(t, h', g', m)
    {
      if m != n {
        assert AccountOk(s, h, g, m);
        OthersKeepTheirAccounts(s, h, g, n, move, m);
      }
    }
  }

  lemma LedgerSurvives(s: State, t: State, h: Past, g: Ledger)
    requires LedgerOk(s, h, g)
    requires t.requests == s.requests && t.stages == s.stages && t.replies == s.replies && t.holders == s.holders
    ensures LedgerOk(t, h, g)
  {
    hide RowOk, Ruling;
    forall n | n in t.stages
      ensures t.requests[n].data != [] && AccountOk(t, h, g, n)
    {
      assert AccountOk(s, h, g, n);
    }
    forall i | 0 <= i < |t.replies|
      ensures RuledReply(t, g, t.replies[i])
    {
      assert RuledReply(s, g, s.replies[i]);
    }
  }

  lemma StartIsAccounted(s: State, h: Past, g: Ledger, n: nat, request: Request)
    requires LedgerOk(s, h, g) && n !in s.stages && request.data != []
    ensures LedgerOk(Started(s, n, request), h, g)
  {
    hide Ruling, StageFits;
    var t := Started(s, n, request);
    forall m | m in t.stages
      ensures m in t.requests && t.requests[m].data != [] && AccountOk(t, h, g, m)
    {
      if m != n {
        assert AccountOk(s, h, g, m);
      }
    }
    forall i | 0 <= i < |t.replies|
      ensures RuledReply(t, g, t.replies[i])
    {
      assert RuledReply(s, g, s.replies[i]);
    }
  }

  lemma AcceptIsAccounted(s: State, h: Past, g: Ledger, channel: Channel, data: seq<byte>)
    requires LedgerOk(s, h, g) && Discipline(s) && Accepted(s, channel, data).issued < 0x1_0000_0000
    ensures LedgerOk(Accepted(s, channel, data), h, g)
  {
    hide LedgerOk, InOrder, Started;
    var counted := s.(issued := s.issued + 1);
    LedgerSurvives(s, counted, h, g);
    LedgerSurvives(s, s, h, g);
    StartCounts(counted, counted.issued % 0x1_0000_0000, Request(channel, data));
    if counted.issued < 0x1_0000_0000 && data != [] {
      assert counted.issued !in s.stages;
      StartIsAccounted(counted, h, g, counted.issued, Request(channel, data));
    }
  }

  lemma TransportHoldsNobody(s: State, l: nat, n: nat, result: seq<byte>, device: string, caption: string,
                             priority: nat)
    ensures Connected(s, device, caption, priority).holders == s.holders && Closed(s, l).holders == s.holders
    ensures PhoneHandled(s, l, result).holders == s.holders && Delivered(s, l).holders == s.holders
  {
    hide Push, Pop, Queue;
  }

  lemma TellingHoldsNobody(s: State, n: nat, target: Option<Channel>, abandon: bool)
    ensures Told(s, n).holders == s.holders
    ensures var t := Cancelled(s, target, abandon);
            t.holders == s.holders && t.requests == s.requests && t.stages == s.stages && t.replies == s.replies
  {
    hide PushAll, Queue;
  }

  lemma EventIsAside(s: State, e: Event)
    requires !e.Accept? && !e.Handler?
    ensures var t := Next(s, e);
            t.holders == s.holders && t.requests == s.requests && t.stages == s.stages && t.replies == s.replies
  {
    hide Connected, Closed, Cancelled, Told, PhoneHandled, Delivered;
    match e
    case Cancel(target, abandon) => TellingHoldsNobody(s, 0, target, abandon);
    case Tell(n) => TellingHoldsNobody(s, n, None, false); TransportIsAside(s, e);
    case Connect(device, caption, priority) =>
      TransportHoldsNobody(s, 0, 0, [], device, caption, priority);
      TransportIsAside(s, e);
    case Close(l) => TransportHoldsNobody(s, l, 0, [], "", "", 0); TransportIsAside(s, e);
    case PhoneHandles(l, result) => TransportHoldsNobody(s, l, 0, result, "", "", 0); TransportIsAside(s, e);
    case Deliver(l) => TransportHoldsNobody(s, l, 0, [], "", "", 0); TransportIsAside(s, e);
  }

  /** Every event keeps the accounts in order. */
  lemma LedgerIsKept(s: State, h: Past, g: Ledger, e: Event)
    requires LedgerOk(s, h, g) && AskingOk(s, h) && Discipline(s) && Next(s, e).issued < 0x1_0000_0000
    ensures LedgerOk(Next(s, e), Noted(s, h, e), Entered(s, g, e))
  {
    hide LedgerOk, AskingOk, Discipline, Connected, Closed, Accepted, Cancelled, Told, PhoneHandled, Delivered;
    hide Protocol.Moved, NotedMove, EnteredMove;
    match e
    case Accept(channel, data) => AcceptIsAccounted(s, h, g, channel, data);
    case Handler(n, move) =>
      if Working(s, n) {
        HandlerIsAccounted(s, h, g, n, move);
      } else {
        LedgerSurvives(s, s, h, g);
      }
    case _ =>
      EventIsAside(s, e);
      LedgerSurvives(s, Next(s, e), h, g);
  }

  lemma {:induction false} LedgerAlways(s: State, h: Past, g: Ledger, events: seq<Event>)
    requires LedgerOk(s, h, g) && AskingOk(s, h) && Discipline(s) && Run(s, events).issued < 0x1_0000_0000
    ensures LedgerOk(Run(s, events), Recorded(s, h, events), Kept(s, g, events))
    decreases |events|
  {
    hide Next, Noted, Entered, LedgerOk, AskingOk, Discipline;
    if events != [] {
      RunIsMonotone(Next(s, events[0]), events[1..]);
      StepsAreDisciplined(s, events[0]);
      AskingKept(s, h, events[0]);
      LedgerIsKept(s, h, g, events[0]);
      LedgerAlways(Next(s, events[0]), Noted(s, h, events[0]), Entered(s, g, events[0]), events[1..]);
    }
  }

  // ---- Every run -------------------------------------------------------------------------------------------

  lemma TheFirstLedger()
    ensures LedgerOk(START, NOTHING, BLANK) && AskingOk(START, NOTHING) && Discipline(START)
  {
  }

  lemma LedgerInRuns(events: seq<Event>)
    requires Run(START, events).issued < 0x1_0000_0000
    ensures LedgerOk(Run(START, events), Recorded(START, NOTHING, events), Kept(START, BLANK, events))
  {
    hide LedgerOk, AskingOk, Discipline, Run, Recorded, Kept;
    TheFirstLedger();
    LedgerAlways(START, NOTHING, BLANK, events);
  }

  /**
   * In every run every final reply is the first win of its request's rounds, or sums up the failures
   * of all of them; every round accounts for exactly the links that took it; and part of the plan is
   * left untried only after a round that was won or failed with more than NO_CREDENTIALS.
   */
  lemma RepliesAreRulings(events: seq<Event>, i: nat)
    requires Run(START, events).issued < 0x1_0000_0000 && i < |Run(START, events).replies|
    ensures RuledReply(Run(START, events), Kept(START, BLANK, events), Run(START, events).replies[i])
  {
    hide RuledReply, Run, Kept, AccountOk;
    LedgerInRuns(events);
  }

  lemma {:induction false} WinsSucceed(taken: seq<(Link, Answer)>, n: nat)
    ensures forall i :: 0 <= i < |WinsOf(taken, n)| ==> Success(WinsOf(taken, n)[i].1)
  {
    if taken != [] {
      WinsSucceed(taken[..|taken| - 1], n);
    }
  }

  lemma {:induction false} FailuresAreCollected(fans: seq<Fan>, i: nat)
    requires i < |fans|
    ensures forall e <- Payloads(fans[i].failed) :: e in AllFailures(fans)
  {
    if i > 0 {
      FailuresAreCollected(fans[1..], i - 1);
    }
  }

  lemma FirstWinSucceeds(n: nat, data: seq<byte>, a: Account)
    requires data != [] && a.fans != [] && NoneSettles(a.fans[..|a.fans| - 1]) && Balanced(n, data, a)
    ensures AllWins(a.fans) == a.fans[|a.fans| - 1].wins
    ensures AllWins(a.fans) != [] ==> Success(AllWins(a.fans)[0].1)
  {
    hide Settles, Probe.Silent, WinsOf, FailuresOf;
    var last := |a.fans| - 1;
    var fan := a.fans[last];
    NobodyWon(a.fans[..last]);
    OneMoreRound(a.fans[..last], fan);
    assert a.fans == a.fans[..last] + [fan] && [] + fan.wins == fan.wins;
    WinsSucceed(fan.taken, n);
    assert FanInvariant(fan, a.rounds[last], Wanted(n, Probe.Silent(data)));
  }

  lemma NoCredentialsRuling(n: nat, data: seq<byte>, a: Account, payload: seq<byte>)
    requires data != [] && Ruling(n, data, a, payload) && NoCredentials(payload)
    ensures a.tried == a.plan && AllWins(a.fans) == [] && forall e <- AllFailures(a.fans) :: NoCredentials(e)
  {
    hide WellPlanned, Balanced, NoneSettles, FinalError, AllFailures, Payloads;
    if a.fans != [] {
      FirstWinSucceeds(n, data, a);
      FailuresAreCollected(a.fans, |a.fans| - 1);
    }
    NoCredentialsIsUnanimous(AllFailures(a.fans));
  }

  /**
   * In every run the host is told NO_CREDENTIALS only after every link of the request's plan was tried
   * and every failure was that; without a choice, and unless the request was a getInfo or a
   * getNextAssertion, these are links of all devices that were connected when the request began.
   */
  lemma NoCredentialsMeansEveryoneWasTried(events: seq<Event>, i: nat)
    requires Run(START, events).issued < 0x1_0000_0000 && i < |Run(START, events).replies|
    requires NoCredentials(Run(START, events).replies[i].payload)
    ensures var s, g := Run(START, events), Kept(START, BLANK, events);
            var r := s.replies[i];
            && r.number in g.accounts && r.number in s.requests && s.requests[r.number].data != []
            && var a, command := g.accounts[r.number], s.requests[r.number].data[0];
               && a.tried == a.plan && (forall e <- AllFailures(a.fans) :: NoCredentials(e))
               && (a.chosen.None? && command != GET_INFO && command != GET_NEXT_ASSERTION ==>
                     forall d <- a.present :: exists l <- a.tried :: l.device == d)
  {
    RepliesAreRulings(events, i);
    hide Run, Kept, Balanced, NoneSettles, AllFailures, FinalError, HoldersLead;
    var s, g := Run(START, events), Kept(START, BLANK, events);
    var r := s.replies[i];
    NoCredentialsRuling(r.number, s.requests[r.number].data, g.accounts[r.number], r.payload);
  }

  /**
   * In every run the recorded holders are those who agreed in the last probe that anybody won; and for
   * every reply to a getAssertion that is no probe and was not sent to a chosen device, nobody was
   * tried before one whom that record held when the handler planned.
   */
  lemma HoldersAreTriedFirst(events: seq<Event>, i: nat)
    requires Run(START, events).issued < 0x1_0000_0000 && i < |Run(START, events).replies|
    ensures var s, g := Run(START, events), Kept(START, BLANK, events);
            && s.holders == g.held
            && var r := s.replies[i];
               && r.number in g.accounts && r.number in s.requests && s.requests[r.number].data != []
               && var a, data := g.accounts[r.number], s.requests[r.number].data;
                  a.chosen.None? && data[0] == GET_ASSERTION && !Probe.Silent(data) ==>
                    forall j, k :: 0 <= j < k < |a.tried| && a.tried[k].device in a.holders ==>
                      a.tried[j].device in a.holders
  {
    RepliesAreRulings(events, i);
    LedgerInRuns(events);
    hide Run, Recorded, Kept, Balanced, NoneSettles, AllWins, AllFailures, FinalError, Reaches, AccountOk, Probe.Silent;
    var s, g := Run(START, events), Kept(START, BLANK, events);
    var a := g.accounts[s.replies[i].number];
    assert a.tried <= a.plan;
    forall j, k | 0 <= j < k < |a.tried|
      ensures a.tried[j] == a.plan[j] && a.tried[k] == a.plan[k]
    {
    }
  }

  /**
   * In every run: when a handler listens and is between two passes, not having heard an answer that
   * ends the round, its last pass polled every link that was pending when it began, in order; and what
   * the round has read is exactly what was waiting on the links it polled.
   */
  lemma PassesPollEverybody(events: seq<Event>, n: nat)
    requires Run(START, events).issued < 0x1_0000_0000
    requires var s := Run(START, events);
             n in s.stages && s.stages[n].Listening? && s.stages[n].queue == [] && !s.stages[n].fan.done
    ensures var s, g := Run(START, events), Kept(START, BLANK, events);
            n in g.accounts && g.accounts[n].polled == g.accounts[n].pass
            && g.accounts[n].found == s.stages[n].fan.taken
  {
    LedgerInRuns(events);
    hide Run, Recorded, Kept, RuledReply, WellPlanned, Undecided, Flatten;
    var s, h, g := Run(START, events), Recorded(START, NOTHING, events), Kept(START, BLANK, events);
    assert AccountOk(s, h, g, n);
    var a := g.accounts[n];
    assert a.polled + [] == a.polled;
  }
}
