/**
 * The phone's prompt: one question to the user at a time, answered by the screen, withdrawn by the
 * computer that asked, or given up. Every lock section of the service is one event; any number of
 * connections, screens and late messages interleave between them.
 */
module Prompt {
  import opened Bytes

  const APPROVED := 0x00
  const KEEPALIVE_CANCEL := 0x2D
  const USER_ACTION_TIMEOUT := 0x2F

  /** What a connection's withdrawn request number is before it withdrew any. */
  const NEVER := -0x8000_0000

  const NOBODY := -1

  /** What the service remembers of a connection. */
  datatype Standing = Standing(cancelled: int, closed: bool)

  datatype State = State(
    issued: nat,
    current: int,
    owner: Option<nat>,
    ownerNumber: int,
    result: int,
    shown: Option<nat>,
    standings: map<nat, Standing>,
    waiting: Option<nat>,
    aborted: seq<nat>)

  datatype Event =
    | Attach(id: int, screen: nat)
    | Detach(id: int, screen: nat)
    | Answer(id: int, status: int)
    | Cancel(connection: nat, number: int, closing: bool)
    | Open(caller: Option<nat>, request: Option<int>)
    | Close

  const START := State(0, NOBODY, None, 0, 0, None, map[], None, [])

  function StandingIn(standings: map<nat, Standing>, connection: nat): Standing {
    if connection in standings then standings[connection] else Standing(NEVER, false)
  }

  function StandingOf(s: State, connection: nat): Standing {
    StandingIn(s.standings, connection)
  }

  // ---- One lock section at a time ---------------------------------------------------------

  function Attached(s: State, id: int, screen: nat): State {
    if id != s.current then s else s.(shown := Some(screen))
  }

  function Detached(s: State, id: int, screen: nat): State {
    if id == s.current && s.shown == Some(screen) then s.(shown := None) else s
  }

  function Answered(s: State, id: int, status: int): State {
    if id != s.current then s else s.(result := status, current := NOBODY)
  }

  /** The withdrawal is about the prompt that is open. */
  predicate Concerns(s: State, connection: nat, number: int, closing: bool) {
    s.current >= 0 && s.owner == Some(connection) && (closing || s.ownerNumber == number)
  }

  /** The screen to take down with the prompt, if one is up. */
  function Screens(s: State): seq<nat> {
    if s.shown.Some? then [s.shown.value] else []
  }

  function Noted(s: State, connection: nat, number: int, closing: bool): State {
    s.(standings := s.standings[connection := Standing(number, StandingOf(s, connection).closed || closing)])
  }

  function Cancelled(s: State, connection: nat, number: int, closing: bool): State {
    var noted := Noted(s, connection, number, closing);
    if Concerns(s, connection, number, closing)
    then noted.(result := KEEPALIVE_CANCEL, current := NOBODY, aborted := s.aborted + Screens(s))
    else noted
  }

  predicate Refused(s: State, caller: Option<nat>, request: Option<int>) {
    caller.Some? &&
    (StandingOf(s, caller.value).closed
     || (request.Some? && StandingOf(s, caller.value).cancelled == request.value))
  }

  function NumberOf(request: Option<int>): int {
    if request.None? then 0 else request.value
  }

  function Opened(s: State, caller: Option<nat>, request: Option<int>): State {
    if Refused(s, caller, request) then s
    else s.(issued := s.issued + 1, current := s.issued + 1, owner := caller, ownerNumber := NumberOf(request),
            shown := None, result := USER_ACTION_TIMEOUT, waiting := Some(s.issued + 1))
  }

  /** The section that ends a `confirm`: it returns `result`. */
  function Closed(s: State): State
    requires s.waiting.Some?
  {
    var gaveUp := s.current == s.waiting.value;
    s.(current := if gaveUp then NOBODY else s.current,
       aborted := if gaveUp then s.aborted + Screens(s) else s.aborted,
       shown := None, owner := None, waiting := None)
  }

  /** A second `confirm` cannot start before the first one ended. */
  predicate Possible(s: State, e: Event) {
    && (e.Open? ==> s.waiting.None?)
    && (e.Close? ==> s.waiting.Some?)
  }

  function Step(s: State, e: Event): State
    requires Possible(s, e)
  {
    match e
    case Attach(id, screen) => Attached(s, id, screen)
    case Detach(id, screen) => Detached(s, id, screen)
    case Answer(id, status) => Answered(s, id, status)
    case Cancel(connection, number, closing) => Cancelled(s, connection, number, closing)
    case Open(caller, request) => Opened(s, caller, request)
    case Close => Closed(s)
  }

  predicate CanRun(s: State, run: seq<Event>)
    decreases |run|
  {
    run == [] || (Possible(s, run[0]) && CanRun(Step(s, run[0]), run[1..]))
  }

  function Run(s: State, run: seq<Event>): State
    requires CanRun(s, run)
    decreases |run|
  {
    if run == [] then s else Run(Step(s, run[0]), run[1..])
  }

  lemma {:induction false} RunConcat(s: State, before: seq<Event>, after: seq<Event>)
    requires CanRun(s, before + after)
    ensures CanRun(s, before) && CanRun(Run(s, before), after)
    ensures Run(s, before + after) == Run(Run(s, before), after)
    decreases |before|
  {
    if before == [] {
      assert before + after == after;
    } else {
      assert (before + after)[0] == before[0] && (before + after)[1..] == before[1..] + after;
      RunConcat(Step(s, before[0]), before[1..], after);
    }
  }

  /** What always holds: the current prompt is the one being waited for, and it has had no result yet. */
  predicate Sane(s: State) {
    && (s.current == NOBODY || (s.waiting == Some(s.issued) && s.current == s.issued))
    && (s.waiting.Some? ==> s.waiting == Some(s.issued) && s.issued >= 1)
    && (s.current != NOBODY ==> s.result == USER_ACTION_TIMEOUT)
  }

  lemma {:induction false} SaneAlways(s: State, run: seq<Event>)
    requires Sane(s) && CanRun(s, run)
    ensures Sane(Run(s, run))
    decreases |run|
  {
    if run != [] {
      SaneAlways(Step(s, run[0]), run[1..]);
    }
  }

  // ---- What a prompt's status should be, read off the events alone -------------------------

  /** While the prompt is open, nothing but screens, answers and withdrawals happens to it. */
  predicate Meanwhile(during: seq<Event>) {
    forall e :: e in during ==> !e.Open? && !e.Close?
  }

  predicate Settles(e: Event, id: nat, caller: Option<nat>, request: Option<int>) {
    match e
    case Answer(which, _) => which == id
    case Cancel(connection, number, closing) =>
      caller == Some(connection) && (closing || number == NumberOf(request))
    case _ => false
  }

  /** The first event that settles the prompt decides; without one the user took too long. */
  function Verdict(during: seq<Event>, id: nat, caller: Option<nat>, request: Option<int>): int {
    if during == [] then USER_ACTION_TIMEOUT
    else if Settles(during[0], id, caller, request) then
      if during[0].Answer? then during[0].status else KEEPALIVE_CANCEL
    else Verdict(during[1..], id, caller, request)
  }

  /** Answers that name no prompt, arriving after the one that settled it. */
  function Strays(during: seq<Event>, id: nat, caller: Option<nat>, request: Option<int>): seq<int> {
    if during == [] then []
    else if Settles(during[0], id, caller, request) then Unaddressed(during[1..])
    else Strays(during[1..], id, caller, request)
  }

  function Unaddressed(events: seq<Event>): seq<int> {
    if events == [] then []
    else (if events[0].Answer? && events[0].id == NOBODY then [events[0].status] else []) + Unaddressed(events[1..])
  }

  function LastOr(strays: seq<int>, verdict: int): int {
    if strays == [] then verdict else strays[|strays| - 1]
  }

  /** Once settled, only an answer that names no prompt still changes the result. */
  lemma {:induction false} AfterSettling(s: State, rest: seq<Event>)
    requires s.current == NOBODY && Meanwhile(rest) && CanRun(s, rest)
    ensures Run(s, rest).result == LastOr(Unaddressed(rest), s.result)
    ensures Run(s, rest).waiting == s.waiting
    decreases |rest|
  {
    if rest != [] {
      AfterSettling(Step(s, rest[0]), rest[1..]);
    }
  }

  predicate Awaiting(s: State, id: nat, caller: Option<nat>, request: Option<int>) {
    s.waiting == Some(id) && s.current == id && s.owner == caller && s.ownerNumber == NumberOf(request)
    && s.result == USER_ACTION_TIMEOUT
  }

  lemma {:induction false} WhileAwaiting(s: State, id: nat, caller: Option<nat>, request: Option<int>,
                                         during: seq<Event>)
    requires Awaiting(s, id, caller, request) && Meanwhile(during) && CanRun(s, during)
    ensures Run(s, during).result
         == LastOr(Strays(during, id, caller, request), Verdict(during, id, caller, request))
    ensures Run(s, during).waiting == Some(id)
    decreases |during|
  {
    if during != [] {
      var next := Step(s, during[0]);
      if Settles(during[0], id, caller, request) {
        AfterSettling(next, during[1..]);
      } else {
        WhileAwaiting(next, id, caller, request, during[1..]);
      }
    }
  }

  /** A whole `confirm`: what came before it, its opening, what happened meanwhile, its end. */
  function Confirm(before: seq<Event>, caller: Option<nat>, request: Option<int>, during: seq<Event>): seq<Event> {
    before + [Open(caller, request)] + during + [Close]
  }

  function Prompts(run: seq<Event>, s: State): nat
    requires CanRun(s, run)
    decreases |run|
  {
    if run == [] then 0
    else (if run[0].Open? && !Refused(s, run[0].caller, run[0].request) then 1 else 0)
         + Prompts(run[1..], Step(s, run[0]))
  }

  lemma {:induction false} PromptsAreNumbered(s: State, run: seq<Event>)
    requires CanRun(s, run)
    ensures Run(s, run).issued == s.issued + Prompts(run, s)
    decreases |run|
  {
    if run != [] {
      PromptsAreNumbered(Step(s, run[0]), run[1..]);
    }
  }

  /** Whatever happened before, the events since the opening alone decide the status. */
  lemma {:induction false} StatusIsDecidedMeanwhile(
      before: seq<Event>, caller: Option<nat>, request: Option<int>, during: seq<Event>)
    requires CanRun(START, Confirm(before, caller, request, during)) && Meanwhile(during)
    requires CanRun(START, before) && !Refused(Run(START, before), caller, request)
    ensures
      var id := Prompts(before, START) + 1;
      var strays := Strays(during, id, caller, request);
      && Run(START, Confirm(before, caller, request, during)).result
         == LastOr(strays, Verdict(during, id, caller, request))
  {
    var open := [Open(caller, request)];
    assert Confirm(before, caller, request, during) == before + (open + (during + [Close]));
    RunConcat(START, before, open + (during + [Close]));
    var s := Run(START, before);
    PromptsAreNumbered(START, before);
    RunConcat(s, open, during + [Close]);
    var t := Run(s, open);
    assert t == Step(s, Open(caller, request));
    RunConcat(t, during, [Close]);
    WhileAwaiting(t, s.issued + 1, caller, request, during);
    var u := Run(t, during);
    assert Run(u, [Close]) == Closed(u);
  }

  /**
   * The rule a prompt is meant to follow, and when it does: exactly when no answer without a prompt
   * number arrives after the settling one, or the last such answer happens to say the same.
   */
  lemma {:induction false} StatusIsTheVerdictIff(
      before: seq<Event>, caller: Option<nat>, request: Option<int>, during: seq<Event>)
    requires CanRun(START, Confirm(before, caller, request, during)) && Meanwhile(during)
    requires CanRun(START, before) && !Refused(Run(START, before), caller, request)
    ensures
      var id := Prompts(before, START) + 1;
      var verdict := Verdict(during, id, caller, request);
      var strays := Strays(during, id, caller, request);
      Run(START, Confirm(before, caller, request, during)).result == verdict
      <==> strays == [] || strays[|strays| - 1] == verdict
  {
    StatusIsDecidedMeanwhile(before, caller, request, during);
  }

  lemma {:induction false} AddressedAnswersLeaveNoStrays(
      during: seq<Event>, id: nat, caller: Option<nat>, request: Option<int>)
    requires forall e :: e in during && e.Answer? ==> e.id != NOBODY
    ensures Strays(during, id, caller, request) == [] && Unaddressed(during) == []
  {
    if during != [] {
      AddressedAnswersLeaveNoStrays(during[1..], id, caller, request);
    }
  }

  /** With every answer naming a prompt, as the service's own screens do, the rule always holds. */
  lemma {:induction false} StatusIsTheVerdict(
      before: seq<Event>, caller: Option<nat>, request: Option<int>, during: seq<Event>)
    requires CanRun(START, Confirm(before, caller, request, during)) && Meanwhile(during)
    requires CanRun(START, before) && !Refused(Run(START, before), caller, request)
    requires forall e :: e in during && e.Answer? ==> e.id != NOBODY
    ensures Run(START, Confirm(before, caller, request, during)).result
         == Verdict(during, Prompts(before, START) + 1, caller, request)
  {
    StatusIsDecidedMeanwhile(before, caller, request, during);
    AddressedAnswersLeaveNoStrays(during, Prompts(before, START) + 1, caller, request);
  }

  /** An approval that names no prompt turns a withdrawal into an approval. */
  lemma UnaddressedAnswersOverride()
    ensures
      var during := [Cancel(7, 3, false), Answer(NOBODY, APPROVED)];
      var run := Confirm([], Some(7), Some(3), during);
      && CanRun(START, run) && Run(START, run).result == APPROVED
      && Verdict(during, 1, Some(7), Some(3)) == KEEPALIVE_CANCEL
  {
    var e1, e2, e3, e4 := Open(Some(7), Some(3)), Cancel(7, 3, false), Answer(NOBODY, APPROVED), Close;
    var s1 := Step(START, e1);
    var s2 := Step(s1, e2);
    var s3 := Step(s2, e3);
    RunCons(s3, e4, []);
    RunCons(s2, e3, [e4]);
    RunCons(s1, e2, [e3, e4]);
    RunCons(START, e1, [e2, e3, e4]);
    assert Confirm([], Some(7), Some(3), [e2, e3]) == [e1] + [e2, e3, e4];
    assert [e2] + [e3, e4] == [e2, e3, e4] && [e3] + [e4] == [e3, e4] && [e4] + [] == [e4];
    var during := [e2, e3];
    assert Verdict(during, 1, Some(7), Some(3)) == KEEPALIVE_CANCEL;
  }

  lemma RunCons(s: State, e: Event, rest: seq<Event>)
    requires Possible(s, e) && CanRun(Step(s, e), rest)
    ensures CanRun(s, [e] + rest) && Run(s, [e] + rest) == Run(Step(s, e), rest)
  {
    assert ([e] + rest)[1..] == rest;
  }

  /** Events that are not about this prompt can be left out without changing its status. */
  function Relevant(during: seq<Event>, id: nat, caller: Option<nat>, request: Option<int>): seq<Event> {
    if during == [] then []
    else (if Settles(during[0], id, caller, request) then [during[0]] else [])
         + Relevant(during[1..], id, caller, request)
  }

  lemma {:induction false} OthersNeverMatter(
      first: seq<Event>, second: seq<Event>, id: nat, caller: Option<nat>, request: Option<int>)
    requires Relevant(first, id, caller, request) == Relevant(second, id, caller, request)
    ensures Verdict(first, id, caller, request) == Verdict(second, id, caller, request)
  {
    FirstRelevantDecides(first, id, caller, request);
    FirstRelevantDecides(second, id, caller, request);
  }

  lemma {:induction false} FirstRelevantDecides(during: seq<Event>, id: nat, caller: Option<nat>, request: Option<int>)
    ensures
      var mine := Relevant(during, id, caller, request);
      Verdict(during, id, caller, request)
      == (if mine == [] then USER_ACTION_TIMEOUT else if mine[0].Answer? then mine[0].status else KEEPALIVE_CANCEL)
    ensures forall e :: e in Relevant(during, id, caller, request) ==> e.Answer? || e.Cancel?
  {
    if during != [] {
      FirstRelevantDecides(during[1..], id, caller, request);
    }
  }

  // ---- Refusal ------------------------------------------------------------------------------

  predicate EverClosed(history: seq<Event>, connection: nat) {
    exists e :: e in history && e.Cancel? && e.connection == connection && e.closing
  }

  /** The request number the connection withdrew last. */
  function LatestWithdrawn(history: seq<Event>, connection: nat): int {
    if history == [] then NEVER
    else
      var e := history[|history| - 1];
      if e.Cancel? && e.connection == connection then e.number
      else LatestWithdrawn(history[..|history| - 1], connection)
  }

  lemma {:induction false} StandingsRecordTheHistory(history: seq<Event>, connection: nat)
    requires CanRun(START, history)
    ensures StandingOf(Run(START, history), connection)
         == Standing(LatestWithdrawn(history, connection), EverClosed(history, connection))
  {
    if history != [] {
      var n := |history| - 1;
      var e := history[n];
      assert history == history[..n] + [e];
      RunConcat(START, history[..n], [e]);
      StandingsRecordTheHistory(history[..n], connection);
      var s := Run(START, history[..n]);
      assert Run(s, [e]) == Step(s, e);
      EverClosedSnoc(history[..n], e, connection);
    }
  }

  lemma EverClosedSnoc(before: seq<Event>, e: Event, connection: nat)
    ensures EverClosed(before + [e], connection)
       <==> EverClosed(before, connection) || (e.Cancel? && e.connection == connection && e.closing)
  {
    assert forall x :: x in before + [e] <==> x in before || x == e;
  }

  /** No prompt opens exactly for a connection that closed, or whose latest withdrawal names the request. */
  lemma {:induction false} PromptIsRefusedIff(history: seq<Event>, caller: nat, request: Option<int>)
    requires CanRun(START, history)
    ensures Refused(Run(START, history), Some(caller), request)
       <==> EverClosed(history, caller)
            || (request.Some? && LatestWithdrawn(history, caller) == request.value)
  {
    StandingsRecordTheHistory(history, caller);
  }

  predicate NeverWithdrew(history: seq<Event>, caller: nat) {
    forall e :: e in history && e.Cancel? ==> e.connection != caller
  }

  /** Before its first withdrawal a connection is refused for one request number only: the smallest. */
  lemma {:induction false} FreshConnectionIsRefusedIff(history: seq<Event>, caller: nat, request: int)
    requires CanRun(START, history) && NeverWithdrew(history, caller)
    ensures Refused(Run(START, history), Some(caller), Some(request)) <==> request == NEVER
  {
    PromptIsRefusedIff(history, caller, Some(request));
    NeverWithdrewMeansNever(history, caller);
  }

  lemma {:induction false} NeverWithdrewMeansNever(history: seq<Event>, caller: nat)
    requires NeverWithdrew(history, caller)
    ensures LatestWithdrawn(history, caller) == NEVER
  {
    if history != [] {
      NeverWithdrewMeansNever(history[..|history| - 1], caller);
    }
  }

  /** The request number on the wire, read as the phone reads it: a signed 32-bit integer. */
  function Signed32(number: Word): int {
    if number < 0x8000_0000 then number else number - 0x1_0000_0000
  }

  lemma OneNumberIsRefusedFromTheStart(number: Word, caller: nat)
    ensures Refused(START, Some(caller), Some(Signed32(number))) <==> number == 0x8000_0000
  {
    assert CanRun(START, []) && Run(START, []) == START;
    FreshConnectionIsRefusedIff([], caller, Signed32(number));
  }

  // ---- Screens ------------------------------------------------------------------------------

  lemma {:induction false} ShownScreenAttached(history: seq<Event>)
    requires CanRun(START, history)
    ensures
      var s := Run(START, history);
      s.current != NOBODY && s.shown.Some? ==> Attach(s.current, s.shown.value) in history
  {
    if history != [] {
      var n := |history| - 1;
      assert history == history[..n] + [history[n]];
      RunConcat(START, history[..n], [history[n]]);
      ShownScreenAttached(history[..n]);
      var s := Run(START, history[..n]);
      assert Run(s, [history[n]]) == Step(s, history[n]);
    }
  }

  /** A screen is taken down only when the very prompt it attached to ends without its answer. */
  lemma {:induction false} OnlyAttachedScreensAreTakenDown(history: seq<Event>, e: Event)
    requires CanRun(START, history) && Possible(Run(START, history), e)
    ensures
      var s := Run(START, history);
      var t := Step(s, e);
      t.aborted == s.aborted
      || (s.current != NOBODY && t.current == NOBODY && s.shown.Some?
          && t.aborted == s.aborted + [s.shown.value] && Attach(s.current, s.shown.value) in history)
  {
    SaneAlways(START, history);
    ShownScreenAttached(history);
  }

  // ---- The service as it runs -----------------------------------------------------------------

  /** One computer connection. */
  class Conn {
    const id: nat
    var cancelled: int
    var closed: bool

    constructor (id: nat)
      ensures this.id == id && cancelled == NEVER && !closed
    {
      this.id, cancelled, closed := id, NEVER, false;
    }
  }

  /** Every connection's fields are what the model remembers of it. */
  ghost predicate Registered(conns: map<nat, Conn>, standings: map<nat, Standing>)
    reads conns.Values
  {
    && standings.Keys <= conns.Keys
    && forall k :: k in conns ==>
         conns[k].id == k && StandingIn(standings, k) == Standing(conns[k].cancelled, conns[k].closed)
  }

  class KeyService {
    var issued: nat
    var current: int
    var owner: Conn?
    var ownerNumber: int
    var result: int
    var shown: Option<nat>
    var aborted: seq<nat>
    ghost var conns: map<nat, Conn>
    ghost var state: State

    ghost predicate Valid()
      reads this, conns.Values
    {
      && state.issued == issued && state.current == current && state.ownerNumber == ownerNumber
      && state.result == result && state.shown == shown && state.aborted == aborted
      && state.owner == (if owner == null then None else Some(owner.id))
      && (owner != null ==> Known(owner))
      && Sane(state)
      && Registered(conns, state.standings)
    }

    ghost predicate Known(c: Conn)
      reads this
    {
      c.id in conns && conns[c.id] == c
    }

    constructor ()
      ensures Valid() && state == START && conns == map[]
    {
      issued, current, owner, ownerNumber, result := 0, NOBODY, null, 0, 0;
      shown, aborted, conns, state := None, [], map[], START;
    }

    method Connect(id: nat) returns (c: Conn)
      requires Valid() && id !in conns
      modifies this`conns
      ensures Valid() && fresh(c) && conns == old(conns)[id := c] && c.id == id
    {
      c := new Conn(id);
      conns := conns[id := c];
    }

    method Attach(id: int, screen: nat) returns (ok: bool)
      requires Valid()
      modifies this`shown, this`state
      ensures Valid() && state == Attached(old(state), id, screen) && ok == (id == old(state).current)
    {
      if id != current { return false; }
      shown := Some(screen);
      state := Attached(state, id, screen);
      return true;
    }

    method Detach(id: int, screen: nat)
      requires Valid()
      modifies this`shown, this`state
      ensures Valid() && state == Detached(old(state), id, screen)
    {
      if id == current && shown == Some(screen) { shown := None; }
      state := Detached(state, id, screen);
    }

    method Answer(id: int, status: int)
      requires Valid()
      modifies this`result, this`current, this`state
      ensures Valid() && state == Answered(old(state), id, status)
    {
      hide Registered;
      if id != current { return; }
      result := status;
      current := NOBODY;
      state := Answered(state, id, status);
    }

    /** A cancel that arrives before its prompt exists still counts. */
    method Note(c: Conn, number: int, closing: bool)
      requires Valid() && Known(c)
      modifies this`state, c
      ensures Valid() && state == Noted(old(state), c.id, number, closing)
    {
      c.cancelled := number;
      c.closed := c.closed || closing;
      state := Noted(state, c.id, number, closing);
      forall k | k in conns
        ensures StandingOf(state, k) == Standing(conns[k].cancelled, conns[k].closed)
      {
        assert k != c.id ==> conns[k] != c && StandingOf(state, k) == StandingOf(old(state), k);
      }
    }

    method Cancel(c: Conn, number: int, closing: bool)
      requires Valid() && Known(c)
      modifies this`result, this`current, this`aborted, this`state, c
      ensures Valid() && state == Cancelled(old(state), c.id, number, closing)
    {
      hide Registered;
      Note(c, number, closing);
      if current < 0 || owner != c || (!closing && ownerNumber != number) { return; }
      result := KEEPALIVE_CANCEL;
      current := NOBODY;
      if shown.Some? { aborted := aborted + [shown.value]; }
      state := Cancelled(old(state), c.id, number, closing);
    }

    /** The first lock section of `confirm`: the prompt's id, or None when it is refused at once. */
    method ConfirmOpens(c: Conn?, mine: Option<int>) returns (id: Option<nat>)
      requires Valid() && state.waiting.None? && (c != null ==> Known(c))
      modifies this`issued, this`current, this`owner, this`ownerNumber, this`shown, this`result, this`state
      ensures Valid()
      ensures
        var caller := if c == null then None else Some(c.id);
        && state == Opened(old(state), caller, mine)
        && id == (if Refused(old(state), caller, mine) then None else Some(state.issued))
    {
      ghost var caller := if c == null then None else Some(c.id);
      assert Refused(state, caller, mine) <==> c != null && (c.closed || (mine.Some? && c.cancelled == mine.value));
      hide Registered, Refused;
      if c != null && (c.closed || (mine.Some? && c.cancelled == mine.value)) {
        return None;
      }
      issued := issued + 1;
      current := issued;
      owner := c;
      ownerNumber := NumberOf(mine);
      shown := None;
      result := USER_ACTION_TIMEOUT;
      state := Opened(state, caller, mine);
      return Some(issued);
    }

    /** The second lock section, once the wait ended: settled, timed out or interrupted. */
    method ConfirmCloses(id: nat) returns (status: int)
      requires Valid() && state.waiting == Some(id)
      modifies this`current, this`aborted, this`owner, this`shown, this`state
      ensures Valid() && state == Closed(old(state)) && status == old(state).result
    {
      hide Registered;
      if current == id {
        current := NOBODY;
        if shown.Some? { aborted := aborted + [shown.value]; }
      }
      status := result;
      shown := None;
      owner := null;
      state := Closed(state);
    }
  }
}
