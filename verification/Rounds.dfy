/**
 * Whom the daemon asks and what it makes of the answers: one link per device, the rounds
 * of one request, the fan-out of one round, and the final answer.
 */
module Rounds {
  import opened Bytes

  const GET_ASSERTION: byte := 0x02
  const GET_INFO: byte := 0x04
  const GET_NEXT_ASSERTION: byte := 0x08
  const OPERATION_DENIED: byte := 0x27
  const NO_CREDENTIALS: byte := 0x2e
  const OTHER: byte := 0x7f

  /** One connection; `id` numbers the connections in the order they were added. */
  datatype Link = Link(id: nat, device: string, caption: string, priority: nat)

  // ---- One link per device ------------------------------------------------------------

  /** The daemon's list of links keeps the order in which they were added. */
  predicate OldestFirst(links: seq<Link>) {
    forall i, j :: 0 <= i < j < |links| ==> links[i].id < links[j].id
  }

  /** The lower priority number first, then the older link. */
  predicate Before(a: Link, b: Link) {
    a.priority < b.priority || (a.priority == b.priority && a.id < b.id)
  }

  predicate Ranked(links: seq<Link>) {
    forall i, j :: 0 <= i < j < |links| ==> Before(links[i], links[j])
  }

  predicate OnePerDevice(links: seq<Link>) {
    forall i, j :: 0 <= i < j < |links| ==> links[i].device != links[j].device
  }

  /** Stable sort by priority. */
  function SortByPriority(links: seq<Link>): (sorted: seq<Link>)
    ensures |sorted| == |links|
  {
    if links == [] then [] else Insert(links[0], SortByPriority(links[1..]))
  }

  function Insert(l: Link, sorted: seq<Link>): (more: seq<Link>)
    ensures |more| == |sorted| + 1
  {
    if sorted == [] || l.priority <= sorted[0].priority then [l] + sorted
    else [sorted[0]] + Insert(l, sorted[1..])
  }

  function FirstPerDevice(links: seq<Link>, seen: set<string>): seq<Link> {
    if links == [] then []
    else if links[0].device in seen then FirstPerDevice(links[1..], seen)
    else [links[0]] + FirstPerDevice(links[1..], seen + {links[0].device})
  }

  function ByDevice(live: seq<Link>): seq<Link> {
    FirstPerDevice(SortByPriority(live), {})
  }

  lemma {:induction false} InsertKeepsRank(l: Link, sorted: seq<Link>)
    requires Ranked(sorted) && forall k <- sorted :: l.id < k.id
    ensures Ranked(Insert(l, sorted))
    ensures forall k :: k in Insert(l, sorted) <==> k == l || k in sorted
  {
    if sorted == [] || l.priority <= sorted[0].priority {
      forall k | k in sorted
        ensures Before(l, k)
      {
      }
    } else {
      InsertKeepsRank(l, sorted[1..]);
      assert sorted == [sorted[0]] + sorted[1..];
      forall k | k in Insert(l, sorted[1..])
        ensures Before(sorted[0], k)
      {
      }
    }
  }

  lemma {:induction false} SortRanks(links: seq<Link>)
    requires OldestFirst(links)
    ensures Ranked(SortByPriority(links))
    ensures forall k :: k in SortByPriority(links) <==> k in links
  {
    if links != [] {
      SortRanks(links[1..]);
      InsertKeepsRank(links[0], SortByPriority(links[1..]));
      assert links == [links[0]] + links[1..];
    }
  }

  lemma {:induction false} FirstPerDeviceIsBest(links: seq<Link>, seen: set<string>)
    requires Ranked(links)
    ensures var best := FirstPerDevice(links, seen);
            && Ranked(best) && OnePerDevice(best)
            && (forall l <- best :: l in links && l.device !in seen)
            && (forall k <- links :: k.device in seen
                                     || exists l :: l in best && l.device == k.device && (l == k || Before(l, k)))
  {
    if links != [] {
      var first, rest := links[0], links[1..];
      var seen' := if first.device in seen then seen else seen + {first.device};
      FirstPerDeviceIsBest(rest, seen');
      var best, later := FirstPerDevice(links, seen), FirstPerDevice(rest, seen');
      forall k | k in links && k.device !in seen
        ensures exists l :: l in best && l.device == k.device && (l == k || Before(l, k))
      {
        if first.device == k.device {
          assert first in best;
        } else {
          assert k in rest && k.device !in seen';
          var l :| l in later && l.device == k.device && (l == k || Before(l, k));
          assert l in best;
        }
      }
    }
  }

  /** `by_device`: the best live link of every device that has one, best devices first. */
  lemma ByDeviceIsBest(live: seq<Link>)
    requires OldestFirst(live)
    ensures var best := ByDevice(live);
            && Ranked(best) && OnePerDevice(best)
            && (forall l <- best :: l in live)
            && (forall k <- live :: exists l :: l in best && l.device == k.device && (l == k || Before(l, k)))
  {
    SortRanks(live);
    FirstPerDeviceIsBest(SortByPriority(live), {});
  }

  // ---- The rounds of a request --------------------------------------------------------

  function Find(devices: seq<Link>, device: string): (found: seq<Link>)
    ensures |found| <= 1
    ensures forall l <- found :: l in devices && l.device == device
  {
    if devices == [] then []
    else if devices[0].device == device then [devices[0]]
    else Find(devices[1..], device)
  }

  function Holding(devices: seq<Link>, holders: set<string>, wanted: bool): (part: seq<Link>)
    ensures forall l <- part :: l in devices && (l.device in holders) == wanted
  {
    if devices == [] then []
    else (if (devices[0].device in holders) == wanted then [devices[0]] else [])
         + Holding(devices[1..], holders, wanted)
  }

  datatype Plan = Plan(chosen: Option<string>, command: byte, probe: bool, holders: set<string>, last: Option<string>)

  function PlanRounds(devices: seq<Link>, plan: Plan): (rounds: seq<seq<Link>>)
    ensures 1 <= |rounds| <= 2
  {
    if plan.chosen.Some? then [Find(devices, plan.chosen.value)]
    else if plan.command == GET_INFO then [devices[..Min(|devices|, 1)]]
    else if plan.command == GET_NEXT_ASSERTION then
      [if plan.last.Some? then Find(devices, plan.last.value) else []]
    else if plan.command == GET_ASSERTION && !plan.probe && exists l <- devices :: l.device in plan.holders then
      [Holding(devices, plan.holders, true), Holding(devices, plan.holders, false)]
    else [devices]
  }

  function Flatten<T>(parts: seq<seq<T>>): seq<T> {
    if parts == [] then [] else parts[0] + Flatten(parts[1..])
  }

  lemma {:induction false} HoldingSplits(devices: seq<Link>, holders: set<string>)
    ensures multiset(Holding(devices, holders, true) + Holding(devices, holders, false)) == multiset(devices)
  {
    if devices != [] {
      HoldingSplits(devices[1..], holders);
      assert devices == [devices[0]] + devices[1..];
    }
  }

  lemma {:induction false} HoldingKeepsRank(devices: seq<Link>, holders: set<string>, wanted: bool)
    requires Ranked(devices) && OnePerDevice(devices)
    ensures Ranked(Holding(devices, holders, wanted)) && OnePerDevice(Holding(devices, holders, wanted))
  {
    if devices != [] {
      HoldingKeepsRank(devices[1..], holders, wanted);
    }
  }

  lemma FlattenTwo<T>(a: seq<T>, b: seq<T>)
    ensures Flatten([a, b]) == a + b && Flatten([a]) == a
  {
    assert [a, b][1..] == [b];
    assert [b][1..] == [] && [a][1..] == [];
    assert Flatten([b]) == b + Flatten<T>([]) == b;
    assert Flatten([a]) == a + Flatten<T>([]) == a;
  }

  lemma {:induction false} HoldingAll(devices: seq<Link>, holders: set<string>, wanted: bool)
    requires forall l <- devices :: (l.device in holders) == wanted
    ensures Holding(devices, holders, wanted) == devices && Holding(devices, holders, !wanted) == []
  {
    if devices != [] {
      HoldingAll(devices[1..], holders, wanted);
    }
  }

  /** No device is asked twice for one request, and every round is asked best links first. */
  lemma NobodyIsAskedTwice(devices: seq<Link>, plan: Plan)
    requires Ranked(devices) && OnePerDevice(devices)
    ensures OnePerDevice(Flatten(PlanRounds(devices, plan)))
    ensures forall l <- Flatten(PlanRounds(devices, plan)) :: l in devices
    ensures forall round <- PlanRounds(devices, plan) :: Ranked(round)
  {
    var rounds := PlanRounds(devices, plan);
    HoldingKeepsRank(devices, plan.holders, true);
    HoldingKeepsRank(devices, plan.holders, false);
    if |rounds| == 2 {
      FlattenTwo(rounds[0], rounds[1]);
      assert rounds == [rounds[0], rounds[1]];
    } else {
      FlattenTwo(rounds[0], []);
      assert rounds == [rounds[0]];
    }
  }

  /**
   * Without an explicit choice, every command but GetInfo and GetNextAssertion reaches
   * each device in exactly one round, the recorded holders all before the others.
   */
  lemma EveryDeviceIsReached(devices: seq<Link>, plan: Plan)
    requires plan.chosen.None? && plan.command != GET_INFO && plan.command != GET_NEXT_ASSERTION
    ensures multiset(Flatten(PlanRounds(devices, plan))) == multiset(devices)
    ensures plan.command == GET_ASSERTION && !plan.probe ==>
              Flatten(PlanRounds(devices, plan))
              == Holding(devices, plan.holders, true) + Holding(devices, plan.holders, false)
  {
    HoldingSplits(devices, plan.holders);
    FlattenTwo(devices, []);
    FlattenTwo(Holding(devices, plan.holders, true), Holding(devices, plan.holders, false));
    if !exists l <- devices :: l.device in plan.holders {
      HoldingAll(devices, plan.holders, false);
    }
  }

  lemma {:induction false} FindsTheOne(devices: seq<Link>, device: string)
    requires OnePerDevice(devices)
    ensures forall l :: l in Find(devices, device) <==> l in devices && l.device == device
  {
    if devices != [] {
      assert devices == [devices[0]] + devices[1..];
      FindsTheOne(devices[1..], device);
    }
  }

  /**
   * A choice asks the link of that device and no other; without one getInfo asks the best link,
   * getNextAssertion the link of the last winner, and of the other commands only a getAssertion that
   * is no probe, with a holder there, has a second round.
   */
  lemma PlansByCommand(devices: seq<Link>, plan: Plan)
    requires Ranked(devices) && OnePerDevice(devices)
    ensures var asked := Flatten(PlanRounds(devices, plan));
            && (plan.chosen.Some? ==> forall l :: l in asked <==> l in devices && l.device == plan.chosen.value)
            && (plan.chosen.None? && plan.command == GET_INFO ==>
                  && (asked == [] <==> devices == [])
                  && (asked != [] ==>
                        asked == [asked[0]] && forall k <- devices :: k == asked[0] || Before(asked[0], k)))
            && (plan.chosen.None? && plan.command == GET_NEXT_ASSERTION ==>
                  forall l :: l in asked <==> l in devices && Some(l.device) == plan.last)
    ensures plan.chosen.None? && plan.command != GET_INFO && plan.command != GET_NEXT_ASSERTION ==>
              if plan.command == GET_ASSERTION && !plan.probe && exists l <- devices :: l.device in plan.holders
              then
                && |PlanRounds(devices, plan)| == 2
                && forall l <- PlanRounds(devices, plan)[0] :: l.device in plan.holders
              else PlanRounds(devices, plan) == [devices]
  {
    var rounds := PlanRounds(devices, plan);
    FlattenTwo(rounds[0], []);
    if plan.chosen.Some? {
      FindsTheOne(devices, plan.chosen.value);
    } else if plan.last.Some? {
      FindsTheOne(devices, plan.last.value);
    }
    assert |rounds| == 1 ==> rounds == [rounds[0]];
  }

  /** GetNextAssertion goes to the chosen device, or else to the one that won the last GetAssertion. */
  lemma NextAssertionFollowsTheWinner(devices: seq<Link>, plan: Plan)
    requires plan.command == GET_NEXT_ASSERTION
    ensures forall l <- Flatten(PlanRounds(devices, plan)) ::
              Some(l.device) == if plan.chosen.Some? then plan.chosen else plan.last
    ensures |Flatten(PlanRounds(devices, plan))| <= 1
  {
    var rounds := PlanRounds(devices, plan);
    FlattenTwo(rounds[0], []);
    assert rounds == [rounds[0]];
  }

  // ---- The fan-out of one round ---------------------------------------------------------

  type Answer = (nat, seq<byte>)
  type Reply = (Link, seq<byte>)

  /** `taken` lists every answer taken from a link's queue, in order. */
  datatype Fan = Fan(pending: seq<Link>, wins: seq<Reply>, failed: seq<Reply>, taken: seq<(Link, Answer)>, done: bool)

  /** A request's number, and whether its round waits for all answers. */
  datatype Wanted = Wanted(number: nat, waitAll: bool)

  function Drop(links: seq<Link>, l: Link): (kept: seq<Link>)
    ensures forall k <- kept :: k in links && k.id != l.id
  {
    if links == [] then []
    else (if links[0].id == l.id then [] else [links[0]]) + Drop(links[1..], l)
  }

  predicate Closes(a: Answer) {
    a.0 == 0 && a.1 == []
  }

  /** The fan after `answer` was taken from the queue of `link`. */
  function Absorb(f: Fan, link: Link, answer: Answer, want: Wanted): Fan {
    var heard := f.(taken := f.taken + [(link, answer)]);
    if Closes(answer) then
      heard.(pending := Drop(f.pending, link), failed := f.failed + [(link, [OTHER])])
    else if answer.0 != want.number then heard
    else if answer.1 == [] then
      heard.(pending := Drop(f.pending, link), failed := f.failed + [(link, [OTHER])])
    else if answer.1[0] == 0 then
      heard.(pending := Drop(f.pending, link), wins := f.wins + [(link, answer.1)], done := !want.waitAll)
    else
      heard.(pending := Drop(f.pending, link), failed := f.failed + [(link, answer.1)],
             done := answer.1[0] == OPERATION_DENIED && !want.waitAll)
  }

  /** What `try_recv` finds on each link during one pass, and whether a keepalive is due after it. */
  datatype Tick = Tick(answers: map<nat, Answer>, beat: bool)

  function Sweep(f: Fan, links: seq<Link>, answers: map<nat, Answer>, want: Wanted): Fan
    decreases |links|
  {
    if links == [] then f
    else if links[0].id !in answers then Sweep(f, links[1..], answers, want)
    else
      var next := Absorb(f, links[0], answers[links[0].id], want);
      if next.done then next else Sweep(next, links[1..], answers, want)
  }

  /** The passes of a round; running out of ticks is the deadline or the loss of the slot. */
  function Listen(f: Fan, ticks: seq<Tick>, want: Wanted): Fan
    decreases |ticks|
  {
    if f.pending == [] || f.done || ticks == [] then f
    else Listen(Sweep(f, f.pending, ticks[0].answers, want), ticks[1..], want)
  }

  /** Which sends succeed, and what then arrives. */
  datatype World = World(accepts: set<nat>, ticks: seq<Tick>)

  function Took(targets: seq<Link>, accepts: set<nat>): seq<Link> {
    if targets == [] then []
    else (if targets[0].id in accepts then [targets[0]] else []) + Took(targets[1..], accepts)
  }

  function FanOut(targets: seq<Link>, world: World, want: Wanted): Fan {
    Listen(Fan(Took(targets, world.accepts), [], [], [], false), world.ticks, want)
  }

  predicate DistinctIds(links: seq<Link>) {
    forall i, j :: 0 <= i < j < |links| ==> links[i].id != links[j].id
  }

  /** An answer that settles its link: the closing mark, or an answer to this very request. */
  predicate Decisive(a: Answer, number: nat) {
    Closes(a) || a.0 == number
  }

  /** The wins and failures that a list of read answers amounts to. */
  function WinsOf(taken: seq<(Link, Answer)>, number: nat): seq<Reply> {
    if taken == [] then [] else
      var (l, a) := taken[|taken| - 1];
      WinsOf(taken[..|taken| - 1], number)
      + if a.0 == number && a.1 != [] && a.1[0] == 0 then [(l, a.1)] else []
  }

  function FailuresOf(taken: seq<(Link, Answer)>, number: nat): seq<Reply> {
    if taken == [] then [] else
      var (l, a) := taken[|taken| - 1];
      FailuresOf(taken[..|taken| - 1], number)
      + if Decisive(a, number) && (a.1 == [] || a.1[0] != 0) then [(l, if a.1 == [] then [OTHER] else a.1)] else []
  }

  function Links(replies: seq<Reply>): (links: seq<Link>)
    ensures |links| == |replies|
    ensures forall i :: 0 <= i < |replies| ==> links[i] == replies[i].0
  {
    seq(|replies|, i requires 0 <= i < |replies| => replies[i].0)
  }

  predicate Conserves(f: Fan, took: seq<Link>) {
    multiset(f.pending) + multiset(Links(f.wins)) + multiset(Links(f.failed)) == multiset(took)
  }

  predicate Classified(f: Fan, number: nat) {
    && f.wins == WinsOf(f.taken, number)
    && f.failed == FailuresOf(f.taken, number)
    && (forall l <- f.pending :: forall i :: 0 <= i < |f.taken| ==>
         f.taken[i].0 == l ==> !Decisive(f.taken[i].1, number))
  }

  predicate Denied(payload: seq<byte>) {
    payload != [] && payload[0] == OPERATION_DENIED
  }

  /** An answer that ends a round that does not wait: a success or a denial of this very request. */
  predicate Ends(a: Answer, want: Wanted) {
    !want.waitAll && a.0 == want.number && a.1 != [] && (a.1[0] == 0 || a.1[0] == OPERATION_DENIED)
  }

  /** A finished round ended with the very answer that finished it; only rounds that wait go on past a win. */
  predicate Stopped(f: Fan, want: Wanted) {
    && (f.done ==> f.taken != [] && Ends(f.taken[|f.taken| - 1].1, want))
    && (forall i :: 0 <= i < |f.taken| && Ends(f.taken[i].1, want) ==> f.done && i == |f.taken| - 1)
    && (!want.waitAll && f.wins != [] ==>
          && f.done && |f.wins| == 1
          && f.taken[|f.taken| - 1] == (f.wins[0].0, (want.number, f.wins[0].1)))
    && (!want.waitAll && (exists r <- f.failed :: Denied(r.1)) ==> f.done)
  }

  lemma {:induction false} DropNone(links: seq<Link>, l: Link)
    requires forall k <- links :: k.id != l.id
    ensures Drop(links, l) == links
  {
    if links != [] {
      DropNone(links[1..], l);
    }
  }

  lemma {:induction false} DropOne(links: seq<Link>, i: nat)
    requires DistinctIds(links) && i < |links|
    ensures Drop(links, links[i]) == links[..i] + links[i + 1..]
  {
    var rest := links[1..];
    if i == 0 {
      DropNone(rest, links[0]);
    } else {
      assert rest[i - 1] == links[i];
      assert links[0].id != links[i].id;
      DropOne(rest, i - 1);
    }
  }

  lemma CutOut<T>(s: seq<T>, i: nat)
    requires i < |s|
    ensures multiset(s[..i] + s[i + 1..]) + multiset{s[i]} == multiset(s)
  {
    assert s == s[..i] + [s[i]] + s[i + 1..];
  }

  lemma CutOutIsDistinct(links: seq<Link>, i: nat)
    requires DistinctIds(links) && i < |links|
    ensures DistinctIds(links[..i] + links[i + 1..])
  {
  }

  lemma DropConserves(links: seq<Link>, l: Link)
    requires DistinctIds(links) && l in links
    ensures multiset(Drop(links, l)) + multiset{l} == multiset(links)
    ensures DistinctIds(Drop(links, l))
  {
    var i :| 0 <= i < |links| && links[i] == l;
    DropOne(links, i);
    CutOut(links, i);
    CutOutIsDistinct(links, i);
  }

  predicate FanInvariant(f: Fan, took: seq<Link>, want: Wanted) {
    DistinctIds(f.pending) && Conserves(f, took) && Classified(f, want.number) && Stopped(f, want)
  }

  lemma LinksSnoc(replies: seq<Reply>, r: Reply)
    ensures multiset(Links(replies + [r])) == multiset(Links(replies)) + multiset{r.0}
  {
    assert Links(replies + [r]) == Links(replies) + [r.0];
  }

  lemma Moved<T>(fewer: multiset<T>, pending: multiset<T>, w: multiset<T>, f: multiset<T>, x: T)
    requires fewer + multiset{x} == pending
    ensures fewer + (w + multiset{x}) + f == pending + w + f
    ensures fewer + w + (f + multiset{x}) == pending + w + f
  {
  }

  lemma AbsorbConserves(f: Fan, took: seq<Link>, link: Link, answer: Answer, want: Wanted)
    requires DistinctIds(f.pending) && Conserves(f, took)
    requires link in f.pending
    ensures Conserves(Absorb(f, link, answer, want), took)
    ensures DistinctIds(Absorb(f, link, answer, want).pending)
  {
    var g := Absorb(f, link, answer, want);
    if Decisive(answer, want.number) {
      var kept := Drop(f.pending, link);
      DropConserves(f.pending, link);
      assert g.pending == kept;
      Moved(multiset(kept), multiset(f.pending), multiset(Links(f.wins)), multiset(Links(f.failed)), link);
      if answer.1 == [] {
        assert g.wins == f.wins && g.failed == f.failed + [(link, [OTHER])];
        LinksSnoc(f.failed, (link, [OTHER]));
      } else if answer.1[0] == 0 {
        assert g.failed == f.failed && g.wins == f.wins + [(link, answer.1)];
        LinksSnoc(f.wins, (link, answer.1));
      } else {
        assert g.wins == f.wins && g.failed == f.failed + [(link, answer.1)];
        LinksSnoc(f.failed, (link, answer.1));
      }
    }
  }

  lemma TakenSnoc(taken: seq<(Link, Answer)>, l: Link, a: Answer, number: nat)
    ensures WinsOf(taken + [(l, a)], number)
            == WinsOf(taken, number) + if a.0 == number && a.1 != [] && a.1[0] == 0 then [(l, a.1)] else []
    ensures FailuresOf(taken + [(l, a)], number)
            == FailuresOf(taken, number)
               + if Decisive(a, number) && (a.1 == [] || a.1[0] != 0)
                 then [(l, if a.1 == [] then [OTHER] else a.1)] else []
  {
    var more := taken + [(l, a)];
    assert more[..|more| - 1] == taken;
  }

  lemma AbsorbClassifies(f: Fan, link: Link, answer: Answer, want: Wanted)
    requires Classified(f, want.number)
    ensures Classified(Absorb(f, link, answer, want), want.number)
  {
    hide WinsOf, FailuresOf, Drop;
    TakenSnoc(f.taken, link, answer, want.number);
  }

  lemma AbsorbStops(f: Fan, link: Link, answer: Answer, want: Wanted)
    requires Stopped(f, want) && !f.done
    ensures Stopped(Absorb(f, link, answer, want), want)
  {
  }

  lemma AbsorbKeeps(f: Fan, took: seq<Link>, link: Link, answer: Answer, want: Wanted)
    requires FanInvariant(f, took, want) && !f.done
    requires link in f.pending
    ensures FanInvariant(Absorb(f, link, answer, want), took, want)
  {
    AbsorbConserves(f, took, link, answer, want);
    AbsorbClassifies(f, link, answer, want);
    AbsorbStops(f, link, answer, want);
  }

  lemma {:induction false} DropKeepsOthers(links: seq<Link>, l: Link, k: Link)
    requires k in links && k.id != l.id
    ensures k in Drop(links, l)
  {
    if links[0] != k {
      DropKeepsOthers(links[1..], l, k);
    }
  }

  predicate Among(part: seq<Link>, links: seq<Link>) {
    forall i :: 0 <= i < |part| ==> part[i] in links
  }

  lemma OthersStayPending(f: Fan, links: seq<Link>, answer: Answer, want: Wanted)
    requires links != [] && DistinctIds(links) && Among(links, f.pending)
    ensures Among(links[1..], Absorb(f, links[0], answer, want).pending)
    ensures DistinctIds(links[1..])
  {
    forall i | 0 <= i < |links[1..]|
      ensures links[1..][i] in Drop(f.pending, links[0])
    {
      assert links[0].id != links[i + 1].id;
      DropKeepsOthers(f.pending, links[0], links[i + 1]);
    }
  }

  lemma {:induction false} SweepKeeps(f: Fan, took: seq<Link>, links: seq<Link>, answers: map<nat, Answer>,
                                      want: Wanted)
    requires FanInvariant(f, took, want) && !f.done
    requires DistinctIds(links) && Among(links, f.pending)
    ensures FanInvariant(Sweep(f, links, answers, want), took, want)
    decreases |links|
  {
    if links != [] {
      if links[0].id !in answers {
        SweepKeeps(f, took, links[1..], answers, want);
      } else {
        var answer := answers[links[0].id];
        AbsorbKeeps(f, took, links[0], answer, want);
        OthersStayPending(f, links, answer, want);
        if !Absorb(f, links[0], answer, want).done {
          SweepKeeps(Absorb(f, links[0], answer, want), took, links[1..], answers, want);
        }
      }
    }
  }

  lemma {:induction false} ListenKeeps(f: Fan, took: seq<Link>, ticks: seq<Tick>, want: Wanted)
    requires FanInvariant(f, took, want)
    ensures FanInvariant(Listen(f, ticks, want), took, want)
    decreases |ticks|
  {
    if !(f.pending == [] || f.done || ticks == []) {
      SweepKeeps(f, took, f.pending, ticks[0].answers, want);
      ListenKeeps(Sweep(f, f.pending, ticks[0].answers, want), took, ticks[1..], want);
    }
  }

  // ---- What a round reads -----------------------------------------------------------------

  /** What one pass finds, link by link. */
  function Arrived(links: seq<Link>, answers: map<nat, Answer>): seq<(Link, Answer)> {
    if links == [] then []
    else (if links[0].id in answers then [(links[0], answers[links[0].id])] else []) + Arrived(links[1..], answers)
  }

  /** Everything up to the first answer that ends the round. */
  function UpToEnd(arrived: seq<(Link, Answer)>, want: Wanted): seq<(Link, Answer)> {
    if arrived == [] then []
    else if Ends(arrived[0].1, want) then [arrived[0]]
    else [arrived[0]] + UpToEnd(arrived[1..], want)
  }

  predicate AnyEnds(arrived: seq<(Link, Answer)>, want: Wanted) {
    exists x <- arrived :: Ends(x.1, want)
  }

  /** The links whose answer in this pass settles them. */
  function Decided(links: seq<Link>, answers: map<nat, Answer>, number: nat): set<nat> {
    set l | l in links && l.id in answers && Decisive(answers[l.id], number) :: l.id
  }

  function Without(links: seq<Link>, ids: set<nat>): (kept: seq<Link>)
    ensures forall l :: l in kept <==> l in links && l.id !in ids
  {
    if links == [] then []
    else (if links[0].id in ids then [] else [links[0]]) + Without(links[1..], ids)
  }

  /** All answers that a round reads: pass by pass, those of the links that are not settled yet. */
  function Heard(pending: seq<Link>, ticks: seq<Tick>, want: Wanted): seq<(Link, Answer)>
    decreases |ticks|
  {
    if pending == [] || ticks == [] then [] else
      var arrived := Arrived(pending, ticks[0].answers);
      if AnyEnds(arrived, want) then UpToEnd(arrived, want)
      else arrived + Heard(Without(pending, Decided(pending, ticks[0].answers, want.number)), ticks[1..], want)
  }

  lemma AbsorbEnds(f: Fan, link: Link, answer: Answer, want: Wanted)
    requires !f.done
    ensures Absorb(f, link, answer, want).done <==> Ends(answer, want)
    ensures Absorb(f, link, answer, want).taken == f.taken + [(link, answer)]
    ensures Absorb(f, link, answer, want).pending
         == if Decisive(answer, want.number) then Drop(f.pending, link) else f.pending
  {
  }

  /** A pass takes the answers of all its links in order, up to one that ends the round. */
  lemma {:induction false} SweepReadsWhatArrived(f: Fan, links: seq<Link>, answers: map<nat, Answer>, want: Wanted)
    requires !f.done
    ensures var g, arrived := Sweep(f, links, answers, want), Arrived(links, answers);
            && g.taken == f.taken + UpToEnd(arrived, want)
            && (g.done <==> AnyEnds(arrived, want))
    decreases |links|
  {
    hide Absorb, Ends;
    if links != [] {
      var rest := Arrived(links[1..], answers);
      if links[0].id in answers {
        var answer := answers[links[0].id];
        AbsorbEnds(f, links[0], answer, want);
        var arrived := Arrived(links, answers);
        assert arrived == [(links[0], answer)] + rest && arrived[1..] == rest;
        if Ends(answer, want) {
          assert (links[0], answer) in arrived;
        } else {
          SweepReadsWhatArrived(Absorb(f, links[0], answer, want), links[1..], answers, want);
          AnyOfTwo((links[0], answer), rest, want);
        }
      } else {
        assert [] + rest == rest;
        SweepReadsWhatArrived(f, links[1..], answers, want);
      }
    }
  }

  lemma AnyOfTwo(x: (Link, Answer), rest: seq<(Link, Answer)>, want: Wanted)
    ensures AnyEnds([x] + rest, want) <==> Ends(x.1, want) || AnyEnds(rest, want)
  {
    if AnyEnds(rest, want) {
      var y :| y in rest && Ends(y.1, want);
      assert y in [x] + rest;
    }
    if Ends(x.1, want) {
      assert x in [x] + rest;
    }
  }

  lemma {:induction false} WithoutMore(links: seq<Link>, a: set<nat>, b: set<nat>)
    ensures Without(Without(links, a), b) == Without(links, a + b)
  {
    if links != [] {
      WithoutMore(links[1..], a, b);
      var kept := Without(links[1..], a);
      if links[0].id !in a {
        assert ([links[0]] + kept)[1..] == kept;
      } else {
        assert [] + kept == kept;
      }
    }
  }

  lemma {:induction false} DropIsWithout(links: seq<Link>, l: Link)
    ensures Drop(links, l) == Without(links, {l.id})
  {
    if links != [] {
      DropIsWithout(links[1..], l);
    }
  }

  lemma {:induction false} WithoutNone(links: seq<Link>)
    ensures Without(links, {}) == links
  {
    if links != [] {
      WithoutNone(links[1..]);
    }
  }

  lemma DecidedFirst(links: seq<Link>, answers: map<nat, Answer>, number: nat)
    requires links != []
    ensures Decided(links, answers, number)
         == (if links[0].id in answers && Decisive(answers[links[0].id], number) then {links[0].id} else {})
            + Decided(links[1..], answers, number)
  {
    assert links == [links[0]] + links[1..];
  }

  /** After a pass that no answer ended, exactly the links with a decisive answer are settled. */
  lemma {:induction false} SweepSettles(f: Fan, links: seq<Link>, answers: map<nat, Answer>, want: Wanted)
    requires !f.done && !Sweep(f, links, answers, want).done
    ensures Sweep(f, links, answers, want).pending == Without(f.pending, Decided(links, answers, want.number))
    decreases |links|
  {
    hide Absorb, Drop, Without, Decided, Decisive;
    if links == [] {
      WithoutNone(f.pending);
      NobodyIsDecided(answers, want.number);
    } else {
      DecidedFirst(links, answers, want.number);
      var later := Decided(links[1..], answers, want.number);
      assert {} + later == later;
      if links[0].id in answers {
        var answer := answers[links[0].id];
        AbsorbEnds(f, links[0], answer, want);
        var g := Absorb(f, links[0], answer, want);
        SweepSettles(g, links[1..], answers, want);
        DropIsWithout(f.pending, links[0]);
        WithoutMore(f.pending, {links[0].id}, later);
      } else {
        SweepSettles(f, links[1..], answers, want);
      }
    }
  }

  lemma NobodyIsDecided(answers: map<nat, Answer>, number: nat)
    ensures Decided([], answers, number) == {}
  {
  }

  lemma {:induction false} AllWhenNoneEnds(arrived: seq<(Link, Answer)>, want: Wanted)
    requires !AnyEnds(arrived, want)
    ensures UpToEnd(arrived, want) == arrived
  {
    if arrived != [] {
      assert arrived == [arrived[0]] + arrived[1..];
      AnyOfTwo(arrived[0], arrived[1..], want);
      AllWhenNoneEnds(arrived[1..], want);
    }
  }

  lemma {:induction false} ListenReads(f: Fan, ticks: seq<Tick>, want: Wanted)
    requires !f.done
    ensures Listen(f, ticks, want).taken == f.taken + Heard(f.pending, ticks, want)
    decreases |ticks|
  {
    hide Sweep, UpToEnd, Arrived, AnyEnds, Without, Decided;
    if f.pending != [] && ticks != [] {
      var arrived := Arrived(f.pending, ticks[0].answers);
      var g := Sweep(f, f.pending, ticks[0].answers, want);
      SweepReadsWhatArrived(f, f.pending, ticks[0].answers, want);
      if !g.done {
        AllWhenNoneEnds(arrived, want);
        SweepSettles(f, f.pending, ticks[0].answers, want);
        ListenReads(g, ticks[1..], want);
      }
    }
  }

  /**
   * A round reads exactly the answers that arrive, pass by pass and link by link, of the links that
   * took the request and are not settled yet, until one ends the round: no silent link keeps the
   * others from being heard.
   */
  lemma RoundsReadWhatArrives(targets: seq<Link>, world: World, want: Wanted)
    ensures FanOut(targets, world, want).taken == Heard(Took(targets, world.accepts), world.ticks, want)
  {
    hide Listen, Took, Heard;
    var took := Took(targets, world.accepts);
    ListenReads(Fan(took, [], [], [], false), world.ticks, want);
    assert [] + Heard(took, world.ticks, want) == Heard(took, world.ticks, want);
  }

  lemma {:induction false} ListenSettles(f: Fan, ticks: seq<Tick>, want: Wanted, l: Link, i: nat)
    requires !f.done && !Listen(f, ticks, want).done && i < |ticks|
    requires l.id in ticks[i].answers && Decisive(ticks[i].answers[l.id], want.number)
    ensures l !in Listen(f, ticks, want).pending
    decreases |ticks|
  {
    hide Sweep, Without, Decisive;
    if f.pending != [] {
      var g := Sweep(f, f.pending, ticks[0].answers, want);
      if !g.done {
        SweepSettles(f, f.pending, ticks[0].answers, want);
        if i > 0 {
          ListenSettles(g, ticks[1..], want, l, i - 1);
        } else {
          ListenLoses(g, ticks[1..], want, l);
        }
      }
    }
  }

  lemma {:induction false} ListenLoses(f: Fan, ticks: seq<Tick>, want: Wanted, l: Link)
    requires !f.done && !Listen(f, ticks, want).done && l !in f.pending
    ensures l !in Listen(f, ticks, want).pending
    decreases |ticks|
  {
    hide Sweep, Without, Decided;
    if f.pending != [] && ticks != [] {
      var g := Sweep(f, f.pending, ticks[0].answers, want);
      if !g.done {
        SweepSettles(f, f.pending, ticks[0].answers, want);
        ListenLoses(g, ticks[1..], want, l);
      }
    }
  }

  /** In a round that no answer ended, a link with a decisive answer in any pass is not pending at the end. */
  lemma DecisiveAnswersSettle(targets: seq<Link>, world: World, want: Wanted, l: Link, i: nat)
    requires !FanOut(targets, world, want).done && i < |world.ticks|
    requires l.id in world.ticks[i].answers && Decisive(world.ticks[i].answers[l.id], want.number)
    ensures l !in FanOut(targets, world, want).pending
  {
    ListenSettles(Fan(Took(targets, world.accepts), [], [], [], false), world.ticks, want, l, i);
  }

  // ---- Every order of answers ---------------------------------------------------------------

  lemma {:induction false} TookThoseThatAccept(targets: seq<Link>, accepts: set<nat>)
    ensures forall l :: l in Took(targets, accepts) <==> l in targets && l.id in accepts
  {
    if targets != [] {
      TookThoseThatAccept(targets[1..], accepts);
      assert targets == [targets[0]] + targets[1..];
    }
  }

  lemma {:induction false} TookIsDistinct(targets: seq<Link>, accepts: set<nat>)
    requires DistinctIds(targets)
    ensures DistinctIds(Took(targets, accepts))
  {
    if targets != [] {
      TookIsDistinct(targets[1..], accepts);
      TookThoseThatAccept(targets[1..], accepts);
      var later := Took(targets[1..], accepts);
      forall j | 0 <= j < |later|
        ensures later[j].id != targets[0].id
      {
        assert later[j] in targets[1..];
      }
    }
  }

  /**
   * Every link that took the request ends as exactly one of winner, failure or still pending,
   * whatever arrives in whatever order; the winners and failures are exactly the decisive
   * answers read, and a round that does not wait reads nothing after its only win.
   */
  lemma FanOutConserves(targets: seq<Link>, world: World, want: Wanted)
    requires DistinctIds(targets)
    ensures FanInvariant(FanOut(targets, world, want), Took(targets, world.accepts), want)
  {
    TookIsDistinct(targets, world.accepts);
    ListenKeeps(Fan(Took(targets, world.accepts), [], [], [], false), Took(targets, world.accepts), world.ticks, want);
  }

  lemma CountsAddUp(f: Fan, took: seq<Link>)
    requires Conserves(f, took)
    ensures |f.wins| + |f.failed| + |f.pending| == |took|
  {
    assert |multiset(f.pending) + multiset(Links(f.wins)) + multiset(Links(f.failed))| == |multiset(took)|;
  }

  // ---- The whole request --------------------------------------------------------------

  predicate NoCredentials(error: seq<byte>) {
    error != [] && error[0] == NO_CREDENTIALS
  }

  function Payloads(replies: seq<Reply>): (payloads: seq<seq<byte>>)
    ensures |payloads| == |replies|
    ensures forall i :: 0 <= i < |replies| ==> payloads[i] == replies[i].1
  {
    seq(|replies|, i requires 0 <= i < |replies| => replies[i].1)
  }

  function FirstOther(errors: seq<seq<byte>>): Option<seq<byte>> {
    if errors == [] then None
    else if !NoCredentials(errors[0]) then Some(errors[0])
    else FirstOther(errors[1..])
  }

  /** The reply when nobody succeeded. */
  function FinalError(errors: seq<seq<byte>>): seq<byte> {
    match FirstOther(errors)
    case Some(e) => e
    case None => if errors == [] then [OTHER] else errors[0]
  }

  lemma {:induction false} FirstOtherIsOther(errors: seq<seq<byte>>)
    ensures FirstOther(errors).None? <==> forall e <- errors :: NoCredentials(e)
    ensures FirstOther(errors).Some? ==> FirstOther(errors).value in errors && !NoCredentials(FirstOther(errors).value)
  {
    if errors != [] {
      FirstOtherIsOther(errors[1..]);
      assert errors == [errors[0]] + errors[1..];
    }
  }

  /** NO_CREDENTIALS is the reply exactly when there were errors and every one of them was that. */
  lemma NoCredentialsIsUnanimous(errors: seq<seq<byte>>)
    ensures NoCredentials(FinalError(errors)) <==> errors != [] && forall e <- errors :: NoCredentials(e)
    ensures errors != [] ==> FinalError(errors) in errors
  {
    FirstOtherIsOther(errors);
  }

  /** The first error that is not NO_CREDENTIALS stands at `k`. */
  predicate OtherAt(errors: seq<seq<byte>>, k: int) {
    0 <= k < |errors| && !NoCredentials(errors[k]) && forall i :: 0 <= i < k ==> NoCredentials(errors[i])
  }

  /** Without errors the reply is OTHER; else it is the first that is not NO_CREDENTIALS, or else the first. */
  lemma {:induction false} FinalErrorIsTheFirst(errors: seq<seq<byte>>)
    ensures errors == [] ==> FinalError(errors) == [OTHER]
    ensures forall k :: OtherAt(errors, k) ==> FinalError(errors) == errors[k]
    ensures errors != [] && (forall e <- errors :: NoCredentials(e)) ==> FinalError(errors) == errors[0]
  {
    hide NoCredentials;
    FirstOtherIsOther(errors);
    if errors != [] && NoCredentials(errors[0]) {
      var rest := errors[1..];
      FinalErrorIsTheFirst(rest);
      FirstOtherIsOther(rest);
      forall k | OtherAt(errors, k)
        ensures FinalError(errors) == errors[k]
      {
        assert rest[k - 1] == errors[k];
        assert forall i :: 0 <= i < k - 1 ==> rest[i] == errors[i + 1];
        assert OtherAt(rest, k - 1);
      }
    }
  }

  /** The rounds that ran and the reply they led to. */
  datatype Verdict = Verdict(reply: seq<byte>, fans: seq<Fan>)

  function Ask(rounds: seq<seq<Link>>, worlds: seq<World>, want: Wanted, errors: seq<seq<byte>>): Verdict
    requires |worlds| == |rounds|
  {
    if rounds == [] then Verdict(FinalError(errors), [])
    else if rounds[0] == [] then Ask(rounds[1..], worlds[1..], want, errors)
    else
      var fan := FanOut(rounds[0], worlds[0], want);
      var failures := Payloads(fan.failed);
      if fan.wins != [] then Verdict(fan.wins[0].1, [fan])
      else if exists e <- failures :: !NoCredentials(e) then Verdict(FinalError(errors + failures), [fan])
      else
        var later := Ask(rounds[1..], worlds[1..], want, errors + failures);
        Verdict(later.reply, [fan] + later.fans)
  }

  function AllFailures(fans: seq<Fan>): seq<seq<byte>> {
    if fans == [] then [] else Payloads(fans[0].failed) + AllFailures(fans[1..])
  }

  function AllWins(fans: seq<Fan>): seq<Reply> {
    if fans == [] then [] else fans[0].wins + AllWins(fans[1..])
  }

  /**
   * A later round runs only when nobody won and every failure so far was NO_CREDENTIALS; the
   * reply is the first win if there is one, and otherwise sums up all failures of all rounds.
   */
  lemma {:induction false} VerdictIsFair(rounds: seq<seq<Link>>, worlds: seq<World>, want: Wanted,
                                         errors: seq<seq<byte>>)
    requires |worlds| == |rounds|
    ensures var v := Ask(rounds, worlds, want, errors);
            && (forall i :: 0 <= i < |v.fans| - 1 ==>
                  v.fans[i].wins == [] && forall e <- Payloads(v.fans[i].failed) :: NoCredentials(e))
            && v.reply == (if AllWins(v.fans) != [] then AllWins(v.fans)[0].1
                           else FinalError(errors + AllFailures(v.fans)))
    decreases |rounds|
  {
    if rounds == [] {
      assert errors + [] == errors;
    } else if rounds[0] == [] {
      VerdictIsFair(rounds[1..], worlds[1..], want, errors);
    } else {
      var fan := FanOut(rounds[0], worlds[0], want);
      var failures := Payloads(fan.failed);
      VerdictIsFair(rounds[1..], worlds[1..], want, errors + failures);
      var v := Ask(rounds, worlds, want, errors);
      assert v.fans[1..] == [] ==> AllFailures(v.fans) == failures;
      if |v.fans| > 1 || (fan.wins == [] && forall e <- failures :: NoCredentials(e)) {
        var later := Ask(rounds[1..], worlds[1..], want, errors + failures);
        assert v.fans == [fan] + later.fans;
        assert v.fans[1..] == later.fans;
        assert errors + (failures + AllFailures(later.fans)) == (errors + failures) + AllFailures(later.fans);
      }
    }
  }

  /** The rounds that have somebody to ask, each with its world. */
  function Busy(rounds: seq<seq<Link>>, worlds: seq<World>): seq<(seq<Link>, World)>
    requires |worlds| == |rounds|
  {
    if rounds == [] then []
    else (if rounds[0] == [] then [] else [(rounds[0], worlds[0])]) + Busy(rounds[1..], worlds[1..])
  }

  /** A round after which no other one runs: somebody won, or failed with more than NO_CREDENTIALS. */
  predicate Settles(f: Fan) {
    f.wins != [] || exists e <- Payloads(f.failed) :: !NoCredentials(e)
  }

  predicate InTurn(fans: seq<Fan>, busy: seq<(seq<Link>, World)>, want: Wanted) {
    && |fans| <= |busy|
    && (forall i :: 0 <= i < |fans| ==> fans[i] == FanOut(busy[i].0, busy[i].1, want))
    && (|fans| < |busy| ==> fans != [] && Settles(fans[|fans| - 1]))
  }

  lemma OneRoundFirst(fans: seq<Fan>, busy: seq<(seq<Link>, World)>, want: Wanted, round: (seq<Link>, World))
    requires Settles(FanOut(round.0, round.1, want)) || InTurn(fans, busy, want)
    ensures var fan := FanOut(round.0, round.1, want);
            InTurn(if Settles(fan) then [fan] else [fan] + fans, [round] + busy, want)
  {
    hide FanOut, Settles;
    var fan := FanOut(round.0, round.1, want);
    assert ([round] + busy)[1..] == busy && |[fan] + fans| == 1 + |fans|;
  }

  /** The planned rounds run in their order, and one is left out only after a round that settles the request. */
  lemma {:induction false} RoundsRunInTurn(
      rounds: seq<seq<Link>>, worlds: seq<World>, want: Wanted, errors: seq<seq<byte>>)
    requires |worlds| == |rounds|
    ensures InTurn(Ask(rounds, worlds, want, errors).fans, Busy(rounds, worlds), want)
    decreases |rounds|
  {
    hide FanOut, NoCredentials, FinalError, InTurn;
    if rounds == [] {
      NoRounds(want);
    } else {
      var later := Busy(rounds[1..], worlds[1..]);
      if rounds[0] == [] {
        assert [] + later == later;
        RoundsRunInTurn(rounds[1..], worlds[1..], want, errors);
      } else {
        var errors' := errors + Payloads(FanOut(rounds[0], worlds[0], want).failed);
        RoundsRunInTurn(rounds[1..], worlds[1..], want, errors');
        OneRoundFirst(Ask(rounds[1..], worlds[1..], want, errors').fans, later, want, (rounds[0], worlds[0]));
      }
    }
  }

  lemma NoRounds(want: Wanted)
    ensures InTurn([], [], want)
  {
  }
}
