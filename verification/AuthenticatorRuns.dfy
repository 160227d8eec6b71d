/**
 * What the authenticator keeps over whole runs of commands: the store's invariant, counters that
 * only rise, approvals that cover every flag, and sign-ins that list a site's accounts in order.
 */
module AuthenticatorRuns {
  import opened Bytes
  import opened CborDecode
  import opened Probe
  import opened Authenticator

  datatype Input = Input(request: seq<byte>, owner: Option<nat>, env: Env)

  /** A command as it went: what came in, the store it met, what the user answered, what it returned. */
  datatype Record = Record(input: Input, before: Store, asked: Option<int>, reply: Reply)

  /** `used` are the identifiers that were ever given out. */
  datatype World = World(auth: State, log: seq<Record>, used: set<Id>)

  /** A store holds at most one discoverable key for each site and account. */
  predicate OnePerAccount(store: Store) {
    forall i, j :: i in store && j in store && i != j && store[i].rk && store[j].rk && store[i].rp == store[j].rp
      ==> store[i].uid != store[j].uid
  }

  predicate PendingHeld(s: State) {
    NoRepeats(s.pending) && forall id <- s.pending :: id in s.store && s.store[id].rp == s.rp
  }

  predicate CountersKnown(store: Store, log: seq<Record>, used: set<Id>) {
    forall r <- log :: r.reply.Asserted? ==>
      r.reply.assertion.id in used
      && (r.reply.assertion.id in store ==> r.reply.assertion.counter <= store[r.reply.assertion.id].n)
  }

  // ---- Sign-ins ---------------------------------------------------------------------------------

  /** The parameters of a readable getAssertion. */
  function SignIn(request: seq<byte>, utf8: Decoder): Option<GetArgs> {
    if request == [] || request[0] != GET_ASSERTION then None else
      match Parameters(request, utf8)
      case Good(Some(p)) => (match ReadGet(p) case Good(args) => Some(args) case Bad(_) => None)
      case _ => None
  }

  /** The accounts of the site when the record's command met the store, newest first. */
  ghost function Listing(r: Record, rp: seq<byte>): seq<Id>
    requires Lists(r.input.env.order, r.before)
  {
    Discovered(r.before, rp, r.input.env.order)
  }

  /** A getAssertion without an allow list that found something and was approved if it had to be. */
  ghost predicate Opens(r: Record, args: GetArgs, utf8: Decoder) {
    && SignIn(r.input.request, utf8) == Some(args) && args.allow == []
    && Lists(r.input.env.order, r.before) && Listing(r, args.rp) != []
    && (args.up || args.uv ==> r.asked == Some(OK))
  }

  function Deadline(r: Record): int {
    r.input.env.later + KEPT
  }

  /** An empty request, or a getNextAssertion of the same connection in time. */
  predicate Stays(r: Record, first: Record) {
    r.input.request == []
    || (r.input.request[0] == GET_NEXT_ASSERTION && r.input.owner == first.input.owner
        && r.input.env.now <= Deadline(first))
  }

  /** It used up one account, whether or not the key then signed. */
  predicate Took(r: Record) {
    r.input.request != [] && (r.reply.Asserted? || r.reply == Status(ERR_OTHER))
  }

  function Taken(log: seq<Record>): nat {
    if log == [] then 0 else Taken(log[..|log| - 1]) + (if Took(log[|log| - 1]) then 1 else 0)
  }

  /** Record `j` opened a sign-in that nothing has ended since. */
  ghost predicate StillOpen(log: seq<Record>, j: nat, args: GetArgs, utf8: Decoder) {
    && j < |log| && Opens(log[j], args, utf8)
    && (forall i :: j < i < |log| ==> Stays(log[i], log[j]))
  }

  /** The sign-in that record `j` opened is still going on, with these accounts left. */
  ghost predicate Session(s: State, log: seq<Record>, j: nat, args: GetArgs, utf8: Decoder) {
    && StillOpen(log, j, args, utf8)
    && s.owner == log[j].input.owner && s.until == Deadline(log[j])
    && s.rp == args.rp && s.hash == args.hash && s.flags == FlagsFor(args.up, args.uv)
    && 1 + Taken(log[j + 1..]) <= |Listing(log[j], args.rp)|
    && s.pending == Listing(log[j], args.rp)[1 + Taken(log[j + 1..])..]
  }

  ghost predicate InSession(s: State, log: seq<Record>, utf8: Decoder) {
    s.pending == [] || exists j: nat, args: GetArgs :: Session(s, log, j, args, utf8)
  }

  /** Conversely, every sign-in that is still open is the one going on. */
  ghost predicate NoOtherSession(s: State, log: seq<Record>, utf8: Decoder) {
    forall j: nat, args: GetArgs :: StillOpen(log, j, args, utf8) ==> Session(s, log, j, args, utf8)
  }

  // ---- The invariant ------------------------------------------------------------------------------

  ghost predicate Sound(w: World, utf8: Decoder) {
    && w.auth.store.Keys <= w.used
    && OnePerAccount(w.auth.store)
    && PendingHeld(w.auth)
    && CountersKnown(w.auth.store, w.log, w.used)
    && InSession(w.auth, w.log, utf8)
    && NoOtherSession(w.auth, w.log, utf8)
  }

  /** The listing order is one of the store's, and the identifier was never given out. */
  ghost predicate Proper(w: World, x: Input) {
    Lists(x.env.order, w.auth.store) && x.env.newId !in w.used
  }

  ghost function Result(w: World, x: Input, utf8: Decoder): Outcome
    requires Held(w.auth) && Proper(w, x)
  {
    Handle(w.auth, x.request, x.owner, x.env, utf8)
  }

  ghost function RecordOf(w: World, x: Input, utf8: Decoder): Record
    requires Held(w.auth) && Proper(w, x)
  {
    Record(x, w.auth.store, Result(w, x, utf8).asked, Result(w, x, utf8).reply)
  }

  ghost function After(w: World, x: Input, utf8: Decoder): World
    requires Held(w.auth) && Proper(w, x)
  {
    World(Result(w, x, utf8).state, w.log + [RecordOf(w, x, utf8)], w.used + {x.env.newId})
  }

  // ---- What one command does to the store -----------------------------------------------------------

  datatype Kind = Nothing | Counting(id: Id) | Making(made: Credential, stored: bool)

  function Rest(store: Store, c: Credential): Store {
    if c.rk then Replaced(store, c.rp, c.uid) else store
  }

  ghost predicate Effect(store: Store, d: Outcome, newId: Id, kind: Kind) {
    match kind
    case Nothing => d.state.store == store && !d.reply.Asserted?
    case Counting(id) =>
      id in store && d.state.store == Counted(store, id)
      && (d.reply.Asserted? ==> d.reply.assertion.id == id && d.reply.assertion.counter == store[id].n + 1)
    case Making(c, stored) =>
      c.n == 0 && !d.reply.Asserted?
      && d.state.store == (if stored then Rest(store, c)[newId := c] else Rest(store, c))
  }

  lemma GettingHasAnEffect(s: State, args: GetArgs, env: Env) returns (kind: Kind)
    requires Lists(env.order, s.store)
    ensures Effect(s.store, GetAssertion(s, args, env), env.newId, kind)
  {
    kind := Nothing;
    HitsAreHeld(s.store, args, env.order);
    var hits := Hits(s.store, args, env.order);
    if hits.Good? && hits.value != [] && !((args.up || args.uv) && env.answer != OK) {
      kind := Counting(hits.value[0]);
    }
  }

  lemma MakingHasAnEffect(s: State, args: MakeArgs, env: Env) returns (kind: Kind)
    ensures Effect(s.store, MakeCredential(s, args, env), env.newId, kind)
  {
    kind := Nothing;
    if Excluded(s.store, args.rp, args.exclude) == Good(false) && args.rp.Some? && env.answer == OK {
      var uid := AsBinary(Get(args.user, ID));
      if !(args.rk && uid.Bad?) {
        var c := Credential(args.rp.value, if uid.Bad? then [] else OrEmpty(uid.value),
                            TextOr(Get(args.user, NAME), []),
                            TextOr(Get(args.user, DISPLAY_NAME), []), args.rk, 0, env.later);
        kind := Making(c, env.generates && uid.Good?);
      }
    }
  }

  lemma EveryCommandHasAnEffect(s: State, request: seq<byte>, owner: Option<nat>, env: Env, utf8: Decoder)
      returns (kind: Kind)
    requires Held(s) && Lists(env.order, s.store)
    ensures Effect(s.store, Handle(s, request, owner, env, utf8), env.newId, kind)
  {
    hide GetAssertion, MakeCredential, ReadGet, ReadMake, Parameters;
    kind := Nothing;
    if request != [] && Parameters(request, utf8).Good? {
      var e := Entered(s, request[0], owner, env.now);
      var p := Parameters(request, utf8).value;
      if request[0] == MAKE_CREDENTIAL && p.Some? && ReadMake(p.value).Good? {
        kind := MakingHasAnEffect(e, ReadMake(p.value).value, env);
      } else if request[0] == GET_ASSERTION && p.Some? && ReadGet(p.value).Good? {
        kind := GettingHasAnEffect(e, ReadGet(p.value).value, env);
      } else if request[0] == GET_NEXT_ASSERTION && e.pending != [] {
        kind := Counting(e.pending[0]);
      }
    }
  }

  lemma StoreStaysSound(store: Store, d: Outcome, newId: Id, kind: Kind, used: set<Id>)
    requires OnePerAccount(store) && store.Keys <= used && newId !in used
    requires Effect(store, d, newId, kind)
    ensures OnePerAccount(d.state.store) && d.state.store.Keys <= used + {newId}
  {
  }

  lemma CountersStayKnown(store: Store, log: seq<Record>, used: set<Id>, r: Record, d: Outcome, newId: Id, kind: Kind)
    requires CountersKnown(store, log, used) && store.Keys <= used && newId !in used
    requires Effect(store, d, newId, kind) && r.reply == d.reply
    ensures CountersKnown(d.state.store, log + [r], used + {newId})
  {
    forall q | q in log + [r] && q.reply.Asserted?
      ensures q.reply.assertion.id in used
      ensures q.reply.assertion.id in d.state.store ==>
              q.reply.assertion.counter <= d.state.store[q.reply.assertion.id].n
    {
      assert q in log || q == r;
    }
  }

  // ---- What one command does to the accounts that are left --------------------------------------------

  /** What a readable getAssertion that opens a sign-in leaves. */
  lemma OpeningStartsASession(s: State, args: GetArgs, env: Env)
    requires Lists(env.order, s.store) && s.pending == []
    ensures
      var d := GetAssertion(s, args, env);
      && PendingHeld(d.state) && d.state.owner == s.owner
      && (d.state.pending != [] ==>
            && args.allow == [] && Discovered(s.store, args.rp, env.order) != []
            && (args.up || args.uv ==> d.asked == Some(OK))
            && d.state.pending == Discovered(s.store, args.rp, env.order)[1..]
            && d.state.rp == args.rp && d.state.hash == args.hash && d.state.flags == FlagsFor(args.up, args.uv)
            && d.state.until == env.later + KEPT)
  {
    hide Discovered, Allowed;
    HitsAreHeld(s.store, args, env.order);
  }

  lemma NextShortensTheList(s: State, env: Env)
    requires PendingHeld(s)
    ensures
      var d := GetNextAssertion(s, env);
      && PendingHeld(d.state) && d.state == s.(store := d.state.store, pending := d.state.pending)
      && d.asked == None
      && d.state.pending == (if s.pending == [] then [] else s.pending[1..])
      && (s.pending == [] ==> d.reply == Status(ERR_NOT_ALLOWED))
      && (s.pending != [] ==>
            d.reply == Status(ERR_OTHER)
            || (d.reply.Asserted? && d.reply.assertion.id == s.pending[0] && d.reply.assertion.rp == s.rp
                && d.reply.assertion.hash == s.hash && d.reply.assertion.flags == s.flags))
      && (s.pending != [] && env.signs ==> d.reply.Asserted?)
  {
  }

  lemma MakingLeavesNothing(s: State, args: MakeArgs, env: Env)
    requires s.pending == []
    ensures var d := MakeCredential(s, args, env); d.state == s.(store := d.state.store) && !d.reply.Asserted?
  {
  }

  lemma {:induction false} TakenSnoc(log: seq<Record>, r: Record)
    ensures Taken(log + [r]) == Taken(log) + (if Took(r) then 1 else 0)
  {
    assert (log + [r])[..|log|] == log;
  }

  /** A record that stays in the session, with as many accounts used up as it took. */
  lemma SessionGoesOn(s: State, t: State, log: seq<Record>, j: nat, args: GetArgs, r: Record, utf8: Decoder)
    requires Session(s, log, j, args, utf8) && Stays(r, log[j]) && (Took(r) ==> s.pending != [])
    requires t.owner == s.owner && t.until == s.until && t.rp == s.rp && t.hash == s.hash && t.flags == s.flags
    requires t.pending == if Took(r) then s.pending[1..] else s.pending
    ensures Session(t, log + [r], j, args, utf8)
  {
    hide Listing, Opens, Taken, Took, Stays, FlagsFor;
    TakenSnoc(log[j + 1..], r);
    var more := log + [r];
    assert more[j + 1..] == log[j + 1..] + [r] && more[j] == log[j];
    forall i | j < i < |more|
      ensures Stays(more[i], more[j])
    {
      assert i < |log| ==> more[i] == log[i];
    }
  }

  lemma SessionStarts(t: State, log: seq<Record>, r: Record, args: GetArgs, utf8: Decoder)
    requires Opens(r, args, utf8)
    requires t.owner == r.input.owner && t.until == Deadline(r)
    requires t.rp == args.rp && t.hash == args.hash && t.flags == FlagsFor(args.up, args.uv)
    requires t.pending == Listing(r, args.rp)[1..]
    ensures Session(t, log + [r], |log|, args, utf8)
  {
    assert (log + [r])[|log| + 1..] == [];
  }

  lemma PendingStaysHeld(s: State, request: seq<byte>, owner: Option<nat>, env: Env, utf8: Decoder)
    requires PendingHeld(s) && Lists(env.order, s.store)
    ensures PendingHeld(Handle(s, request, owner, env, utf8).state)
  {
    hide ReadGet, ReadMake, Parameters, GetAssertion, MakeCredential, GetNextAssertion;
    if request != [] && Parameters(request, utf8).Good? {
      var e := Entered(s, request[0], owner, env.now);
      var p := Parameters(request, utf8).value;
      if request[0] == MAKE_CREDENTIAL && p.Some? && ReadMake(p.value).Good? {
        MakingLeavesNothing(e, ReadMake(p.value).value, env);
      } else if request[0] == GET_ASSERTION && p.Some? && ReadGet(p.value).Good? {
        OpeningStartsASession(e, ReadGet(p.value).value, env);
      } else if request[0] == GET_NEXT_ASSERTION {
        NextShortensTheList(e, env);
      }
    }
  }

  lemma OneSessionStays(w: World, x: Input, j: nat, args: GetArgs, utf8: Decoder)
    requires PendingHeld(w.auth) && Proper(w, x) && Session(w.auth, w.log, j, args, utf8)
    requires x.request == [] || Continues(w.auth, x.request[0], x.owner, x.env.now)
    ensures Session(Result(w, x, utf8).state, w.log + [RecordOf(w, x, utf8)], j, args, utf8)
  {
    hide ReadGet, ReadMake, Parameters, GetAssertion, MakeCredential, GetNextAssertion, Opens;
    var r, t := RecordOf(w, x, utf8), Result(w, x, utf8).state;
    assert Stays(r, w.log[j]);
    if x.request != [] && Parameters(x.request, utf8).Good? {
      NextShortensTheList(Entered(w.auth, x.request[0], x.owner, x.env.now), x.env);
    } else if x.request != [] {
      UnreadableIsInvalid(x.request, utf8);
    }
    SessionGoesOn(w.auth, t, w.log, j, args, r, utf8);
  }

  lemma SessionStays(w: World, x: Input, utf8: Decoder)
    requires PendingHeld(w.auth) && Proper(w, x) && InSession(w.auth, w.log, utf8)
    requires x.request == [] || Continues(w.auth, x.request[0], x.owner, x.env.now)
    ensures InSession(Result(w, x, utf8).state, w.log + [RecordOf(w, x, utf8)], utf8)
  {
    hide ReadGet, ReadMake, Parameters, GetAssertion, MakeCredential, GetNextAssertion, Session;
    if w.auth.pending != [] {
      var j: nat, args: GetArgs :| Session(w.auth, w.log, j, args, utf8);
      OneSessionStays(w, x, j, args, utf8);
    } else if x.request != [] {
      NextShortensTheList(Entered(w.auth, x.request[0], x.owner, x.env.now), x.env);
    }
  }

  /** A sign-in that opens is the one going on. */
  lemma OpenedIsGoingOn(w: World, x: Input, args: GetArgs, utf8: Decoder)
    requires Held(w.auth) && Proper(w, x) && Opens(RecordOf(w, x, utf8), args, utf8)
    ensures Session(Result(w, x, utf8).state, w.log + [RecordOf(w, x, utf8)], |w.log|, args, utf8)
  {
    hide Discovered, Parameters, ReadGet, FlagsFor, Taken, Took;
    var r, t := RecordOf(w, x, utf8), Result(w, x, utf8).state;
    OpeningIsKept(Entered(w.auth, x.request[0], x.owner, x.env.now), args, x.env);
    SessionStarts(t, w.log, r, args, utf8);
  }

  lemma OpeningIsKept(s: State, args: GetArgs, env: Env)
    requires Lists(env.order, s.store) && args.allow == [] && Discovered(s.store, args.rp, env.order) != []
    ensures
      var d := GetAssertion(s, args, env);
      (args.up || args.uv ==> d.asked == Some(OK)) ==>
        && d.state.pending == Discovered(s.store, args.rp, env.order)[1..]
        && d.state.rp == args.rp && d.state.hash == args.hash && d.state.flags == FlagsFor(args.up, args.uv)
        && d.state.until == env.later + KEPT && d.state.owner == s.owner
  {
    hide Discovered, FlagsFor;
  }

  lemma OpenSessionsGoOn(w: World, x: Input, utf8: Decoder)
    requires PendingHeld(w.auth) && Held(w.auth) && Proper(w, x) && NoOtherSession(w.auth, w.log, utf8)
    ensures NoOtherSession(Result(w, x, utf8).state, w.log + [RecordOf(w, x, utf8)], utf8)
  {
    hide Handle, Opens, Listing, Taken, FlagsFor;
    var r, t := RecordOf(w, x, utf8), Result(w, x, utf8).state;
    var more := w.log + [r];
    forall j: nat, args: GetArgs | StillOpen(more, j, args, utf8)
      ensures Session(t, more, j, args, utf8)
    {
      if j == |w.log| {
        OpenedIsGoingOn(w, x, args, utf8);
      } else {
        assert more[j] == w.log[j] && Stays(more[|w.log|], more[j]);
        assert StillOpen(w.log, j, args, utf8) by {
          assert forall i :: j < i < |w.log| ==> more[i] == w.log[i];
        }
        assert Session(w.auth, w.log, j, args, utf8);
        OneSessionStays(w, x, j, args, utf8);
      }
    }
  }

  lemma UnreadableIsInvalid(request: seq<byte>, utf8: Decoder)
    ensures Parameters(request, utf8).Bad? ==> Parameters(request, utf8).status == ERR_INVALID_CBOR
  {
  }

  lemma SessionIsReplaced(w: World, x: Input, utf8: Decoder)
    requires PendingHeld(w.auth) && Proper(w, x)
    requires x.request != [] && !Continues(w.auth, x.request[0], x.owner, x.env.now)
    ensures InSession(Result(w, x, utf8).state, w.log + [RecordOf(w, x, utf8)], utf8)
  {
    hide ReadGet, ReadMake, Parameters, GetAssertion, MakeCredential, GetNextAssertion;
    var r, t := RecordOf(w, x, utf8), Result(w, x, utf8).state;
    var e := Entered(w.auth, x.request[0], x.owner, x.env.now);
    if Parameters(x.request, utf8).Good? {
      var p := Parameters(x.request, utf8).value;
      if x.request[0] == MAKE_CREDENTIAL && p.Some? && ReadMake(p.value).Good? {
        MakingLeavesNothing(e, ReadMake(p.value).value, x.env);
      } else if x.request[0] == GET_ASSERTION && p.Some? && ReadGet(p.value).Good? {
        var args := ReadGet(p.value).value;
        OpeningStartsASession(e, args, x.env);
        if t.pending != [] {
          SessionStarts(t, w.log, r, args, utf8);
        }
      } else if x.request[0] == GET_NEXT_ASSERTION {
        NextShortensTheList(e, x.env);
      }
    }
  }

  /** Every command keeps the invariant. */
  lemma SoundKept(w: World, x: Input, utf8: Decoder)
    requires Sound(w, utf8) && Proper(w, x)
    ensures Sound(After(w, x, utf8), utf8)
  {
    hide Handle, InSession, NoOtherSession, CountersKnown, OnePerAccount;
    var kind := EveryCommandHasAnEffect(w.auth, x.request, x.owner, x.env, utf8);
    OpenSessionsGoOn(w, x, utf8);
    StoreStaysSound(w.auth.store, Result(w, x, utf8), x.env.newId, kind, w.used);
    CountersStayKnown(w.auth.store, w.log, w.used, RecordOf(w, x, utf8), Result(w, x, utf8), x.env.newId, kind);
    PendingStaysHeld(w.auth, x.request, x.owner, x.env, utf8);
    if x.request == [] || Continues(w.auth, x.request[0], x.owner, x.env.now) {
      SessionStays(w, x, utf8);
    } else {
      SessionIsReplaced(w, x, utf8);
    }
  }

  // ---- What every assertion rests on --------------------------------------------------------------------

  /** The user approved a sign-in to this site with this hash. */
  ghost predicate Approved(r: Record, rp: seq<byte>, hash: seq<byte>, utf8: Decoder) {
    var args := SignIn(r.input.request, utf8);
    args.Some? && args.value.rp == rp && args.value.hash == hash && r.asked == Some(OK)
  }

  /** Non-zero flags rest on an approval of this command, or of an earlier one by the same connection. */
  ghost predicate Covered(log: seq<Record>, r: Record, utf8: Decoder) {
    r.reply.Asserted? && r.reply.assertion.flags != 0 ==>
      var a := r.reply.assertion;
      Approved(r, a.rp, a.hash, utf8)
      || exists j :: 0 <= j < |log| && Approved(log[j], a.rp, a.hash, utf8) && log[j].input.owner == r.input.owner
  }

  /** It answers with the next account of the sign-in that record `j` opened, in time and undisturbed. */
  ghost predicate Follows(log: seq<Record>, r: Record, j: nat, args: GetArgs, utf8: Decoder)
    requires r.reply.Asserted?
  {
    && j < |log| && Opens(log[j], args, utf8) && r.input.request != [] && Stays(r, log[j])
    && (forall i :: j < i < |log| ==> Stays(log[i], log[j]))
    && 1 + Taken(log[j + 1..]) < |Listing(log[j], args.rp)|
    && var a := r.reply.assertion;
       && a.id == Listing(log[j], args.rp)[1 + Taken(log[j + 1..])]
       && a.rp == args.rp && a.hash == args.hash && a.flags == FlagsFor(args.up, args.uv)
       && a.user.Some? && a.count.None?
  }

  ghost predicate Continued(log: seq<Record>, r: Record, utf8: Decoder) {
    r.reply.Asserted? && r.input.request != [] && r.input.request[0] == GET_NEXT_ASSERTION ==>
      exists j: nat, args: GetArgs :: Follows(log, r, j, args, utf8)
  }

  /** The answer to a getAssertion: the first account found, and how many there are if there are more. */
  ghost predicate First(r: Record, utf8: Decoder) {
    r.reply.Asserted? && r.input.request != [] && r.input.request[0] == GET_ASSERTION ==>
      var args := SignIn(r.input.request, utf8);
      var a := r.reply.assertion;
      && args.Some? && Lists(r.input.env.order, r.before)
      && a.id in r.before && r.before[a.id].rp == args.value.rp
      && a.rp == args.value.rp && a.hash == args.value.hash && a.flags == FlagsFor(args.value.up, args.value.uv)
      && r.asked == (if args.value.up || args.value.uv then Some(OK) else None)
      && (args.value.allow == [] ==>
            var ids := Listing(r, args.value.rp);
            ids != [] && a.id == ids[0] && a.count == if |ids| > 1 then Some(|ids|) else None)
  }

  /** A credential's counter is above every one it showed before. */
  predicate Rises(log: seq<Record>, r: Record) {
    r.reply.Asserted? ==> forall q <- log ::
      q.reply.Asserted? && q.reply.assertion.id == r.reply.assertion.id ==>
          q.reply.assertion.counter < r.reply.assertion.counter
  }

  /**
   * A key is made only with the user's approval and under a new identifier; and a sign-in that
   * wants presence asks the user whether or not there is a key, so asking tells nothing.
   */
  ghost predicate Asks(r: Record, utf8: Decoder) {
    && (r.reply.Created? ==> r.asked == Some(OK) && r.reply.id == r.input.env.newId && r.reply.id !in r.before)
    && var args := SignIn(r.input.request, utf8);
       args.Some? && args.value.up && Lists(r.input.env.order, r.before)
           && Hits(r.before, args.value, r.input.env.order).Good?
       ==> r.asked == Some(r.input.env.answer)
  }

  /** Only two commands make assertions. */
  predicate Asserts(r: Record) {
    r.reply.Asserted? ==>
      r.input.request != [] && (r.input.request[0] == GET_ASSERTION || r.input.request[0] == GET_NEXT_ASSERTION)
  }

  ghost predicate Lawful(log: seq<Record>, r: Record, utf8: Decoder) {
    && Covered(log, r, utf8) && Continued(log, r, utf8) && ServedIff(log, r, utf8)
    && First(r, utf8) && Rises(log, r) && Asks(r, utf8) && Asserts(r)
  }

  lemma OnlyTwoCommandsAssert(w: World, x: Input, utf8: Decoder)
    requires Held(w.auth) && Proper(w, x) && Result(w, x, utf8).reply.Asserted?
    ensures x.request != [] && Parameters(x.request, utf8).Good?
    ensures x.request[0] == GET_NEXT_ASSERTION || (x.request[0] == GET_ASSERTION && SignIn(x.request, utf8).Some?)
  {
    hide ReadGet, ReadMake, Parameters, GetAssertion, MakeCredential, GetNextAssertion;
    if x.request != [] && Parameters(x.request, utf8).Good? {
      var e := Entered(w.auth, x.request[0], x.owner, x.env.now);
      var p := Parameters(x.request, utf8).value;
      if x.request[0] == MAKE_CREDENTIAL && p.Some? && ReadMake(p.value).Good? {
        var kind := MakingHasAnEffect(e, ReadMake(p.value).value, x.env);
        MakingAssertsNothing(e, ReadMake(p.value).value, x.env);
      }
    }
  }

  lemma MakingAssertsNothing(s: State, args: MakeArgs, env: Env)
    ensures !MakeCredential(s, args, env).reply.Asserted?
  {
  }

  lemma GettingAnswersFirst(s: State, args: GetArgs, env: Env)
    requires Lists(env.order, s.store) && GetAssertion(s, args, env).reply.Asserted?
    ensures
      var d := GetAssertion(s, args, env);
      var a := d.reply.assertion;
      && a.id in s.store && s.store[a.id].rp == args.rp
      && a.rp == args.rp && a.hash == args.hash && a.flags == FlagsFor(args.up, args.uv)
      && d.asked == (if args.up || args.uv then Some(OK) else None)
      && (args.allow == [] ==>
            var ids := Discovered(s.store, args.rp, env.order);
            ids != [] && a.id == ids[0] && a.count == if |ids| > 1 then Some(|ids|) else None)
  {
    hide Discovered, Allowed;
    HitsAreHeld(s.store, args, env.order);
  }

  lemma AnswersAreFirst(w: World, x: Input, utf8: Decoder)
    requires Held(w.auth) && Proper(w, x)
    ensures First(RecordOf(w, x, utf8), utf8)
  {
    hide GetAssertion, MakeCredential, GetNextAssertion, ReadMake, ReadGet, Parameters;
    var r := RecordOf(w, x, utf8);
    if r.reply.Asserted? && x.request != [] && x.request[0] == GET_ASSERTION {
      OnlyTwoCommandsAssert(w, x, utf8);
      var e := Entered(w.auth, x.request[0], x.owner, x.env.now);
      GettingAnswersFirst(e, SignIn(x.request, utf8).value, x.env);
    }
  }

  lemma NextAnswers(w: World, x: Input, utf8: Decoder)
    requires PendingHeld(w.auth) && Proper(w, x) && x.request != [] && x.request[0] == GET_NEXT_ASSERTION
    requires Result(w, x, utf8).reply.Asserted?
    ensures
      var a := Result(w, x, utf8).reply.assertion;
      && Continues(w.auth, x.request[0], x.owner, x.env.now) && w.auth.pending != []
      && a.id == w.auth.pending[0] && a.rp == w.auth.rp && a.hash == w.auth.hash && a.flags == w.auth.flags
      && a.user.Some? && a.count.None?
  {
    hide Parameters;
  }

  lemma NextFollowsItsOpening(w: World, x: Input, utf8: Decoder)
    requires Sound(w, utf8) && Proper(w, x)
    ensures Continued(w.log, RecordOf(w, x, utf8), utf8)
  {
    hide Handle, Opens, Taken, Took, Listing, CountersKnown, OnePerAccount, NoOtherSession;
    var r := RecordOf(w, x, utf8);
    if r.reply.Asserted? && x.request != [] && x.request[0] == GET_NEXT_ASSERTION {
      NextAnswers(w, x, utf8);
      var j: nat, args: GetArgs :| Session(w.auth, w.log, j, args, utf8);
      assert Follows(w.log, r, j, args, utf8);
    }
  }

  /** The sign-in that record `j` opened is open and in time for `r`, and has an account left. */
  ghost predicate Offers(log: seq<Record>, r: Record, j: nat, args: GetArgs, utf8: Decoder) {
    && StillOpen(log, j, args, utf8) && Stays(r, log[j])
    && 1 + Taken(log[j + 1..]) < |Listing(log[j], args.rp)|
  }

  /** A readable getNextAssertion is served exactly when the log has a sign-in that offers an account. */
  ghost predicate ServedIff(log: seq<Record>, r: Record, utf8: Decoder) {
    var request := r.input.request;
    request != [] && request[0] == GET_NEXT_ASSERTION && Parameters(request, utf8).Good? && r.input.env.signs ==>
      && (r.reply.Asserted? <==> exists j: nat, args: GetArgs :: Offers(log, r, j, args, utf8))
      && (!r.reply.Asserted? ==> r.reply == Status(ERR_NOT_ALLOWED))
  }

  lemma NextNeedsAnAccount(w: World, x: Input, utf8: Decoder)
    requires PendingHeld(w.auth) && Proper(w, x) && x.env.signs
    requires x.request != [] && x.request[0] == GET_NEXT_ASSERTION && Parameters(x.request, utf8).Good?
    ensures
      var d := Result(w, x, utf8);
      && (d.reply.Asserted? <==>
            w.auth.pending != [] && x.owner == w.auth.owner && x.env.now <= w.auth.until)
      && (!d.reply.Asserted? ==> d.reply == Status(ERR_NOT_ALLOWED))
  {
    hide Parameters;
  }

  /**
   * In every state that a run reaches: a readable getNextAssertion, whose key signs, is served
   * exactly when the log of commands holds a sign-in that is still open and has an account left.
   */
  lemma NextIsServedIff(w: World, x: Input, utf8: Decoder)
    requires Sound(w, utf8) && Proper(w, x)
    ensures ServedIff(w.log, RecordOf(w, x, utf8), utf8)
  {
    hide Handle, Opens, Taken, Took, Listing, CountersKnown, OnePerAccount, Parameters, FlagsFor;
    var r := RecordOf(w, x, utf8);
    if x.request != [] && x.request[0] == GET_NEXT_ASSERTION && Parameters(x.request, utf8).Good? && x.env.signs {
      NextNeedsAnAccount(w, x, utf8);
      if r.reply.Asserted? {
        var j: nat, args: GetArgs :| Session(w.auth, w.log, j, args, utf8);
        assert Offers(w.log, r, j, args, utf8);
      }
    }
  }

  lemma FlagsAreCovered(w: World, x: Input, utf8: Decoder)
    requires Sound(w, utf8) && Proper(w, x)
    ensures Covered(w.log, RecordOf(w, x, utf8), utf8)
  {
    hide Handle, Taken, Took, Discovered, Parameters, ReadGet, CountersKnown, OnePerAccount, NoOtherSession;
    var r := RecordOf(w, x, utf8);
    if r.reply.Asserted? && r.reply.assertion.flags != 0 {
      OnlyTwoCommandsAssert(w, x, utf8);
      if x.request[0] == GET_ASSERTION {
        AnswersAreFirst(w, x, utf8);
      } else {
        NextFollowsItsOpening(w, x, utf8);
        var j: nat, args: GetArgs :| Follows(w.log, r, j, args, utf8);
        assert Approved(w.log[j], args.rp, args.hash, utf8);
      }
    }
  }

  lemma CountersRise(w: World, x: Input, utf8: Decoder)
    requires Sound(w, utf8) && Proper(w, x)
    ensures Rises(w.log, RecordOf(w, x, utf8))
  {
    hide Handle, InSession, NoOtherSession, OnePerAccount;
    var kind := EveryCommandHasAnEffect(w.auth, x.request, x.owner, x.env, utf8);
  }

  lemma SoundMeansHeld(w: World, utf8: Decoder)
    requires Sound(w, utf8)
    ensures PendingHeld(w.auth) && Held(w.auth)
  {
  }

  lemma CreationIsApproved(s: State, args: MakeArgs, env: Env)
    ensures var d := MakeCredential(s, args, env); d.reply.Created? ==> d.asked == Some(OK) && d.reply.id == env.newId
  {
  }

  lemma SignInsAsk(s: State, args: GetArgs, env: Env)
    requires Lists(env.order, s.store)
    ensures var d := GetAssertion(s, args, env);
            !d.reply.Created? && (args.up && Hits(s.store, args, env.order).Good? ==> d.asked == Some(env.answer))
  {
    hide Hits;
    HitsAreHeld(s.store, args, env.order);
  }

  lemma CommandsAsk(w: World, x: Input, utf8: Decoder)
    requires Sound(w, utf8) && Proper(w, x)
    ensures Asks(RecordOf(w, x, utf8), utf8)
  {
    SoundMeansHeld(w, utf8);
    hide Sound, Hits, ReadGet, ReadMake, Parameters, GetAssertion, MakeCredential;
    if x.request != [] && Parameters(x.request, utf8).Good? {
      var e := Entered(w.auth, x.request[0], x.owner, x.env.now);
      var p := Parameters(x.request, utf8).value;
      if x.request[0] == MAKE_CREDENTIAL && p.Some? && ReadMake(p.value).Good? {
        CreationIsApproved(e, ReadMake(p.value).value, x.env);
        assert x.env.newId !in w.auth.store by {
          NewIdIsNotStored(w, x, utf8);
        }
      } else if x.request[0] == GET_ASSERTION && p.Some? && ReadGet(p.value).Good? {
        SignInsAsk(e, ReadGet(p.value).value, x.env);
      }
    }
  }

  lemma NewIdIsNotStored(w: World, x: Input, utf8: Decoder)
    requires Sound(w, utf8) && Proper(w, x)
    ensures x.env.newId !in w.auth.store
  {
    hide InSession, NoOtherSession, CountersKnown, OnePerAccount, PendingHeld;
  }

  lemma EveryCommandIsLawful(w: World, x: Input, utf8: Decoder)
    requires Sound(w, utf8) && Proper(w, x)
    ensures Lawful(w.log, RecordOf(w, x, utf8), utf8)
  {
    SoundMeansHeld(w, utf8);
    hide Sound, Covered, Continued, ServedIff, First, Rises, Asks, Handle;
    if Result(w, x, utf8).reply.Asserted? {
      OnlyTwoCommandsAssert(w, x, utf8);
    }
    CommandsAsk(w, x, utf8);
    FlagsAreCovered(w, x, utf8);
    NextFollowsItsOpening(w, x, utf8);
    NextIsServedIff(w, x, utf8);
    AnswersAreFirst(w, x, utf8);
    CountersRise(w, x, utf8);
  }

  // ---- Whole runs ------------------------------------------------------------------------------------------

  /** A new service over a store that earlier ones left. */
  function Begin(store: Store): World {
    World(State(store, [], [], [], 0, None, 0), [], store.Keys)
  }

  ghost predicate ProperRun(w: World, inputs: seq<Input>, utf8: Decoder)
    requires Sound(w, utf8)
    decreases |inputs|
  {
    inputs == [] ||
    (Proper(w, inputs[0]) &&
     (SoundKept(w, inputs[0], utf8);
      ProperRun(After(w, inputs[0], utf8), inputs[1..], utf8)))
  }

  ghost function RunAll(w: World, inputs: seq<Input>, utf8: Decoder): World
    requires Sound(w, utf8) && ProperRun(w, inputs, utf8)
    decreases |inputs|
  {
    if inputs == [] then w else
      SoundKept(w, inputs[0], utf8);
      RunAll(After(w, inputs[0], utf8), inputs[1..], utf8)
  }

  ghost predicate LawfulLog(log: seq<Record>, utf8: Decoder) {
    forall i :: 0 <= i < |log| ==> Lawful(log[..i], log[i], utf8)
  }

  lemma LawfulSnoc(log: seq<Record>, r: Record, utf8: Decoder)
    requires LawfulLog(log, utf8) && Lawful(log, r, utf8)
    ensures LawfulLog(log + [r], utf8)
  {
    hide Lawful;
    forall i | 0 <= i < |log + [r]|
      ensures Lawful((log + [r])[..i], (log + [r])[i], utf8)
    {
      assert (log + [r])[..i] == log[..i];
      assert i == |log| ==> log[..i] == log;
    }
  }

  lemma {:induction false} RunsKeepTheLaws(w: World, inputs: seq<Input>, utf8: Decoder)
    requires Sound(w, utf8) && LawfulLog(w.log, utf8) && ProperRun(w, inputs, utf8)
    ensures Sound(RunAll(w, inputs, utf8), utf8) && LawfulLog(RunAll(w, inputs, utf8).log, utf8)
    decreases |inputs|
  {
    hide Sound, LawfulLog, Lawful, Handle;
    if inputs != [] {
      SoundMeansHeld(w, utf8);
      SoundKept(w, inputs[0], utf8);
      EveryCommandIsLawful(w, inputs[0], utf8);
      LawfulSnoc(w.log, RecordOf(w, inputs[0], utf8), utf8);
      RunsKeepTheLaws(After(w, inputs[0], utf8), inputs[1..], utf8);
    }
  }

  lemma BeginningsAreSound(store: Store, utf8: Decoder)
    ensures Sound(Begin(store), utf8) <==> OnePerAccount(store)
  {
  }

  ghost function Started(store: Store, utf8: Decoder): (w: World)
    requires OnePerAccount(store)
    ensures Sound(w, utf8)
  {
    BeginningsAreSound(store, utf8);
    Begin(store)
  }

  /**
   * Every run over a store with at most one discoverable key for each site and account: the store
   * stays that way, what is left of a sign-in is stored and of its site, and every command obeyed
   * the laws.
   */
  lemma EveryRunIsLawful(store: Store, inputs: seq<Input>, utf8: Decoder)
    requires OnePerAccount(store) && ProperRun(Started(store, utf8), inputs, utf8)
    ensures
      var w := RunAll(Started(store, utf8), inputs, utf8);
      OnePerAccount(w.auth.store) && PendingHeld(w.auth) && LawfulLog(w.log, utf8)
  {
    hide Handle, Lawful, Proper;
    RunsKeepTheLaws(Started(store, utf8), inputs, utf8);
  }

  // ---- A sign-in lists the whole site --------------------------------------------------------------------------

  predicate NextInTime(s: State, x: Input) {
    x.request == [GET_NEXT_ASSERTION] && x.owner == s.owner && x.env.now <= s.until && x.env.signs
  }

  /** The accounts that the log's last commands answered with. */
  function AnsweredIds(log: seq<Record>): seq<Id> {
    if log == [] then []
    else AnsweredIds(log[..|log| - 1])
         + (if log[|log| - 1].reply.Asserted? then [log[|log| - 1].reply.assertion.id] else [])
  }

  lemma OneNext(w: World, x: Input, utf8: Decoder)
    requires PendingHeld(w.auth) && Proper(w, x) && NextInTime(w.auth, x) && w.auth.pending != []
    ensures
      var v := After(w, x, utf8);
      && v.auth.pending == w.auth.pending[1..] && v.auth.owner == w.auth.owner && v.auth.until == w.auth.until
      && AnsweredIds(v.log) == AnsweredIds(w.log) + [w.auth.pending[0]]
  {
    var v := After(w, x, utf8);
    assert v.log[..|v.log| - 1] == w.log;
  }

  lemma {:induction false} NextsServeTheRest(w: World, nexts: seq<Input>, utf8: Decoder)
    requires Sound(w, utf8) && ProperRun(w, nexts, utf8)
    requires forall x <- nexts :: NextInTime(w.auth, x)
    requires |nexts| == |w.auth.pending|
    ensures
      var v := RunAll(w, nexts, utf8);
      && v.auth.pending == [] && v.auth.owner == w.auth.owner && v.auth.until == w.auth.until
      && AnsweredIds(v.log) == AnsweredIds(w.log) + w.auth.pending
    decreases |nexts|
  {
    hide Sound, Handle, After, AnsweredIds, Proper, PendingHeld, Held;
    if nexts == [] {
      assert w.auth.pending == [];
    } else {
      SoundMeansHeld(w, utf8);
      OneNext(w, nexts[0], utf8);
      SoundKept(w, nexts[0], utf8);
      var v := After(w, nexts[0], utf8);
      assert forall x :: x in nexts[1..] ==> x in nexts;
      NextsServeTheRest(v, nexts[1..], utf8);
      assert AnsweredIds(w.log) + [w.auth.pending[0]] + w.auth.pending[1..] == AnsweredIds(w.log) + w.auth.pending;
    }
  }

  /**
   * A getAssertion without an allow list and as many getNextAssertions as accounts are left answer
   * with every credential of the site exactly once, newest first; one more is refused.
   */
  lemma SignInsListTheWholeSite(w: World, x: Input, nexts: seq<Input>, more: Input, utf8: Decoder)
    requires Sound(w, utf8) && Proper(w, x)
    requires x.request != [] && x.request[0] == GET_ASSERTION
    requires SignIn(x.request, utf8).Some? && SignIn(x.request, utf8).value.allow == []
    requires Result(w, x, utf8).reply.Asserted?
    requires Sound(After(w, x, utf8), utf8) && ProperRun(After(w, x, utf8), nexts, utf8)
    requires forall y <- nexts :: NextInTime(After(w, x, utf8).auth, y)
    requires |nexts| == |After(w, x, utf8).auth.pending|
    requires Proper(RunAll(After(w, x, utf8), nexts, utf8), more) && more.request == [GET_NEXT_ASSERTION]
             && more.env.signs
    requires Held(RunAll(After(w, x, utf8), nexts, utf8).auth)
    ensures
      var rp := SignIn(x.request, utf8).value.rp;
      var ids := Discovered(w.auth.store, rp, x.env.order);
      var v := RunAll(After(w, x, utf8), nexts, utf8);
      && AnsweredIds(v.log) == AnsweredIds(w.log) + ids
      && NoRepeats(ids) && NewestFirst(w.auth.store, ids)
      && (forall id :: id in ids <==> id in w.auth.store && w.auth.store[id].rp == rp)
      && Result(v, more, utf8).reply == Status(ERR_NOT_ALLOWED)
  {
    var args := SignIn(x.request, utf8).value;
    var u := After(w, x, utf8);
    OpeningAnswers(w, x, args, utf8);
    DiscoveredIsTheWholeSite(w.auth.store, args.rp, x.env.order);
    hide Discovered, Result, RecordOf, After, AnsweredIds, SignIn, NoRepeats, NewestFirst, Sound, Lists;
    hide RunAll, ProperRun, Held, NextInTime;
    NextsServeTheRest(u, nexts, utf8);
    var ids := Discovered(w.auth.store, args.rp, x.env.order);
    Regroup(AnsweredIds(w.log), ids);
    RefusedAfterwards(RunAll(u, nexts, utf8), more, utf8);
  }

  lemma Regroup<T>(a: seq<T>, b: seq<T>)
    ensures b != [] ==> a + [b[0]] + b[1..] == a + b
  {
  }

  lemma OpeningAnswers(w: World, x: Input, args: GetArgs, utf8: Decoder)
    requires Held(w.auth) && Proper(w, x) && SignIn(x.request, utf8) == Some(args) && args.allow == []
    requires Result(w, x, utf8).reply.Asserted?
    ensures
      var ids := Discovered(w.auth.store, args.rp, x.env.order);
      ids != [] && After(w, x, utf8).auth.pending == ids[1..]
      && AnsweredIds(After(w, x, utf8).log) == AnsweredIds(w.log) + [ids[0]]
  {
    hide Discovered, Parameters, ReadGet;
    var u := After(w, x, utf8);
    assert u.log[..|u.log| - 1] == w.log;
  }

  lemma RefusedAfterwards(w: World, x: Input, utf8: Decoder)
    requires Held(w.auth) && w.auth.pending == [] && Proper(w, x) && x.request == [GET_NEXT_ASSERTION]
    ensures Result(w, x, utf8).reply == Status(ERR_NOT_ALLOWED)
  {
  }

  // ---- The counter on the wire ---------------------------------------------------------------------------------

  /** The signed data: hash of the site, flags, and the low 32 bits of the counter. */
  function AuthData(a: Assertion, rpHash: seq<byte>): seq<byte>
    requires |rpHash| == 32 && a.flags < 0x100
  {
    rpHash + [a.flags] + BigEndian(a.counter % 0x1_0000_0000, 4)
  }

  function SignCount(data: seq<byte>): nat
    requires |data| >= 37
  {
    Number(data[33..37])
  }

  lemma SignCountIsTheLowPart(a: Assertion, rpHash: seq<byte>)
    requires |rpHash| == 32 && a.flags < 0x100
    ensures SignCount(AuthData(a, rpHash)) == a.counter % 0x1_0000_0000
  {
    Pow256Values();
    NumberOfBigEndian(a.counter % 0x1_0000_0000, 4);
    assert AuthData(a, rpHash)[33..37] == BigEndian(a.counter % 0x1_0000_0000, 4);
  }

  /**
   * Of two counters less than 2^32 apart, the later one as signed is the greater one exactly when
   * the stored counter did not leave 32 bits in between.
   */
  lemma SignCountRisesUntilItWraps(a: Assertion, b: Assertion, aHash: seq<byte>, bHash: seq<byte>)
    requires |aHash| == 32 && |bHash| == 32 && a.flags < 0x100 && b.flags < 0x100
    requires a.counter < b.counter < a.counter + 0x1_0000_0000
    ensures SignCount(AuthData(a, aHash)) < SignCount(AuthData(b, bHash))
       <==> a.counter / 0x1_0000_0000 == b.counter / 0x1_0000_0000
  {
    hide AuthData, SignCount;
    SignCountIsTheLowPart(a, aHash);
    SignCountIsTheLowPart(b, bHash);
  }

  lemma {:induction false} FlagsAreSmall(log: seq<Record>, i: nat, utf8: Decoder)
    requires LawfulLog(log, utf8) && i < |log| && log[i].reply.Asserted?
    ensures log[i].reply.assertion.flags < 8
  {
    hide Covered, ServedIff, Rises, Asks, Opens, Stays, Listing, Taken;
    assert Lawful(log[..i], log[i], utf8);
  }

  /** In every lawful log: the counters that a credential shows, as signed, rise until they wrap. */
  lemma ShownCountersRise(log: seq<Record>, i: nat, j: nat, aHash: seq<byte>, bHash: seq<byte>, utf8: Decoder)
    requires LawfulLog(log, utf8) && i < j < |log|
    requires log[i].reply.Asserted? && log[j].reply.Asserted?
    requires log[i].reply.assertion.id == log[j].reply.assertion.id
    requires |aHash| == 32 && |bHash| == 32
    ensures log[i].reply.assertion.flags < 8 && log[j].reply.assertion.flags < 8
    ensures
      var a, b := log[i].reply.assertion, log[j].reply.assertion;
      && a.counter < b.counter
      && (b.counter - a.counter < 0x1_0000_0000 ==>
            (SignCount(AuthData(a, aHash)) < SignCount(AuthData(b, bHash))
             <==> a.counter / 0x1_0000_0000 == b.counter / 0x1_0000_0000))
  {
    FlagsAreSmall(log, i, utf8);
    FlagsAreSmall(log, j, utf8);
    hide Covered, Continued, ServedIff, First, Asks, SignCount, AuthData;
    assert Lawful(log[..j], log[j], utf8);
    assert log[i] in log[..j];
    var a, b := log[i].reply.assertion, log[j].reply.assertion;
    if b.counter - a.counter < 0x1_0000_0000 {
      SignCountRisesUntilItWraps(a, b, aHash, bHash);
    }
  }
}
