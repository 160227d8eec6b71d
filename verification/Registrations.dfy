/**
 * What registrations leave in the store and what sign-ins then tell, in terms of the requests: whose
 * key is found, which flags it gets, which user is named, and which keys are still there.
 */
module Registrations {
  import opened Bytes
  import opened Cbor
  import opened CborDecode
  import opened Probe
  import opened Authenticator
  import opened AuthenticatorRuns

  // ---- One sign-in --------------------------------------------------------------------------------

  /** Bit 0 says presence, bit 2 says verification, and there is no other bit. */
  predicate FlagsTell(flags: nat, present: bool, verified: bool) {
    && (flags % 2 == 1 <==> present) && (flags / 4 % 2 == 1 <==> verified)
    && flags / 2 % 2 == 0 && flags < 8
  }

  /** The user is named by the stored id; the names are told with bit 2 only. */
  predicate UserTold(u: User, c: Credential, flags: nat) {
    && u.id == c.uid
    && (if flags / 4 % 2 == 1 then u.name == c.name && u.displayName == c.displayName
        else u.name == [] && u.displayName == [])
  }

  /** The site has a key that the sign-in accepts. */
  predicate Finds(store: Store, args: GetArgs) {
    if args.allow == [] then exists id <- store :: store[id].rp == args.rp
    else FirstKnown(store, args.rp, args.allow) < |args.allow|
  }

  /** The newest key of the site, or the first one that the allow list names. */
  predicate IsFirst(store: Store, args: GetArgs, id: Id) {
    && id in store && store[id].rp == args.rp
    && if args.allow == [] then forall k <- store :: store[k].rp == args.rp ==> store[k].t <= store[id].t
       else Finds(store, args) && EntryId(args.allow[FirstKnown(store, args.rp, args.allow)]) == Good(Some(id))
  }

  /** Whom a sign-in asks, what it answers with, and what it refuses with. */
  ghost predicate Answers(store: Store, args: GetArgs, env: Env, asked: Option<int>, reply: Reply) {
    if !Finds(store, args) then
      reply == Status(ERR_NO_CREDENTIALS) && asked == if args.up then Some(env.answer) else None
    else
      && asked == (if args.up || args.uv then Some(env.answer) else None)
      && if asked.Some? && asked != Some(OK) then reply == Status(env.answer)
         else if !env.signs then reply == Status(ERR_OTHER)
         else
           && reply.Asserted?
           && var a := reply.assertion;
              && IsFirst(store, args, a.id) && a.rp == args.rp && a.hash == args.hash
              && FlagsTell(a.flags, args.up, asked == Some(OK))
              && (a.user.Some? <==> args.allow == []) && (args.allow != [] ==> a.count.None?)
              && (a.user.Some? ==> UserTold(a.user.value, store[a.id], a.flags))
  }

  lemma FlagsForTell(up: bool, uv: bool)
    ensures FlagsTell(FlagsFor(up, uv), up, up || uv) && (FlagsFor(up, uv) >= 4 <==> FlagsFor(up, uv) / 4 % 2 == 1)
  {
  }

  lemma FirstOfTheSite(store: Store, args: GetArgs, order: seq<Id>)
    requires Lists(order, store) && args.allow == []
    ensures var ids := Discovered(store, args.rp, order);
            (ids != [] <==> Finds(store, args)) && (ids != [] ==> IsFirst(store, args, ids[0]))
  {
    DiscoveredIsTheWholeSite(store, args.rp, order);
    hide Discovered, Lists;
    var ids := Discovered(store, args.rp, order);
    if ids != [] {
      assert ids[0] in ids;
      forall k | k in store && store[k].rp == args.rp
        ensures store[k].t <= store[ids[0]].t
      {
        assert k in ids;
        var i :| 0 <= i < |ids| && ids[i] == k;
      }
    }
  }

  lemma UserOfIsTold(c: Credential, up: bool, uv: bool)
    ensures UserTold(UserOf(c, FlagsFor(up, uv)), c, FlagsFor(up, uv))
  {
  }

  lemma FirstHit(store: Store, args: GetArgs, order: seq<Id>)
    requires Lists(order, store) && Hits(store, args, order).Good?
    ensures var hits := Hits(store, args, order).value;
            (hits != [] <==> Finds(store, args)) && (hits != [] ==> IsFirst(store, args, hits[0]))
  {
    HitsAreHeld(store, args, order);
    if args.allow == [] {
      FirstOfTheSite(store, args, order);
    } else {
      FirstAllowedIsFirstKnown(store, args.rp, args.allow);
    }
    hide Discovered, Allowed, EntryId, FirstKnown, Known, Lists, NoRepeats;
  }

  /** Every sign-in with a readable allow list is answered as its request and the store say. */
  lemma SignInIsAnswered(s: State, args: GetArgs, env: Env)
    requires Lists(env.order, s.store) && Hits(s.store, args, env.order).Good?
    ensures var d := GetAssertion(s, args, env); Answers(s.store, args, env, d.asked, d.reply)
  {
    FirstHit(s.store, args, env.order);
    FirstIsHeld(s.store, args);
    FlagsForTell(args.up, args.uv);
    hide Hits, Finds, IsFirst, FlagsFor, FlagsTell, Lists, NoRepeats, UserOf, UserTold;
    if Hits(s.store, args, env.order).value != [] {
      UserOfIsTold(s.store[Hits(s.store, args, env.order).value[0]], args.up, args.uv);
    }
  }

  lemma FirstIsHeld(store: Store, args: GetArgs)
    ensures forall id :: IsFirst(store, args, id) ==> id in store
  {
  }

  // ---- One registration -----------------------------------------------------------------------------

  /** The parameters of a readable makeCredential. */
  function SignUp(request: seq<byte>, utf8: Decoder): Option<MakeArgs> {
    if request == [] || request[0] != MAKE_CREDENTIAL then None else
      match Parameters(request, utf8)
      case Good(Some(p)) => (match ReadMake(p) case Good(args) => Some(args) case Bad(_) => None)
      case _ => None
  }

  /** What a makeCredential does to the store: nothing, or with an approval it clears the way for its key. */
  ghost predicate Registers(before: Store, d: Outcome, args: MakeArgs, env: Env) {
    || (d.state.store == before && !d.reply.Created?)
    || (&& d.asked == Some(OK)
        && (forall id :: id in d.state.store && id != env.newId ==> id in before && d.state.store[id] == before[id])
        && (forall id <- before :: id !in d.state.store ==> args.rk && IsLike(before[id], args))
        && (d.reply.Created? ==>
              && env.newId in d.state.store && StoredAs(d.state.store[env.newId], args, env.later)
              && args.rp.Some? && d.reply == Created(env.newId, args.rp.value, args.hash)
              && forall id <- before :: args.rk && IsLike(before[id], args) ==> id !in d.state.store))
  }

  lemma RegistrationRegisters(s: State, args: MakeArgs, env: Env)
    requires env.newId !in s.store
    ensures Registers(s.store, MakeCredential(s, args, env), args, env)
  {
    hide Excluded, Get;
  }

  predicate UserIdIsReadable(user: seq<Pair>) {
    Get(user, ID).Binary? || Get(user, ID).Null?
  }

  /**
   * Every registration for a site: the first entry of the exclude list that matters refuses it, after
   * asking when it names a key of the site and with its own status when it cannot be read; else the
   * user is asked, and a key is created exactly when the answer is OK, the user id can be read and the
   * Keystore makes a key that signs.
   */
  lemma RegistrationIsAnswered(s: State, args: MakeArgs, env: Env)
    requires args.rp.Some?
    ensures
      var d, k := MakeCredential(s, args, env), FirstThatMatters(s.store, args.rp.value, args.exclude);
      if k < |args.exclude| then
        && d.state == s
        && if Known(s.store, args.rp.value, args.exclude[k]) then
             d.asked == Some(env.answer)
             && d.reply == Status(if env.answer == OK then ERR_CREDENTIAL_EXCLUDED else env.answer)
           else d.asked.None? && d.reply == Status(EntryId(args.exclude[k]).status)
      else
        && (d.reply.Created? <==> env.answer == OK && UserIdIsReadable(args.user) && env.generates && env.signs)
        && d.asked == Some(env.answer)
        && (env.answer != OK ==> d.state == s && d.reply == Status(env.answer))
  {
    hide Get, EntryId, FirstThatMatters, Known, Excluded;
    ExcludedIff(s.store, args.rp.value, args.exclude);
  }

  // ---- What a command does, and what its record says -------------------------------------------------

  /** A readable sign-in of the log was answered as its request and the store it met say. */
  ghost predicate Answered(r: Record, utf8: Decoder) {
    var args := SignIn(r.input.request, utf8);
    args.Some? && Lists(r.input.env.order, r.before) ==>
      if Hits(r.before, args.value, r.input.env.order).Good?
      then Answers(r.before, args.value, r.input.env, r.asked, r.reply)
      else r.reply.Status? && r.asked.None?
  }

  lemma SignInsAreAnswered(w: World, x: Input, utf8: Decoder)
    requires Held(w.auth) && Proper(w, x)
    ensures Answered(RecordOf(w, x, utf8), utf8)
  {
    hide GetAssertion, ReadGet, Parameters, Answers, Hits;
    if SignIn(x.request, utf8).Some? {
      var e, args := Entered(w.auth, x.request[0], x.owner, x.env.now), SignIn(x.request, utf8).value;
      if Hits(w.auth.store, args, x.env.order).Good? {
        SignInIsAnswered(e, args, x.env);
      } else {
        UnreadableListsAreRefused(e, args, x.env);
      }
    }
  }

  lemma UnreadableListsAreRefused(s: State, args: GetArgs, env: Env)
    requires Lists(env.order, s.store) && Hits(s.store, args, env.order).Bad?
    ensures GetAssertion(s, args, env).reply.Status? && GetAssertion(s, args, env).asked.None?
  {
  }

  /** A getNextAssertion tells flags and user as the opening of its sign-in earned them. */
  ghost predicate NextTells(log: seq<Record>, r: Record, utf8: Decoder) {
    r.reply.Asserted? && r.input.request != [] && r.input.request[0] == GET_NEXT_ASSERTION ==>
      var a := r.reply.assertion;
      a.user.Some? && exists j: nat, args: GetArgs ::
        && Follows(log, r, j, args, utf8) && FlagsTell(a.flags, args.up, log[j].asked == Some(OK))
        && (args.up ==> log[j].asked == Some(OK))
  }

  lemma NextNamesItsUser(w: World, x: Input, utf8: Decoder)
    requires PendingHeld(w.auth) && Proper(w, x) && x.request != [] && x.request[0] == GET_NEXT_ASSERTION
    requires Result(w, x, utf8).reply.Asserted?
    ensures
      var a := Result(w, x, utf8).reply.assertion;
      a.id in w.auth.store && w.auth.store[a.id].rp == a.rp && a.user == Some(UserOf(w.auth.store[a.id], a.flags))
  {
    hide Parameters;
  }

  lemma OpeningsAskIff(r: Record, args: GetArgs, utf8: Decoder)
    requires Answered(r, utf8) && Opens(r, args, utf8)
    ensures r.asked == Some(OK) <==> args.up || args.uv
  {
    hide SignIn, Discovered, EntryId, FirstKnown, FlagsTell, UserTold;
    FirstOfTheSite(r.before, args, r.input.env.order);
  }

  lemma NextTellsItsOpening(w: World, x: Input, utf8: Decoder)
    requires Sound(w, utf8) && Proper(w, x) && forall o <- w.log :: Answered(o, utf8)
    ensures NextTells(w.log, RecordOf(w, x, utf8), utf8)
  {
    SoundMeansHeld(w, utf8);
    var r := RecordOf(w, x, utf8);
    NextFollowsItsOpening(w, x, utf8);
    hide Handle, Sound, Opens, Taken, Listing, Answered, Proper, FlagsTell, UserOf, FlagsFor;
    if r.reply.Asserted? && x.request != [] && x.request[0] == GET_NEXT_ASSERTION {
      NextNamesItsUser(w, x, utf8);
      var j: nat, args: GetArgs :| Follows(w.log, r, j, args, utf8);
      OpeningsAskIff(w.log[j], args, utf8);
      FlagsForTell(args.up, args.uv);
    }
  }

  /** An assertion is for a stored key of its site; a user is named as that key's, with names by bit 2. */
  predicate Names(r: Record) {
    r.reply.Asserted? ==>
      var a := r.reply.assertion;
      && a.id in r.before && r.before[a.id].rp == a.rp
      && (a.user.Some? ==> UserTold(a.user.value, r.before[a.id], a.flags))
  }

  lemma SignInNamesItsUser(s: State, args: GetArgs, env: Env)
    requires Lists(env.order, s.store) && GetAssertion(s, args, env).reply.Asserted?
    ensures
      var a := GetAssertion(s, args, env).reply.assertion;
      && a.id in s.store && s.store[a.id].rp == a.rp
      && (a.user.Some? ==> UserTold(a.user.value, s.store[a.id], a.flags))
  {
    HitsAreHeld(s.store, args, env.order);
    hide Hits, Lists, NoRepeats, FlagsFor, UserOf, UserTold;
    UserOfIsTold(s.store[Hits(s.store, args, env.order).value[0]], args.up, args.uv);
  }

  lemma AssertionsName(w: World, x: Input, utf8: Decoder)
    requires Sound(w, utf8) && Proper(w, x)
    ensures Names(RecordOf(w, x, utf8))
  {
    SoundMeansHeld(w, utf8);
    var r := RecordOf(w, x, utf8);
    NextFollowsItsOpening(w, x, utf8);
    hide GetAssertion, ReadGet, ReadMake, Parameters, MakeCredential, GetNextAssertion, Sound, Opens, Taken, Listing;
    hide UserTold, UserOf, FlagsFor, Proper;
    if r.reply.Asserted? {
      OnlyTwoCommandsAssert(w, x, utf8);
      if x.request[0] == GET_ASSERTION {
        var e := Entered(w.auth, x.request[0], x.owner, x.env.now);
        SignInNamesItsUser(e, SignIn(x.request, utf8).value, x.env);
      } else {
        NextNamesItsUser(w, x, utf8);
        var j: nat, args: GetArgs :| Follows(w.log, r, j, args, utf8);
        UserOfIsTold(w.auth.store[r.reply.assertion.id], args.up, args.uv);
      }
    }
  }

  // ---- What stays in the store ---------------------------------------------------------------------------

  /** Approved, for a discoverable key of the same site and user id. */
  ghost predicate Displaces(r: Record, args: MakeArgs, utf8: Decoder) {
    var other := SignUp(r.input.request, utf8);
    && other.Some? && other.value.rk && other.value.rp == args.rp && r.asked == Some(OK)
    && UserId(other.value.user) == UserId(args.user)
  }

  /** The key that record `i` created is stored as registered, or a later registration displaced it. */
  ghost predicate Remembered(store: Store, log: seq<Record>, used: set<Id>, i: nat, args: MakeArgs, utf8: Decoder)
    requires i < |log| && log[i].reply.Created?
  {
    var id := log[i].reply.id;
    && id in used
    && if id in store then StoredAs(store[id], args, log[i].input.env.later)
       else args.rk && exists j: nat :: i < j < |log| && Displaces(log[j], args, utf8)
  }

  ghost predicate Registered(w: World, utf8: Decoder) {
    forall i: nat, args :: i < |w.log| && w.log[i].reply.Created? && SignUp(w.log[i].input.request, utf8) == Some(args)
      ==> Remembered(w.auth.store, w.log, w.used, i, args, utf8)
  }

  /** Nothing but counters changes. */
  predicate OnlyCounts(before: Store, after: Store) {
    after.Keys == before.Keys && forall id <- before :: after[id] == before[id].(n := after[id].n)
  }

  lemma CommandsOnlyCount(w: World, x: Input, utf8: Decoder)
    requires Held(w.auth) && Proper(w, x) && SignUp(x.request, utf8).None?
    ensures OnlyCounts(w.auth.store, Result(w, x, utf8).state.store) && !Result(w, x, utf8).reply.Created?
  {
    hide ReadGet, ReadMake, Parameters, Hits;
    if x.request != [] && Parameters(x.request, utf8).Good? {
      var e := Entered(w.auth, x.request[0], x.owner, x.env.now);
      var p := Parameters(x.request, utf8).value;
      if x.request[0] == GET_ASSERTION && p.Some? && ReadGet(p.value).Good? {
        SignInsOnlyCount(e, ReadGet(p.value).value, x.env);
      }
      hide GetAssertion;
    }
  }

  lemma SignInsOnlyCount(s: State, args: GetArgs, env: Env)
    requires Lists(env.order, s.store)
    ensures var d := GetAssertion(s, args, env); OnlyCounts(s.store, d.state.store) && !d.reply.Created?
  {
    HitsAreHeld(s.store, args, env.order);
    SignInsCountTheFirst(s, args, env);
    hide GetAssertion, Hits, Lists, NoRepeats;
    if Hits(s.store, args, env.order).Good? && Hits(s.store, args, env.order).value != [] {
      CountingOnlyCounts(s.store, Hits(s.store, args, env.order).value[0]);
    }
  }

  lemma SignInsCountTheFirst(s: State, args: GetArgs, env: Env)
    requires Lists(env.order, s.store)
    requires var hits := Hits(s.store, args, env.order); hits.Good? && hits.value != [] ==> hits.value[0] in s.store
    ensures
      var d, hits := GetAssertion(s, args, env), Hits(s.store, args, env.order);
      && !d.reply.Created?
      && (d.state.store == s.store
          || (hits.Good? && hits.value != [] && d.state.store == Counted(s.store, hits.value[0])))
  {
    hide Hits, Lists, NoRepeats, FlagsFor, UserOf, Counted;
  }

  lemma CountingOnlyCounts(store: Store, id: Id)
    ensures OnlyCounts(store, store) && (id in store ==> OnlyCounts(store, Counted(store, id)))
  {
  }

  lemma SignUpsRegister(w: World, x: Input, utf8: Decoder)
    requires Held(w.auth) && Proper(w, x) && x.env.newId !in w.auth.store && SignUp(x.request, utf8).Some?
    ensures Registers(w.auth.store, Result(w, x, utf8), SignUp(x.request, utf8).value, x.env)
  {
    hide ReadMake, Parameters, MakeCredential, Registers;
    RegistrationRegisters(Entered(w.auth, x.request[0], x.owner, x.env.now), SignUp(x.request, utf8).value, x.env);
  }

  lemma OldStaysRemembered(store: Store, after: Store, log: seq<Record>, r: Record, used: set<Id>, newId: Id, i: nat,
                           args: MakeArgs, utf8: Decoder)
    requires i < |log| && log[i].reply.Created? && Remembered(store, log, used, i, args, utf8) && newId !in used
    requires forall id <- after :: id == newId || id in store
    requires forall id <- store :: id in after ==> after[id] == store[id].(n := after[id].n)
    requires forall id <- store :: id !in after && IsLike(store[id], args) ==> Displaces(r, args, utf8)
    requires forall id <- store :: id !in after ==> store[id].rk
    ensures Remembered(after, log + [r], used + {newId}, i, args, utf8)
  {
    hide Displaces, Get;
    var more, id := log + [r], log[i].reply.id;
    assert more[i] == log[i] && more[|log|] == r;
    if id in store {
      assert id !in after ==> Displaces(more[|log|], args, utf8);
    } else {
      var j: nat :| i < j < |log| && Displaces(log[j], args, utf8);
      assert more[j] == log[j];
    }
  }

  lemma OthersStayRemembered(w: World, x: Input, i: nat, args: MakeArgs, utf8: Decoder)
    requires Held(w.auth) && Proper(w, x) && x.env.newId !in w.auth.store
    requires i < |w.log| && w.log[i].reply.Created? && Remembered(w.auth.store, w.log, w.used, i, args, utf8)
    ensures var v := After(w, x, utf8);
            v.log[i] == w.log[i] && Remembered(v.auth.store, v.log, v.used, i, args, utf8)
  {
    hide Handle, Remembered, Get;
    var r := RecordOf(w, x, utf8);
    if SignUp(x.request, utf8).Some? {
      SignUpsRegister(w, x, utf8);
      hide SignUp;
    } else {
      CommandsOnlyCount(w, x, utf8);
      hide SignUp;
    }
    OldStaysRemembered(w.auth.store, Result(w, x, utf8).state.store, w.log, r, w.used, x.env.newId, i, args, utf8);
  }

  lemma NewIsRemembered(w: World, x: Input, args: MakeArgs, utf8: Decoder)
    requires Held(w.auth) && Proper(w, x) && x.env.newId !in w.auth.store
    requires Result(w, x, utf8).reply.Created? && SignUp(x.request, utf8) == Some(args)
    ensures var v := After(w, x, utf8); Remembered(v.auth.store, v.log, v.used, |w.log|, args, utf8)
  {
    hide Handle, SignUp, StoredAs;
    SignUpsRegister(w, x, utf8);
  }

  lemma RegisteredIsKept(w: World, x: Input, utf8: Decoder)
    requires Sound(w, utf8) && Registered(w, utf8) && Proper(w, x)
    ensures Registered(After(w, x, utf8), utf8)
  {
    SoundMeansHeld(w, utf8);
    NewIdIsNotStored(w, x, utf8);
    hide Sound, Handle, Remembered, SignUp, Proper;
    var v := After(w, x, utf8);
    forall i: nat, args | i < |v.log| && v.log[i].reply.Created? && SignUp(v.log[i].input.request, utf8) == Some(args)
      ensures Remembered(v.auth.store, v.log, v.used, i, args, utf8)
    {
      if i < |w.log| {
        assert v.log[i] == w.log[i];
        OthersStayRemembered(w, x, i, args, utf8);
      } else {
        NewIsRemembered(w, x, args, utf8);
      }
    }
  }

  /** An assertion is for a key as its registration, if the log has it, asked for it. */
  ghost predicate Remembers(log: seq<Record>, r: Record, utf8: Decoder) {
    r.reply.Asserted? ==>
      && r.reply.assertion.id in r.before
      && forall i: nat, args ::
           i < |log| && log[i].reply.Created? && SignUp(log[i].input.request, utf8) == Some(args)
           && log[i].reply.id == r.reply.assertion.id ==>
             StoredAs(r.before[r.reply.assertion.id], args, log[i].input.env.later)
  }

  lemma AssertedIsStored(w: World, x: Input, utf8: Decoder)
    requires Sound(w, utf8) && Proper(w, x) && Held(w.auth) && Result(w, x, utf8).reply.Asserted?
    ensures Result(w, x, utf8).reply.assertion.id in w.auth.store
  {
    hide Handle, InSession, NoOtherSession, OnePerAccount, CountersKnown, PendingHeld;
    var kind := EveryCommandHasAnEffect(w.auth, x.request, x.owner, x.env, utf8);
  }

  lemma AssertionsRemember(w: World, x: Input, utf8: Decoder)
    requires Sound(w, utf8) && Registered(w, utf8) && Proper(w, x)
    ensures Remembers(w.log, RecordOf(w, x, utf8), utf8)
  {
    SoundMeansHeld(w, utf8);
    if Result(w, x, utf8).reply.Asserted? {
      AssertedIsStored(w, x, utf8);
    }
    hide Sound, Handle, Proper, Registered, Remembers;
    RegisteredRemembers(w, RecordOf(w, x, utf8), utf8);
  }

  lemma RegisteredRemembers(w: World, r: Record, utf8: Decoder)
    requires Registered(w, utf8) && r.before == w.auth.store
    requires r.reply.Asserted? ==> r.reply.assertion.id in r.before
    ensures Remembers(w.log, r, utf8)
  {
    hide SignUp, StoredAs, Displaces, Remembered;
    forall i: nat, args | i < |w.log| && w.log[i].reply.Created? && SignUp(w.log[i].input.request, utf8) == Some(args)
      ensures w.log[i].reply.id in w.auth.store ==>
                StoredAs(w.auth.store[w.log[i].reply.id], args, w.log[i].input.env.later)
    {
      RememberedIsStored(w.auth.store, w.log, w.used, i, args, utf8);
    }
  }

  lemma RememberedIsStored(store: Store, log: seq<Record>, used: set<Id>, i: nat, args: MakeArgs, utf8: Decoder)
    requires i < |log| && log[i].reply.Created? && Remembered(store, log, used, i, args, utf8)
    ensures log[i].reply.id in store ==> StoredAs(store[log[i].reply.id], args, log[i].input.env.later)
    ensures log[i].reply.id !in store ==> args.rk && exists j: nat :: i < j < |log| && Displaces(log[j], args, utf8)
  {
  }

  // ---- Every run --------------------------------------------------------------------------------------------

  ghost predicate Tells(log: seq<Record>, r: Record, utf8: Decoder) {
    Answered(r, utf8) && Names(r) && NextTells(log, r, utf8) && Remembers(log, r, utf8)
  }

  ghost predicate TellingLog(log: seq<Record>, utf8: Decoder) {
    forall i :: 0 <= i < |log| ==> Tells(log[..i], log[i], utf8)
  }

  lemma TellingSnoc(log: seq<Record>, r: Record, utf8: Decoder)
    requires TellingLog(log, utf8) && Tells(log, r, utf8)
    ensures TellingLog(log + [r], utf8)
  {
    hide Tells;
    forall i | 0 <= i < |log + [r]|
      ensures Tells((log + [r])[..i], (log + [r])[i], utf8)
    {
      assert (log + [r])[..i] == log[..i];
      assert i == |log| ==> log[..i] == log;
    }
  }

  lemma EveryCommandTells(w: World, x: Input, utf8: Decoder)
    requires Sound(w, utf8) && Registered(w, utf8) && TellingLog(w.log, utf8) && Proper(w, x)
    ensures Tells(w.log, RecordOf(w, x, utf8), utf8)
  {
    SoundMeansHeld(w, utf8);
    forall o | o in w.log
      ensures Answered(o, utf8)
    {
      var i :| 0 <= i < |w.log| && w.log[i] == o;
      assert Tells(w.log[..i], w.log[i], utf8);
    }
    hide Sound, Registered, Answered, Names, NextTells, Remembers, Handle, TellingLog;
    SignInsAreAnswered(w, x, utf8);
    AssertionsName(w, x, utf8);
    NextTellsItsOpening(w, x, utf8);
    AssertionsRemember(w, x, utf8);
  }

  lemma {:induction false} RunsTell(w: World, inputs: seq<Input>, utf8: Decoder)
    requires Sound(w, utf8) && Registered(w, utf8) && TellingLog(w.log, utf8) && ProperRun(w, inputs, utf8)
    ensures Registered(RunAll(w, inputs, utf8), utf8) && TellingLog(RunAll(w, inputs, utf8).log, utf8)
    decreases |inputs|
  {
    hide Sound, Registered, TellingLog, Tells, Handle;
    if inputs != [] {
      SoundMeansHeld(w, utf8);
      SoundKept(w, inputs[0], utf8);
      RegisteredIsKept(w, inputs[0], utf8);
      EveryCommandTells(w, inputs[0], utf8);
      TellingSnoc(w.log, RecordOf(w, inputs[0], utf8), utf8);
      RunsTell(After(w, inputs[0], utf8), inputs[1..], utf8);
    }
  }

  /**
   * Every run over a store with at most one discoverable key for each site and account: each sign-in
   * is answered as its request and the store say, each getNextAssertion tells what its opening earned,
   * each assertion is for a key as it was registered, and each key that the run created is in the
   * store as registered unless a later approved registration of its site and user id displaced it.
   */
  lemma EveryRunTells(store: Store, inputs: seq<Input>, utf8: Decoder)
    requires OnePerAccount(store) && ProperRun(Started(store, utf8), inputs, utf8)
    ensures
      var w := RunAll(Started(store, utf8), inputs, utf8); Registered(w, utf8) && TellingLog(w.log, utf8)
  {
    hide Handle, Tells, Proper, Remembered;
    RunsTell(Started(store, utf8), inputs, utf8);
  }

  /**
   * Two registrations of one site for different user ids, each the last approved one for its user id:
   * both keys are in the store, each under the user id of its own request.
   */
  lemma TwoAccountsKeepBothKeys(w: World, i: nat, j: nat, a: MakeArgs, b: MakeArgs, utf8: Decoder)
    requires Registered(w, utf8) && i < |w.log| && j < |w.log|
    requires w.log[i].reply.Created? && SignUp(w.log[i].input.request, utf8) == Some(a) && a.rk
    requires w.log[j].reply.Created? && SignUp(w.log[j].input.request, utf8) == Some(b) && b.rk
    requires a.rp == b.rp && UserId(a.user) != UserId(b.user)
    requires forall k :: 0 <= k < |w.log| && k != i && k != j ==>
               !Displaces(w.log[k], a, utf8) && !Displaces(w.log[k], b, utf8)
    ensures
      var first, second := w.log[i].reply.id, w.log[j].reply.id;
      && first in w.auth.store && w.auth.store[first].uid == UserId(a.user)
      && second in w.auth.store && w.auth.store[second].uid == UserId(b.user)
  {
    hide SignUp, UserId, Remembered;
    RememberedIsStored(w.auth.store, w.log, w.used, i, a, utf8);
    RememberedIsStored(w.auth.store, w.log, w.used, j, b, utf8);
  }

  /**
   * In every run's log: a sign-in that names a user names the user id of the registration that made
   * its key, and the names only with bit 2.
   */
  lemma SignInsTellTheRegisteredUser(log: seq<Record>, i: nat, k: nat, args: MakeArgs, utf8: Decoder)
    requires TellingLog(log, utf8) && i < k < |log|
    requires log[i].reply.Created? && SignUp(log[i].input.request, utf8) == Some(args)
    requires log[k].reply.Asserted? && log[k].reply.assertion.id == log[i].reply.id
    requires log[k].reply.assertion.user.Some?
    ensures
      var a := log[k].reply.assertion;
      && a.user.value.id == UserId(args.user) && args.rp == Some(a.rp)
      && (if a.flags / 4 % 2 == 1
          then
            && a.user.value.name == TextAt(args.user, NAME)
            && a.user.value.displayName == TextAt(args.user, DISPLAY_NAME)
          else a.user.value.name == [] && a.user.value.displayName == [])
  {
    hide SignUp, UserId, TextAt, Answered, NextTells;
    var r := log[k];
    assert Tells(log[..k], r, utf8);
    assert log[..k][i] == log[i];
    assert StoredAs(r.before[r.reply.assertion.id], args, log[i].input.env.later);
  }

  lemma RefusalsAnswerNothing(r: Record, args: GetArgs, utf8: Decoder)
    requires Answered(r, utf8) && r.reply.Asserted? && SignIn(r.input.request, utf8) == Some(args)
    requires Lists(r.input.env.order, r.before)
    ensures FlagsTell(r.reply.assertion.flags, args.up, r.asked == Some(OK)) && (args.up ==> r.asked == Some(OK))
  {
    hide SignIn, Hits, Finds, IsFirst, FlagsTell, UserTold, Lists;
  }

  /** The record of the sign-in that an assertion belongs to: its own, or the opening that it follows. */
  ghost predicate Earned(log: seq<Record>, r: Record, o: Record, args: GetArgs, utf8: Decoder)
    requires r.reply.Asserted?
  {
    && SignIn(o.input.request, utf8) == Some(args)
    && (o == r || exists j: nat :: Follows(log, r, j, args, utf8) && log[j] == o)
  }

  /**
   * In every run's log: bit 0 of an assertion's flags is set exactly when its sign-in asked for
   * presence, bit 2 exactly when the question of that sign-in was asked and answered OK, and no other
   * bit is; so the flags are zero exactly when the user did not approve.
   */
  lemma FlagsSayWhatWasAsked(log: seq<Record>, k: nat, utf8: Decoder)
    requires TellingLog(log, utf8) && LawfulLog(log, utf8) && k < |log| && log[k].reply.Asserted?
    ensures exists o: Record, args: GetArgs ::
              Earned(log[..k], log[k], o, args, utf8) && SaysSo(log[k].reply.assertion.flags, o, args)
  {
    var r := log[k];
    assert Tells(log[..k], r, utf8) && Lawful(log[..k], r, utf8);
    hide *;
    var o, args := WhoEarned(log[..k], r, utf8);
  }

  /** The flags as numbers, and what the sign-in asked for and was answered. */
  predicate SaysSo(flags: nat, o: Record, args: GetArgs) {
    && (flags % 2 == 1 <==> args.up) && (flags / 4 % 2 == 1 <==> o.asked == Some(OK))
    && flags / 2 % 2 == 0 && flags < 8 && (flags == 0 <==> o.asked != Some(OK))
  }

  lemma TellingSays(flags: nat, o: Record, args: GetArgs)
    requires FlagsTell(flags, args.up, o.asked == Some(OK)) && (args.up ==> o.asked == Some(OK))
    ensures SaysSo(flags, o, args)
  {
  }

  lemma WhoEarned(log: seq<Record>, r: Record, utf8: Decoder) returns (o: Record, args: GetArgs)
    requires Tells(log, r, utf8) && Lawful(log, r, utf8) && r.reply.Asserted?
    ensures Earned(log, r, o, args, utf8) && SaysSo(r.reply.assertion.flags, o, args)
  {
    hide SignIn, Covered, ServedIff, Rises, Asks, Continued, Answered, Remembers, Names, Lists, FlagsTell, SaysSo;
    hide Opens, Taken, Listing, FlagsFor, Stays;
    if r.input.request[0] == GET_ASSERTION {
      o, args := r, SignIn(r.input.request, utf8).value;
      RefusalsAnswerNothing(r, args, utf8);
    } else {
      var j: nat, opening: GetArgs :|
        && Follows(log, r, j, opening, utf8)
        && FlagsTell(r.reply.assertion.flags, opening.up, log[j].asked == Some(OK))
        && (opening.up ==> log[j].asked == Some(OK));
      FollowsOpens(log, r, j, opening, utf8);
      o, args := log[j], opening;
    }
    TellingSays(r.reply.assertion.flags, o, args);
  }

  lemma FollowsOpens(log: seq<Record>, r: Record, j: nat, args: GetArgs, utf8: Decoder)
    requires r.reply.Asserted? && Follows(log, r, j, args, utf8)
    ensures j < |log| && SignIn(log[j].input.request, utf8) == Some(args)
  {
    hide SignIn;
  }
}
