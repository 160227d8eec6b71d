/** The authenticator as it runs: one object, its fields updated by each command. */
module AuthenticatorService {
  import opened Bytes
  import opened Cbor
  import opened CborDecode
  import opened Probe
  import A = Authenticator
  import opened AuthenticatorRuns

  type Id = A.Id
  type Env = A.Env
  type Reply = A.Reply

  // ---- Loops over the parameters -----------------------------------------------------------------

  method FindEs256(algs: seq<Value>) returns (r: A.Checked<bool>)
    ensures r == A.OffersEs256(algs)
  {
    var found, i := false, 0;
    while i < |algs|
      invariant 0 <= i <= |algs|
      invariant A.OffersEs256(algs) == match A.OffersEs256(algs[i..])
                                       case Bad(status) => A.Bad(status)
                                       case Good(later) => A.Good(found || later)
    {
      assert algs[i..][1..] == algs[i + 1..];
      var m := A.AsMap(algs[i]);
      if m.Bad? { return A.Bad(m.status); }
      if m.value.None? { return A.Bad(A.ERR_OTHER); }
      if Get(m.value.value, A.TYPE) == A.PUBLIC_KEY && Get(m.value.value, A.ALG) == Integer(-7) { found := true; }
      i := i + 1;
    }
    return A.Good(found);
  }

  method ReadMakeParameters(p: seq<Pair>) returns (r: A.Checked<A.MakeArgs>)
    ensures r == A.ReadMake(p)
  {
    var hash := A.AsBinary(Get(p, Integer(1)));
    if hash.Bad? { return A.Bad(hash.status); }
    var rp := A.AsMap(Get(p, Integer(2)));
    if rp.Bad? { return A.Bad(rp.status); }
    var user := A.AsMap(Get(p, Integer(3)));
    if user.Bad? { return A.Bad(user.status); }
    var algs := A.AsList(Get(p, Integer(4)));
    if algs.Bad? { return A.Bad(algs.status); }
    if hash.value.None? || rp.value.None? || user.value.None? || algs.value.None? {
      return A.Bad(A.ERR_MISSING_PARAMETER);
    }
    var es256 := FindEs256(algs.value.value);
    if es256.Bad? { return A.Bad(es256.status); }
    if !es256.value { return A.Bad(A.ERR_UNSUPPORTED_ALGORITHM); }
    if Get(p, Integer(8)) == Binary([]) { return A.Bad(A.ERR_PIN_NOT_SET); }
    var rpId := A.AsText(Get(rp.value.value, A.ID));
    if rpId.Bad? { return A.Bad(rpId.status); }
    var opts := A.AsMap(Get(p, Integer(7)));
    if opts.Bad? { return A.Bad(opts.status); }
    var exclude := A.AsList(Get(p, Integer(5)));
    if exclude.Bad? { return A.Bad(exclude.status); }
    return A.Good(A.MakeArgs(hash.value.value, rpId.value, user.value.value,
                             opts.value.Some? && Get(opts.value.value, A.RK) == Bool(true),
                             if exclude.value.None? then [] else exclude.value.value));
  }

  method ReadParameters(request: seq<byte>, utf8: Decoder) returns (p: A.Checked<Option<seq<Pair>>>)
    ensures p == A.Parameters(request, utf8)
  {
    if |request| <= 1 { return A.Good(Some([])); }
    var c := new Cursor(1);
    var v := DecodeJava(request, c, 0, utf8);
    if v.None? { return A.Bad(A.ERR_INVALID_CBOR); }
    return A.AsMap(v.value);
  }

  /** What is left of `store` once those of `order` that are in the way were deleted. */
  function Without(store: A.Store, order: seq<Id>, rp: seq<byte>, uid: seq<byte>): A.Store {
    map id | id in store && !(id in order && store[id].rk && store[id].rp == rp && store[id].uid == uid) :: store[id]
  }

  class Authenticator {
    var store: A.Store
    var pending: seq<Id>
    var pendingHash: seq<byte>
    var pendingRp: seq<byte>
    var pendingFlags: nat
    var pendingOwner: Option<nat>
    var pendingUntil: int
    ghost var asked: Option<int>

    function View(): A.State
      reads this
    {
      A.State(store, pending, pendingHash, pendingRp, pendingFlags, pendingOwner, pendingUntil)
    }

    ghost predicate Valid()
      reads this
    {
      PendingHeld(View())
    }

    constructor (store: A.Store)
      ensures View() == Begin(store).auth && Valid() && asked == None
    {
      this.store := store;
      pending, pendingHash, pendingRp, pendingFlags, pendingOwner, pendingUntil := [], [], [], 0, None, 0;
      asked := None;
    }

    /** At most one question for each command. */
    method Confirm(env: Env) returns (status: int)
      requires asked == None
      modifies this`asked
      ensures asked == Some(env.answer) && status == env.answer
    {
      asked := Some(env.answer);
      status := env.answer;
    }

    method Delete(id: Id)
      modifies this`store
      ensures store == old(store) - {id}
    {
      store := store - {id};
    }

    method Find(id: Option<seq<byte>>) returns (c: Option<A.Credential>)
      ensures c == if id.Some? && id.value in store then Some(store[id.value]) else None
    {
      if id.None? { return None; }
      return if id.value in store then Some(store[id.value]) else None;
    }

    // ---- makeCredential ------------------------------------------------------------------------------

    method IsExcluded(rp: Option<seq<byte>>, exclude: seq<Value>) returns (r: A.Checked<bool>)
      ensures r == A.Excluded(store, rp, exclude)
    {
      var i := 0;
      while i < |exclude|
        invariant 0 <= i <= |exclude|
        invariant A.Excluded(store, rp, exclude) == A.Excluded(store, rp, exclude[i..])
      {
        assert exclude[i..][1..] == exclude[i + 1..];
        var id := A.EntryId(exclude[i]);
        if id.Bad? { return A.Bad(id.status); }
        var c := Find(id.value);
        if c.Some? {
          if rp.None? { return A.Bad(A.ERR_OTHER); }
          if c.value.rp == rp.value { return A.Good(true); }
        }
        i := i + 1;
      }
      return A.Good(false);
    }

    /** Goes through a copy of the store's entries while it deletes. */
    method DeleteReplaced(rp: seq<byte>, uid: seq<byte>, order: seq<Id>)
      requires A.Lists(order, store)
      modifies this`store
      ensures store == A.Replaced(old(store), rp, uid)
    {
      var all := store;
      var i := 0;
      while i < |order|
        invariant 0 <= i <= |order|
        invariant store == Without(all, order[..i], rp, uid)
      {
        var c := all[order[i]];
        if c.rk && c.rp == rp && c.uid == uid { Delete(order[i]); }
        i := i + 1;
      }
      assert order[..i] == order;
    }

    method MakeCredential(p: seq<Pair>, env: Env) returns (r: Reply)
      requires asked == None && A.Lists(env.order, store)
      modifies this`store, this`asked
      ensures
        var d := match A.ReadMake(p)
                 case Bad(status) => A.Outcome(old(View()), None, A.Status(status))
                 case Good(args) => A.MakeCredential(old(View()), args, env);
        View() == d.state && asked == d.asked && r == d.reply
    {
      hide A.ReadMake, A.Excluded;
      var read := ReadMakeParameters(p);
      if read.Bad? { return A.Status(read.status); }
      var args := read.value;
      var excluded := IsExcluded(args.rp, args.exclude);
      if excluded.Bad? { return A.Status(excluded.status); }
      if excluded.value {
        var s := Confirm(env);
        return A.Status(if s == A.OK then A.ERR_CREDENTIAL_EXCLUDED else s);
      }
      if args.rp.None? { return A.Status(A.ERR_OTHER); }
      var s := Confirm(env);
      if s != A.OK { return A.Status(s); }
      r := Create(args, args.rp.value, env);
    }

    method Create(args: A.MakeArgs, rp: seq<byte>, env: Env) returns (r: Reply)
      requires A.Lists(env.order, store)
      modifies this`store
      ensures var d := A.Create(old(View()), args, rp, env); View() == d.state && r == d.reply
    {
      var uid := A.AsBinary(Get(args.user, A.ID));
      if args.rk {
        if uid.Bad? { return A.Status(uid.status); }
        DeleteReplaced(rp, A.OrEmpty(uid.value), env.order);
      }
      if !env.generates { return A.Status(A.ERR_OTHER); }
      if uid.Bad? { return A.Status(uid.status); }
      var c := A.Credential(rp, A.OrEmpty(uid.value), A.TextOr(Get(args.user, A.NAME), []),
                            A.TextOr(Get(args.user, A.DISPLAY_NAME), []), args.rk, 0, env.later);
      store := store[env.newId := c];
      if !env.signs { return A.Status(A.ERR_OTHER); }
      return A.Created(env.newId, rp, args.hash);
    }

    // ---- getAssertion --------------------------------------------------------------------------------

    method AllowedHits(rp: seq<byte>, allow: seq<Value>) returns (r: A.Checked<seq<Id>>)
      ensures r == A.Allowed(store, rp, allow, [])
    {
      var hits: seq<Id>, i := [], 0;
      while i < |allow|
        invariant 0 <= i <= |allow|
        invariant A.Allowed(store, rp, allow, []) == A.Allowed(store, rp, allow[i..], hits)
      {
        assert allow[i..][1..] == allow[i + 1..];
        var id := A.EntryId(allow[i]);
        if id.Bad? { return A.Bad(id.status); }
        var c := Find(id.value);
        if c.Some? && c.value.rp == rp && id.value.value !in hits { hits := hits + [id.value.value]; }
        i := i + 1;
      }
      return A.Good(hits);
    }

    method SiteRows(rp: seq<byte>, order: seq<Id>) returns (rks: seq<A.Row>)
      requires A.Lists(order, store)
      ensures rks == A.Rows(store, rp, order)
    {
      hide A.Digits;
      rks := [];
      var i := 0;
      while i < |order|
        invariant 0 <= i <= |order|
        invariant rks + A.Rows(store, rp, order[i..]) == A.Rows(store, rp, order)
      {
        assert order[i..][1..] == order[i + 1..];
        var c := store[order[i]];
        if c.rp == rp { rks := rks + [(A.Digits(c.t, 20), order[i])]; }
        i := i + 1;
      }
    }

    method SiteHits(rp: seq<byte>, order: seq<Id>) returns (hits: seq<Id>)
      requires A.Lists(order, store)
      ensures hits == A.Discovered(store, rp, order)
    {
      hide A.Rows, A.Newest;
      var rks := SiteRows(rp, order);
      A.RowsAreDated(store, rp, order);
      var sorted := A.Newest(rks);
      hits := [];
      var k := 0;
      while k < |sorted|
        invariant 0 <= k <= |sorted| && hits == A.Ids(sorted)[..k]
      {
        hits := hits + [sorted[k].1];
        k := k + 1;
      }
    }

    method Sign(id: Id, rp: seq<byte>, hash: seq<byte>, flags: nat, count: nat, withUser: bool, signs: bool)
        returns (r: Reply)
      requires id in store
      modifies this`store
      ensures var d := A.Assert(old(View()), None, id, rp, hash, flags, count, withUser, signs);
              View() == d.state && r == d.reply
    {
      var c := store[id];
      store := store[id := c.(n := c.n + 1)];
      if !signs { return A.Status(A.ERR_OTHER); }
      return A.Asserted(A.Assertion(id, rp, hash, flags, c.n + 1, if withUser then Some(A.UserOf(c, flags)) else None,
                                    if count > 1 then Some(count) else None));
    }

    method GetAssertion(p: seq<Pair>, env: Env) returns (r: Reply)
      requires asked == None && A.Lists(env.order, store)
      modifies this
      ensures
        var d := match A.ReadGet(p)
                 case Bad(status) => A.Outcome(old(View()), None, A.Status(status))
                 case Good(args) => A.GetAssertion(old(View()), args, env);
        View() == d.state && asked == d.asked && r == d.reply
    {
      hide A.ReadGet, A.Discovered, A.Allowed, A.FlagsFor;
      var read := A.ReadGet(p);
      if read.Bad? { return A.Status(read.status); }
      var args := read.value;
      A.HitsAreHeld(store, args, env.order);
      var discoverable := args.allow == [];
      var hits;
      if discoverable {
        hits := SiteHits(args.rp, env.order);
      } else {
        var found := AllowedHits(args.rp, args.allow);
        if found.Bad? { return A.Status(found.status); }
        hits := found.value;
      }
      if hits == [] {
        if args.up { var _ := Confirm(env); }
        return A.Status(A.ERR_NO_CREDENTIALS);
      }
      if args.up || args.uv {
        var s := Confirm(env);
        if s != A.OK { return A.Status(s); }
      }
      pending := if discoverable then hits[1..] else [];
      pendingRp := args.rp;
      pendingHash := args.hash;
      pendingFlags := A.FlagsFor(args.up, args.uv);
      pendingUntil := env.later + A.KEPT;
      r := Sign(hits[0], args.rp, args.hash, pendingFlags, if discoverable then |hits| else 0, discoverable, env.signs);
    }

    method GetNextAssertion(env: Env) returns (r: Reply)
      requires Valid()
      modifies this`pending, this`store
      ensures var d := A.GetNextAssertion(old(View()), env); View() == d.state && r == d.reply && d.asked == None
    {
      if pending == [] { return A.Status(A.ERR_NOT_ALLOWED); }
      var id := pending[0];
      pending := pending[1..];
      r := Sign(id, pendingRp, pendingHash, pendingFlags, 0, true, env.signs);
    }

    // ---- One command -----------------------------------------------------------------------------------

    method Handle(request: seq<byte>, owner: Option<nat>, env: Env, utf8: Decoder) returns (r: Reply)
      requires Valid() && A.Lists(env.order, store)
      modifies this
      ensures Valid()
      ensures
        var d := old(A.Handle(View(), request, owner, env, utf8));
        View() == d.state && asked == d.asked && r == d.reply
    {
      PendingStaysHeld(View(), request, owner, env, utf8);
      hide A.MakeCredential, A.GetAssertion, A.GetNextAssertion, A.ReadGet, A.ReadMake, A.Parameters, PendingHeld;
      r := Process(request, owner, env, utf8);
    }

    method Process(request: seq<byte>, owner: Option<nat>, env: Env, utf8: Decoder) returns (r: Reply)
      requires Valid() && A.Lists(env.order, store)
      modifies this
      ensures
        var d := old(A.Handle(View(), request, owner, env, utf8));
        View() == d.state && asked == d.asked && r == d.reply
    {
      hide A.MakeCredential, A.GetAssertion, A.GetNextAssertion, A.ReadGet, A.ReadMake, A.Parameters, A.Lists;
      asked := None;
      if request == [] { return A.Status(A.ERR_INVALID_COMMAND); }
      var command := request[0];
      if command != A.GET_NEXT_ASSERTION || owner != pendingOwner || env.now > pendingUntil { pending := []; }
      pendingOwner := owner;
      assert View() == A.Entered(old(View()), command, owner, env.now);
      var p := ReadParameters(request, utf8);
      if p.Bad? { return A.Status(p.status); }
      if command == A.GET_INFO {
        r := A.Information;
      } else if command == A.MAKE_CREDENTIAL || command == GET_ASSERTION {
        if p.value.None? { return A.Status(A.ERR_OTHER); }
        if command == A.MAKE_CREDENTIAL {
          r := MakeCredential(p.value.value, env);
        } else {
          r := GetAssertion(p.value.value, env);
        }
      } else if command == A.GET_NEXT_ASSERTION {
        r := GetNextAssertion(env);
      } else {
        r := A.Status(A.ERR_INVALID_COMMAND);
      }
    }
  }
}
