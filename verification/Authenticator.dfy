/**
 * The phone's authenticator: stored credentials with their counters, the accounts that are left
 * for getNextAssertion, and the commands. The Keystore, the clock, the random number generator
 * and the user's answer come in through an `Env`.
 */
module Authenticator {
  import opened Bytes
  import opened Cbor
  import opened CborDecode
  import opened Probe

  const OK := 0x00
  const ERR_INVALID_COMMAND := 0x01
  const ERR_INVALID_CBOR := 0x12
  const ERR_MISSING_PARAMETER := 0x14
  const ERR_CREDENTIAL_EXCLUDED := 0x19
  const ERR_UNSUPPORTED_ALGORITHM := 0x26
  const ERR_NO_CREDENTIALS := 0x2E
  const ERR_NOT_ALLOWED := 0x30
  const ERR_PIN_NOT_SET := 0x35
  const ERR_OTHER := 0x7F

  const MAKE_CREDENTIAL: byte := 0x01
  const GET_INFO: byte := 0x04
  const GET_NEXT_ASSERTION: byte := 0x08

  /** How long the remaining accounts of a sign-in are kept, in milliseconds. */
  const KEPT := 30_000

  type Id = seq<byte>
  type Millis = x: int | 0 <= x < 0x8000_0000_0000_0000

  /** Texts are given by their UTF-8 bytes. */
  datatype Credential = Credential(
    rp: seq<byte>, uid: seq<byte>, name: seq<byte>, displayName: seq<byte>, rk: bool, n: nat, t: Millis)

  type Store = map<Id, Credential>

  datatype State = State(
    store: Store,
    pending: seq<Id>,
    hash: seq<byte>,
    rp: seq<byte>,
    flags: nat,
    owner: Option<nat>,
    until: int)

  /**
   * What one command meets: the time when it starts and when the user is done, the user's answer,
   * a new random identifier, the order in which the store happens to list its entries, and
   * whether the Keystore makes a key and signs.
   */
  datatype Env = Env(now: Millis, later: Millis, answer: int, newId: Id, order: seq<Id>, generates: bool, signs: bool)

  /** An empty name is left out of the response. */
  datatype User = User(id: seq<byte>, name: seq<byte>, displayName: seq<byte>)

  /**
   * An assertion over `rp` and `hash` with these flags and this counter; `count` when it tells how
   * many accounts there are.
   */
  datatype Assertion = Assertion(
    id: Id, rp: seq<byte>, hash: seq<byte>, flags: nat, counter: nat, user: Option<User>, count: Option<nat>)

  datatype Reply =
    | Status(code: int)
    | Information
    | Created(id: Id, rp: seq<byte>, hash: seq<byte>)
    | Asserted(assertion: Assertion)

  /** What a command leaves, what the user answered if it asked, and what it returns. */
  datatype Outcome = Outcome(state: State, asked: Option<int>, reply: Reply)

  // ---- Reading the parameters -----------------------------------------------------------------

  /** A value, or the status of the exception that reading it throws. */
  datatype Checked<+T> = Bad(status: int) | Good(value: T)

  const ID := Text([0x69, 0x64])
  const TYPE := Text([0x74, 0x79, 0x70, 0x65])
  const ALG := Text([0x61, 0x6c, 0x67])
  const RK := Text([0x72, 0x6b])
  const UV := Text([0x75, 0x76])
  const NAME := Text([0x6e, 0x61, 0x6d, 0x65])
  const DISPLAY_NAME := Text([0x64, 0x69, 0x73, 0x70, 0x6c, 0x61, 0x79, 0x4e, 0x61, 0x6d, 0x65])
  const PUBLIC_KEY := Text([0x70, 0x75, 0x62, 0x6c, 0x69, 0x63, 0x2d, 0x6b, 0x65, 0x79])

  // Casts: null passes, another type throws.
  function AsText(v: Value): Checked<Option<seq<byte>>> {
    match v
    case Null => Good(None)
    case Text(t) => Good(Some(t))
    case _ => Bad(ERR_INVALID_CBOR)
  }

  function AsBinary(v: Value): Checked<Option<seq<byte>>> {
    match v
    case Null => Good(None)
    case Binary(b) => Good(Some(b))
    case _ => Bad(ERR_INVALID_CBOR)
  }

  function AsMap(v: Value): Checked<Option<seq<Pair>>> {
    match v
    case Null => Good(None)
    case Map(m) => Good(Some(m))
    case _ => Bad(ERR_INVALID_CBOR)
  }

  function AsList(v: Value): Checked<Option<seq<Value>>> {
    match v
    case Null => Good(None)
    case Array(l) => Good(Some(l))
    case _ => Bad(ERR_INVALID_CBOR)
  }

  function TextOr(v: Value, other: seq<byte>): seq<byte> {
    if v.Text? then v.utf8 else other
  }

  /** The parameter map; None for an explicit null. */
  function Parameters(request: seq<byte>, utf8: Decoder): Checked<Option<seq<Pair>>> {
    if |request| <= 1 then Good(Some([])) else
      match JavaItem(request, 1, 0, utf8)
      case Fail => Bad(ERR_INVALID_CBOR)
      case Done(v, _, _) => AsMap(v)
  }

  /** The "id" of one entry of an allow or exclude list. */
  function EntryId(v: Value): Checked<Option<seq<byte>>> {
    match AsMap(v)
    case Bad(status) => Bad(status)
    case Good(None) => Bad(ERR_OTHER)
    case Good(Some(m)) => AsBinary(Get(m, ID))
  }

  datatype GetArgs = GetArgs(rp: seq<byte>, hash: seq<byte>, up: bool, uv: bool, allow: seq<Value>)

  function ReadGet(p: seq<Pair>): Checked<GetArgs> {
    match (AsText(Get(p, Integer(1))), AsBinary(Get(p, Integer(2))))
    case (Bad(status), _) => Bad(status)
    case (_, Bad(status)) => Bad(status)
    case (Good(Some(rp)), Good(Some(hash))) =>
      if Get(p, Integer(6)) == Binary([]) then Bad(ERR_PIN_NOT_SET) else
        (match (AsMap(Get(p, OPTIONS)), AsList(Get(p, Integer(3))))
         case (Bad(status), _) => Bad(status)
         case (_, Bad(status)) => Bad(status)
         case (Good(opts), Good(allow)) =>
           Good(GetArgs(rp, hash,
                        opts.None? || Get(opts.value, UP) != Bool(false),
                        opts.Some? && Get(opts.value, UV) == Bool(true),
                        if allow.None? then [] else allow.value)))
    case _ => Bad(ERR_MISSING_PARAMETER)
  }

  datatype MakeArgs = MakeArgs(hash: seq<byte>, rp: Option<seq<byte>>, user: seq<Pair>, rk: bool, exclude: seq<Value>)

  function OffersEs256(algs: seq<Value>): Checked<bool> {
    if algs == [] then Good(false) else
      match AsMap(algs[0])
      case Bad(status) => Bad(status)
      case Good(None) => Bad(ERR_OTHER)
      case Good(Some(m)) =>
        match OffersEs256(algs[1..])
        case Bad(status) => Bad(status)
        case Good(later) => Good(later || (Get(m, TYPE) == PUBLIC_KEY && Get(m, ALG) == Integer(-7)))
  }

  function ReadMake(p: seq<Pair>): Checked<MakeArgs> {
    match (AsBinary(Get(p, Integer(1))), AsMap(Get(p, Integer(2))), AsMap(Get(p, Integer(3))),
           AsList(Get(p, Integer(4))))
    case (Bad(status), _, _, _) => Bad(status)
    case (_, Bad(status), _, _) => Bad(status)
    case (_, _, Bad(status), _) => Bad(status)
    case (_, _, _, Bad(status)) => Bad(status)
    case (Good(Some(hash)), Good(Some(rp)), Good(Some(user)), Good(Some(algs))) =>
      (match OffersEs256(algs)
       case Bad(status) => Bad(status)
       case Good(false) => Bad(ERR_UNSUPPORTED_ALGORITHM)
       case Good(true) =>
         if Get(p, Integer(8)) == Binary([]) then Bad(ERR_PIN_NOT_SET) else
           (match (AsText(Get(rp, ID)), AsMap(Get(p, Integer(7))), AsList(Get(p, Integer(5))))
            case (Bad(status), _, _) => Bad(status)
            case (_, Bad(status), _) => Bad(status)
            case (_, _, Bad(status)) => Bad(status)
            case (Good(rpId), Good(opts), Good(exclude)) =>
              Good(MakeArgs(hash, rpId, user, opts.Some? && Get(opts.value, RK) == Bool(true),
                            if exclude.None? then [] else exclude.value))))
    case _ => Bad(ERR_MISSING_PARAMETER)
  }

  // ---- Decimal times --------------------------------------------------------------------------

  /** The last `width` decimal digits of `t`, as `%0<width>d` prints a number that fits. */
  function Digits(t: nat, width: nat): (s: string)
    ensures |s| == width
  {
    if width == 0 then "" else Digits(t / 10, width - 1) + [(('0' as int) + t % 10) as char]
  }

  function Pow10(n: nat): nat {
    if n == 0 then 1 else 10 * Pow10(n - 1)
  }

  /** `compareTo` < 0 on strings of one length. */
  predicate TextLess(a: string, b: string)
    requires |a| == |b|
  {
    a != "" && (a[0] < b[0] || (a[0] == b[0] && TextLess(a[1..], b[1..])))
  }

  lemma {:induction false} TextLessSnoc(a: string, c: char, b: string, d: char)
    requires |a| == |b|
    ensures TextLess(a + [c], b + [d]) <==> TextLess(a, b) || (a == b && c < d)
  {
    if a != "" {
      assert (a + [c])[1..] == a[1..] + [c] && (b + [d])[1..] == b[1..] + [d];
      TextLessSnoc(a[1..], c, b[1..], d);
      assert a == b <==> a[0] == b[0] && a[1..] == b[1..] by {
        assert a == [a[0]] + a[1..] && b == [b[0]] + b[1..];
      }
    } else {
      assert a + [c] == [c] && b + [d] == [d];
    }
  }

  /** Zero-padded times compare like the numbers. */
  lemma {:induction false} DigitsCompare(t: nat, u: nat, width: nat)
    requires t < Pow10(width) && u < Pow10(width)
    ensures TextLess(Digits(t, width), Digits(u, width)) <==> t < u
    ensures Digits(t, width) == Digits(u, width) <==> t == u
  {
    if width > 0 {
      DigitsCompare(t / 10, u / 10, width - 1);
      var a, b := Digits(t / 10, width - 1), Digits(u / 10, width - 1);
      var c, d := (('0' as int) + t % 10) as char, (('0' as int) + u % 10) as char;
      TextLessSnoc(a, c, b, d);
      assert Digits(t, width) == a + [c] && Digits(u, width) == b + [d];
      assert a + [c] == b + [d] <==> a == b && c == d by {
        assert (a + [c])[..width - 1] == a && (b + [d])[..width - 1] == b;
        assert (a + [c])[width - 1] == c && (b + [d])[width - 1] == d;
      }
    }
  }

  lemma MillisFit(t: Millis)
    ensures t < Pow10(20)
  {
    assert Pow10(5) == 10 * Pow10(4) && Pow10(10) == 10 * Pow10(9) && Pow10(15) == 10 * Pow10(14);
    assert Pow10(4) == 10 * Pow10(3) && Pow10(3) == 10 * Pow10(2) && Pow10(2) == 100;
    assert Pow10(9) == 10 * Pow10(8) && Pow10(8) == 10 * Pow10(7) && Pow10(7) == 10 * Pow10(6);
    assert Pow10(14) == 10 * Pow10(13) && Pow10(13) == 10 * Pow10(12) && Pow10(12) == 10 * Pow10(11);
    assert Pow10(20) == 10 * Pow10(19) && Pow10(19) == 10 * Pow10(18) && Pow10(18) == 10 * Pow10(17);
    assert Pow10(17) == 10 * Pow10(16) && Pow10(16) == 10 * Pow10(15);
  }

  // ---- Which credentials answer ---------------------------------------------------------------

  predicate NoRepeats<T(==)>(s: seq<T>) {
    forall i, j :: 0 <= i < j < |s| ==> s[i] != s[j]
  }

  /** The store's entries in some order, each once. */
  ghost predicate Lists(order: seq<Id>, store: Store) {
    NoRepeats(order) && forall id :: id in order <==> id in store
  }

  type Row = (string, Id)

  function Rows(store: Store, rp: seq<byte>, order: seq<Id>): seq<Row>
    requires forall id <- order :: id in store
  {
    if order == [] then []
    else (if store[order[0]].rp == rp then [(Digits(store[order[0]].t, 20), order[0])] else [])
         + Rows(store, rp, order[1..])
  }

  predicate Dated(rows: seq<Row>) {
    forall i :: 0 <= i < |rows| ==> |rows[i].0| == 20
  }

  /** The list's stable sort, later times first. */
  function Newest(rows: seq<Row>): (sorted: seq<Row>)
    requires Dated(rows)
    ensures multiset(sorted) == multiset(rows) && Dated(sorted)
  {
    if rows == [] then []
    else
      assert rows == [rows[0]] + rows[1..];
      InsertRow(rows[0], Newest(rows[1..]))
  }

  function InsertRow(row: Row, sorted: seq<Row>): (more: seq<Row>)
    requires Dated(sorted) && |row.0| == 20
    ensures multiset(more) == multiset{row} + multiset(sorted) && Dated(more)
  {
    if sorted == [] || !TextLess(row.0, sorted[0].0) then [row] + sorted
    else
      assert sorted == [sorted[0]] + sorted[1..];
      [sorted[0]] + InsertRow(row, sorted[1..])
  }

  function Ids(rows: seq<Row>): (ids: seq<Id>)
    ensures |ids| == |rows|
    ensures forall i :: 0 <= i < |rows| ==> ids[i] == rows[i].1
  {
    seq(|rows|, i requires 0 <= i < |rows| => rows[i].1)
  }

  lemma {:induction false} RowsAreDated(store: Store, rp: seq<byte>, order: seq<Id>)
    requires forall id <- order :: id in store
    ensures Dated(Rows(store, rp, order))
  {
    if order != [] {
      RowsAreDated(store, rp, order[1..]);
    }
  }

  /** What a getAssertion without an allow list finds. */
  function Discovered(store: Store, rp: seq<byte>, order: seq<Id>): seq<Id>
    requires forall id <- order :: id in store
  {
    RowsAreDated(store, rp, order);
    Ids(Newest(Rows(store, rp, order)))
  }

  /** What one with an allow list finds: each named credential of the site once, as first named. */
  function Allowed(store: Store, rp: seq<byte>, allow: seq<Value>, hits: seq<Id>): Checked<seq<Id>> {
    if allow == [] then Good(hits) else
      match EntryId(allow[0])
      case Bad(status) => Bad(status)
      case Good(id) =>
        if id.Some? && id.value in store && store[id.value].rp == rp && id.value !in hits
        then Allowed(store, rp, allow[1..], hits + [id.value])
        else Allowed(store, rp, allow[1..], hits)
  }

  function Hits(store: Store, args: GetArgs, order: seq<Id>): Checked<seq<Id>>
    requires forall id <- order :: id in store
  {
    if args.allow == [] then Good(Discovered(store, args.rp, order))
    else Allowed(store, args.rp, args.allow, [])
  }

  /** Whether the exclude list names a stored credential of the site. */
  function Excluded(store: Store, rp: Option<seq<byte>>, exclude: seq<Value>): Checked<bool> {
    if exclude == [] then Good(false) else
      match EntryId(exclude[0])
      case Bad(status) => Bad(status)
      case Good(id) =>
        if id.Some? && id.value in store then
          if rp.None? then Bad(ERR_OTHER)
          else if store[id.value].rp == rp.value then Good(true)
          else Excluded(store, rp, exclude[1..])
        else Excluded(store, rp, exclude[1..])
  }

  // ---- The commands ---------------------------------------------------------------------------

  predicate Held(s: State) {
    forall id <- s.pending :: id in s.store
  }

  function FlagsFor(up: bool, uv: bool): nat {
    (if up then 0x01 else 0) + (if up || uv then 0x04 else 0)
  }

  /** Names are told only once the user was verified. */
  function UserOf(c: Credential, flags: nat): User {
    if flags >= 0x04 then User(c.uid, c.name, c.displayName) else User(c.uid, [], [])
  }

  function Counted(store: Store, id: Id): Store
    requires id in store
  {
    store[id := store[id].(n := store[id].n + 1)]
  }

  /** The counter is stored before the key signs. */
  function Assert(s: State, asked: Option<int>, id: Id, rp: seq<byte>, hash: seq<byte>, flags: nat, count: nat,
                  withUser: bool, signs: bool): Outcome
    requires id in s.store
  {
    var t := s.(store := Counted(s.store, id));
    if !signs then Outcome(t, asked, Status(ERR_OTHER)) else
      Outcome(t, asked, Asserted(Assertion(id, rp, hash, flags, t.store[id].n,
                                        if withUser then Some(UserOf(s.store[id], flags)) else None,
                                        if count > 1 then Some(count) else None)))
  }

  function GetAssertion(s: State, args: GetArgs, env: Env): Outcome
    requires Lists(env.order, s.store)
  {
    match Hits(s.store, args, env.order)
    case Bad(status) => Outcome(s, None, Status(status))
    case Good(hits) =>
      if hits == [] then Outcome(s, if args.up then Some(env.answer) else None, Status(ERR_NO_CREDENTIALS))
      else if (args.up || args.uv) && env.answer != OK then Outcome(s, Some(env.answer), Status(env.answer))
      else
        HitsAreHeld(s.store, args, env.order);
        var discoverable := args.allow == [];
        var flags := FlagsFor(args.up, args.uv);
        var t := s.(pending := if discoverable then hits[1..] else [], rp := args.rp, hash := args.hash,
                    flags := flags, until := env.later + KEPT);
        Assert(t, if args.up || args.uv then Some(env.answer) else None, hits[0], args.rp, args.hash, flags,
               if discoverable then |hits| else 0, discoverable, env.signs)
  }

  function GetNextAssertion(s: State, env: Env): Outcome
    requires Held(s)
  {
    if s.pending == [] then Outcome(s, None, Status(ERR_NOT_ALLOWED))
    else Assert(s.(pending := s.pending[1..]), None, s.pending[0], s.rp, s.hash, s.flags, 0, true, env.signs)
  }

  /** A new discoverable key replaces the old one for the same site and account. */
  function Replaced(store: Store, rp: seq<byte>, uid: seq<byte>): Store {
    map id | id in store && !(store[id].rk && store[id].rp == rp && store[id].uid == uid) :: store[id]
  }

  function OrEmpty(b: Option<seq<byte>>): seq<byte> {
    if b.None? then [] else b.value
  }

  function MakeCredential(s: State, args: MakeArgs, env: Env): Outcome {
    match Excluded(s.store, args.rp, args.exclude)
    case Bad(status) => Outcome(s, None, Status(status))
    case Good(true) => Outcome(s, Some(env.answer),
                               Status(if env.answer == OK then ERR_CREDENTIAL_EXCLUDED else env.answer))
    case Good(false) =>
      if args.rp.None? then Outcome(s, None, Status(ERR_OTHER))
      else if env.answer != OK then Outcome(s, Some(env.answer), Status(env.answer))
      else Create(s, args, args.rp.value, env)
  }

  function Create(s: State, args: MakeArgs, rp: seq<byte>, env: Env): Outcome {
    var uid := AsBinary(Get(args.user, ID));
    if args.rk && uid.Bad? then Outcome(s, Some(OK), Status(uid.status)) else
      var rest := if args.rk then Replaced(s.store, rp, OrEmpty(uid.value)) else s.store;
      if !env.generates then Outcome(s.(store := rest), Some(OK), Status(ERR_OTHER))
      else if uid.Bad? then Outcome(s, Some(OK), Status(uid.status))
      else
        var c := Credential(rp, OrEmpty(uid.value), TextOr(Get(args.user, NAME), []),
                            TextOr(Get(args.user, DISPLAY_NAME), []), args.rk, 0, env.later);
        Outcome(s.(store := rest[env.newId := c]), Some(OK),
             if env.signs then Created(env.newId, rp, args.hash) else Status(ERR_OTHER))
  }

  /** Anything but a getNextAssertion of the same connection in time gives up the remaining accounts. */
  predicate Continues(s: State, command: byte, owner: Option<nat>, now: Millis) {
    command == GET_NEXT_ASSERTION && owner == s.owner && now <= s.until
  }

  function Entered(s: State, command: byte, owner: Option<nat>, now: Millis): State {
    s.(pending := if Continues(s, command, owner, now) then s.pending else [], owner := owner)
  }

  function Command(s: State, command: byte, p: Option<seq<Pair>>, env: Env): Outcome
    requires Held(s) && Lists(env.order, s.store)
  {
    if command == GET_INFO then Outcome(s, None, Information)
    else if command == MAKE_CREDENTIAL || command == GET_ASSERTION then
      if p.None? then Outcome(s, None, Status(ERR_OTHER))
      else if command == MAKE_CREDENTIAL then
        match ReadMake(p.value)
        case Bad(status) => Outcome(s, None, Status(status))
        case Good(args) => MakeCredential(s, args, env)
      else
        match ReadGet(p.value)
        case Bad(status) => Outcome(s, None, Status(status))
        case Good(args) => GetAssertion(s, args, env)
    else if command == GET_NEXT_ASSERTION then GetNextAssertion(s, env)
    else Outcome(s, None, Status(ERR_INVALID_COMMAND))
  }

  function Handle(s: State, request: seq<byte>, owner: Option<nat>, env: Env, utf8: Decoder): Outcome
    requires Held(s) && Lists(env.order, s.store)
  {
    if request == [] then Outcome(s, None, Status(ERR_INVALID_COMMAND)) else
      var e := Entered(s, request[0], owner, env.now);
      match Parameters(request, utf8)
      case Bad(status) => Outcome(e, None, Status(status))
      case Good(p) => Command(e, request[0], p, env)
  }

  // ---- What is found ----------------------------------------------------------------------------

  lemma {:induction false} AllowedAreHeld(store: Store, rp: seq<byte>, allow: seq<Value>, hits: seq<Id>)
    requires forall id <- hits :: id in store && store[id].rp == rp
    requires NoRepeats(hits)
    ensures
      var r := Allowed(store, rp, allow, hits);
      r.Good? ==> NoRepeats(r.value) && forall id <- r.value :: id in store && store[id].rp == rp
  {
    if allow != [] && EntryId(allow[0]).Good? {
      var id := EntryId(allow[0]).value;
      if id.Some? && id.value in store && store[id.value].rp == rp && id.value !in hits {
        AllowedAreHeld(store, rp, allow[1..], hits + [id.value]);
      } else {
        AllowedAreHeld(store, rp, allow[1..], hits);
      }
    }
  }

  lemma {:induction false} RowsAreFound(store: Store, rp: seq<byte>, order: seq<Id>, id: Id)
    requires forall i <- order :: i in store
    ensures forall row <- Rows(store, rp, order) ::
              row.1 in order && store[row.1].rp == rp && row.0 == Digits(store[row.1].t, 20)
    ensures id in order && store[id].rp == rp ==> (Digits(store[id].t, 20), id) in Rows(store, rp, order)
  {
    hide Digits;
    if order != [] {
      RowsAreFound(store, rp, order[1..], id);
    }
  }

  lemma {:induction false} RowsDoNotRepeat(store: Store, rp: seq<byte>, order: seq<Id>)
    requires NoRepeats(order) && forall i <- order :: i in store
    ensures NoRepeats(Ids(Rows(store, rp, order)))
  {
    hide Digits;
    if order != [] {
      var rest, all := Rows(store, rp, order[1..]), Rows(store, rp, order);
      RowsDoNotRepeat(store, rp, order[1..]);
      RowsAreFound(store, rp, order[1..], order[0]);
      if store[order[0]].rp == rp {
        forall j | 0 <= j < |rest|
          ensures Ids(rest)[j] != order[0]
        {
          assert rest[j] in rest;
        }
        assert Ids(all) == [order[0]] + Ids(rest);
      }
    }
  }

  predicate LaterFirst(rows: seq<Row>) {
    Dated(rows) && forall i, j :: 0 <= i < j < |rows| ==> !TextLess(rows[i].0, rows[j].0)
  }

  lemma {:induction false} TextLessIsAnOrder(a: string, b: string, c: string)
    requires |a| == |b| == |c|
    ensures !TextLess(a, a)
    ensures TextLess(a, b) && TextLess(b, c) ==> TextLess(a, c)
    ensures !TextLess(a, b) && !TextLess(b, c) ==> !TextLess(a, c)
    ensures TextLess(a, b) ==> !TextLess(b, a)
  {
    if a != "" {
      TextLessIsAnOrder(a[1..], b[1..], c[1..]);
    }
  }

  lemma SpliceLater<T>(x: T, rest: seq<T>, row: T, j: nat)
    requires j <= |rest|
    ensures [x] + (rest[..j] + [row] + rest[j..]) == ([x] + rest)[..j + 1] + [row] + ([x] + rest)[j + 1..]
  {
    assert ([x] + rest)[..j + 1] == [x] + rest[..j];
    assert ([x] + rest)[j + 1..] == rest[j..];
  }

  /** Where the insertion puts the row: behind every later one, before everything else. */
  lemma {:induction false} InsertSplices(row: Row, sorted: seq<Row>) returns (k: nat)
    requires Dated(sorted) && |row.0| == 20
    ensures k <= |sorted| && InsertRow(row, sorted) == sorted[..k] + [row] + sorted[k..]
    ensures forall i :: 0 <= i < k ==> TextLess(row.0, sorted[i].0)
    ensures k < |sorted| ==> !TextLess(row.0, sorted[k].0)
  {
    hide TextLess;
    if sorted == [] || !TextLess(row.0, sorted[0].0) {
      k := 0;
      assert sorted[..k] + [row] + sorted[k..] == [row] + sorted;
    } else {
      var rest := sorted[1..];
      var j := InsertSplices(row, rest);
      k := j + 1;
      assert InsertRow(row, sorted) == [sorted[0]] + (rest[..j] + [row] + rest[j..]);
      hide InsertRow, Dated;
      OneRowFurther(row, sorted, j);
    }
  }

  lemma OneRowFurther(row: Row, sorted: seq<Row>, j: nat)
    requires sorted != [] && |row.0| == |sorted[0].0| == 20 && TextLess(row.0, sorted[0].0) && j < |sorted|
    requires forall i :: 0 <= i < j ==> |sorted[1..][i].0| == 20 && TextLess(row.0, sorted[1..][i].0)
    ensures [sorted[0]] + (sorted[1..][..j] + [row] + sorted[1..][j..]) == sorted[..j + 1] + [row] + sorted[j + 1..]
    ensures forall i :: 0 <= i <= j ==> |sorted[i].0| == 20 && TextLess(row.0, sorted[i].0)
  {
    hide TextLess;
    var rest := sorted[1..];
    assert sorted == [sorted[0]] + rest;
    SpliceLater(sorted[0], rest, row, j);
    forall i | 0 <= i <= j
      ensures |sorted[i].0| == 20 && TextLess(row.0, sorted[i].0)
    {
      assert i > 0 ==> sorted[i] == rest[i - 1];
    }
  }

  lemma SplicedRows(row: Row, sorted: seq<Row>, k: nat)
    requires LaterFirst(sorted) && |row.0| == 20 && NoRepeats(Ids(sorted)) && row.1 !in Ids(sorted)
    requires k <= |sorted|
    requires forall i :: 0 <= i < k ==> TextLess(row.0, sorted[i].0)
    requires k < |sorted| ==> !TextLess(row.0, sorted[k].0)
    ensures var more := sorted[..k] + [row] + sorted[k..]; LaterFirst(more) && NoRepeats(Ids(more))
  {
    hide TextLess;
    var more := sorted[..k] + [row] + sorted[k..];
    forall i, j | 0 <= i < j < |more|
      ensures !TextLess(more[i].0, more[j].0) && Ids(more)[i] != Ids(more)[j]
    {
      if i != k && j != k {
        var x, y := if i < k then i else i - 1, if j < k then j else j - 1;
        assert more[i] == sorted[x] && more[j] == sorted[y];
        assert Ids(sorted)[x] != Ids(sorted)[y];
      } else if j == k {
        TextLessIsAnOrder(row.0, sorted[i].0, row.0);
        assert Ids(sorted)[i] in Ids(sorted);
      } else {
        assert Ids(sorted)[j - 1] in Ids(sorted);
        TextLessIsAnOrder(row.0, sorted[k].0, sorted[j - 1].0);
      }
    }
  }

  lemma FirstIsNew(rows: seq<Row>, rest: seq<Row>)
    requires rows != [] && NoRepeats(Ids(rows)) && forall row :: row in rest ==> row in rows[1..]
    ensures rows[0].1 !in Ids(rest)
  {
    forall i | 0 <= i < |rest|
      ensures rest[i].1 != rows[0].1
    {
      assert rest[i] in rest;
      var j :| 0 <= j < |rows| - 1 && rows[1..][j] == rest[i];
      assert Ids(rows)[j + 1] == rest[i].1 && Ids(rows)[0] == rows[0].1;
    }
  }

  lemma {:induction false} NewestIsInOrder(rows: seq<Row>)
    requires Dated(rows) && NoRepeats(Ids(rows))
    ensures LaterFirst(Newest(rows)) && NoRepeats(Ids(Newest(rows)))
    ensures forall row :: row in Newest(rows) <==> row in rows
  {
    SameRows(rows, Newest(rows));
    if rows != [] {
      var rest := Newest(rows[1..]);
      assert NoRepeats(Ids(rows[1..])) by {
        assert forall i :: 0 <= i < |rows| - 1 ==> Ids(rows[1..])[i] == Ids(rows)[i + 1];
      }
      NewestIsInOrder(rows[1..]);
      FirstIsNew(rows, rest);
      var k := InsertSplices(rows[0], rest);
      SplicedRows(rows[0], rest, k);
    }
  }

  lemma SameRows(a: seq<Row>, b: seq<Row>)
    requires multiset(a) == multiset(b)
    ensures forall row :: row in a <==> row in b
  {
    assert forall row :: row in a <==> row in multiset(a);
    assert forall row :: row in b <==> row in multiset(b);
  }

  predicate NewestFirst(store: Store, ids: seq<Id>) {
    (forall id <- ids :: id in store)
    && forall i, j :: 0 <= i < j < |ids| ==> store[ids[i]].t >= store[ids[j]].t
  }

  /** Without an allow list: every credential of the site exactly once, latest first. */
  lemma {:induction false} DiscoveredIsTheWholeSite(store: Store, rp: seq<byte>, order: seq<Id>)
    requires Lists(order, store)
    ensures var ids := Discovered(store, rp, order);
            NoRepeats(ids) && NewestFirst(store, ids) && forall id :: id in ids <==> id in store && store[id].rp == rp
  {
    RowsAreDated(store, rp, order);
    var rows := Rows(store, rp, order);
    var sorted := Newest(rows);
    var ids := Discovered(store, rp, order);
    RowsAreFound(store, rp, order, []);
    RowsDoNotRepeat(store, rp, order);
    NewestIsInOrder(rows);
    forall i | 0 <= i < |ids|
      ensures ids[i] in store && store[ids[i]].rp == rp && sorted[i].0 == Digits(store[ids[i]].t, 20)
    {
      assert sorted[i] in sorted && sorted[i] in rows;
    }
    forall id | id in store && store[id].rp == rp
      ensures id in ids
    {
      RowsAreFound(store, rp, order, id);
      var i :| 0 <= i < |sorted| && sorted[i] == (Digits(store[id].t, 20), id);
      assert ids[i] == id;
    }
    forall i, j | 0 <= i < j < |ids|
      ensures store[ids[i]].t >= store[ids[j]].t
    {
      MillisFit(store[ids[i]].t);
      MillisFit(store[ids[j]].t);
      DigitsCompare(store[ids[i]].t, store[ids[j]].t, 20);
    }
  }

  lemma HitsAreHeld(store: Store, args: GetArgs, order: seq<Id>)
    requires Lists(order, store)
    ensures var r := Hits(store, args, order);
            r.Good? ==> NoRepeats(r.value) && forall id <- r.value :: id in store && store[id].rp == args.rp
  {
    if args.allow == [] {
      DiscoveredIsTheWholeSite(store, args.rp, order);
    } else {
      AllowedAreHeld(store, args.rp, args.allow, []);
    }
  }

  predicate Named(list: seq<Value>, id: Id) {
    list != [] && (EntryId(list[0]) == Good(Some(id)) || Named(list[1..], id))
  }

  /** With an allow list: exactly the stored credentials of the site that it names, each once. */
  lemma {:induction false} AllowedIsWhatTheListNames(store: Store, rp: seq<byte>, allow: seq<Value>, hits: seq<Id>,
                                                     id: Id)
    requires Allowed(store, rp, allow, hits).Good?
    ensures id in Allowed(store, rp, allow, hits).value
       <==> id in hits || (id in store && store[id].rp == rp && Named(allow, id))
  {
    hide EntryId;
    if allow != [] {
      var entry := EntryId(allow[0]).value;
      if entry.Some? && entry.value in store && store[entry.value].rp == rp && entry.value !in hits {
        AllowedIsWhatTheListNames(store, rp, allow[1..], hits + [entry.value], id);
      } else {
        AllowedIsWhatTheListNames(store, rp, allow[1..], hits, id);
      }
    }
  }

  /** The entry names a stored credential of the site. */
  predicate Known(store: Store, rp: seq<byte>, entry: Value) {
    match EntryId(entry)
    case Good(Some(id)) => id in store && store[id].rp == rp
    case _ => false
  }

  /** The entry can be read and names nothing that matters. */
  predicate Passed(store: Store, rp: seq<byte>, entry: Value) {
    EntryId(entry).Good? && !Known(store, rp, entry)
  }

  /** The first entry that is known or cannot be read; the length when there is none. */
  function FirstThatMatters(store: Store, rp: seq<byte>, exclude: seq<Value>): (k: nat)
    ensures k <= |exclude| && (k < |exclude| ==> !Passed(store, rp, exclude[k]))
    ensures forall i :: 0 <= i < k ==> Passed(store, rp, exclude[i])
  {
    if exclude == [] || !Passed(store, rp, exclude[0]) then 0 else 1 + FirstThatMatters(store, rp, exclude[1..])
  }

  /**
   * For every exclude list the first entry that matters decides: a known one refuses the
   * registration, an unreadable one fails with its status, and without one the registration goes on.
   */
  lemma {:induction false} ExcludedIff(store: Store, rp: seq<byte>, exclude: seq<Value>)
    ensures
      var k := FirstThatMatters(store, rp, exclude);
      Excluded(store, Some(rp), exclude)
      == (if k == |exclude| then Good(false)
          else if Known(store, rp, exclude[k]) then Good(true)
          else Bad(EntryId(exclude[k]).status))
  {
    hide EntryId;
    if exclude != [] && Passed(store, rp, exclude[0]) {
      ExcludedIff(store, rp, exclude[1..]);
    }
  }

  predicate IsEs256(entry: Value) {
    entry.Map? && Get(entry.entries, TYPE) == PUBLIC_KEY && Get(entry.entries, ALG) == Integer(-7)
  }

  /** The first entry that is no map; the length when there is none. */
  function FirstUnreadable(algs: seq<Value>): (k: nat)
    ensures k <= |algs| && (k < |algs| ==> !algs[k].Map?)
    ensures forall i :: 0 <= i < k ==> algs[i].Map?
  {
    if algs == [] || !algs[0].Map? then 0 else 1 + FirstUnreadable(algs[1..])
  }

  /**
   * For every list of algorithms: the first entry that is no map fails with its status, even behind
   * an ES256 entry; without one the answer is whether some entry is ES256.
   */
  lemma {:induction false} OffersEs256Iff(algs: seq<Value>)
    ensures
      var k := FirstUnreadable(algs);
      OffersEs256(algs)
      == (if k < |algs| then Bad(if algs[k].Null? then ERR_OTHER else ERR_INVALID_CBOR)
          else Good(exists i :: 0 <= i < |algs| && IsEs256(algs[i])))
  {
    hide Get;
    if algs != [] && algs[0].Map? {
      OffersEs256Iff(algs[1..]);
      var later := algs[1..];
      assert (exists i :: 0 <= i < |algs| && IsEs256(algs[i]))
        <==> IsEs256(algs[0]) || exists i :: 0 <= i < |later| && IsEs256(later[i]) by {
        if i :| 0 <= i < |later| && IsEs256(later[i]) {
          assert algs[i + 1] == later[i];
        }
        if i :| 0 < i < |algs| && IsEs256(algs[i]) {
          assert later[i - 1] == algs[i];
        }
      }
    }
  }

  /** The byte string under "id" of a registration's user map. */
  function UserId(user: seq<Pair>): seq<byte> {
    match Get(user, ID)
    case Binary(b) => b
    case _ => []
  }

  /** The text under a key, empty when there is none. */
  function TextAt(m: seq<Pair>, key: Value): seq<byte> {
    match Get(m, key)
    case Text(t) => t
    case _ => []
  }

  /** The credential is what this registration asked for. */
  predicate StoredAs(c: Credential, args: MakeArgs, time: Millis) {
    && args.rp == Some(c.rp) && c.uid == UserId(args.user) && c.rk == args.rk && c.t == time
    && c.name == TextAt(args.user, NAME) && c.displayName == TextAt(args.user, DISPLAY_NAME)
  }

  /** A discoverable credential of the very site and account that the registration is for. */
  predicate IsLike(c: Credential, args: MakeArgs) {
    c.rk && args.rp == Some(c.rp) && c.uid == UserId(args.user)
  }

  /**
   * A new key is stored as the request's user map, site and options say; every other credential stays
   * as it was, except that a discoverable one takes the place of the old discoverable key for its
   * site and the request's own user id.
   */
  lemma CreationReplacesOnlyItsLike(s: State, args: MakeArgs, env: Env)
    requires env.newId !in s.store && MakeCredential(s, args, env).reply.Created?
    ensures
      var d := MakeCredential(s, args, env);
      var t := d.state.store;
      && args.rp.Some? && d.reply == Created(env.newId, args.rp.value, args.hash)
      && env.newId in t && t[env.newId].n == 0 && StoredAs(t[env.newId], args, env.later)
      && (forall id :: id in t && id != env.newId ==> id in s.store && t[id] == s.store[id])
      && forall id :: id in s.store ==> (id !in t <==> args.rk && IsLike(s.store[id], args))
  {
    hide Excluded, Get;
  }

  // ---- What the parameters say -----------------------------------------------------------------

  /** Where a registration's parameters come from: the keys of the parameter map and their types. */
  lemma MakeParametersSay(p: seq<Pair>)
    ensures
      var r := ReadMake(p);
      r.Good? ==>
        var args := r.value;
        && Get(p, Integer(1)) == Binary(args.hash) && Get(p, Integer(3)) == Map(args.user)
        && Get(p, Integer(2)).Map? && Get(p, Integer(4)).Array? && Get(p, Integer(8)) != Binary([])
        && Get(Get(p, Integer(2)).entries, ID) == (if args.rp.Some? then Text(args.rp.value) else Null)
        && (forall i :: 0 <= i < |Get(p, Integer(4)).items| ==> Get(p, Integer(4)).items[i].Map?)
        && (exists i :: 0 <= i < |Get(p, Integer(4)).items| && IsEs256(Get(p, Integer(4)).items[i]))
        && (args.rk <==> Get(p, Integer(7)).Map? && Get(Get(p, Integer(7)).entries, RK) == Bool(true))
        && (if Get(p, Integer(5)) == Null then args.exclude == [] else Get(p, Integer(5)) == Array(args.exclude))
  {
    hide Get, OffersEs256, IsEs256;
    if Get(p, Integer(4)).Array? {
      OffersEs256Iff(Get(p, Integer(4)).items);
    }
  }

  /** Where a sign-in's parameters come from; presence is wanted unless "up" is false. */
  lemma GetParametersSay(p: seq<Pair>)
    ensures
      var r, opts := ReadGet(p), Get(p, OPTIONS);
      r.Good? ==>
        var args := r.value;
        && Get(p, Integer(1)) == Text(args.rp) && Get(p, Integer(2)) == Binary(args.hash)
        && Get(p, Integer(6)) != Binary([]) && (opts.Map? || opts.Null?)
        && (args.up <==> !(opts.Map? && Get(opts.entries, UP) == Bool(false)))
        && (args.uv <==> opts.Map? && Get(opts.entries, UV) == Bool(true))
        && (if Get(p, Integer(3)) == Null then args.allow == [] else Get(p, Integer(3)) == Array(args.allow))
  {
    hide Get;
  }

  // ---- Whom a sign-in finds first ---------------------------------------------------------------

  /** The first entry that names a stored credential of the site; the length when there is none. */
  function FirstKnown(store: Store, rp: seq<byte>, allow: seq<Value>): (k: nat)
    ensures k <= |allow| && (k < |allow| ==> Known(store, rp, allow[k]))
    ensures forall i :: 0 <= i < k ==> !Known(store, rp, allow[i])
  {
    if allow == [] || Known(store, rp, allow[0]) then 0 else 1 + FirstKnown(store, rp, allow[1..])
  }

  lemma {:induction false} AllowedKeepsHits(store: Store, rp: seq<byte>, allow: seq<Value>, hits: seq<Id>)
    requires Allowed(store, rp, allow, hits).Good?
    ensures hits <= Allowed(store, rp, allow, hits).value
  {
    hide EntryId;
    if allow != [] {
      var entry := EntryId(allow[0]).value;
      if entry.Some? && entry.value in store && store[entry.value].rp == rp && entry.value !in hits {
        AllowedKeepsHits(store, rp, allow[1..], hits + [entry.value]);
      } else {
        AllowedKeepsHits(store, rp, allow[1..], hits);
      }
    }
  }

  /** With a readable allow list the first hit is the first entry that names a credential of the site. */
  lemma {:induction false} FirstAllowedIsFirstKnown(store: Store, rp: seq<byte>, allow: seq<Value>)
    requires Allowed(store, rp, allow, []).Good?
    ensures
      var hits, k := Allowed(store, rp, allow, []).value, FirstKnown(store, rp, allow);
      && (hits == [] <==> k == |allow|)
      && (hits != [] ==> EntryId(allow[k]) == Good(Some(hits[0])))
  {
    hide EntryId;
    if allow != [] {
      if Known(store, rp, allow[0]) {
        var first := [EntryId(allow[0]).value.value];
        assert [] + first == first;
        AllowedKeepsHits(store, rp, allow[1..], first);
      } else {
        FirstAllowedIsFirstKnown(store, rp, allow[1..]);
      }
    }
  }
}
