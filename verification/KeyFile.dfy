/**
 * The key file and the names beside it: who may sign in with which handles, what each handle's
 * device is called, and what the sign-in helper reads from the same file.
 */
module KeyFile {
  import opened Bytes
  import opened Text
  import Base64

  /** One non-blank line each, with a line feed. */
  function LinesFile(lines: seq<string>): string {
    if lines == [] then ""
    else (if lines[0] == "" then "" else lines[0] + "\n") + LinesFile(lines[1..])
  }

  function NonBlank(lines: seq<string>): seq<string> {
    if lines == [] then [] else (if lines[0] == "" then [] else [lines[0]]) + NonBlank(lines[1..])
  }

  // ---- One user's line ----------------------------------------------------------------------------

  predicate HasUser(line: string, user: string) {
    user + ":" <= line
  }

  /** The registrations on a line of this user. */
  function Entries(line: string, user: string): seq<string>
    requires HasUser(line, user)
  {
    Split(line[|user| + 1..], ':')
  }

  function HandleOf(entry: string): string {
    Split(entry, ',')[0]
  }

  /** The registrations on the user's first line. */
  function EntriesFor(lines: seq<string>, user: string): seq<string> {
    if lines == [] then []
    else if HasUser(lines[0], user) then Entries(lines[0], user)
    else EntriesFor(lines[1..], user)
  }

  function Handles(entries: seq<string>): seq<string> {
    if entries == [] then []
    else (if HandleOf(entries[0]) == "" then [] else [HandleOf(entries[0])]) + Handles(entries[1..])
  }

  /** `handles_for`; a user without a line has the one empty entry of an empty text. */
  function HandlesFor(lines: seq<string>, user: string): seq<string> {
    Handles(EntriesFor(lines, user))
  }

  // ---- Names ----------------------------------------------------------------------------------------

  function NameLine(user: string, handle: string, name: string): string {
    user + "\t" + handle + "\t" + name
  }

  /** The third field of a line whose first two are these; "" when there is none. */
  function NameIn(line: string, user: string, handle: string): Option<string> {
    var i := IndexOf(line, '\t');
    if line[..i] != user || i == |line| then None else
      var rest := line[i + 1..];
      var j := IndexOf(rest, '\t');
      if rest[..j] != handle then None
      else if j == |rest| then Some("") else Some(rest[j + 1..])
  }

  function FindName(names: seq<string>, user: string, handle: string): Option<string> {
    if names == [] then None
    else if NameIn(names[0], user, handle).Some? then NameIn(names[0], user, handle)
    else FindName(names[1..], user, handle)
  }

  function Shown(name: Option<string>, index: nat): string {
    if name.Some? && name.value != "" then name.value else "Android device " + Decimal(index + 1)
  }

  function NamesFor(lines: seq<string>, names: seq<string>, user: string): (shown: seq<string>)
    ensures |shown| == |HandlesFor(lines, user)|
  {
    var handles := HandlesFor(lines, user);
    seq(|handles|, i requires 0 <= i < |handles| => Shown(FindName(names, user, handles[i]), i))
  }

  // ---- What the sign-in helper reads ------------------------------------------------------------------

  datatype Credential = Credential(id: seq<byte>, key: seq<byte>, verification: bool)

  function Parse(entry: string): Option<Credential> {
    var fields := Split(entry, ',');
    var id := Base64.Decoded(fields[0]);
    if id.None? || |fields| < 2 then None else
      var key := Base64.Decoded(fields[1]);
      if key.None? || |fields| < 3 || fields[2] != "es256" || id.value == [] then None
      else Some(Credential(id.value, key.value, |fields| > 3 && Contains(fields[3], "+verification")))
  }

  function ParseAll(entries: seq<string>): seq<Credential> {
    if entries == [] then []
    else (if Parse(entries[0]).Some? then [Parse(entries[0]).value] else []) + ParseAll(entries[1..])
  }

  /** `credentials`, over every line of the user. */
  function Credentials(lines: seq<string>, user: string): seq<Credential> {
    if lines == [] then []
    else (if HasUser(lines[0], user) then ParseAll(Entries(lines[0], user)) else []) + Credentials(lines[1..], user)
  }

  // ---- Storing and removing -----------------------------------------------------------------------------

  function Stored(lines: seq<string>, user: string, credential: string): seq<string> {
    if lines == [] then [user + credential]
    else if HasUser(lines[0], user) then [lines[0] + credential] + lines[1..]
    else [lines[0]] + Stored(lines[1..], user, credential)
  }

  function WithoutHandle(entries: seq<string>, handle: string): seq<string> {
    if entries == [] then []
    else (if HandleOf(entries[0]) == handle then [] else [entries[0]]) + WithoutHandle(entries[1..], handle)
  }

  /** What is left of a line: nothing when it has no registration any more. */
  function RemovedFrom(line: string, user: string, handle: string): seq<string> {
    if !HasUser(line, user) then [line] else
      var fields := Split(line, ':');
      var left := WithoutHandle(fields[1..], handle);
      if left == [] then [] else [fields[0] + ":" + Join(left, ':')]
  }

  function Removed(lines: seq<string>, user: string, handle: string): seq<string> {
    if lines == [] then [] else RemovedFrom(lines[0], user, handle) + Removed(lines[1..], user, handle)
  }

  function WithoutName(names: seq<string>, user: string, handle: string): seq<string> {
    if names == [] then []
    else (if NameIn(names[0], user, handle).Some? then [] else [names[0]]) + WithoutName(names[1..], user, handle)
  }

  // ---- Well-formed input ----------------------------------------------------------------------------------

  predicate ValidUser(user: string) {
    ':' !in user && '\t' !in user && '\n' !in user && '\r' !in user
  }

  /** One registration as the key tool prints it: a colon, then a handle and more fields. */
  predicate ValidCredential(credential: string) {
    && credential != "" && credential[0] == ':' && ':' !in credential[1..] && '\t' !in credential
    && '\n' !in credential && '\r' !in credential && HandleOf(credential[1..]) != ""
  }

  function HandleIn(credential: string): string
    requires ValidCredential(credential)
  {
    HandleOf(credential[1..])
  }

  /** On no line of the user is there a registration with this handle. */
  predicate NewHandle(lines: seq<string>, user: string, handle: string) {
    lines == [] || ((HasUser(lines[0], user) ==> NotAmong(Entries(lines[0], user), handle))
                    && NewHandle(lines[1..], user, handle))
  }

  predicate NotAmong(entries: seq<string>, handle: string) {
    entries == [] || (HandleOf(entries[0]) != handle && NotAmong(entries[1..], handle))
  }

  // ---- One line -----------------------------------------------------------------------------------------------

  /** A line of a user, cut at its first colon. */
  lemma UserLine(line: string, user: string)
    requires ValidUser(user) && HasUser(line, user)
    ensures line == user + ":" + line[|user| + 1..]
    ensures Split(line, ':') == [user] + Entries(line, user)
  {
    var rest := line[|user| + 1..];
    assert line == user + ":" + rest;
    hide Split;
    SplitHere(user, ':', rest);
  }

  lemma OneUserOnly(line: string, user: string, other: string)
    requires ValidUser(user) && ValidUser(other) && HasUser(line, user) && HasUser(line, other)
    ensures user == other
  {
    UserLine(line, user);
    UserLine(line, other);
    assert Split(line, ':')[0] == user && Split(line, ':')[0] == other;
  }

  /** A registration more on the line. */
  lemma StoredOnLine(line: string, user: string, credential: string)
    requires ValidUser(user) && ValidCredential(credential) && HasUser(line, user)
    ensures HasUser(line + credential, user)
    ensures Entries(line + credential, user) == Entries(line, user) + [credential[1..]]
  {
    var rest, c := line[|user| + 1..], credential[1..];
    assert credential == ":" + c;
    assert (line + credential)[|user| + 1..] == rest + ":" + c;
    SplitConcat(rest, ':', c);
    SplitHere(c, ':', "");
  }

  lemma NewLine(user: string, credential: string)
    requires ValidUser(user) && ValidCredential(credential)
    ensures HasUser(user + credential, user) && Entries(user + credential, user) == [credential[1..]]
  {
    var c := credential[1..];
    assert user + credential == user + ":" + c;
    assert (user + credential)[|user| + 1..] == c;
    SplitHere(c, ':', "");
  }

  lemma {:induction false} HandlesConcat(a: seq<string>, b: seq<string>)
    ensures Handles(a + b) == Handles(a) + Handles(b)
  {
    hide HandleOf;
    if a == [] {
      assert a + b == b;
    } else {
      assert (a + b)[1..] == a[1..] + b;
      HandlesConcat(a[1..], b);
    }
  }

  lemma OneEntry(entry: string)
    ensures Handles([entry]) == if HandleOf(entry) == "" then [] else [HandleOf(entry)]
    ensures ParseAll([entry]) == if Parse(entry).Some? then [Parse(entry).value] else []
  {
    assert [entry][1..] == [];
  }

  // ---- Storing --------------------------------------------------------------------------------------------------

  lemma {:induction false} StoringAddsAnEntry(lines: seq<string>, user: string, credential: string)
    requires ValidUser(user) && ValidCredential(credential)
    ensures EntriesFor(Stored(lines, user, credential), user)
         == (if HasLine(lines, user) then EntriesFor(lines, user) else []) + [credential[1..]]
  {
    hide HasUser, Entries, ValidCredential, ValidUser;
    if lines == [] {
      NewLine(user, credential);
      assert [] + [credential[1..]] == [credential[1..]];
    } else if HasUser(lines[0], user) {
      StoredOnLine(lines[0], user, credential);
    } else {
      StoringAddsAnEntry(lines[1..], user, credential);
    }
  }

  predicate HasLine(lines: seq<string>, user: string) {
    lines != [] && (HasUser(lines[0], user) || HasLine(lines[1..], user))
  }

  lemma {:induction false} NoLineNoEntries(lines: seq<string>, user: string)
    requires !HasLine(lines, user)
    ensures EntriesFor(lines, user) == []
  {
    if lines != [] {
      NoLineNoEntries(lines[1..], user);
    }
  }

  /** The user has one handle more, at the end. */
  lemma StoringAppendsTheHandle(lines: seq<string>, user: string, credential: string)
    requires ValidUser(user) && ValidCredential(credential)
    ensures EntriesFor(Stored(lines, user, credential), user) == EntriesFor(lines, user) + [credential[1..]]
    ensures HandlesFor(Stored(lines, user, credential), user) == HandlesFor(lines, user) + [HandleIn(credential)]
  {
    StoringAddsAnEntry(lines, user, credential);
    if !HasLine(lines, user) {
      NoLineNoEntries(lines, user);
    }
    HandlesConcat(EntriesFor(lines, user), [credential[1..]]);
    OneEntry(credential[1..]);
  }

  /** Nobody else is touched. */
  lemma {:induction false} StoringTouchesNobodyElse(lines: seq<string>, user: string, credential: string, other: string)
    requires ValidUser(user) && ValidUser(other) && user != other && ValidCredential(credential)
    ensures EntriesFor(Stored(lines, user, credential), other) == EntriesFor(lines, other)
    ensures Credentials(Stored(lines, user, credential), other) == Credentials(lines, other)
  {
    hide ValidUser, ValidCredential;
    if lines == [] {
      NewLine(user, credential);
      NotTheOthers(user + credential, user, other);
    } else if HasUser(lines[0], user) {
      StoredOnLine(lines[0], user, credential);
      NotTheOthers(lines[0] + credential, user, other);
      NotTheOthers(lines[0], user, other);
    } else {
      StoringTouchesNobodyElse(lines[1..], user, credential, other);
    }
  }

  lemma NotTheOthers(line: string, user: string, other: string)
    requires ValidUser(user) && ValidUser(other) && user != other && HasUser(line, user)
    ensures !HasUser(line, other)
  {
    if HasUser(line, other) {
      OneUserOnly(line, user, other);
    }
  }

  // ---- Removing -------------------------------------------------------------------------------------------------

  lemma {:induction false} WithoutHandleConcat(a: seq<string>, b: seq<string>, handle: string)
    ensures WithoutHandle(a + b, handle) == WithoutHandle(a, handle) + WithoutHandle(b, handle)
  {
    hide HandleOf;
    if a == [] {
      assert a + b == b;
    } else {
      assert (a + b)[1..] == a[1..] + b;
      WithoutHandleConcat(a[1..], b, handle);
    }
  }

  lemma {:induction false} NothingToRemove(entries: seq<string>, handle: string)
    requires NotAmong(entries, handle)
    ensures WithoutHandle(entries, handle) == entries
  {
    if entries != [] {
      NothingToRemove(entries[1..], handle);
    }
  }

  lemma OneRemoved(entry: string, handle: string)
    ensures WithoutHandle([entry], handle) == if HandleOf(entry) == handle then [] else [entry]
  {
    assert [entry][1..] == [];
  }

  /** A line of the user, put together again from its entries. */
  lemma LineFromEntries(line: string, user: string)
    requires ValidUser(user) && HasUser(line, user)
    ensures user + ":" + Join(Entries(line, user), ':') == line && Entries(line, user) != []
  {
    JoinUndoesSplit(line[|user| + 1..], ':');
    assert line == user + ":" + line[|user| + 1..];
  }

  /** Removing a handle the line does not have leaves it as it is. */
  lemma NotOnLine(line: string, user: string, handle: string)
    requires ValidUser(user) && (HasUser(line, user) ==> NotAmong(Entries(line, user), handle))
    ensures RemovedFrom(line, user, handle) == [line]
  {
    if HasUser(line, user) {
      UserLine(line, user);
      NothingToRemove(Entries(line, user), handle);
      LineFromEntries(line, user);
    }
  }

  lemma {:induction false} RemovingNothing(lines: seq<string>, user: string, handle: string)
    requires ValidUser(user) && NewHandle(lines, user, handle)
    ensures Removed(lines, user, handle) == lines
  {
    if lines != [] {
      hide RemovedFrom, NotAmong, Entries, HasUser;
      NotOnLine(lines[0], user, handle);
      RemovingNothing(lines[1..], user, handle);
    }
  }

  lemma BackOnLine(line: string, user: string, credential: string)
    requires ValidUser(user) && ValidCredential(credential) && HasUser(line, user)
    requires NotAmong(Entries(line, user), HandleIn(credential))
    ensures RemovedFrom(line + credential, user, HandleIn(credential)) == [line]
  {
    var entries, handle := Entries(line, user), HandleIn(credential);
    StoredOnLine(line, user, credential);
    UserLine(line + credential, user);
    LineFromEntries(line, user);
    WithoutHandleConcat(entries, [credential[1..]], handle);
    NothingToRemove(entries, handle);
    OneRemoved(credential[1..], handle);
    assert WithoutHandle(entries + [credential[1..]], handle) == entries;
  }

  lemma GoneAgain(user: string, credential: string)
    requires ValidUser(user) && ValidCredential(credential)
    ensures RemovedFrom(user + credential, user, HandleIn(credential)) == []
  {
    NewLine(user, credential);
    UserLine(user + credential, user);
    OneRemoved(credential[1..], HandleIn(credential));
  }

  /** Removing a handle right after storing it, when it was new, gives the lines back. */
  lemma {:induction false} RemovingUndoesStoring(lines: seq<string>, user: string, credential: string)
    requires ValidUser(user) && ValidCredential(credential) && NewHandle(lines, user, HandleIn(credential))
    ensures Removed(Stored(lines, user, credential), user, HandleIn(credential)) == lines
  {
    hide ValidUser, ValidCredential, HasUser, Entries, NotAmong, RemovedFrom, HandleIn;
    var handle := HandleIn(credential);
    if lines == [] {
      GoneAgain(user, credential);
      assert [user + credential][1..] == [];
    } else if HasUser(lines[0], user) {
      BackOnLine(lines[0], user, credential);
      RemovingNothing(lines[1..], user, handle);
      assert ([lines[0] + credential] + lines[1..])[1..] == lines[1..];
    } else {
      NotOnLine(lines[0], user, handle);
      RemovingUndoesStoring(lines[1..], user, credential);
      assert ([lines[0]] + Stored(lines[1..], user, credential))[1..] == Stored(lines[1..], user, credential);
    }
  }
}
