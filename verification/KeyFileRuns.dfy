/**
 * Registrations over whole runs of storing and removing: the two files always say what a simple
 * book of registrations would, and edits undo each other on the files' text.
 */
module KeyFileRuns {
  import opened Bytes
  import opened Text
  import opened KeyFile

  // ---- One line per user --------------------------------------------------------------------------

  ghost predicate OneLineEach(lines: seq<string>) {
    lines == [] ||
    ((forall user :: ValidUser(user) && HasUser(lines[0], user) ==> !HasLine(lines[1..], user))
     && OneLineEach(lines[1..]))
  }

  lemma {:induction false} StoredHasLine(lines: seq<string>, user: string, credential: string, other: string)
    requires ValidUser(user) && ValidUser(other) && ValidCredential(credential) && user != other
    ensures HasLine(Stored(lines, user, credential), other) == HasLine(lines, other)
  {
    hide ValidUser, ValidCredential;
    if lines == [] {
      NewLine(user, credential);
      NotTheOthers(user + credential, user, other);
      assert [user + credential][1..] == [];
    } else if HasUser(lines[0], user) {
      StoredOnLine(lines[0], user, credential);
      NotTheOthers(lines[0] + credential, user, other);
      NotTheOthers(lines[0], user, other);
      assert ([lines[0] + credential] + lines[1..])[1..] == lines[1..];
    } else {
      StoredHasLine(lines[1..], user, credential, other);
      assert ([lines[0]] + Stored(lines[1..], user, credential))[1..] == Stored(lines[1..], user, credential);
    }
  }

  lemma {:induction false} StoringKeepsOneLine(lines: seq<string>, user: string, credential: string)
    requires ValidUser(user) && ValidCredential(credential) && OneLineEach(lines)
    ensures OneLineEach(Stored(lines, user, credential))
  {
    hide ValidUser, ValidCredential, HasUser;
    if lines == [] {
      assert [user + credential][1..] == [];
    } else if HasUser(lines[0], user) {
      var more := [lines[0] + credential] + lines[1..];
      assert more[1..] == lines[1..];
      StoredOnLine(lines[0], user, credential);
      forall u | ValidUser(u) && HasUser(more[0], u)
        ensures !HasLine(more[1..], u)
      {
        OneUserOnly(more[0], user, u);
      }
    } else {
      var rest := Stored(lines[1..], user, credential);
      assert ([lines[0]] + rest)[1..] == rest;
      StoringKeepsOneLine(lines[1..], user, credential);
      forall u | ValidUser(u) && HasUser(lines[0], u)
        ensures !HasLine(rest, u)
      {
        StoredHasLine(lines[1..], user, credential, u);
      }
    }
  }

  // ---- What removing leaves of a line -----------------------------------------------------------------

  predicate NoColons(entries: seq<string>) {
    entries == [] || (':' !in entries[0] && NoColons(entries[1..]))
  }

  lemma {:induction false} SplitHasNoColons(text: string)
    ensures NoColons(Split(text, ':'))
    decreases |text|
  {
    var k := IndexOf(text, ':');
    IndexOfNone(text, ':');
    if k < |text| {
      SplitHasNoColons(text[k + 1..]);
    }
  }

  lemma {:induction false} WithoutHandleHasNoColons(entries: seq<string>, handle: string)
    requires NoColons(entries)
    ensures NoColons(WithoutHandle(entries, handle))
  {
    hide HandleOf;
    if entries != [] {
      WithoutHandleHasNoColons(entries[1..], handle);
      var rest := WithoutHandle(entries[1..], handle);
      assert ([entries[0]] + rest)[1..] == rest && [] + rest == rest;
    }
  }

  lemma {:induction false} SplitUndoesJoin(entries: seq<string>)
    requires entries != [] && NoColons(entries)
    ensures Split(Join(entries, ':'), ':') == entries
  {
    hide Split;
    if |entries| == 1 {
      SplitHere(entries[0], ':', "");
      assert entries == [entries[0]];
    } else {
      SplitUndoesJoin(entries[1..]);
      assert entries == [entries[0]] + entries[1..];
      SplitHere(entries[0], ':', Join(entries[1..], ':'));
    }
  }

  /** The user's line with its remaining entries, or no line. */
  lemma RemovedLine(line: string, user: string, handle: string)
    requires ValidUser(user) && HasUser(line, user)
    ensures
      var left := WithoutHandle(Entries(line, user), handle);
      var r := RemovedFrom(line, user, handle);
      if left == [] then r == [] else |r| == 1 && HasUser(r[0], user) && Entries(r[0], user) == left
  {
    UserLine(line, user);
    var left := WithoutHandle(Entries(line, user), handle);
    assert RemovedFrom(line, user, handle) == if left == [] then [] else [user + ":" + Join(left, ':')];
    if left != [] {
      SplitHasNoColons(line[|user| + 1..]);
      WithoutHandleHasNoColons(Entries(line, user), handle);
      SplitUndoesJoin(left);
      assert (user + ":" + Join(left, ':'))[|user| + 1..] == Join(left, ':');
    }
  }

  /** Nobody else's entries change, and no line appears. */
  lemma {:induction false} RemovingTouchesNobodyElse(lines: seq<string>, user: string, handle: string, other: string)
    requires ValidUser(user) && ValidUser(other) && user != other
    ensures EntriesFor(Removed(lines, user, handle), other) == EntriesFor(lines, other)
    ensures HasLine(Removed(lines, user, handle), other) == HasLine(lines, other)
  {
    hide ValidUser, HasUser, Entries, RemovedFrom;
    if lines != [] {
      var rest := Removed(lines[1..], user, handle);
      RemovingTouchesNobodyElse(lines[1..], user, handle, other);
      var r := RemovedFrom(lines[0], user, handle);
      if HasUser(lines[0], user) {
        RemovedLine(lines[0], user, handle);
        NotTheOthers(lines[0], user, other);
        if r == [] {
          assert [] + rest == rest;
        } else {
          NotTheOthers(r[0], user, other);
          assert r == [r[0]];
          LineThenRest(r[0], rest, other);
        }
      } else {
        OtherLineStays(lines[0], user, handle);
        LineThenRest(lines[0], rest, other);
      }
    }
  }

  lemma OtherLineStays(line: string, user: string, handle: string)
    requires !HasUser(line, user)
    ensures RemovedFrom(line, user, handle) == [line]
  {
  }

  lemma LineThenRest(line: string, rest: seq<string>, user: string)
    ensures EntriesFor([line] + rest, user)
         == if HasUser(line, user) then Entries(line, user) else EntriesFor(rest, user)
    ensures HasLine([line] + rest, user) <==> HasUser(line, user) || HasLine(rest, user)
  {
    assert ([line] + rest)[1..] == rest;
  }

  lemma {:induction false} NoLineStaysAway(lines: seq<string>, user: string, handle: string)
    requires !HasLine(lines, user)
    ensures Removed(lines, user, handle) == lines
  {
    hide HasUser, RemovedFrom;
    if lines != [] {
      OtherLineStays(lines[0], user, handle);
      NoLineStaysAway(lines[1..], user, handle);
      assert lines == [lines[0]] + lines[1..];
    }
  }

  /** The user loses exactly the entries with this handle. */
  lemma {:induction false} RemovingDropsTheHandle(lines: seq<string>, user: string, handle: string)
    requires ValidUser(user) && OneLineEach(lines)
    ensures EntriesFor(Removed(lines, user, handle), user) == WithoutHandle(EntriesFor(lines, user), handle)
  {
    hide ValidUser, HasUser, Entries, RemovedFrom, WithoutHandle;
    if lines == [] {
      assert WithoutHandle([], handle) == [] by { NothingWithout(handle); }
    } else {
      var rest := Removed(lines[1..], user, handle);
      if HasUser(lines[0], user) {
        NoLineStaysAway(lines[1..], user, handle);
        NoLineNoEntries(lines[1..], user);
        RemovedLine(lines[0], user, handle);
        var r := RemovedFrom(lines[0], user, handle);
        if r == [] {
          assert [] + rest == rest;
        } else {
          assert r == [r[0]];
          LineThenRest(r[0], rest, user);
        }
      } else {
        OtherLineStays(lines[0], user, handle);
        RemovingDropsTheHandle(lines[1..], user, handle);
        LineThenRest(lines[0], rest, user);
      }
    }
  }

  lemma NothingWithout(handle: string)
    ensures WithoutHandle([], handle) == []
  {
  }

  lemma {:induction false} RemovingKeepsOneLine(lines: seq<string>, user: string, handle: string)
    requires ValidUser(user) && OneLineEach(lines)
    ensures OneLineEach(Removed(lines, user, handle))
  {
    hide ValidUser, HasUser, RemovedFrom, HasLine;
    if lines != [] {
      var rest := Removed(lines[1..], user, handle);
      RemovingKeepsOneLine(lines[1..], user, handle);
      if HasUser(lines[0], user) {
        NoLineStaysAway(lines[1..], user, handle);
        RemovedLine(lines[0], user, handle);
        var r := RemovedFrom(lines[0], user, handle);
        if r == [] {
          assert [] + rest == rest;
        } else {
          assert r == [r[0]];
          forall u | ValidUser(u) && HasUser(r[0], u)
            ensures !HasLine(rest, u)
          {
            OneUserOnly(r[0], user, u);
          }
          OneLineMore(r[0], rest);
        }
      } else {
        OtherLineStays(lines[0], user, handle);
        forall u | ValidUser(u) && HasUser(lines[0], u)
          ensures !HasLine(rest, u)
        {
          RemovingTouchesNobodyElse(lines[1..], user, handle, u);
        }
        OneLineMore(lines[0], rest);
      }
    }
  }

  lemma OneLineMore(line: string, rest: seq<string>)
    requires OneLineEach(rest) && forall user :: ValidUser(user) && HasUser(line, user) ==> !HasLine(rest, user)
    ensures OneLineEach([line] + rest)
  {
    assert ([line] + rest)[1..] == rest;
  }

  /** With one line per user, the sign-in helper reads exactly the entries the handles come from. */
  lemma {:induction false} HelperReadsTheSameEntries(lines: seq<string>, user: string)
    requires ValidUser(user) && OneLineEach(lines)
    ensures Credentials(lines, user) == ParseAll(EntriesFor(lines, user))
  {
    hide ValidUser, HasUser, Entries, ParseAll;
    if lines == [] {
      assert ParseAll([]) == [] by { NothingParsed(); }
    } else if HasUser(lines[0], user) {
      NothingElseIsRead(lines[1..], user);
      assert ParseAll(Entries(lines[0], user)) + [] == ParseAll(Entries(lines[0], user));
    } else {
      HelperReadsTheSameEntries(lines[1..], user);
      assert [] + Credentials(lines[1..], user) == Credentials(lines[1..], user);
    }
  }

  lemma NothingParsed()
    ensures ParseAll([]) == []
  {
  }

  lemma {:induction false} NothingElseIsRead(lines: seq<string>, user: string)
    requires !HasLine(lines, user)
    ensures Credentials(lines, user) == []
  {
    if lines != [] {
      NothingElseIsRead(lines[1..], user);
    }
  }

  // ---- The names --------------------------------------------------------------------------------------

  lemma NameLineNames(user: string, handle: string, name: string, u: string, h: string)
    requires '\t' !in user && '\t' !in handle
    ensures NameIn(NameLine(user, handle, name), u, h) == if u == user && h == handle then Some(name) else None
  {
    var line, rest := NameLine(user, handle, name), handle + "\t" + name;
    assert line == user + "\t" + rest;
    IndexOfConcat(user, '\t', rest);
    assert line[..|user|] == user && line[|user| + 1..] == rest;
    IndexOfConcat(handle, '\t', name);
    assert rest[..|handle|] == handle && rest[|handle| + 1..] == name;
  }

  lemma {:induction false} FindNameConcat(names: seq<string>, line: string, user: string, handle: string)
    ensures FindName(names + [line], user, handle)
         == if FindName(names, user, handle).Some? then FindName(names, user, handle) else NameIn(line, user, handle)
  {
    hide NameIn;
    if names == [] {
      assert [line][1..] == [] && [] + [line] == [line];
    } else {
      assert (names + [line])[1..] == names[1..] + [line];
      FindNameConcat(names[1..], line, user, handle);
    }
  }

  lemma NamesOnePair(line: string, user: string, handle: string, u: string, h: string)
    requires NameIn(line, user, handle).Some? && NameIn(line, u, h).Some?
    ensures u == user && h == handle
  {
  }

  lemma {:induction false} WithoutNameForgets(names: seq<string>, user: string, handle: string, u: string, h: string)
    ensures FindName(WithoutName(names, user, handle), u, h)
         == if u == user && h == handle then None else FindName(names, u, h)
  {
    hide NameIn;
    if names != [] {
      WithoutNameForgets(names[1..], user, handle, u, h);
      var rest := WithoutName(names[1..], user, handle);
      if NameIn(names[0], user, handle).Some? {
        assert [] + rest == rest;
        if NameIn(names[0], u, h).Some? {
          NamesOnePair(names[0], user, handle, u, h);
        }
      } else {
        assert ([names[0]] + rest)[1..] == rest;
      }
    }
  }

  lemma {:induction false} ForgettingTheLast(names: seq<string>, user: string, handle: string, line: string)
    requires FindName(names, user, handle).None? && NameIn(line, user, handle).Some?
    ensures WithoutName(names + [line], user, handle) == names
  {
    hide NameIn;
    if names == [] {
      assert [] + [line] == [line] && [line][1..] == [];
    } else {
      assert (names + [line])[1..] == names[1..] + [line];
      ForgettingTheLast(names[1..], user, handle, line);
      assert names == [names[0]] + names[1..];
    }
  }

  // ---- The book -------------------------------------------------------------------------------------------

  /** A registration and the name it was given. */
  datatype Item = Item(entry: string, name: string)

  type Book = map<string, seq<Item>>

  datatype Edit = Store(user: string, credential: string, name: string) | Remove(user: string, handle: string)

  function Of(book: Book, user: string): seq<Item> {
    if user in book then book[user] else []
  }

  function EntriesOf(items: seq<Item>): seq<string> {
    if items == [] then [] else [items[0].entry] + EntriesOf(items[1..])
  }

  function Lookup(items: seq<Item>, handle: string): Option<string> {
    if items == [] then None
    else if HandleOf(items[0].entry) == handle then Some(items[0].name)
    else Lookup(items[1..], handle)
  }

  function Without(items: seq<Item>, handle: string): seq<Item> {
    if items == [] then []
    else (if HandleOf(items[0].entry) == handle then [] else [items[0]]) + Without(items[1..], handle)
  }

  function Write(book: Book, e: Edit): Book
    requires e.Store? ==> e.credential != ""
  {
    match e
    case Store(user, credential, name) => book[user := Of(book, user) + [Item(credential[1..], name)]]
    case Remove(user, handle) => book[user := Without(Of(book, user), handle)]
  }

  /** A device name that would break the names file is refused. */
  predicate BadName(name: string) {
    '\t' in name || '\n' in name || '\r' in name
  }

  /** Well-formed; and a handle is stored for a user who does not have it. */
  predicate Legal(book: Book, e: Edit) {
    match e
    case Store(user, credential, name) =>
      ValidUser(user) && ValidCredential(credential) && !BadName(name)
      && Lookup(Of(book, user), HandleIn(credential)).None?
    case Remove(user, handle) => ValidUser(user)
  }

  datatype Files = Files(keys: seq<string>, names: seq<string>)

  function Apply(f: Files, e: Edit): Files
    requires e.Store? ==> ValidCredential(e.credential)
  {
    match e
    case Store(user, credential, name) =>
      Files(Stored(f.keys, user, credential), f.names + [NameLine(user, HandleIn(credential), name)])
    case Remove(user, handle) => Files(Removed(f.keys, user, handle), WithoutName(f.names, user, handle))
  }

  /** Every item has a handle, and no other item has the same. */
  predicate Proper(items: seq<Item>) {
    items == [] ||
    (HandleOf(items[0].entry) != "" && Lookup(items[1..], HandleOf(items[0].entry)).None? && Proper(items[1..]))
  }

  /** For this user the files say what the book says. */
  ghost predicate SaysFor(f: Files, items: seq<Item>, user: string) {
    && EntriesFor(f.keys, user) == EntriesOf(items) && Proper(items)
    && forall h :: FindName(f.names, user, h) == Lookup(items, h)
  }

  ghost predicate Says(f: Files, book: Book) {
    OneLineEach(f.keys) && forall user :: ValidUser(user) ==> SaysFor(f, Of(book, user), user)
  }

  lemma {:induction false} MoreItems(items: seq<Item>, item: Item, h: string)
    ensures EntriesOf(items + [item]) == EntriesOf(items) + [item.entry]
    ensures Lookup(items + [item], h)
         == if Lookup(items, h).Some? then Lookup(items, h)
            else if HandleOf(item.entry) == h then Some(item.name) else None
    ensures Proper(items) && HandleOf(item.entry) != "" && Lookup(items, HandleOf(item.entry)).None? ==>
            Proper(items + [item])
  {
    hide HandleOf;
    if items == [] {
      assert [] + [item] == [item] && [item][1..] == [];
    } else {
      assert (items + [item])[1..] == items[1..] + [item];
      MoreItems(items[1..], item, h);
      MoreItems(items[1..], item, HandleOf(items[0].entry));
    }
  }

  lemma {:induction false} FewerItems(items: seq<Item>, handle: string, h: string)
    requires Proper(items)
    ensures EntriesOf(Without(items, handle)) == WithoutHandle(EntriesOf(items), handle)
    ensures Lookup(Without(items, handle), h) == if h == handle then None else Lookup(items, h)
    ensures Proper(Without(items, handle))
  {
    hide HandleOf;
    if items != [] {
      var rest := Without(items[1..], handle);
      FewerItems(items[1..], handle, h);
      FewerItems(items[1..], handle, HandleOf(items[0].entry));
      assert EntriesOf(items)[1..] == EntriesOf(items[1..]);
      if HandleOf(items[0].entry) == handle {
        assert [] + rest == rest;
      } else {
        assert ([items[0]] + rest)[1..] == rest;
      }
    }
  }

  lemma StoreSays(f: Files, items: seq<Item>, user: string, credential: string, name: string)
    requires ValidUser(user) && ValidCredential(credential) && SaysFor(f, items, user)
    requires Lookup(items, HandleIn(credential)).None?
    ensures SaysFor(Apply(f, Store(user, credential, name)), items + [Item(credential[1..], name)], user)
  {
    var item, handle := Item(credential[1..], name), HandleIn(credential);
    var line := NameLine(user, handle, name);
    HandlesHaveNoTabs(credential);
    StoringAppendsTheHandle(f.keys, user, credential);
    MoreItems(items, item, handle);
    hide EntriesFor, EntriesOf, Proper, Lookup, FindName, NameIn, NameLine, Stored;
    forall h
      ensures FindName(f.names + [line], user, h) == Lookup(items + [item], h)
    {
      FindNameConcat(f.names, line, user, h);
      NameLineNames(user, handle, name, user, h);
      MoreItems(items, item, h);
    }
  }

  lemma HandlesHaveNoTabs(credential: string)
    requires ValidCredential(credential)
    ensures '\t' !in HandleIn(credential)
  {
    var c := credential[1..];
    assert HandleOf(c) == c[..IndexOf(c, ',')];
    assert forall x <- c :: x in credential;
    assert forall x <- HandleOf(c) :: x in c;
  }

  lemma OthersStillSay(f: Files, items: seq<Item>, e: Edit, other: string)
    requires ValidUser(e.user) && ValidUser(other) && e.user != other && (e.Store? ==> ValidCredential(e.credential))
    requires SaysFor(f, items, other)
    ensures SaysFor(Apply(f, e), items, other)
  {
    hide EntriesFor, EntriesOf, Proper, Lookup, FindName, NameIn, NameLine, Stored, Removed, ValidCredential, ValidUser;
    if e.Store? {
      StoringTouchesNobodyElse(f.keys, e.user, e.credential, other);
      HandlesHaveNoTabs(e.credential);
      ValidUsersHaveNoTabs(e.user);
      forall h
        ensures FindName(Apply(f, e).names, other, h) == FindName(f.names, other, h)
      {
        FindNameConcat(f.names, NameLine(e.user, HandleIn(e.credential), e.name), other, h);
        NameLineNames(e.user, HandleIn(e.credential), e.name, other, h);
      }
    } else {
      RemovingTouchesNobodyElse(f.keys, e.user, e.handle, other);
      forall h
        ensures FindName(Apply(f, e).names, other, h) == FindName(f.names, other, h)
      {
        WithoutNameForgets(f.names, e.user, e.handle, other, h);
      }
    }
  }

  lemma ValidUsersHaveNoTabs(user: string)
    ensures ValidUser(user) ==> '\t' !in user
  {
  }

  lemma RemoveSays(f: Files, items: seq<Item>, user: string, handle: string)
    requires ValidUser(user) && SaysFor(f, items, user) && OneLineEach(f.keys)
    ensures SaysFor(Apply(f, Remove(user, handle)), Without(items, handle), user)
  {
    RemovingDropsTheHandle(f.keys, user, handle);
    FewerItems(items, handle, handle);
    hide EntriesFor, EntriesOf, Proper, Lookup, FindName, NameIn, Removed, Without, WithoutHandle, OneLineEach;
    forall h
      ensures FindName(WithoutName(f.names, user, handle), user, h) == Lookup(Without(items, handle), h)
    {
      WithoutNameForgets(f.names, user, handle, user, h);
      FewerItems(items, handle, h);
    }
  }

  lemma LegalEdits(book: Book, e: Edit)
    requires Legal(book, e)
    ensures ValidUser(e.user) && (e.Store? ==> ValidCredential(e.credential) && e.credential != "")
  {
  }

  /** Each edit of the files is the edit of the book. */
  lemma EditsAgree(f: Files, book: Book, e: Edit)
    requires Says(f, book) && Legal(book, e)
    ensures Says(Apply(f, e), Write(book, e))
  {
    LegalEdits(book, e);
    hide SaysFor, ValidUser, ValidCredential, OneLineEach, Stored, Removed, HandleIn, Lookup, Without;
    if e.Store? {
      StoringKeepsOneLine(f.keys, e.user, e.credential);
      StoreSays(f, Of(book, e.user), e.user, e.credential, e.name);
    } else {
      RemovingKeepsOneLine(f.keys, e.user, e.handle);
      RemoveSays(f, Of(book, e.user), e.user, e.handle);
    }
    forall user | ValidUser(user)
      ensures SaysFor(Apply(f, e), Of(Write(book, e), user), user)
    {
      if user != e.user {
        OthersStillSay(f, Of(book, user), e, user);
      }
    }
  }

  predicate LegalRun(book: Book, edits: seq<Edit>)
    decreases |edits|
  {
    edits == [] || (Legal(book, edits[0]) && LegalRun(Write(book, edits[0]), edits[1..]))
  }

  function WriteAll(book: Book, edits: seq<Edit>): Book
    requires LegalRun(book, edits)
    decreases |edits|
  {
    if edits == [] then book else WriteAll(Write(book, edits[0]), edits[1..])
  }

  function ApplyAll(f: Files, book: Book, edits: seq<Edit>): Files
    requires LegalRun(book, edits)
    decreases |edits|
  {
    if edits == [] then f else ApplyAll(Apply(f, edits[0]), Write(book, edits[0]), edits[1..])
  }

  lemma {:induction false} RunsAgree(f: Files, book: Book, edits: seq<Edit>)
    requires Says(f, book) && LegalRun(book, edits)
    ensures Says(ApplyAll(f, book, edits), WriteAll(book, edits))
    decreases |edits|
  {
    hide Says, Apply, Write;
    if edits != [] {
      EditsAgree(f, book, edits[0]);
      RunsAgree(Apply(f, edits[0]), Write(book, edits[0]), edits[1..]);
    }
  }

  function BookHandles(items: seq<Item>): (handles: seq<string>)
    ensures |handles| == |items|
  {
    seq(|items|, i requires 0 <= i < |items| => HandleOf(items[i].entry))
  }

  lemma {:induction false} HandlesOfItems(items: seq<Item>)
    requires Proper(items)
    ensures Handles(EntriesOf(items)) == BookHandles(items)
    ensures forall i :: 0 <= i < |items| ==> Lookup(items, HandleOf(items[i].entry)) == Some(items[i].name)
  {
    hide HandleOf;
    if items != [] {
      HandlesOfItems(items[1..]);
      assert EntriesOf(items)[1..] == EntriesOf(items[1..]);
      assert BookHandles(items) == [HandleOf(items[0].entry)] + BookHandles(items[1..]);
      forall i | 1 <= i < |items|
        ensures Lookup(items, HandleOf(items[i].entry)) == Some(items[i].name)
      {
        assert items[i] == items[1..][i - 1];
      }
    }
  }

  /**
   * After any legal run of edits on empty files: one line per user; the user's handles are the book's,
   * in order; the name shown beside each is the one it was stored with, or a numbered default; and
   * the sign-in helper reads exactly the book's entries that decode.
   */
  lemma FilesSayWhatTheBookSays(edits: seq<Edit>, user: string)
    requires LegalRun(map[], edits) && ValidUser(user)
    ensures
      var f := ApplyAll(Files([], []), map[], edits);
      var items := Of(WriteAll(map[], edits), user);
      && OneLineEach(f.keys)
      && HandlesFor(f.keys, user) == BookHandles(items)
      && (forall i :: 0 <= i < |items| ==>
            NamesFor(f.keys, f.names, user)[i] == Shown(Some(items[i].name), i))
      && Credentials(f.keys, user) == ParseAll(EntriesOf(items))
  {
    var f := ApplyAll(Files([], []), map[], edits);
    var items := Of(WriteAll(map[], edits), user);
    RunsAgree(Files([], []), map[], edits);
    hide ApplyAll, WriteAll, LegalRun, HandleOf, Lookup, FindName, EntriesFor, Credentials;
    HandlesOfItems(items);
    HelperReadsTheSameEntries(f.keys, user);
    forall i | 0 <= i < |items|
      ensures NamesFor(f.keys, f.names, user)[i] == Shown(Some(items[i].name), i)
    {
      assert HandlesFor(f.keys, user)[i] == HandleOf(items[i].entry);
      assert FindName(f.names, user, HandleOf(items[i].entry)) == Lookup(items, HandleOf(items[i].entry));
    }
  }
}
