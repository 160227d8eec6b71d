/** The two files as text, and the commands that edit them. */
module KeyFileText {
  import opened Bytes
  import opened Text
  import opened KeyFile
  import opened KeyFileRuns

  // ---- The commands on text --------------------------------------------------------------------------

  function StoredText(keys: string, user: string, credential: string): string {
    LinesFile(Stored(NonBlank(Lines(keys)), user, credential))
  }

  function NamedText(names: string, user: string, handle: string, name: string): string {
    LinesFile(Lines(names)) + NameLine(user, handle, name) + "\n"
  }

  function RemovedText(keys: string, user: string, handle: string): string {
    LinesFile(Removed(Lines(keys), user, handle))
  }

  function UnnamedText(names: string, user: string, handle: string): string {
    LinesFile(WithoutName(Lines(names), user, handle))
  }

  // ---- Lines that survive ------------------------------------------------------------------------------

  /** Lines without carriage returns or line feeds, none blank. */
  predicate Plain(lines: seq<string>) {
    lines == [] || (lines[0] != "" && '\n' !in lines[0] && '\r' !in lines[0] && Plain(lines[1..]))
  }

  /** Lines that are read back as they were written, none blank. */
  predicate Solid(lines: seq<string>) {
    lines == [] || (lines[0] != "" && Clean(lines[0]) && Solid(lines[1..]))
  }

  lemma {:induction false} PlainIsSolid(lines: seq<string>)
    requires Plain(lines)
    ensures Solid(lines)
  {
    if lines != [] {
      assert lines[0][|lines[0]| - 1] in lines[0];
      PlainIsSolid(lines[1..]);
    }
  }

  lemma {:induction false} SolidIsReadBack(lines: seq<string>)
    requires Solid(lines)
    ensures Lines(LinesFile(lines)) == lines && NonBlank(lines) == lines && LinesFile(lines) == Unlines(lines)
  {
    if lines != [] {
      hide Lines, Clean;
      SolidIsReadBack(lines[1..]);
      LinesFirst(lines[0], LinesFile(lines[1..]));
      assert lines == [lines[0]] + lines[1..];
    }
  }

  lemma {:induction false} NonBlankIsSolid(lines: seq<string>)
    requires AllClean(lines)
    ensures Solid(NonBlank(lines)) && LinesFile(lines) == Unlines(NonBlank(lines))
  {
    if lines == [] {
    } else {
      assert Clean(lines[0]);
      hide Clean;
      NonBlankIsSolid(lines[1..]);
      var rest := NonBlank(lines[1..]);
      assert ([lines[0]] + rest)[1..] == rest && [] + rest == rest;
      assert "" + LinesFile(lines[1..]) == LinesFile(lines[1..]);
    }
  }

  lemma {:induction false} StoredIsSolid(lines: seq<string>, user: string, credential: string)
    requires ValidUser(user) && ValidCredential(credential) && Solid(lines)
    ensures Solid(Stored(lines, user, credential))
  {
    EndsPlainly(credential);
    if lines == [] {
      LongerIsSolid(user, credential);
      assert [user + credential][1..] == [];
    } else if HasUser(lines[0], user) {
      LongerIsSolid(lines[0], credential);
      assert ([lines[0] + credential] + lines[1..])[1..] == lines[1..];
    } else {
      hide ValidUser, ValidCredential, HasUser, Clean;
      StoredIsSolid(lines[1..], user, credential);
      assert ([lines[0]] + Stored(lines[1..], user, credential))[1..] == Stored(lines[1..], user, credential);
    }
  }

  lemma EndsPlainly(text: string)
    requires text != "" && '\r' !in text
    ensures text[|text| - 1] != '\r'
  {
    assert text[|text| - 1] in text;
  }

  lemma LongerIsSolid(line: string, more: string)
    requires '\n' !in line && '\n' !in more && more != "" && more[|more| - 1] != '\r'
    ensures line + more != "" && Clean(line + more)
  {
    assert (line + more)[|line + more| - 1] == more[|more| - 1];
  }

  // ---- Storing and removing give the text back -------------------------------------------------------------

  predicate HasBlank(lines: seq<string>) {
    lines != [] && (lines[0] == "" || HasBlank(lines[1..]))
  }

  /** Every line ended by a plain line feed, none blank. */
  predicate Tidy(text: string) {
    Terminated(text) && !HasCrLf(text) && !HasBlank(Lines(text))
  }

  lemma {:induction false} BlanksTakeSpace(lines: seq<string>)
    ensures |Unlines(NonBlank(lines))| <= |Unlines(lines)|
    ensures HasBlank(lines) ==> |Unlines(NonBlank(lines))| < |Unlines(lines)|
    ensures !HasBlank(lines) ==> NonBlank(lines) == lines
  {
    if lines != [] {
      BlanksTakeSpace(lines[1..]);
      var rest := NonBlank(lines[1..]);
      assert ([lines[0]] + rest)[1..] == rest && [] + rest == rest;
      assert lines == [lines[0]] + lines[1..];
    }
  }

  /** Dropping blank lines gives a text back exactly when it was tidy. */
  lemma TidyIff(text: string)
    ensures Unlines(NonBlank(Lines(text))) == text <==> Tidy(text)
  {
    hide HasBlank, HasCrLf, NonBlank, Unlines, Lines;
    BlanksTakeSpace(Lines(text));
    UnlinesRestoreIff(text);
    UnlinesEnd(NonBlank(Lines(text)));
    if Terminated(text) {
      CarriageReturnsShrink(text);
    }
  }

  lemma KeysAreRestored(keys: string, user: string, credential: string)
    requires ValidUser(user) && ValidCredential(credential) && AllClean(Lines(keys))
    requires NewHandle(NonBlank(Lines(keys)), user, HandleIn(credential))
    ensures RemovedText(StoredText(keys, user, credential), user, HandleIn(credential))
            == Unlines(NonBlank(Lines(keys)))
  {
    var lines := NonBlank(Lines(keys));
    NonBlankIsSolid(Lines(keys));
    StoredIsSolid(lines, user, credential);
    SolidIsReadBack(Stored(lines, user, credential));
    hide ValidUser, ValidCredential, NewHandle, Solid, Lines, LinesFile, Stored, Removed, HandleIn;
    RemovingUndoesStoring(lines, user, credential);
    SolidIsReadBack(lines);
  }

  lemma NameLineIsClean(user: string, handle: string, name: string)
    requires ValidUser(user) && '\n' !in handle && '\n' !in name && '\r' !in name
    ensures NameLine(user, handle, name) != "" && Clean(NameLine(user, handle, name))
  {
    var line := NameLine(user, handle, name);
    if name != "" {
      EndsPlainly(name);
      assert line[|line| - 1] == name[|name| - 1];
    } else {
      assert line[|line| - 1] == '\t';
    }
  }

  lemma NamedIsLines(names: string, user: string, handle: string, name: string)
    requires ValidUser(user) && '\n' !in handle && '\n' !in name && '\r' !in name && AllClean(Lines(names))
    ensures
      var lines := NonBlank(Lines(names)) + [NameLine(user, handle, name)];
      NamedText(names, user, handle, name) == Unlines(lines) && Lines(NamedText(names, user, handle, name)) == lines
  {
    var before, line := NonBlank(Lines(names)), NameLine(user, handle, name);
    NameLineIsClean(user, handle, name);
    NonBlankIsSolid(Lines(names));
    NamedIsWritten(names, user, handle, name);
    hide Solid, NonBlank, Clean, NameLine, Lines, LinesFile, Unlines, NamedText;
    SolidSnoc(before, line);
    SolidIsReadBack(before + [line]);
  }

  lemma {:induction false} SolidSnoc(lines: seq<string>, line: string)
    requires Solid(lines) && line != "" && Clean(line)
    ensures Solid(lines + [line])
  {
    hide Clean;
    if lines == [] {
      assert [] + [line] == [line] && [line][1..] == [];
    } else {
      assert (lines + [line])[1..] == lines[1..] + [line];
      SolidSnoc(lines[1..], line);
    }
  }

  lemma NamesAreRestored(names: string, user: string, handle: string, name: string)
    requires ValidUser(user) && '\n' !in handle && '\t' !in handle && '\n' !in name && '\r' !in name
    requires AllClean(Lines(names)) && FindName(NonBlank(Lines(names)), user, handle).None?
    ensures UnnamedText(NamedText(names, user, handle, name), user, handle) == Unlines(NonBlank(Lines(names)))
  {
    var before := NonBlank(Lines(names));
    NamedIsLines(names, user, handle, name);
    NonBlankIsSolid(Lines(names));
    SolidIsReadBack(before);
    NameLineNames(user, handle, name, user, handle);
    hide Solid, NonBlank, Clean, NameLine, NamedText, FindName, NameIn, WithoutName, Lines, LinesFile;
    ForgettingTheLast(before, user, handle, NameLine(user, handle, name));
  }

  lemma HandlesHaveNoFeeds(credential: string)
    requires ValidCredential(credential)
    ensures '\n' !in HandleIn(credential)
  {
    var c := credential[1..];
    assert HandleOf(c) == c[..IndexOf(c, ',')];
    assert forall x <- c :: x in credential;
    assert forall x <- HandleOf(c) :: x in c;
  }

  // ---- Any text: nothing grows -----------------------------------------------------------------------------

  lemma {:induction false} LinesFileAdds(a: seq<string>, b: seq<string>)
    ensures |LinesFile(a + b)| == |LinesFile(a)| + |LinesFile(b)|
  {
    if a == [] {
      assert a + b == b;
    } else {
      LinesFileAdds(a[1..], b);
      assert (a + b)[1..] == a[1..] + b;
    }
  }

  lemma {:induction false} LinesFileIsTerminated(lines: seq<string>)
    ensures Terminated(LinesFile(lines))
  {
    if lines != [] {
      LinesFileIsTerminated(lines[1..]);
    }
  }

  lemma {:induction false} JoinShrinks(entries: seq<string>, handle: string)
    ensures |Join(WithoutHandle(entries, handle), ':')| <= |Join(entries, ':')|
  {
    hide HandleOf;
    if entries != [] {
      JoinShrinks(entries[1..], handle);
      var rest := WithoutHandle(entries[1..], handle);
      assert ([entries[0]] + rest)[1..] == rest && [] + rest == rest;
      if |entries| == 1 {
        assert entries[1..] == [] && rest == [];
      }
    }
  }

  lemma RemovedFromShrinks(line: string, user: string, handle: string)
    requires ValidUser(user)
    ensures |LinesFile(RemovedFrom(line, user, handle))| <= |line| + 1
  {
    var r := RemovedFrom(line, user, handle);
    if HasUser(line, user) {
      UserLine(line, user);
      LineFromEntries(line, user);
      JoinShrinks(Entries(line, user), handle);
      hide HandleOf, Split, Join;
      if r != [] {
        assert r[1..] == [];
        assert LinesFile([]) == "";
      }
    } else {
      assert r == [line] && r[1..] == [];
      assert LinesFile([]) == "";
    }
  }

  lemma {:induction false} RemovedShrinks(lines: seq<string>, user: string, handle: string)
    requires ValidUser(user)
    ensures |LinesFile(Removed(StripAll(lines), user, handle))| <= |Unlines(lines)|
  {
    hide RemovedFrom, ValidUser;
    if lines != [] {
      RemovedShrinks(lines[1..], user, handle);
      RemovedFromShrinks(StripCr(lines[0]), user, handle);
      FirstRemoved(StripCr(lines[0]), StripAll(lines[1..]), user, handle);
    }
  }

  lemma FirstRemoved(line: string, rest: seq<string>, user: string, handle: string)
    ensures |LinesFile(Removed([line] + rest, user, handle))|
         == |LinesFile(RemovedFrom(line, user, handle))| + |LinesFile(Removed(rest, user, handle))|
  {
    hide RemovedFrom;
    assert ([line] + rest)[1..] == rest;
    LinesFileAdds(RemovedFrom(line, user, handle), Removed(rest, user, handle));
  }

  /** Storing, writing, reading and removing, on whatever lines. */
  lemma {:induction false} StoredAndRemovedShrinks(lines: seq<string>, user: string, credential: string)
    requires ValidUser(user) && ValidCredential(credential) && NewHandle(lines, user, HandleIn(credential))
    ensures |LinesFile(Removed(StripAll(Stored(lines, user, credential)), user, HandleIn(credential)))|
         <= |Unlines(lines)|
  {
    var handle := HandleIn(credential);
    EndsPlainly(credential);
    if lines == [] {
      var line := user + credential;
      assert line[|line| - 1] == credential[|credential| - 1];
      GoneAgain(user, credential);
      hide ValidCredential, ValidUser, HandleIn, RemovedFrom, NewHandle;
      FirstRemoved(line, [], user, handle);
      assert [line][1..] == [] && [line] + [] == [line];
    } else if HasUser(lines[0], user) {
      hide ValidCredential, ValidUser, HandleIn, Removed, NewHandle, HasUser;
      assert Stored(lines, user, credential) == [lines[0] + credential] + lines[1..];
      BackOnFirstLine(lines, user, credential);
    } else {
      StoredAndRemovedShrinks(lines[1..], user, credential);
      hide ValidCredential, HandleIn, RemovedFrom, NewHandle, HasUser;
      var rest := Stored(lines[1..], user, credential);
      assert ([lines[0]] + rest)[1..] == rest;
      RemovedFromShrinks(StripCr(lines[0]), user, handle);
      FirstRemoved(StripCr(lines[0]), StripAll(rest), user, handle);
    }
  }

  lemma BackOnFirstLine(lines: seq<string>, user: string, credential: string)
    requires ValidUser(user) && ValidCredential(credential) && lines != [] && HasUser(lines[0], user)
    requires NotAmong(Entries(lines[0], user), HandleIn(credential))
    ensures |LinesFile(Removed(StripAll([lines[0] + credential] + lines[1..]), user, HandleIn(credential)))|
         <= |Unlines(lines)|
  {
    var line, handle := lines[0] + credential, HandleIn(credential);
    EndsPlainly(credential);
    assert line[|line| - 1] == credential[|credential| - 1];
    BackOnLine(lines[0], user, credential);
    hide ValidCredential, ValidUser, HandleIn, RemovedFrom, NotAmong, HasUser;
    FirstRemoved(line, StripAll(lines[1..]), user, handle);
    RemovedShrinks(lines[1..], user, handle);
    assert ([line] + lines[1..])[1..] == lines[1..] && [lines[0]][1..] == [];
    assert LinesFile([]) == "";
  }

  lemma {:induction false} NonBlankIsWritten(lines: seq<string>)
    ensures LinesFile(lines) == Unlines(NonBlank(lines)) && NoBlanks(NonBlank(lines))
    ensures NoFeeds(lines) ==> NoFeeds(NonBlank(lines))
  {
    if lines != [] {
      NonBlankIsWritten(lines[1..]);
      var rest := NonBlank(lines[1..]);
      assert ([lines[0]] + rest)[1..] == rest && [] + rest == rest;
      assert "" + LinesFile(lines[1..]) == LinesFile(lines[1..]);
    }
  }

  predicate NoBlanks(lines: seq<string>) {
    lines == [] || (lines[0] != "" && NoBlanks(lines[1..]))
  }

  lemma {:induction false} NoBlanksAreWritten(lines: seq<string>)
    requires NoBlanks(lines)
    ensures LinesFile(lines) == Unlines(lines)
  {
    if lines != [] {
      NoBlanksAreWritten(lines[1..]);
    }
  }

  lemma {:induction false} StoredHasNoBlanks(lines: seq<string>, user: string, credential: string)
    requires ValidUser(user) && ValidCredential(credential) && NoBlanks(lines) && NoFeeds(lines)
    ensures NoBlanks(Stored(lines, user, credential)) && NoFeeds(Stored(lines, user, credential))
  {
    if lines == [] {
      assert [user + credential][1..] == [];
    } else if HasUser(lines[0], user) {
      assert ([lines[0] + credential] + lines[1..])[1..] == lines[1..];
    } else {
      hide ValidUser, ValidCredential, HasUser;
      StoredHasNoBlanks(lines[1..], user, credential);
      assert ([lines[0]] + Stored(lines[1..], user, credential))[1..] == Stored(lines[1..], user, credential);
    }
  }

  lemma KeysShrink(keys: string, user: string, credential: string)
    requires ValidUser(user) && ValidCredential(credential)
    requires NewHandle(NonBlank(Lines(keys)), user, HandleIn(credential))
    ensures |RemovedText(StoredText(keys, user, credential), user, HandleIn(credential))|
         <= |Unlines(NonBlank(Lines(keys)))|
  {
    LinesHaveNoLineFeeds(keys);
    WithoutFeeds(Lines(keys));
    hide ValidUser, ValidCredential, NewHandle, NonBlank, NoBlanks, NoFeeds, Lines, LinesFile, Unlines;
    hide Stored, Removed, HandleIn;
    var lines := NonBlank(Lines(keys));
    NonBlankIsWritten(Lines(keys));
    StoredHasNoBlanks(lines, user, credential);
    NoBlanksAreWritten(Stored(lines, user, credential));
    WrittenLinesAreRead(Stored(lines, user, credential));
    StoredAndRemovedShrinks(lines, user, credential);
  }

  lemma {:induction false} ForgettingShrinks(names: seq<string>, user: string, handle: string, line: string)
    requires StripCr(line) == line && NameIn(line, user, handle).Some?
    ensures |LinesFile(WithoutName(StripAll(names + [line]), user, handle))| <= |Unlines(names)|
  {
    hide NameIn;
    if names == [] {
      assert [] + [line] == [line] && [line][1..] == [];
      assert StripAll([line]) == [line];
      assert WithoutName([line], user, handle) == [] + WithoutName([], user, handle);
    } else {
      assert (names + [line])[1..] == names[1..] + [line];
      ForgettingShrinks(names[1..], user, handle, line);
      var first, rest := StripCr(names[0]), StripAll(names[1..] + [line]);
      assert StripAll(names + [line]) == [first] + rest;
      assert ([first] + rest)[1..] == rest;
      var left := WithoutName(rest, user, handle);
      assert ([first] + left)[1..] == left && [] + left == left;
    }
  }

  lemma NamesShrink(names: string, user: string, handle: string, name: string)
    requires ValidUser(user) && '\n' !in handle && '\t' !in handle && '\n' !in name && '\r' !in name
    ensures |UnnamedText(NamedText(names, user, handle, name), user, handle)| <= |Unlines(NonBlank(Lines(names)))|
  {
    LinesHaveNoLineFeeds(names);
    WithoutFeeds(Lines(names));
    NameLineIsClean(user, handle, name);
    NameLineNames(user, handle, name, user, handle);
    NamedIsWritten(names, user, handle, name);
    hide NonBlank, NameLine, NameIn, NoFeeds, NamedText, Lines, LinesFile, Unlines, WithoutName, ValidUser;
    var before, line := NonBlank(Lines(names)), NameLine(user, handle, name);
    NonBlankIsWritten(Lines(names));
    FeedsSnoc(before, line);
    WrittenLinesAreRead(before + [line]);
    ForgettingShrinks(before, user, handle, line);
  }

  lemma NamedIsWritten(names: string, user: string, handle: string, name: string)
    ensures NamedText(names, user, handle, name)
         == Unlines(NonBlank(Lines(names)) + [NameLine(user, handle, name)])
  {
    var before, line := NonBlank(Lines(names)), NameLine(user, handle, name);
    NonBlankIsWritten(Lines(names));
    UnlinesConcat(before, [line]);
    assert [line][1..] == [];
    assert Unlines([line]) == line + "\n";
    hide NonBlank, NameLine, Lines, LinesFile, Unlines;
    assert NamedText(names, user, handle, name) == Unlines(before) + (line + "\n");
  }

  lemma {:induction false} FeedsSnoc(lines: seq<string>, line: string)
    requires NoFeeds(lines) && '\n' !in line
    ensures NoFeeds(lines + [line])
  {
    if lines == [] {
      assert [] + [line] == [line] && [line][1..] == [];
    } else {
      assert (lines + [line])[1..] == lines[1..] + [line];
      FeedsSnoc(lines[1..], line);
    }
  }

  /** What ends its last line and is no longer than the lines without the blank ones is not an untidy text. */
  lemma UntidyTextsDiffer(text: string, restored: string)
    requires !Tidy(text) && Terminated(restored) && |restored| <= |Unlines(NonBlank(Lines(text)))|
    ensures restored != text
  {
    hide HasBlank, HasCrLf, NonBlank, Unlines, Lines;
    BlanksTakeSpace(Lines(text));
    if Terminated(text) {
      CarriageReturnsShrink(text);
    }
  }

  /**
   * Storing a registration with a new handle and removing it gives each of the two files back
   * exactly when it was tidy, whatever is in it.
   */
  lemma RemoveUndoesStoreIff(keys: string, names: string, user: string, credential: string, name: string)
    requires ValidUser(user) && ValidCredential(credential) && !BadName(name)
    requires NewHandle(NonBlank(Lines(keys)), user, HandleIn(credential))
    requires FindName(NonBlank(Lines(names)), user, HandleIn(credential)).None?
    ensures
      var handle := HandleIn(credential);
      && (RemovedText(StoredText(keys, user, credential), user, handle) == keys <==> Tidy(keys))
      && (UnnamedText(NamedText(names, user, handle, name), user, handle) == names <==> Tidy(names))
  {
    var handle := HandleIn(credential);
    HandlesHaveNoFeeds(credential);
    HandlesHaveNoTabs(credential);
    LinesFileIsTerminated(Removed(Lines(StoredText(keys, user, credential)), user, handle));
    LinesFileIsTerminated(WithoutName(Lines(NamedText(names, user, handle, name)), user, handle));
    TidyMeansClean(keys);
    TidyMeansClean(names);
    hide ValidUser, StoredText, NamedText, Tidy, AllClean, HandleIn, Lines, NonBlank, Unlines, LinesFile, Terminated;
    if Tidy(keys) {
      KeysAreRestored(keys, user, credential);
      TidyIff(keys);
    } else {
      KeysShrink(keys, user, credential);
      UntidyTextsDiffer(keys, RemovedText(StoredText(keys, user, credential), user, handle));
    }
    if Tidy(names) {
      NamesAreRestored(names, user, handle, name);
      TidyIff(names);
    } else {
      NamesShrink(names, user, handle, name);
      UntidyTextsDiffer(names, UnnamedText(NamedText(names, user, handle, name), user, handle));
    }
  }

  lemma TidyMeansClean(text: string)
    ensures Tidy(text) ==> AllClean(Lines(text))
  {
    if Tidy(text) {
      LinesAreClean(text);
    }
  }

  // ---- Whole runs on text --------------------------------------------------------------------------------------

  predicate NoneHas(entries: seq<string>, c: char) {
    entries == [] || (c !in entries[0] && NoneHas(entries[1..], c))
  }

  lemma {:induction false} SplitNoneHas(text: string, c: char)
    requires c !in text
    ensures NoneHas(Split(text, ':'), c)
    decreases |text|
  {
    var k := IndexOf(text, ':');
    if k < |text| {
      SplitNoneHas(text[k + 1..], c);
    }
  }

  lemma {:induction false} WithoutHandleNoneHas(entries: seq<string>, handle: string, c: char)
    requires NoneHas(entries, c)
    ensures NoneHas(WithoutHandle(entries, handle), c)
  {
    hide HandleOf;
    if entries != [] {
      WithoutHandleNoneHas(entries[1..], handle, c);
      var rest := WithoutHandle(entries[1..], handle);
      assert ([entries[0]] + rest)[1..] == rest && [] + rest == rest;
    }
  }

  lemma {:induction false} JoinHasNot(entries: seq<string>, c: char)
    requires NoneHas(entries, c) && c != ':'
    ensures c !in Join(entries, ':')
  {
    if |entries| > 1 {
      JoinHasNot(entries[1..], c);
    }
  }

  lemma RemovedFromHasNot(line: string, user: string, handle: string, c: char)
    requires c !in line && c != ':'
    ensures NoneHas(RemovedFrom(line, user, handle), c)
  {
    if HasUser(line, user) {
      var fields := Split(line, ':');
      var left := WithoutHandle(fields[1..], handle);
      SplitNoneHas(line, c);
      WithoutHandleNoneHas(fields[1..], handle, c);
      JoinHasNot(left, c);
      if left != [] {
        assert [fields[0] + ":" + Join(left, ':')][1..] == [];
      }
    } else {
      assert [line][1..] == [];
    }
  }

  lemma {:induction false} RemovedIsPlain(lines: seq<string>, user: string, handle: string)
    requires Plain(lines)
    ensures Plain(Removed(lines, user, handle))
  {
    hide RemovedFrom;
    if lines != [] {
      RemovedIsPlain(lines[1..], user, handle);
      RemovedFromHasNot(lines[0], user, handle, '\n');
      RemovedFromHasNot(lines[0], user, handle, '\r');
      RemovedFromIsShort(lines[0], user, handle);
      var r, rest := RemovedFrom(lines[0], user, handle), Removed(lines[1..], user, handle);
      if r == [] {
        assert [] + rest == rest;
      } else {
        assert (r + rest)[1..] == rest;
      }
    }
  }

  lemma RemovedFromIsShort(line: string, user: string, handle: string)
    requires line != ""
    ensures var r := RemovedFrom(line, user, handle); |r| <= 1 && (r != [] ==> r[0] != "")
  {
  }

  lemma {:induction false} StoredIsPlain(lines: seq<string>, user: string, credential: string)
    requires ValidUser(user) && ValidCredential(credential) && Plain(lines)
    ensures Plain(Stored(lines, user, credential))
  {
    if lines == [] {
      assert [user + credential][1..] == [];
    } else if HasUser(lines[0], user) {
      assert ([lines[0] + credential] + lines[1..])[1..] == lines[1..];
    } else {
      hide ValidUser, ValidCredential, HasUser;
      StoredIsPlain(lines[1..], user, credential);
      assert ([lines[0]] + Stored(lines[1..], user, credential))[1..] == Stored(lines[1..], user, credential);
    }
  }

  lemma {:induction false} WithoutNameIsPlain(names: seq<string>, user: string, handle: string)
    requires Plain(names)
    ensures Plain(WithoutName(names, user, handle))
  {
    hide NameIn;
    if names != [] {
      WithoutNameIsPlain(names[1..], user, handle);
      var rest := WithoutName(names[1..], user, handle);
      assert ([names[0]] + rest)[1..] == rest && [] + rest == rest;
    }
  }

  lemma {:induction false} PlainSnoc(lines: seq<string>, line: string)
    requires Plain(lines) && line != "" && '\n' !in line && '\r' !in line
    ensures Plain(lines + [line]) && LinesFile(lines + [line]) == LinesFile(lines) + line + "\n"
  {
    if lines == [] {
      assert [] + [line] == [line] && [line][1..] == [];
      assert LinesFile([line]) == line + "\n" + LinesFile([]);
    } else {
      assert (lines + [line])[1..] == lines[1..] + [line];
      PlainSnoc(lines[1..], line);
      assert LinesFile(lines + [line]) == lines[0] + "\n" + LinesFile(lines[1..] + [line]);
    }
  }

  /** The two files' text after one command. */
  function Commanded(keys: string, names: string, e: Edit): (string, string)
    requires e.Store? ==> ValidCredential(e.credential)
  {
    match e
    case Store(user, credential, name) =>
      (StoredText(keys, user, credential), NamedText(names, user, HandleIn(credential), name))
    case Remove(user, handle) => (RemovedText(keys, user, handle), UnnamedText(names, user, handle))
  }

  predicate Holds(keys: string, names: string, f: Files) {
    Plain(f.keys) && Plain(f.names) && keys == LinesFile(f.keys) && names == LinesFile(f.names)
  }

  lemma NameLineIsPlain(user: string, credential: string, name: string)
    requires ValidUser(user) && ValidCredential(credential) && !BadName(name)
    ensures var line := NameLine(user, HandleIn(credential), name); line != "" && '\n' !in line && '\r' !in line
  {
    var c := credential[1..];
    assert HandleOf(c) == c[..IndexOf(c, ',')];
    assert forall x <- c :: x in credential;
    assert forall x <- HandleOf(c) :: x in c;
  }

  lemma TextFollows(keys: string, names: string, f: Files, book: Book, e: Edit)
    requires Holds(keys, names, f) && Legal(book, e)
    ensures var (k, n) := Commanded(keys, names, e); Holds(k, n, Apply(f, e))
  {
    PlainIsSolid(f.keys);
    PlainIsSolid(f.names);
    SolidIsReadBack(f.keys);
    SolidIsReadBack(f.names);
    hide Plain, Solid, Lines, LinesFile, NonBlank, Stored, Removed, WithoutName, ValidUser, ValidCredential;
    hide BadName, NameLine;
    if e.Store? {
      StoredIsPlain(f.keys, e.user, e.credential);
      NameLineIsPlain(e.user, e.credential, e.name);
      PlainSnoc(f.names, NameLine(e.user, HandleIn(e.credential), e.name));
    } else {
      RemovedIsPlain(f.keys, e.user, e.handle);
      WithoutNameIsPlain(f.names, e.user, e.handle);
    }
  }

  function CommandAll(keys: string, names: string, book: Book, edits: seq<Edit>): (string, string)
    requires LegalRun(book, edits)
    decreases |edits|
  {
    if edits == [] then (keys, names) else
      var (k, n) := Commanded(keys, names, edits[0]);
      CommandAll(k, n, Write(book, edits[0]), edits[1..])
  }

  lemma {:induction false} TextsFollow(keys: string, names: string, f: Files, book: Book, edits: seq<Edit>)
    requires Holds(keys, names, f) && LegalRun(book, edits)
    ensures var (k, n) := CommandAll(keys, names, book, edits); Holds(k, n, ApplyAll(f, book, edits))
    decreases |edits|
  {
    hide Holds, Apply, Write;
    if edits != [] {
      TextFollows(keys, names, f, book, edits[0]);
      var (k, n) := Commanded(keys, names, edits[0]);
      TextsFollow(k, n, Apply(f, edits[0]), Write(book, edits[0]), edits[1..]);
    }
  }

  /**
   * Any legal run of the commands on empty files: handles, names and what the sign-in helper reads,
   * as taken from the files' text, are what the book of registrations says.
   */
  lemma TextsSayWhatTheBookSays(edits: seq<Edit>, user: string)
    requires LegalRun(map[], edits) && ValidUser(user)
    ensures
      var (keys, names) := CommandAll("", "", map[], edits);
      var items := Of(WriteAll(map[], edits), user);
      && OneLineEach(Lines(keys))
      && HandlesFor(Lines(keys), user) == BookHandles(items)
      && (forall i :: 0 <= i < |items| ==>
            NamesFor(Lines(keys), Lines(names), user)[i] == Shown(Some(items[i].name), i))
      && Credentials(Lines(keys), user) == ParseAll(EntriesOf(items))
  {
    var f := ApplyAll(Files([], []), map[], edits);
    assert Holds("", "", Files([], []));
    TextsFollow("", "", Files([], []), map[], edits);
    PlainIsSolid(f.keys);
    PlainIsSolid(f.names);
    SolidIsReadBack(f.keys);
    SolidIsReadBack(f.names);
    hide Plain, Solid, Lines, LinesFile, ApplyAll, CommandAll, WriteAll, LegalRun, NamesFor, Credentials;
    hide OneLineEach, HandlesFor;
    FilesSayWhatTheBookSays(edits, user);
  }

  // ---- The commands as they run ---------------------------------------------------------------------------------

  datatype Result = Ok | Err(message: string)

  function TrimColons(text: string): string {
    if text != "" && text[0] == ':' then TrimColons(text[1..]) else text
  }

  /** The first line of the user gets longer; without one there is a new line. */
  method StoreLine(lines: seq<string>, user: string, credential: string) returns (r: seq<string>)
    ensures r == Stored(lines, user, credential)
  {
    hide HasUser;
    r := lines;
    var i := 0;
    while i < |lines| && !HasUser(lines[i], user)
      invariant 0 <= i <= |lines|
      invariant Stored(lines, user, credential) == lines[..i] + Stored(lines[i..], user, credential)
    {
      assert lines[i..] == [lines[i]] + lines[i + 1..];
      i := i + 1;
    }
    if i < |lines| {
      assert lines[i..] == [lines[i]] + lines[i + 1..];
      r := r[i := r[i] + credential];
    } else {
      assert lines[..i] == lines && lines[i..] == [];
      r := r + [user + credential];
    }
  }

  /** One line without the handle, and no line at all when nothing is left on it. */
  method RemoveFromLine(line: string, user: string, handle: string) returns (r: seq<string>)
    ensures r == RemovedFrom(line, user, handle)
  {
    if !HasUser(line, user) { return [line]; }
    var fields := Split(line, ':');
    var left := WithoutHandle(fields[1..], handle);
    return if left == [] then [] else [fields[0] + ":" + Join(left, ':')];
  }

  method RemoveLines(lines: seq<string>, user: string, handle: string) returns (out: seq<string>)
    ensures out == Removed(lines, user, handle)
  {
    hide RemovedFrom;
    var i := 0;
    out := [];
    while i < |lines|
      invariant 0 <= i <= |lines|
      invariant Removed(lines, user, handle) == out + Removed(lines[i..], user, handle)
    {
      assert lines[i..] == [lines[i]] + lines[i + 1..];
      var more := RemoveFromLine(lines[i], user, handle);
      assert out + (more + Removed(lines[i + 1..], user, handle)) == out + more + Removed(lines[i + 1..], user, handle);
      out := out + more;
      i := i + 1;
    }
  }

  /** `read_optional`: a file that does not exist reads as an empty one. */
  function ReadOptional(file: Option<string>): string {
    if file.Some? then file.value else ""
  }

  /** The key file and the names file; None is a file that does not exist. */
  class KeyFiles {
    var keys: Option<string>
    var names: Option<string>

    constructor (keys: Option<string>, names: Option<string>)
      ensures this.keys == keys && this.names == names
    {
      this.keys, this.names := keys, names;
    }

    /** The registration and the device's name come in as two lines. */
    method Store(user: string, input: string) returns (r: Result)
      modifies this
      ensures
        var lines := Lines(input);
        if |lines| == 0 then r == Err("missing credential")
        else if |lines| == 1 then r == Err("missing name")
        else if !(":" <= lines[0]) || BadName(lines[1]) then r == Err("invalid registration data")
        else
          r == Ok
          && keys == Some(StoredText(ReadOptional(old(keys)), user, lines[0]))
          && names == Some(NamedText(ReadOptional(old(names)), user, HandleOf(TrimColons(lines[0])), lines[1]))
      ensures r.Err? ==> keys == old(keys) && names == old(names)
      ensures
        r == Ok && ValidCredential(Lines(input)[0]) ==>
          && keys.Some? && names.Some?
          && (keys.value, names.value)
          == Commanded(ReadOptional(old(keys)), ReadOptional(old(names)),
                       Edit.Store(user, Lines(input)[0], Lines(input)[1]))
    {
      var lines := Lines(input);
      if |lines| == 0 { return Err("missing credential"); }
      if |lines| == 1 { return Err("missing name"); }
      var credential, name := lines[0], lines[1];
      if !(":" <= credential) || BadName(name) { return Err("invalid registration data"); }
      var handle := HandleOf(TrimColons(credential));
      var keyLines := StoreLine(NonBlank(Lines(ReadOptional(keys))), user, credential);
      keys := Some(LinesFile(keyLines));
      names := Some(LinesFile(Lines(ReadOptional(names))) + NameLine(user, handle, name) + "\n");
      if ValidCredential(credential) {
        NamedHandleIsStored(credential);
      }
      return Ok;
    }

    /** The key file has to exist; the names file need not. */
    method Remove(user: string, handle: string) returns (r: Result)
      modifies this
      ensures old(keys).None? ==> r == Err("not found") && keys == old(keys) && names == old(names)
      ensures old(keys).Some? ==>
        r == Ok
        && keys == Some(RemovedText(old(keys).value, user, handle))
        && names == Some(UnnamedText(ReadOptional(old(names)), user, handle))
        && (keys.value, names.value)
           == Commanded(old(keys).value, ReadOptional(old(names)), Edit.Remove(user, handle))
    {
      if keys.None? { return Err("not found"); }
      var out := RemoveLines(Lines(keys.value), user, handle);
      keys := Some(LinesFile(out));
      names := Some(LinesFile(WithoutName(Lines(ReadOptional(names)), user, handle)));
      return Ok;
    }
  }

  /** For a well-formed registration the handle that is named is the one that is stored. */
  lemma NamedHandleIsStored(credential: string)
    requires ValidCredential(credential)
    ensures ":" <= credential && HandleOf(TrimColons(credential)) == HandleIn(credential)
  {
    var c := credential[1..];
    assert c != "" ==> c[0] in c;
    assert TrimColons(c) == c;
  }
}
