/** Lines, fields and prefixes as Rust's string functions see them. */
module Text {
  /** The first position of `c`, or the length when there is none. */
  function IndexOf(text: string, c: char): (k: nat)
    ensures k <= |text| && c !in text[..k] && (k < |text| ==> text[k] == c)
  {
    if text == "" || text[0] == c then 0 else
      var k := IndexOf(text[1..], c);
      assert text[..k + 1] == [text[0]] + text[1..][..k];
      k + 1
  }

  lemma {:induction false} IndexOfConcat(a: string, c: char, b: string)
    requires c !in a
    ensures IndexOf(a + [c] + b, c) == |a|
  {
    if a != "" {
      assert (a + [c] + b)[1..] == a[1..] + [c] + b && a[0] in a;
      IndexOfConcat(a[1..], c, b);
    }
  }

  lemma IndexOfNone(text: string, c: char)
    ensures IndexOf(text, c) == |text| <==> c !in text
  {
    if IndexOf(text, c) == |text| {
      assert text[..|text|] == text;
    } else {
      assert text[IndexOf(text, c)] in text;
    }
  }

  // ---- split and join ---------------------------------------------------------------------------

  function Split(text: string, sep: char): (parts: seq<string>)
    ensures |parts| >= 1 && parts[0] == text[..IndexOf(text, sep)]
    decreases |text|
  {
    var k := IndexOf(text, sep);
    if k == |text| then [text] else [text[..k]] + Split(text[k + 1..], sep)
  }

  function Join(parts: seq<string>, sep: char): string {
    if parts == [] then "" else if |parts| == 1 then parts[0] else parts[0] + [sep] + Join(parts[1..], sep)
  }

  lemma {:induction false} JoinUndoesSplit(text: string, sep: char)
    ensures Join(Split(text, sep), sep) == text
    decreases |text|
  {
    var k := IndexOf(text, sep);
    if k < |text| {
      JoinUndoesSplit(text[k + 1..], sep);
      assert text == text[..k] + [sep] + text[k + 1..];
    }
  }

  lemma {:induction false} SplitConcat(a: string, sep: char, b: string)
    ensures Split(a + [sep] + b, sep) == Split(a, sep) + Split(b, sep)
    decreases |a|
  {
    hide IndexOf, Split;
    IndexOfNone(a, sep);
    var k := IndexOf(a, sep);
    if k == |a| {
      SplitHere(a, sep, b);
    } else {
      var first, rest := a[..k], a[k + 1..];
      Parts(a, k);
      SplitConcat(rest, sep, b);
      calc {
        Split(a + [sep] + b, sep);
        { Regroup(first, [sep], rest, b); }
        Split(first + [sep] + (rest + [sep] + b), sep);
        { SplitHere(first, sep, rest + [sep] + b); }
        [first] + (Split(rest, sep) + Split(b, sep));
        { SplitHere(first, sep, rest); }
        Split(a, sep) + Split(b, sep);
      }
    }
  }

  lemma Parts(a: string, k: nat)
    requires k < |a|
    ensures a == a[..k] + [a[k]] + a[k + 1..]
  {
  }

  lemma Regroup<T>(a: seq<T>, sep: seq<T>, b: seq<T>, c: seq<T>)
    ensures a + sep + b + sep + c == a + sep + (b + sep + c)
  {
  }

  lemma SplitHere(first: string, sep: char, rest: string)
    requires sep !in first
    ensures Split(first + [sep] + rest, sep) == [first] + Split(rest, sep)
    ensures Split(first, sep) == [first]
  {
    var text := first + [sep] + rest;
    IndexOfConcat(first, sep, rest);
    IndexOfNone(first, sep);
    assert text[..|first|] == first && text[|first| + 1..] == rest;
  }

  // ---- lines ------------------------------------------------------------------------------------

  function StripCr(line: string): string {
    if line != "" && line[|line| - 1] == '\r' then line[..|line| - 1] else line
  }

  /** `lines()`: a carriage return goes with the line feed after it; the last line need not end. */
  function Lines(text: string): seq<string>
    decreases |text|
  {
    if text == "" then [] else
      var k := IndexOf(text, '\n');
      if k == |text| then [text] else [StripCr(text[..k])] + Lines(text[k + 1..])
  }

  /** Every line with a line feed after it. */
  function Unlines(lines: seq<string>): string {
    if lines == [] then "" else lines[0] + "\n" + Unlines(lines[1..])
  }

  /** A line that survives being written with a line feed and read again. */
  predicate Clean(line: string) {
    '\n' !in line && (line != "" ==> line[|line| - 1] != '\r')
  }

  predicate AllClean(lines: seq<string>) {
    forall line <- lines :: Clean(line)
  }

  lemma LinesFirst(line: string, rest: string)
    requires Clean(line)
    ensures Lines(line + "\n" + rest) == [line] + Lines(rest)
  {
    var text := line + "\n" + rest;
    IndexOfConcat(line, '\n', rest);
    assert text[..|line|] == line && text[|line| + 1..] == rest;
  }

  lemma {:induction false} UnlinesConcat(a: seq<string>, b: seq<string>)
    ensures Unlines(a + b) == Unlines(a) + Unlines(b)
  {
    if a == [] {
      assert a + b == b;
    } else {
      UnlinesConcat(a[1..], b);
      assert (a + b)[1..] == a[1..] + b;
    }
  }

  /** No line feed in a line. */
  lemma {:induction false} LinesHaveNoLineFeeds(text: string)
    ensures forall line <- Lines(text) :: '\n' !in line
    decreases |text|
  {
    if text != "" {
      IndexOfNone(text, '\n');
      LinesHaveNoLineFeeds(if IndexOf(text, '\n') < |text| then text[IndexOf(text, '\n') + 1..] else "");
    }
  }

  /** Written back line by line, a text is unchanged exactly when it ends its last line and has no "\r\n". */
  predicate Terminated(text: string) {
    text == "" || text[|text| - 1] == '\n'
  }

  predicate HasCrLf(text: string) {
    exists i :: 0 < i < |text| && text[i - 1] == '\r' && text[i] == '\n'
  }

  lemma {:induction false} UnlinesRestoreIff(text: string)
    ensures Unlines(Lines(text)) == text <==> Terminated(text) && !HasCrLf(text)
    decreases |text|
  {
    if text != "" {
      var k := IndexOf(text, '\n');
      IndexOfNone(text, '\n');
      if k == |text| {
        assert Lines(text) == [text];
        assert Unlines([text]) == text + "\n" by {
          assert [text][1..] == [];
          assert Unlines([]) == "";
        }
        assert text[|text| - 1] in text;
      } else {
        var first, rest := text[..k], text[k + 1..];
        assert text == first + "\n" + rest;
        UnlinesRestoreIff(rest);
        assert Lines(text)[1..] == Lines(rest);
        var again := Unlines(Lines(rest));
        assert Unlines(Lines(text)) == StripCr(first) + "\n" + again;
        CrLfSplits(first, rest);
        hide Unlines, Lines, HasCrLf;
        if StripCr(first) == first {
          SameStart(first + "\n", again, rest);
        } else {
          StrippedDiffers(first, rest, again);
        }
        assert Terminated(text) <==> Terminated(rest);
      }
    }
  }

  lemma SameStart<T>(a: seq<T>, b: seq<T>, c: seq<T>)
    ensures a + b == a + c <==> b == c
  {
    assert (a + b)[|a|..] == b && (a + c)[|a|..] == c;
  }

  lemma StrippedDiffers(first: string, rest: string, other: string)
    requires first != "" && '\n' !in first && first[|first| - 1] == '\r'
    ensures StripCr(first) + "\n" + other != first + "\n" + rest
  {
    var n := |first| - 1;
    assert (first + "\n" + rest)[n] == '\r' && (StripCr(first) + "\n" + other)[n] == '\n';
  }

  lemma CrLfSplits(first: string, rest: string)
    requires '\n' !in first
    ensures HasCrLf(first + "\n" + rest) <==> StripCr(first) != first || HasCrLf(rest)
  {
    var text, n := first + "\n" + rest, |first|;
    if StripCr(first) != first {
      assert text[n - 1] == '\r' && text[n] == '\n';
    }
    if HasCrLf(rest) {
      var i :| 0 < i < |rest| && rest[i - 1] == '\r' && rest[i] == '\n';
      assert text[n + 1 + i - 1] == '\r' && text[n + 1 + i] == '\n';
    }
    if HasCrLf(text) {
      assert forall j :: 0 <= j < n ==> text[j] == first[j] && first[j] in first;
      var i :| 0 < i < |text| && text[i - 1] == '\r' && text[i] == '\n';
      if i > n {
        assert rest[i - n - 1] == '\n' && i - 1 > n && rest[i - n - 2] == '\r';
      }
    }
  }

  lemma UnlinesCons(line: string, lines: seq<string>)
    ensures Unlines([line] + lines) == line + "\n" + Unlines(lines)
    ensures [] + lines == lines
  {
    assert ([line] + lines)[1..] == lines;
  }

  lemma {:induction false} CarriageReturnsShrink(text: string)
    requires Terminated(text)
    ensures |Unlines(Lines(text))| <= |text| && (HasCrLf(text) ==> |Unlines(Lines(text))| < |text|)
    decreases |text|
  {
    if text != "" {
      var k := IndexOf(text, '\n');
      IndexOfNone(text, '\n');
      assert text[|text| - 1] in text;
      var first, rest := text[..k], text[k + 1..];
      assert text == first + "\n" + rest;
      CarriageReturnsShrink(rest);
      CrLfSplits(first, rest);
      UnlinesCons(StripCr(first), Lines(rest));
    }
  }

  lemma {:induction false} LinesAreClean(text: string)
    requires Terminated(text) && !HasCrLf(text)
    ensures AllClean(Lines(text))
    decreases |text|
  {
    if text != "" {
      var k := IndexOf(text, '\n');
      IndexOfNone(text, '\n');
      assert text[|text| - 1] in text;
      var first, rest := text[..k], text[k + 1..];
      assert text == first + "\n" + rest;
      CrLfSplits(first, rest);
      LinesAreClean(rest);
    }
  }

  lemma {:induction false} UnlinesEnd(lines: seq<string>)
    ensures Terminated(Unlines(lines)) && (lines != [] ==> Unlines(lines) != "")
  {
    if lines != [] {
      UnlinesEnd(lines[1..]);
    }
  }

  /** What a line becomes by being written with a line feed and read again. */
  function StripAll(lines: seq<string>): (stripped: seq<string>)
    ensures |stripped| == |lines|
  {
    if lines == [] then [] else [StripCr(lines[0])] + StripAll(lines[1..])
  }

  predicate NoFeeds(lines: seq<string>) {
    lines == [] || ('\n' !in lines[0] && NoFeeds(lines[1..]))
  }

  lemma {:induction false} WithoutFeeds(lines: seq<string>)
    requires forall line <- lines :: '\n' !in line
    ensures NoFeeds(lines)
  {
    if lines != [] {
      WithoutFeeds(lines[1..]);
    }
  }

  lemma {:induction false} WrittenLinesAreRead(lines: seq<string>)
    requires NoFeeds(lines)
    ensures Lines(Unlines(lines)) == StripAll(lines)
  {
    if lines != [] {
      var line, rest := lines[0], Unlines(lines[1..]);
      WrittenLinesAreRead(lines[1..]);
      IndexOfConcat(line, '\n', rest);
      assert (line + "\n" + rest)[..|line|] == line && (line + "\n" + rest)[|line| + 1..] == rest;
    }
  }

  // ---- prefixes and substrings --------------------------------------------------------------------

  predicate Contains(text: string, part: string) {
    part <= text || (text != "" && Contains(text[1..], part))
  }

  /** Unicode white space, as `trim_start` drops it. */
  predicate White(c: char) {
    || '\t' <= c <= '\r' || c == ' ' || c == '\U{85}' || c == '\U{a0}' || c == '\U{1680}'
    || '\U{2000}' <= c <= '\U{200a}' || c == '\U{2028}' || c == '\U{2029}' || c == '\U{202f}'
    || c == '\U{205f}' || c == '\U{3000}'
  }

  function TrimStart(text: string): string {
    if text != "" && White(text[0]) then TrimStart(text[1..]) else text
  }

  /** A number in decimal, as it is shown to the user. */
  function Decimal(n: nat): string {
    if n < 10 then [('0' as int + n) as char] else Decimal(n / 10) + [('0' as int + n % 10) as char]
  }
}
