/** Editing a PAM service file: our line goes in before the first real auth line, and comes out again. */
module PamFile {
  import opened Bytes
  import opened Text

  const KEYS := "/etc/passkey/u2f_keys"
  /** In short pieces, because the verifier takes a literal apart character by character. */
  const MARK := "# passkey: " + "fingerprint from your Android device " + "(undo with: passkey uninstall)"

  predicate IsAuth(line: string) {
    var trimmed := TrimStart(line);
    var rest := if trimmed != "" && trimmed[0] == '-' then trimmed[1..] else trimmed;
    rest == "auth" || "auth " <= rest || "auth\t" <= rest
  }

  /** Modules that only decide whether signing in is possible at all. */
  predicate IsGuard(line: string) {
    || Contains(line, "pam_nologin.so") || Contains(line, "pam_securetty.so")
    || Contains(line, "pam_shells.so") || Contains(line, "pam_rootok.so")
    || (Contains(line, "pam_faillock.so") && Contains(line, "preauth"))
  }

  predicate IsOurs(line: string) {
    line == MARK
    || ((Contains(line, "pam_passkey.so") || Contains(line, "pam_u2f.so")) && Contains(line, "authfile=" + KEYS))
  }

  /** A line that does something, as against the comment above it. */
  predicate OurModule(line: string) {
    IsOurs(line) && line != MARK
  }

  predicate RealAuth(line: string) {
    !IsOurs(line) && IsAuth(line) && !IsGuard(line)
  }

  // ---- The line we want -------------------------------------------------------------------------

  /** In short pieces, like `MARK`. */
  const CUE :=
    " cue [cue_prompt=" + "Confirm with your fingerprint " + "on your device, " + "or reject there to " +
    "type your password]"

  const RULE := "-auth      sufficient   "

  function Arguments(hostname: string): string {
    "authfile=" + KEYS + " origin=pam://" + hostname + " appid=pam://" + hostname + " userverification=1 nouserok"
  }

  /** `own`: our module is installed and the stack hands it the typed password. */
  function PamLine(onEmpty: bool, own: bool, hostname: string): string {
    var mode := if onEmpty then " mode=on-empty " else " mode=parallel ";
    if own then RULE + "pam_passkey.so" + (mode + Arguments(hostname))
    else RULE + "pam_u2f.so" + (" " + Arguments(hostname) + CUE)
  }

  lemma {:induction false} ContainsPart(before: string, part: string, after: string)
    ensures Contains(before + part + after, part)
  {
    if before == "" {
      assert before + part + after == part + after;
    } else {
      ContainsPart(before[1..], part, after);
      assert (before + part + after)[1..] == before[1..] + part + after;
    }
  }

  lemma ModuleLine(before: string, name: string, middle: string, after: string)
    requires name == "pam_passkey.so" || name == "pam_u2f.so"
    ensures IsOurs(before + name + (middle + ("authfile=" + KEYS) + after))
  {
    var line := before + name + (middle + ("authfile=" + KEYS) + after);
    ContainsPart(before, name, middle + ("authfile=" + KEYS) + after);
    assert line == (before + name + middle) + ("authfile=" + KEYS) + after;
    ContainsPart(before + name + middle, "authfile=" + KEYS, after);
  }

  lemma Origins(hostname: string) returns (origin: string)
    requires '\n' !in hostname
    ensures Arguments(hostname) == "authfile=" + KEYS + origin
    ensures '\n' !in origin && origin != "" && origin[|origin| - 1] == 'k'
  {
    origin := " origin=pam://" + hostname + " appid=pam://" + hostname + " userverification=1 nouserok";
  }

  lemma LineHolds(before: string, name: string, middle: string, origin: string, end: string)
    requires '\n' !in before && '\n' !in name && '\n' !in middle && '\n' !in origin && '\n' !in end
    requires before != "" && before[0] == '-' && origin != "" && origin[|origin| - 1] != '\r'
    requires end != "" ==> end[|end| - 1] != '\r'
    requires name == "pam_passkey.so" || name == "pam_u2f.so"
    ensures
      var line := before + name + (middle + ("authfile=" + KEYS) + (origin + end));
      OurModule(line) && Clean(line)
  {
    ModuleLine(before, name, middle, origin + end);
    var line := before + name + (middle + ("authfile=" + KEYS) + (origin + end));
    assert line[0] == '-' && MARK[0] == '#';
    assert '\n' !in "authfile=" + KEYS;
    assert |origin + end| > 0;
    assert line[|line| - 1] == (origin + end)[|origin + end| - 1];
  }

  /** The line we write is one of ours, is not the comment, and is read back as it is. */
  lemma WantedIsOurModule(onEmpty: bool, own: bool, hostname: string)
    requires '\n' !in hostname
    ensures var wanted := PamLine(onEmpty, own, hostname); OurModule(wanted) && Clean(wanted)
  {
    assert '\n' !in CUE && CUE[|CUE| - 1] == ']';
    var origin := Origins(hostname);
    var mode := if own then (if onEmpty then " mode=on-empty " else " mode=parallel ") else " ";
    var end := if own then "" else CUE;
    LineHolds(RULE, if own then "pam_passkey.so" else "pam_u2f.so", mode, origin, end);
    hide OurModule, Clean, Arguments;
    Flat(mode, "authfile=" + KEYS, origin, end);
  }

  lemma Flat(a: string, b: string, c: string, d: string)
    ensures a + b + (c + d) == a + (b + c) + d
    ensures a + (b + c) + "" == a + (b + c)
  {
  }

  // ---- Adding -------------------------------------------------------------------------------------

  /** The lines after the place where ours stands: any further module line of ours goes. */
  function WithoutModules(lines: seq<string>): seq<string> {
    if lines == [] then []
    else (if OurModule(lines[0]) then [] else [lines[0]]) + WithoutModules(lines[1..])
  }

  /** The first line that is our module or a real auth line; the length when there is none. */
  function Anchor(lines: seq<string>): (k: nat)
    ensures k <= |lines|
    ensures forall i :: 0 <= i < k ==> !OurModule(lines[i]) && !RealAuth(lines[i])
    ensures k < |lines| ==> OurModule(lines[k]) || RealAuth(lines[k])
  {
    if lines == [] || OurModule(lines[0]) || RealAuth(lines[0]) then 0 else 1 + Anchor(lines[1..])
  }

  /** A comment of ours that is left over directly above the place. */
  function WithoutMark(lines: seq<string>): seq<string> {
    if lines != [] && lines[|lines| - 1] == MARK then lines[..|lines| - 1] else lines
  }

  /**
   * What the file should look like: our line in the place of the first one of ours, or above the
   * first real auth line.
   */
  function Placed(lines: seq<string>, wanted: string): seq<string>
    requires Anchor(lines) < |lines|
  {
    var k := Anchor(lines);
    if OurModule(lines[k]) then Replacing(lines[..k], lines[k + 1..], wanted)
    else Inserting(lines[..k], lines[k], lines[k + 1..], wanted)
  }

  function Replacing(before: seq<string>, after: seq<string>, wanted: string): seq<string> {
    before + [wanted] + WithoutModules(after)
  }

  function Inserting(before: seq<string>, line: string, after: seq<string>, wanted: string): seq<string> {
    WithoutMark(before) + [MARK, wanted, line] + WithoutModules(after)
  }

  lemma Cut(lines: seq<string>, k: nat)
    requires k < |lines|
    ensures lines == lines[..k] + ([lines[k]] + lines[k + 1..])
  {
  }

  /** The new text, or None when the file is left alone. */
  function Added(text: string, wanted: string): Option<string> {
    var lines := Lines(text);
    if wanted in lines || Anchor(lines) == |lines| then None else Some(Unlines(Placed(lines, wanted)))
  }

  /** `format!("{}\n", lines.join("\n"))` */
  method JoinLines(lines: seq<string>) returns (text: string)
    requires lines != []
    ensures text == Unlines(lines)
  {
    text := lines[0];
    var i := 1;
    while i < |lines|
      invariant 1 <= i <= |lines| && text + "\n" == Unlines(lines[..i])
    {
      assert lines[..i + 1] == lines[..i] + [lines[i]];
      UnlinesConcat(lines[..i], [lines[i]]);
      OneLine(lines[i]);
      text := text + "\n" + lines[i];
      i := i + 1;
    }
    assert lines[..i] == lines;
    text := text + "\n";
  }

  lemma OneLine(line: string)
    ensures Unlines([line]) == line + "\n"
  {
    assert [line][1..] == [];
    assert Unlines([]) == "";
  }

  lemma MarkIsNeither()
    ensures IsOurs(MARK) && !OurModule(MARK) && !RealAuth(MARK)
  {
  }

  /** What the loop knows before line `i`. */
  predicate Halfway(input: seq<string>, wanted: string, i: nat, output: seq<string>, inserted: bool) {
    && i <= |input| && (inserted <==> Anchor(input) < i)
    && (!inserted ==> output == input[..i])
    && (inserted ==> output != [] && output + WithoutModules(input[i..]) == Placed(input, wanted))
  }

  lemma KeepsLine(input: seq<string>, wanted: string, i: nat, output: seq<string>, inserted: bool)
    requires Halfway(input, wanted, i, output, inserted) && i < |input|
    requires !OurModule(input[i]) && (inserted || !RealAuth(input[i]))
    ensures Halfway(input, wanted, i + 1, output + [input[i]], inserted)
  {
    hide OurModule, RealAuth, Placed;
    if inserted {
      assert input[i..][1..] == input[i + 1..];
    }
  }

  lemma DropsLine(input: seq<string>, wanted: string, i: nat, output: seq<string>)
    requires Halfway(input, wanted, i, output, true) && i < |input| && OurModule(input[i])
    ensures Halfway(input, wanted, i + 1, output, true)
  {
    hide OurModule, RealAuth, Placed;
    assert input[i..][1..] == input[i + 1..];
  }

  lemma ReplacesLine(input: seq<string>, wanted: string, i: nat, output: seq<string>)
    requires Halfway(input, wanted, i, output, false) && i < |input| && OurModule(input[i])
    ensures Halfway(input, wanted, i + 1, output + [wanted], true)
  {
    hide OurModule, RealAuth;
  }

  lemma InsertsLine(input: seq<string>, wanted: string, i: nat, output: seq<string>)
    requires Halfway(input, wanted, i, output, false) && i < |input| && RealAuth(input[i]) && !OurModule(input[i])
    ensures Halfway(input, wanted, i + 1, WithoutMark(output) + [MARK, wanted] + [input[i]], true)
  {
    hide OurModule, RealAuth, MARK, WithoutMark, WithoutModules;
    assert WithoutMark(output) + [MARK, wanted] + [input[i]] == WithoutMark(output) + [MARK, wanted, input[i]];
  }

  method Add(text: string, wanted: string) returns (r: Option<string>)
    ensures r == Added(text, wanted)
  {
    hide Contains, IsAuth, IsGuard, Lines, Unlines, MARK, Halfway;
    var input := Lines(text);
    if wanted in input { return None; }
    MarkIsNeither();
    var output: seq<string>, inserted, i := [], false, 0;
    Starts(input, wanted);
    while i < |input|
      invariant 0 <= i <= |input| && Halfway(input, wanted, i, output, inserted)
    {
      var line := input[i];
      if line == MARK {
        KeepsLine(input, wanted, i, output, inserted);
        output := output + [line];
      } else if IsOurs(line) {
        if !inserted {
          ReplacesLine(input, wanted, i, output);
          output := output + [wanted];
          inserted := true;
        } else {
          DropsLine(input, wanted, i, output);
        }
      } else if !inserted && IsAuth(line) && !IsGuard(line) {
        InsertsLine(input, wanted, i, output);
        if output != [] && output[|output| - 1] == MARK { output := output[..|output| - 1]; }
        output := output + [MARK, wanted];
        inserted := true;
        output := output + [line];
      } else {
        KeepsLine(input, wanted, i, output, inserted);
        output := output + [line];
      }
      i := i + 1;
    }
    Ends(input, wanted, output, inserted);
    if !inserted { return None; }
    var joined := JoinLines(output);
    return Some(joined);
  }

  lemma Starts(input: seq<string>, wanted: string)
    ensures Halfway(input, wanted, 0, [], false)
  {
  }

  lemma Ends(input: seq<string>, wanted: string, output: seq<string>, inserted: bool)
    requires Halfway(input, wanted, |input|, output, inserted)
    ensures inserted <==> Anchor(input) < |input|
    ensures inserted ==> output != [] && output == Placed(input, wanted)
  {
    hide Placed, Anchor, OurModule, RealAuth;
    assert input[|input|..] == [];
    assert output + [] == output;
  }

  // ---- What adding promises -----------------------------------------------------------------------------

  function Others(lines: seq<string>): seq<string> {
    if lines == [] then [] else (if IsOurs(lines[0]) then [] else [lines[0]]) + Others(lines[1..])
  }

  function Modules(lines: seq<string>): seq<string> {
    if lines == [] then [] else (if OurModule(lines[0]) then [lines[0]] else []) + Modules(lines[1..])
  }

  lemma {:induction false} OthersConcat(a: seq<string>, b: seq<string>)
    ensures Others(a + b) == Others(a) + Others(b)
  {
    hide IsOurs;
    if a == [] {
      assert a + b == b;
    } else {
      assert (a + b)[1..] == a[1..] + b;
      OthersConcat(a[1..], b);
    }
  }

  lemma {:induction false} ModulesConcat(a: seq<string>, b: seq<string>)
    ensures Modules(a + b) == Modules(a) + Modules(b)
  {
    hide OurModule;
    if a == [] {
      assert a + b == b;
    } else {
      assert (a + b)[1..] == a[1..] + b;
      ModulesConcat(a[1..], b);
    }
  }

  lemma PartsConcat(a: seq<string>, b: seq<string>)
    ensures Others(a + b) == Others(a) + Others(b) && Modules(a + b) == Modules(a) + Modules(b)
  {
    hide Others, Modules;
    OthersConcat(a, b);
    ModulesConcat(a, b);
  }

  lemma {:induction false} WithoutModulesKeepsOthers(lines: seq<string>)
    ensures Others(WithoutModules(lines)) == Others(lines) && Modules(WithoutModules(lines)) == []
  {
    hide IsOurs;
    if lines != [] {
      var first := if OurModule(lines[0]) then [] else [lines[0]];
      WithoutModulesKeepsOthers(lines[1..]);
      PartsConcat(first, WithoutModules(lines[1..]));
      if first != [] {
        assert [lines[0]][1..] == [];
      }
    }
  }

  lemma {:induction false} NoModulesBefore(lines: seq<string>, k: nat)
    requires k <= |lines| && forall i :: 0 <= i < k ==> !OurModule(lines[i])
    ensures Modules(lines[..k]) == []
  {
    hide IsOurs, OurModule;
    if k > 0 {
      NoModulesBefore(lines, k - 1);
      assert lines[..k] == lines[..k - 1] + [lines[k - 1]];
      PartsConcat(lines[..k - 1], [lines[k - 1]]);
      assert [lines[k - 1]][1..] == [];
    }
  }

  lemma WithoutMarkKeepsOthers(lines: seq<string>)
    requires Modules(lines) == []
    ensures Others(WithoutMark(lines)) == Others(lines) && Modules(WithoutMark(lines)) == []
  {
    hide MARK;
    if lines != [] && lines[|lines| - 1] == MARK {
      MarkIsNeither();
      var n := |lines| - 1;
      assert lines == lines[..n] + [MARK];
      PartsConcat(lines[..n], [MARK]);
      assert [MARK][1..] == [];
    }
  }

  lemma OneByOne(a: string, b: string, c: string)
    ensures Others([a]) == (if IsOurs(a) then [] else [a]) && Modules([a]) == if OurModule(a) then [a] else []
    ensures Others([a, b, c]) == Others([a]) + Others([b]) + Others([c])
    ensures Modules([a, b, c]) == Modules([a]) + Modules([b]) + Modules([c])
  {
    hide IsOurs, OurModule;
    assert [a][1..] == [];
    assert [a, b, c] == [a] + [b] + [c];
    PartsConcat([a] + [b], [c]);
    PartsConcat([a], [b]);
  }

  lemma ReplacingKeepsOthers(before: seq<string>, line: string, after: seq<string>, wanted: string)
    requires Modules(before) == [] && OurModule(line) && OurModule(wanted)
    ensures
      var edited := Replacing(before, after, wanted);
      Others(edited) == Others(before + ([line] + after)) && Modules(edited) == [wanted]
  {
    hide MARK, Contains, Others, Modules;
    WithoutModulesKeepsOthers(after);
    PartsConcat(before, [line] + after);
    PartsConcat([line], after);
    OneByOne(line, line, line);
    OneByOne(wanted, wanted, wanted);
    PartsConcat(before + [wanted], WithoutModules(after));
    PartsConcat(before, [wanted]);
  }

  lemma InsertingKeepsOthers(before: seq<string>, line: string, after: seq<string>, wanted: string)
    requires Modules(before) == [] && !OurModule(line) && OurModule(wanted)
    ensures
      var edited := Inserting(before, line, after, wanted);
      Others(edited) == Others(before + ([line] + after)) && Modules(edited) == [wanted]
  {
    hide MARK, Contains, Others, Modules, WithoutMark;
    MarkIsNeither();
    WithoutMarkKeepsOthers(before);
    WithoutModulesKeepsOthers(after);
    PartsConcat(before, [line] + after);
    PartsConcat([line], after);
    OneByOne(line, line, line);
    OneByOne(MARK, wanted, line);
    OneByOne(wanted, wanted, wanted);
    PartsConcat(WithoutMark(before) + [MARK, wanted, line], WithoutModules(after));
    PartsConcat(WithoutMark(before), [MARK, wanted, line]);
  }

  /** A rewrite keeps every line that is not ours, in order, and leaves exactly one module line of ours. */
  lemma PlacingKeepsOthers(lines: seq<string>, wanted: string)
    requires Anchor(lines) < |lines| && OurModule(wanted)
    ensures Others(Placed(lines, wanted)) == Others(lines) && Modules(Placed(lines, wanted)) == [wanted]
  {
    hide MARK, OurModule, RealAuth, Others, Modules, Replacing, Inserting;
    var k := Anchor(lines);
    Cut(lines, k);
    NoModulesBefore(lines, k);
    if OurModule(lines[k]) {
      ReplacingKeepsOthers(lines[..k], lines[k], lines[k + 1..], wanted);
    } else {
      InsertingKeepsOthers(lines[..k], lines[k], lines[k + 1..], wanted);
    }
  }

  /** After a rewrite no real auth line stands before ours, and a new one has the comment right above. */
  lemma OursComesFirst(lines: seq<string>, wanted: string) returns (before: seq<string>, after: seq<string>)
    requires Anchor(lines) < |lines|
    ensures Placed(lines, wanted) == before + [wanted] + after
    ensures forall line <- before :: !RealAuth(line) && !OurModule(line)
    ensures RealAuth(lines[Anchor(lines)]) ==>
      before != [] && before[|before| - 1] == MARK && after != [] && after[0] == lines[Anchor(lines)]
  {
    hide RealAuth, OurModule, WithoutModules, MARK;
    MarkIsNeither();
    var k := Anchor(lines);
    OursIsNotReal(lines[k]);
    if OurModule(lines[k]) {
      before, after := lines[..k], WithoutModules(lines[k + 1..]);
    } else {
      before, after := WithoutMark(lines[..k]) + [MARK], [lines[k]] + WithoutModules(lines[k + 1..]);
      assert WithoutMark(lines[..k]) <= lines[..k];
      assert WithoutMark(lines[..k]) + [MARK, wanted, lines[k]] == before + [wanted] + [lines[k]];
    }
    forall line | line in before
      ensures !RealAuth(line) && !OurModule(line)
    {
      var i :| 0 <= i < |before| && before[i] == line;
      assert (i < k && line == lines[i]) || line == MARK;
    }
  }

  lemma OursIsNotReal(line: string)
    ensures OurModule(line) ==> !RealAuth(line)
  {
  }

  // ---- Removing -----------------------------------------------------------------------------------------

  /** The text without our lines, or None when there are none. */
  function Removed(text: string): Option<string> {
    var lines := Lines(text);
    if Others(lines) == lines then None
    else if Others(lines) == [] then Some("\n")
    else Some(Unlines(Others(lines)))
  }

  lemma {:induction false} OthersAreAllIff(lines: seq<string>)
    ensures |Others(lines)| <= |lines|
    ensures Others(lines) == lines <==> forall line <- lines :: !IsOurs(line)
    ensures forall line <- Others(lines) :: !IsOurs(line)
  {
    hide IsOurs;
    if lines != [] {
      OthersAreAllIff(lines[1..]);
      if !IsOurs(lines[0]) {
        assert Others(lines)[1..] == Others(lines[1..]);
        assert forall line :: line in lines <==> line == lines[0] || line in lines[1..];
      } else {
        assert lines[0] in lines;
      }
    }
  }

  // Two more ways for lines to be harmless, each line by line.
  predicate Stripped(lines: seq<string>) {
    lines == [] || (StripCr(lines[0]) == lines[0] && Stripped(lines[1..]))
  }

  predicate OursStripped(lines: seq<string>) {
    lines == [] || ((IsOurs(lines[0]) ==> StripCr(lines[0]) == lines[0]) && OursStripped(lines[1..]))
  }

  lemma {:induction false} HarmlessConcat(a: seq<string>, b: seq<string>)
    ensures NoFeeds(a + b) <==> NoFeeds(a) && NoFeeds(b)
    ensures Stripped(a + b) <==> Stripped(a) && Stripped(b)
    ensures OursStripped(a + b) <==> OursStripped(a) && OursStripped(b)
  {
    hide IsOurs, StripCr;
    if a == [] {
      assert a + b == b;
    } else {
      assert (a + b)[1..] == a[1..] + b;
      HarmlessConcat(a[1..], b);
    }
  }

  lemma HarmlessPair(a: string, b: string)
    ensures NoFeeds([a, b]) <==> '\n' !in a && '\n' !in b
    ensures Stripped([a, b]) <==> StripCr(a) == a && StripCr(b) == b
    ensures StripCr(a) == a && StripCr(b) == b ==> OursStripped([a, b])
  {
    assert [a, b][1..] == [b] && [b][1..] == [];
    assert NoFeeds([]) && Stripped([]) && OursStripped([]);
  }

  lemma {:induction false} NoneOfOurs(lines: seq<string>)
    requires forall line <- lines :: !IsOurs(line)
    ensures OursStripped(lines)
  {
    hide IsOurs;
    if lines != [] {
      NoneOfOurs(lines[1..]);
    }
  }

  lemma {:induction false} CleanIsStripped(lines: seq<string>)
    requires AllClean(lines)
    ensures Stripped(lines)
  {
    if lines != [] {
      assert lines[0] in lines;
      assert Clean(lines[0]);
      CleanIsStripped(lines[1..]);
    }
  }

  lemma {:induction false} StripAllKeeps(lines: seq<string>, line: string)
    ensures line in lines ==> StripCr(line) in StripAll(lines)
  {
    if lines != [] {
      StripAllKeeps(lines[1..], line);
      assert line in lines ==> line == lines[0] || line in lines[1..];
    }
  }

  lemma {:induction false} CleanLinesStay(lines: seq<string>)
    requires Stripped(lines)
    ensures StripAll(lines) == lines
  {
    if lines != [] {
      CleanLinesStay(lines[1..]);
    }
  }

  /** Nothing grows when carriage returns go and lines of ours are dropped. */
  lemma {:induction false} DroppingShrinks(lines: seq<string>)
    requires OursStripped(lines)
    ensures |Unlines(Others(StripAll(lines)))| <= |Unlines(Others(lines))|
  {
    if lines != [] {
      hide IsOurs;
      DroppingShrinks(lines[1..]);
      var a, b := StripCr(lines[0]), lines[0];
      UnlinesCons(a, Others(StripAll(lines[1..])));
      UnlinesCons(b, Others(lines[1..]));
      assert StripAll(lines)[1..] == StripAll(lines[1..]);
    }
  }

  function AfterAdd(text: string, wanted: string): string {
    if Added(text, wanted).Some? then Added(text, wanted).value else text
  }

  function AfterRemove(text: string): string {
    if Removed(text).Some? then Removed(text).value else text
  }

  lemma {:induction false} NothingToDrop(lines: seq<string>)
    requires forall line <- lines :: !IsOurs(line)
    ensures WithoutModules(lines) == lines && WithoutMark(lines) == lines
  {
    hide Contains, MARK;
    MarkIsNeither();
    if lines != [] {
      assert lines[|lines| - 1] in lines;
      assert forall line <- lines[1..] :: line in lines;
      NothingToDrop(lines[1..]);
    }
  }

  lemma MarkIsClean()
    ensures '\n' !in MARK && StripCr(MARK) == MARK
  {
    assert MARK[|MARK| - 1] == ')';
  }

  lemma InTheMiddle(a: seq<string>, x: string, y: string, c: seq<string>)
    ensures y in a + [x, y] + c
  {
    assert (a + [x, y] + c)[|a| + 1] == y;
  }

  lemma InsertingFirst(before: seq<string>, line: string, after: seq<string>, wanted: string)
    requires NoFeeds(before + ([line] + after)) && Clean(wanted)
    requires forall l <- before + ([line] + after) :: !IsOurs(l)
    ensures
      var edited := Inserting(before, line, after, wanted);
      && NoFeeds(edited) && OursStripped(edited) && wanted in edited
      && (Stripped(before + ([line] + after)) ==> Stripped(edited))
  {
    hide IsOurs, MARK;
    assert forall l <- before :: l in before + ([line] + after);
    assert forall l <- after :: (before + ([line] + after))[|before| + 1..] == after && l in before + ([line] + after);
    NothingToDrop(before);
    NothingToDrop(after);
    NoneOfOurs(before + ([line] + after));
    MarkIsClean();
    HarmlessPair(MARK, wanted);
    hide WithoutMark, WithoutModules, NoFeeds, Stripped, OursStripped, StripCr;
    Rejoin(before, MARK, wanted, line, after);
    HarmlessConcat(before, [line] + after);
    HarmlessConcat(before, [MARK, wanted]);
    HarmlessConcat(before + [MARK, wanted], [line] + after);
    InTheMiddle(before, MARK, wanted, [line] + after);
  }

  lemma Rejoin(before: seq<string>, a: string, b: string, line: string, after: seq<string>)
    ensures before + [a, b, line] + after == before + [a, b] + ([line] + after)
  {
  }

  /** The edited lines of a file that had none of ours. */
  lemma FirstEdit(lines: seq<string>, wanted: string)
    requires Anchor(lines) < |lines| && Clean(wanted)
    requires NoFeeds(lines) && forall line <- lines :: !IsOurs(line)
    ensures
      var edited := Placed(lines, wanted);
      && NoFeeds(edited) && OursStripped(edited) && (Stripped(lines) ==> Stripped(edited))
      && wanted in edited
  {
    hide NoFeeds, OursStripped, Stripped, Inserting, Replacing, IsOurs, RealAuth, OurModule, MARK, Clean;
    var k := Anchor(lines);
    assert !IsOurs(lines[k]);
    NoneIsNoModule(lines[k]);
    Cut(lines, k);
    InsertingFirst(lines[..k], lines[k], lines[k + 1..], wanted);
  }

  lemma NoneIsNoModule(line: string)
    ensures !IsOurs(line) ==> !OurModule(line)
  {
  }

  /** What removing makes of the edited lines once they are written and read again. */
  lemma RemovedAfterEdit(lines: seq<string>, wanted: string)
    requires Anchor(lines) < |lines| && OurModule(wanted) && Clean(wanted)
    requires NoFeeds(lines) && forall line <- lines :: !IsOurs(line)
    ensures
      var text := Unlines(Placed(lines, wanted));
      var restored := AfterRemove(text);
      && Terminated(restored) && |restored| <= |Unlines(lines)|
      && (Stripped(lines) ==> restored == Unlines(lines))
  {
    FirstEdit(lines, wanted);
    PlacingKeepsOthers(lines, wanted);
    OthersAreAllIff(lines);
    var edited := Placed(lines, wanted);
    hide MARK, Placed, Anchor, IsOurs, NoFeeds, Stripped, OursStripped, Others, Unlines, StripAll, Lines;
    WrittenLinesAreRead(edited);
    StripAllKeeps(edited, wanted);
    OthersAreAllIff(StripAll(edited));
    DroppingShrinks(edited);
    UnlinesEnd(lines);
    UnlinesEnd(Others(StripAll(edited)));
    if Stripped(lines) {
      CleanLinesStay(edited);
    }
  }

  predicate HasRealAuth(lines: seq<string>) {
    exists line <- lines :: RealAuth(line)
  }

  /** Without lines of ours the file is rewritten exactly when it has a real auth line. */
  lemma EditedIff(text: string, wanted: string)
    requires OurModule(wanted) && forall line <- Lines(text) :: !IsOurs(line)
    ensures Added(text, wanted).Some? <==> HasRealAuth(Lines(text))
  {
    hide RealAuth, Contains, MARK;
    var lines := Lines(text);
    var k := Anchor(lines);
    if k < |lines| {
      NoneIsNoModule(lines[k]);
      assert RealAuth(lines[k]);
    } else {
      forall line | line in lines
        ensures !RealAuth(line)
      {
        var i :| 0 <= i < |lines| && lines[i] == line;
      }
    }
  }

  /**
   * Adding and removing gives a file without lines of ours back exactly when it has no real auth
   * line, or its last line was ended and no line ended in a carriage return.
   */
  lemma RemoveUndoesAddIff(text: string, wanted: string)
    requires OurModule(wanted) && Clean(wanted)
    requires forall line <- Lines(text) :: !IsOurs(line)
    ensures AfterRemove(AfterAdd(text, wanted)) == text
       <==> !HasRealAuth(Lines(text)) || (Terminated(text) && !HasCrLf(text))
  {
    var lines := Lines(text);
    EditedIff(text, wanted);
    hide IsOurs, MARK, Placed, RealAuth;
    OthersAreAllIff(lines);
    if Added(text, wanted).Some? {
      LinesHaveNoLineFeeds(text);
      WithoutFeeds(lines);
      RemovedAfterEdit(lines, wanted);
      UnlinesRestoreIff(text);
      if Terminated(text) {
        CarriageReturnsShrink(text);
        if !HasCrLf(text) {
          LinesAreClean(text);
          CleanIsStripped(lines);
        }
      }
    }
  }

  /** Adding again changes nothing. */
  lemma AddingTwiceIsAddingOnce(text: string, wanted: string)
    requires Clean(wanted) && OurModule(wanted)
    ensures AfterAdd(AfterAdd(text, wanted), wanted) == AfterAdd(text, wanted)
  {
    hide IsOurs, MARK, Anchor;
    if Added(text, wanted).Some? {
      LinesHaveNoLineFeeds(text);
      var edited := Placed(Lines(text), wanted);
      WithoutFeeds(Lines(text));
      PlacedLines(Lines(text), wanted);
      hide Placed, Lines, Unlines;
      WrittenLinesAreRead(edited);
      StripAllKeeps(edited, wanted);
    }
  }

  lemma ReplacingNoFeeds(before: seq<string>, line: string, after: seq<string>, wanted: string)
    requires NoFeeds(before + ([line] + after)) && '\n' !in wanted
    ensures var edited := Replacing(before, after, wanted); wanted in edited && NoFeeds(edited)
  {
    hide OurModule;
    HarmlessConcat(before, [line] + after);
    OneNoFeeds(line, after);
    OneNoFeeds(wanted, WithoutModules(after));
    WithoutModulesNoFeeds(after);
    hide NoFeeds, WithoutModules;
    HarmlessConcat(before, [wanted] + WithoutModules(after));
    assert before + [wanted] + WithoutModules(after) == before + ([wanted] + WithoutModules(after));
    assert (before + [wanted] + WithoutModules(after))[|before|] == wanted;
  }

  lemma InsertingNoFeeds(before: seq<string>, line: string, after: seq<string>, wanted: string)
    requires NoFeeds(before + ([line] + after)) && '\n' !in wanted
    ensures var edited := Inserting(before, line, after, wanted); wanted in edited && NoFeeds(edited)
  {
    hide OurModule, MARK;
    HarmlessConcat(before, [line] + after);
    OneNoFeeds(line, after);
    OneNoFeeds(line, WithoutModules(after));
    WithoutModulesNoFeeds(after);
    WithoutMarkNoFeeds(before);
    MarkIsClean();
    HarmlessPair(MARK, wanted);
    hide NoFeeds, WithoutModules, WithoutMark;
    Rejoin(WithoutMark(before), MARK, wanted, line, WithoutModules(after));
    HarmlessConcat(WithoutMark(before), [MARK, wanted]);
    HarmlessConcat(WithoutMark(before) + [MARK, wanted], [line] + WithoutModules(after));
    InTheMiddle(WithoutMark(before), MARK, wanted, [line] + WithoutModules(after));
  }

  lemma PlacedLines(lines: seq<string>, wanted: string)
    requires Anchor(lines) < |lines| && NoFeeds(lines) && '\n' !in wanted
    ensures wanted in Placed(lines, wanted) && NoFeeds(Placed(lines, wanted))
  {
    hide OurModule, RealAuth, NoFeeds, Replacing, Inserting;
    var k := Anchor(lines);
    Cut(lines, k);
    if OurModule(lines[k]) {
      ReplacingNoFeeds(lines[..k], lines[k], lines[k + 1..], wanted);
    } else {
      InsertingNoFeeds(lines[..k], lines[k], lines[k + 1..], wanted);
    }
  }

  lemma OneNoFeeds(line: string, more: seq<string>)
    ensures NoFeeds([line] + more) <==> '\n' !in line && NoFeeds(more)
  {
    assert ([line] + more)[1..] == more;
  }

  lemma WithoutMarkNoFeeds(lines: seq<string>)
    requires NoFeeds(lines)
    ensures NoFeeds(WithoutMark(lines))
  {
    hide MARK;
    if lines != [] {
      assert lines == lines[..|lines| - 1] + [lines[|lines| - 1]];
      HarmlessConcat(lines[..|lines| - 1], [lines[|lines| - 1]]);
    }
  }

  lemma {:induction false} WithoutModulesNoFeeds(lines: seq<string>)
    requires NoFeeds(lines)
    ensures NoFeeds(WithoutModules(lines))
  {
    hide OurModule;
    if lines != [] {
      WithoutModulesNoFeeds(lines[1..]);
      OneNoFeeds(lines[0], WithoutModules(lines[1..]));
      assert [] + WithoutModules(lines[1..]) == WithoutModules(lines[1..]);
    }
  }

  // ---- A file with carriage returns -----------------------------------------------------------------------

  lemma {:induction false} TooLong(text: string, part: string)
    requires |part| > |text|
    ensures !Contains(text, part)
  {
    if text != "" {
      TooLong(text[1..], part);
    }
  }

  lemma AuthIsReal()
    ensures RealAuth("auth")
  {
    TooLong("auth", "pam_nologin.so");
    TooLong("auth", "pam_securetty.so");
    TooLong("auth", "pam_shells.so");
    TooLong("auth", "pam_rootok.so");
    TooLong("auth", "pam_faillock.so");
    TooLong("auth", "authfile=" + KEYS);
    assert "auth"[0] == 'a' && MARK[0] == '#';
  }

  lemma CarriageReturnsAreNotRestored(wanted: string)
    requires OurModule(wanted) && Clean(wanted)
    ensures Added("auth\r\n", wanted).Some? && AfterRemove(AfterAdd("auth\r\n", wanted)) != "auth\r\n"
  {
    var text := "auth\r" + "\n" + "";
    assert text == "auth\r\n";
    IndexOfConcat("auth\r", '\n', "");
    assert text[..5] == "auth\r" && text[6..] == "";
    assert StripCr("auth\r") == "auth";
    assert Lines("") == [] && Lines(text) == ["auth"] + Lines("");
    assert ["auth"] + [] == ["auth"];
    AuthIsReal();
    RemoveUndoesAddIff(text, wanted);
    assert text[4] == '\r' && text[5] == '\n';
  }
}
