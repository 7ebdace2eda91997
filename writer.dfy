/** The pure string work of `src/generator/writer.ts`: the name sanitisation
    shared by the three `save*` functions, the file names and directories
    they build, and the fence stripping of `writeAndFormat`.

    A path is modelled as its list of segments below the working directory;
    `path.join` drops the empty segments, which is all the normalisation it
    does on segments that hold no '/' and are not "." or "..". */
module Writer {
  import opened Text

  predicate IsAsciiLetterOrDigit(c: char) {
    'a' <= c <= 'z' || 'A' <= c <= 'Z' || '0' <= c <= '9'
  }

  /** A character sanitised output may contain: lower-case ASCII letters, digits, '_'. */
  predicate IsSafeChar(c: char) {
    'a' <= c <= 'z' || '0' <= c <= '9' || c == '_'
  }

  predicate IsSafe(s: string) {
    forall i :: 0 <= i < |s| ==> IsSafeChar(s[i])
  }

  /** ``s.replace(/[^a-z0-9]/gi, '_')``: every character other than an ASCII
      letter or digit becomes '_'. */
  function ReplaceUnsafe(s: string): (r: string)
    ensures |r| == |s|
  {
    if s == [] then []
    else [if IsAsciiLetterOrDigit(s[0]) then s[0] else '_'] + ReplaceUnsafe(s[1..])
  }

  function LowerAscii(c: char): char {
    if 'A' <= c <= 'Z' then (c as int - 'A' as int + 'a' as int) as char else c
  }

  /** `s.toLowerCase()`, on the only strings it is given here: ASCII letters,
      digits and '_', where it lowers the ASCII capitals and nothing else. */
  function ToLowerCase(s: string): (r: string)
    requires forall i :: 0 <= i < |s| ==> IsAsciiLetterOrDigit(s[i]) || s[i] == '_'
    ensures |r| == |s|
  {
    if s == [] then [] else [LowerAscii(s[0])] + ToLowerCase(s[1..])
  }

  lemma {:induction false} ReplaceUnsafeAt(s: string, i: nat)
    requires i < |s|
    ensures ReplaceUnsafe(s)[i] == if IsAsciiLetterOrDigit(s[i]) then s[i] else '_'
  {
    if i > 0 {
      ReplaceUnsafeAt(s[1..], i - 1);
    }
  }

  lemma {:induction false} ToLowerCaseAt(s: string, i: nat)
    requires forall k :: 0 <= k < |s| ==> IsAsciiLetterOrDigit(s[k]) || s[k] == '_'
    requires i < |s|
    ensures ToLowerCase(s)[i] == LowerAscii(s[i])
  {
    if i > 0 {
      ToLowerCaseAt(s[1..], i - 1);
    }
  }

  /** ``name.replace(/[^a-z0-9]/gi, '_').toLowerCase()``, the sanitisation
      applied to module names and ticket titles. */
  function Sanitize(name: string): (r: string)
    ensures |r| == |name|
  {
    var replaced := ReplaceUnsafe(name);
    forall i | 0 <= i < |replaced|
      ensures IsAsciiLetterOrDigit(replaced[i]) || replaced[i] == '_'
    {
      ReplaceUnsafeAt(name, i);
    }
    ToLowerCase(replaced)
  }

  /** Sanitisation works character by character: letters are lowered, digits
      kept, and everything else becomes '_'. */
  lemma SanitizeAt(name: string, i: nat)
    requires i < |name|
    ensures Sanitize(name)[i] ==
              if IsAsciiLetterOrDigit(name[i]) then LowerAscii(name[i]) else '_'
  {
    var replaced := ReplaceUnsafe(name);
    ReplaceUnsafeAt(name, i);
    forall k | 0 <= k < |replaced|
      ensures IsAsciiLetterOrDigit(replaced[k]) || replaced[k] == '_'
    {
      ReplaceUnsafeAt(name, k);
    }
    ToLowerCaseAt(replaced, i);
  }

  /** Sanitised names keep their length and use only lower-case letters, digits and '_'. */
  lemma SanitizeIsSafe(name: string)
    ensures |Sanitize(name)| == |name|
    ensures IsSafe(Sanitize(name))
  {
    forall i | 0 <= i < |name|
      ensures IsSafeChar(Sanitize(name)[i])
    {
      SanitizeAt(name, i);
    }
  }

  /** A name is left unchanged exactly when it is already safe. */
  lemma SanitizeFixedPoints(name: string)
    ensures Sanitize(name) == name <==> IsSafe(name)
  {
    SanitizeIsSafe(name);
    if IsSafe(name) {
      forall i | 0 <= i < |name|
        ensures Sanitize(name)[i] == name[i]
      {
        SanitizeAt(name, i);
      }
    }
  }

  /** Sanitising twice is sanitising once. */
  lemma SanitizeIdempotent(name: string)
    ensures Sanitize(Sanitize(name)) == Sanitize(name)
  {
    SanitizeIsSafe(name);
    SanitizeFixedPoints(Sanitize(name));
  }

  /** Names differing only in letter case or punctuation share a file: the
      modules "Log in" and "log_in" get the same page object. */
  lemma SanitizeMergesNames()
    ensures Sanitize("Log in") == Sanitize("log_in") == "log_in"
  {
    SanitizeFixedPoints("log_in");
    LogInSanitized();
  }

  lemma LogInSanitized()
    ensures Sanitize("Log in") == "log_in"
  {
    SanitizeAt("Log in", 0);
    SanitizeAt("Log in", 1);
    SanitizeAt("Log in", 2);
    SanitizeAt("Log in", 3);
    SanitizeAt("Log in", 4);
    SanitizeAt("Log in", 5);
  }

  // ------------------------------------------------------------ file names

  /** `${ticketId}_${safeTitle}.spec.ts`; the ticket ID is used as it is. */
  function TestFileName(ticketId: string, ticketTitle: string): string {
    ticketId + "_" + Sanitize(ticketTitle) + ".spec.ts"
  }

  /** `${safeModule}.page.ts` */
  function PageObjectFileName(moduleName: string): string {
    Sanitize(moduleName) + ".page.ts"
  }

  /** `${safeModule}.data.ts` */
  function DataFileName(moduleName: string): string {
    Sanitize(moduleName) + ".data.ts"
  }

  /** `path.join` below the working directory: the empty segments vanish. */
  function JoinPath(segments: seq<string>): (r: seq<string>)
    ensures |r| <= |segments|
    ensures forall i :: 0 <= i < |r| ==> r[i] != ""
  {
    DropEmpty(segments)
  }

  /** The directory of a module's tests and data: src/tests/<safeModule>. */
  function ModuleDir(moduleName: string): seq<string> {
    JoinPath(["src", "tests", Sanitize(moduleName)])
  }

  /** Where `saveTestFile` writes. */
  function TestFilePath(moduleName: string, ticketId: string, ticketTitle: string): seq<string> {
    JoinPath(["src", "tests", Sanitize(moduleName), TestFileName(ticketId, ticketTitle)])
  }

  /** Where `savePageObject` writes. */
  function PageObjectPath(moduleName: string): seq<string> {
    JoinPath(["src", "framework", "pages", PageObjectFileName(moduleName)])
  }

  /** Where `saveTestData` writes. */
  function DataFilePath(moduleName: string): seq<string> {
    JoinPath(["src", "tests", Sanitize(moduleName), DataFileName(moduleName)])
  }

  /** The test file name is the unsanitised ticket ID, '_', the sanitised title
      and ".spec.ts"; the title part can be read back from the name. */
  lemma TestFileNameShape(ticketId: string, ticketTitle: string)
    ensures var name := TestFileName(ticketId, ticketTitle);
            && StartsWith(name, ticketId + "_")
            && EndsWith(name, ".spec.ts")
            && |name| == |ticketId| + |ticketTitle| + 9
            && name[|ticketId| + 1..|name| - 8] == Sanitize(ticketTitle)
            && IsSafe(name[|ticketId| + 1..|name| - 8])
  {
    var name := TestFileName(ticketId, ticketTitle);
    SanitizeIsSafe(ticketTitle);
    assert name[..|ticketId| + 1] == ticketId + "_";
    assert name[|ticketId| + 1..|name| - 8] == Sanitize(ticketTitle);
  }

  /** A ticket ID without '/' gives a test file name that is one path segment. */
  lemma TestFileNameIsOneSegment(ticketId: string, ticketTitle: string)
    requires '/' !in ticketId
    ensures '/' !in TestFileName(ticketId, ticketTitle)
  {
    SanitizeIsSafe(ticketTitle);
    var name := TestFileName(ticketId, ticketTitle);
    forall i | 0 <= i < |name|
      ensures name[i] != '/'
    {
      if i < |ticketId| {
        assert name[i] == ticketId[i];
      } else if |ticketId| + 1 <= i < |ticketId| + 1 + |ticketTitle| {
        assert name[i] == Sanitize(ticketTitle)[i - |ticketId| - 1];
      }
    }
  }

  /** Test files and the shared data file of a module land in one directory,
      src/tests/<safeModule>; page objects land in src/framework/pages. */
  lemma FileLocations(moduleName: string, ticketId: string, ticketTitle: string)
    ensures var dir := ModuleDir(moduleName);
            && TestFilePath(moduleName, ticketId, ticketTitle) == dir + [TestFileName(ticketId, ticketTitle)]
            && DataFilePath(moduleName) == dir + [DataFileName(moduleName)]
            && PageObjectPath(moduleName) == ["src", "framework", "pages", PageObjectFileName(moduleName)]
    ensures Sanitize(moduleName) != "" ==> ModuleDir(moduleName) == ["src", "tests", Sanitize(moduleName)]
    // a missing module name puts the files straight into src/tests
    ensures Sanitize(moduleName) == "" ==> ModuleDir(moduleName) == ["src", "tests"]
  {
    var m := Sanitize(moduleName);
    TestsDir(m);
    PagesDir();
    JoinPathFile("src", "tests", m, TestFileName(ticketId, ticketTitle));
    JoinPathFile("src", "tests", m, DataFileName(moduleName));
    JoinPathFile("src", "framework", "pages", PageObjectFileName(moduleName));
  }

  /** src/tests/<m>, or src/tests when `m` is empty. */
  lemma TestsDir(m: string)
    ensures JoinPath(["src", "tests", m]) == ["src", "tests"] + (if m == "" then [] else [m])
  {
    var tail := if m == "" then [] else [m];
    assert JoinPath([m]) == tail by {
      assert [m][1..] == [];
    }
    assert JoinPath(["tests", m]) == ["tests"] + tail by {
      assert ["tests", m][1..] == [m];
    }
    assert ["src", "tests", m][1..] == ["tests", m];
  }

  lemma PagesDir()
    ensures JoinPath(["src", "framework", "pages"]) == ["src", "framework", "pages"]
  {
    assert ["src", "framework", "pages"][1..] == ["framework", "pages"];
    assert ["framework", "pages"][1..] == ["pages"];
    assert ["pages"][1..] == [];
  }

  /** A file name below a three-segment directory. */
  lemma JoinPathFile(a: string, b: string, c: string, file: string)
    requires file != ""
    ensures JoinPath([a, b, c, file]) == JoinPath([a, b, c]) + [file]
  {
    assert [a, b, c] + [file] == [a, b, c, file];
    JoinPathAppend([a, b, c], file);
  }

  lemma JoinPathAppend(segments: seq<string>, last: string)
    requires last != ""
    ensures JoinPath(segments + [last]) == JoinPath(segments) + [last]
  {
    DropEmptyAppend(segments, [last]);
    assert DropEmpty([last]) == [last] + DropEmpty([]);
  }

  // -------------------------------------------------------- fence stripping

  const TypescriptFence := "```typescript"

  /** `p` is `fence` followed by white space only. */
  predicate OpenerOf(p: string, fence: string) {
    StartsWith(p, fence) && AllSpace(p[|fence|..])
  }

  /** The first replace: a leading "```typescript" and the white space after it. */
  function DropTypescriptOpener(code: string): (r: string)
    ensures EndsWith(code, r)
    ensures |code| - |r| == 0 || OpenerOf(code[..|code| - |r|], TypescriptFence)
  {
    if StartsWith(code, TypescriptFence) then
      var rest := code[|TypescriptFence|..];
      var t := TrimStart(rest);
      assert code[..|code| - |t|][..|TypescriptFence|] == TypescriptFence;
      assert code[..|code| - |t|][|TypescriptFence|..] == rest[..|rest| - |t|];
      t
    else code
  }

  /** The second replace: a leading "```" and the white space after it. */
  function DropOpener(code: string): (r: string)
    ensures EndsWith(code, r)
    ensures |code| - |r| == 0 || OpenerOf(code[..|code| - |r|], "```")
  {
    if StartsWith(code, "```") then
      var rest := code[3..];
      var t := TrimStart(rest);
      assert code[..|code| - |t|][..3] == "```";
      assert code[..|code| - |t|][3..] == rest[..|rest| - |t|];
      t
    else code
  }

  /** The third replace: a "```" that ends the text, and no other. */
  function DropCloser(code: string): (r: string)
    ensures StartsWith(code, r)
    ensures code[|r|..] == "" || code[|r|..] == "```"
  {
    if EndsWith(code, "```") then code[..|code| - 3] else code
  }

  /** What the two leading replaces can remove together: nothing, a bare or a
      TypeScript fence with the white space after it, or a TypeScript fence,
      white space, and a second, bare fence with the white space after it. */
  predicate IsOpening(p: string) {
    || p == ""
    || OpenerOf(p, "```")
    || OpenerOf(p, TypescriptFence)
    || (StartsWith(p, TypescriptFence) && OpenerOf(TrimStart(p[|TypescriptFence|..]), "```"))
  }

  /** How much the two leading replaces remove. */
  function OpeningLength(code: string): (k: nat)
    ensures k <= |code|
  {
    |code| - |DropOpener(DropTypescriptOpener(code))|
  }

  /** The cleaning of `writeAndFormat`: the three replaces in order. */
  function StripFences(code: string): (r: string)
    ensures |r| <= |code|
    ensures Contains(code, r)
  {
    var c := DropCloser(DropOpener(DropTypescriptOpener(code)));
    PrefixOfSuffixOccurs(code, DropOpener(DropTypescriptOpener(code)), c);
    c
  }

  /** `code` is an opening `i` characters long, then `r`, then nothing or one
      "```": the text between the fences is kept exactly as it is. */
  predicate StrippedFrom(code: string, r: string, i: int) {
    && 0 <= i && i + |r| <= |code|
    && IsOpening(code[..i])
    && code[i..i + |r|] == r
    && (code[i + |r|..] == "" || code[i + |r|..] == "```")
  }

  /** The cleaning removes an opening at the front and at most one "```" at
      the end, and keeps everything between them as it is. */
  lemma StripFencesRemovesOnlyFences(code: string)
    ensures StrippedFrom(code, StripFences(code), OpeningLength(code))
  {
    var a := DropTypescriptOpener(code);
    ReplacesCutPieces(code, a, DropOpener(a), DropCloser(DropOpener(a)));
  }

  /** The other direction: a fence that is there goes. When `code` starts
      with "```" (and so whenever it starts with "```typescript") the opening
      is at least that fence and swallows all the white space after it; when
      "```typescript" and its white space are followed by a bare "```", that
      fence goes too; when `code` does not start with "```", nothing is
      removed at the front; and something is removed
      at the end exactly when `code` ends with a "```" that the opening did
      not take (what is removed there is then that "```", by `StrippedFrom`). */
  predicate FencesRemoved(code: string, r: string, i: int) {
    && 0 <= i && i + |r| <= |code|
    && (StartsWith(code, TypescriptFence) ==> i >= |TypescriptFence|)
    && (StartsWith(code, "```") ==> i >= 3 && (i == |code| || !IsSpace(code[i])))
    && (StartsWith(code, TypescriptFence) && StartsWith(TrimStart(code[|TypescriptFence|..]), "```") ==>
          i >= |code| - |TrimStart(code[|TypescriptFence|..])| + 3)
    && (!StartsWith(code, "```") ==> i == 0)
    && (i + |r| < |code| <==> i + 3 <= |code| && EndsWith(code, "```"))
  }

  /** Every fence the three replaces look for is removed when it is there. */
  lemma StripFencesRemovesPresentFences(code: string)
    ensures FencesRemoved(code, StripFences(code), OpeningLength(code))
  {
    var a := DropTypescriptOpener(code);
    var b := DropOpener(a);
    var r := DropCloser(b);
    StripFencesOfSteps(code, a, b, r);
    OpeningLengthOfSteps(code, a, b);
    ReplacesRemoveFences(code, a, b, r);
  }

  /** The opening is what the two leading replaces remove. */
  lemma OpeningLengthOfSteps(code: string, a: string, b: string)
    requires DropTypescriptOpener(code) == a && DropOpener(a) == b
    ensures OpeningLength(code) == |code| - |b|
  {
  }

  lemma ReplacesRemoveFences(code: string, a: string, b: string, r: string)
    requires a == DropTypescriptOpener(code) && b == DropOpener(a) && r == DropCloser(b)
    ensures FencesRemoved(code, r, |code| - |b|)
  {
    ReplacesArePieces(code, a, b, r);
    ReplacesFire(code, a, b, r);
    FiredPieces(code, a, b, r);
  }

  /** When each replace fires, and what it leaves. */
  predicate FencesFire(code: string, a: string, b: string, r: string) {
    && (StartsWith(code, TypescriptFence) ==>
          |code| - |a| >= |TypescriptFence| && (a == [] || !IsSpace(a[0])))
    && (!StartsWith(code, TypescriptFence) ==> a == code)
    && (StartsWith(code, TypescriptFence) ==> a == TrimStart(code[|TypescriptFence|..]))
    && (StartsWith(a, "```") ==> |a| - |b| >= 3 && (b == [] || !IsSpace(b[0])))
    && (!StartsWith(a, "```") ==> b == a)
    && (|r| < |b| <==> EndsWith(b, "```"))
  }

  lemma ReplacesFire(code: string, a: string, b: string, r: string)
    requires a == DropTypescriptOpener(code) && b == DropOpener(a) && r == DropCloser(b)
    ensures FencesFire(code, a, b, r)
  {
    TypescriptOpenerFires(code, a);
    OpenerFires(a, b);
    CloserFires(b, r);
  }

  lemma TypescriptOpenerFires(code: string, a: string)
    requires a == DropTypescriptOpener(code)
    ensures StartsWith(code, TypescriptFence) ==>
              |code| - |a| >= |TypescriptFence| && (a == [] || !IsSpace(a[0]))
    ensures !StartsWith(code, TypescriptFence) ==> a == code
    ensures StartsWith(code, TypescriptFence) ==> a == TrimStart(code[|TypescriptFence|..])
  {
  }

  lemma OpenerFires(a: string, b: string)
    requires b == DropOpener(a)
    ensures StartsWith(a, "```") ==> |a| - |b| >= 3 && (b == [] || !IsSpace(b[0]))
    ensures !StartsWith(a, "```") ==> b == a
  {
  }

  lemma CloserFires(b: string, r: string)
    requires r == DropCloser(b)
    ensures |r| < |b| <==> EndsWith(b, "```")
  {
  }

  /** The firing facts, read on `code` itself. */
  lemma FiredPieces(code: string, a: string, b: string, r: string)
    requires FencePieces(code, a, b, r) && FencesFire(code, a, b, r)
    ensures FencesRemoved(code, r, |code| - |b|)
  {
    SuffixOfSuffix(code, a, b);
    FiredClosing(code, b, r);
    FiredOpening(code, a, b);
    FiredSecondOpener(code, a, b);
  }

  /** The closing replace, read on `code` itself. */
  lemma FiredClosing(code: string, b: string, r: string)
    requires |b| <= |code| && b == code[|code| - |b|..]
    requires |r| < |b| <==> EndsWith(b, "```")
    ensures |code| - |b| + |r| < |code| <==> |code| - |b| + 3 <= |code| && EndsWith(code, "```")
  {
    if |b| >= 3 {
      assert b[|b| - 3..] == code[|code| - 3..];
    }
  }

  /** After a TypeScript opener, the bare opener goes too. */
  lemma FiredSecondOpener(code: string, a: string, b: string)
    requires StartsWith(code, TypescriptFence) ==> a == TrimStart(code[|TypescriptFence|..])
    requires StartsWith(a, "```") ==> |a| - |b| >= 3
    ensures StartsWith(code, TypescriptFence) && StartsWith(TrimStart(code[|TypescriptFence|..]), "```") ==>
              |code| - |b| >= |code| - |TrimStart(code[|TypescriptFence|..])| + 3
  {
  }

  lemma SuffixOfSuffix(s: string, a: string, b: string)
    requires EndsWith(s, a) && EndsWith(a, b)
    ensures b == s[|s| - |b|..]
  {
    assert a == s[|s| - |a|..];
  }

  /** The two leading replaces, read on `code` itself. */
  lemma FiredOpening(code: string, a: string, b: string)
    requires EndsWith(code, a) && EndsWith(a, b)
    requires StartsWith(code, TypescriptFence) ==>
               |code| - |a| >= |TypescriptFence| && (a == [] || !IsSpace(a[0]))
    requires !StartsWith(code, TypescriptFence) ==> a == code
    requires StartsWith(a, "```") ==> |a| - |b| >= 3 && (b == [] || !IsSpace(b[0]))
    requires !StartsWith(a, "```") ==> b == a
    ensures StartsWith(code, TypescriptFence) ==> |code| - |b| >= |TypescriptFence|
    ensures StartsWith(code, "```") ==>
              |code| - |b| >= 3 && (b == [] || !IsSpace(code[|code| - |b|]))
    ensures !StartsWith(code, "```") ==> b == code
  {
    var i := |code| - |b|;
    SuffixOfSuffix(code, a, b);
    if StartsWith(code, TypescriptFence) {
      assert b == [] || !IsSpace(b[0]);
    } else if StartsWith(code, "```") {
      assert b == [] || !IsSpace(b[0]);
    } else {
      assert !StartsWith(code, TypescriptFence) by {
        assert TypescriptFence[..3] == "```";
      }
    }
  }

  /** What each replace cuts off, for the three replaces in turn. */
  predicate FencePieces(code: string, a: string, b: string, r: string) {
    && EndsWith(code, a) && EndsWith(a, b) && StartsWith(b, r)
    && (|code| - |a| == 0 || OpenerOf(code[..|code| - |a|], TypescriptFence))
    && (|a| - |b| == 0 || OpenerOf(a[..|a| - |b|], "```"))
    && (b[|r|..] == "" || b[|r|..] == "```")
  }

  lemma ReplacesCutPieces(code: string, a: string, b: string, r: string)
    requires a == DropTypescriptOpener(code) && b == DropOpener(a) && r == DropCloser(b)
    ensures StrippedFrom(code, r, |code| - |b|)
  {
    ReplacesArePieces(code, a, b, r);
    StrippedPieces(code, a, b, r);
  }

  lemma ReplacesArePieces(code: string, a: string, b: string, r: string)
    requires a == DropTypescriptOpener(code) && b == DropOpener(a) && r == DropCloser(b)
    ensures FencePieces(code, a, b, r)
  {
    TypescriptOpenerPiece(code, a);
    OpenerPiece(a, b);
    CloserPiece(b, r);
  }

  lemma TypescriptOpenerPiece(code: string, a: string)
    requires a == DropTypescriptOpener(code)
    ensures EndsWith(code, a)
    ensures |code| - |a| == 0 || OpenerOf(code[..|code| - |a|], TypescriptFence)
  {
  }

  lemma OpenerPiece(a: string, b: string)
    requires b == DropOpener(a)
    ensures EndsWith(a, b)
    ensures |a| - |b| == 0 || OpenerOf(a[..|a| - |b|], "```")
  {
    if StartsWith(a, "```") {
      assert a[3..][..|a| - 3 - |b|] == a[3..|a| - |b|];
      CutOpener(a, "```", b);
    } else {
      assert b == a;
    }
  }

  /** Dropping a leading fence and then some white space leaves a suffix,
      and what goes is that fence followed by white space. */
  lemma CutOpener(code: string, fence: string, t: string)
    requires StartsWith(code, fence)
    requires EndsWith(code[|fence|..], t) && AllSpace(code[|fence|..|code| - |t|])
    ensures EndsWith(code, t)
    ensures |code| - |t| == 0 || OpenerOf(code[..|code| - |t|], fence)
  {
    var p := code[..|code| - |t|];
    assert code[|code| - |t|..] == code[|fence|..][|code| - |fence| - |t|..];
    assert p[..|fence|] == code[..|fence|];
    assert p[|fence|..] == code[|fence|..|code| - |t|];
  }

  lemma CloserPiece(b: string, r: string)
    requires r == DropCloser(b)
    ensures StartsWith(b, r)
    ensures b[|r|..] == "" || b[|r|..] == "```"
  {
  }

  /** The three cuts, put back together. */
  lemma StrippedPieces(code: string, a: string, b: string, r: string)
    requires FencePieces(code, a, b, r)
    ensures StrippedFrom(code, r, |code| - |b|)
  {
    var i1 := |code| - |a|;
    var i := |code| - |b|;
    assert a == code[i1..];
    assert code[..i] == code[..i1] + a[..|a| - |b|];
    OpeningOfParts(code[..i1], a[..|a| - |b|]);
    assert b == code[i..];
    assert code[i..i + |r|] == r;
    assert code[i + |r|..] == b[|r|..];
  }

  /** A TypeScript opener followed by a bare opener is an opening. */
  lemma OpeningOfParts(p: string, q: string)
    requires p == "" || OpenerOf(p, TypescriptFence)
    requires q == "" || OpenerOf(q, "```")
    ensures IsOpening(p + q)
  {
    if p == "" {
      assert p + q == q;
    } else if q == "" {
      assert p + q == p;
    } else {
      var w := p[|TypescriptFence|..];
      assert (p + q)[..|TypescriptFence|] == TypescriptFence;
      assert (p + q)[|TypescriptFence|..] == w + q;
      TrimStartSpaces(w, q);
    }
  }

  /** Trimming the start drops a run of white space before a non-space. */
  lemma {:induction false} TrimStartSpaces(w: string, q: string)
    requires AllSpace(w) && q != [] && !IsSpace(q[0])
    ensures TrimStart(w + q) == q
  {
    if w == [] {
      assert w + q == q;
    } else {
      assert (w + q)[1..] == w[1..] + q;
      TrimStartSpaces(w[1..], q);
    }
  }

  /** Text that neither starts nor ends with a fence passes through unchanged. */
  lemma StripFencesNoFence(code: string)
    requires !StartsWith(code, "```") && !EndsWith(code, "```")
    ensures StripFences(code) == code
  {
    assert TypescriptFence[..3] == "```";
  }

  /** A whole reply fenced as TypeScript loses both fences; the line break
      before the closing fence stays. */
  lemma StripFencesOfFencedReply(body: string)
    requires body != [] && !IsSpace(body[0]) && body[0] != '`'
    ensures StripFences("```typescript\n" + body + "\n```") == body + "\n"
  {
    var a := body + "\n```";
    FencedReplyOpener(body, a);
    FencedReplyNoBareOpener(body, a);
    FencedReplyCloser(body, a);
    StripFencesOfSteps("```typescript\n" + body + "\n```", a, a, body + "\n");
  }

  /** The closing fence goes, and the line break before it stays. */
  lemma FencedReplyCloser(body: string, a: string)
    requires a == body + "\n```"
    ensures DropCloser(a) == body + "\n"
  {
    assert a[..|a| - 3] == body + "\n";
  }

  /** The cleaning is the three replaces in turn. */
  lemma StripFencesOfSteps(code: string, a: string, b: string, r: string)
    requires DropTypescriptOpener(code) == a && DropOpener(a) == b && DropCloser(b) == r
    ensures StripFences(code) == r
  {
  }

  /** The TypeScript fence and the line break after it go. */
  lemma FencedReplyOpener(body: string, a: string)
    requires body != [] && !IsSpace(body[0]) && a == body + "\n```"
    ensures DropTypescriptOpener("```typescript\n" + body + "\n```") == a
  {
    var code := "```typescript\n" + body + "\n```";
    assert StartsWith(code, TypescriptFence);
    assert code[|TypescriptFence|..] == "\n" + a;
    TrimStartAfterNewline(a);
  }

  /** What is left does not start with a second fence. */
  lemma FencedReplyNoBareOpener(body: string, a: string)
    requires body != [] && body[0] != '`' && a == body + "\n```"
    ensures DropOpener(a) == a
  {
    assert a[0] == body[0];
    assert !StartsWith(a, "```");
  }

  lemma TrimStartAfterNewline(t: string)
    requires t != [] && !IsSpace(t[0])
    ensures TrimStart("\n" + t) == t
  {
    assert ("\n" + t)[1..] == t;
  }

  /** A reply that opens with prose keeps its opening fence and its language
      tag; only the fence that ends the text goes. */
  lemma StripFencesAfterProse(prose: string, body: string)
    requires prose != [] && prose[0] != '`'
    ensures StripFences(prose + "\n```typescript\n" + body + "\n```") ==
              prose + "\n```typescript\n" + body + "\n"
  {
    var code := prose + "\n```typescript\n" + body + "\n```";
    var r := prose + "\n```typescript\n" + body + "\n";
    NoOpenerAtStart(code, prose[0]);
    ClosingFenceOnly(code, r);
    StripFencesOfSteps(code, code, code, r);
  }

  /** Text starting with anything but '`' loses no opener. */
  lemma NoOpenerAtStart(code: string, c: char)
    requires code != [] && code[0] == c && c != '`'
    ensures DropTypescriptOpener(code) == code && DropOpener(code) == code
  {
    assert !StartsWith(code, TypescriptFence);
    assert !StartsWith(code, "```");
  }

  /** Text that is `r` and then "```" loses exactly that fence. */
  lemma ClosingFenceOnly(code: string, r: string)
    requires code == r + "```"
    ensures DropCloser(code) == r
  {
    assert code[..|code| - 3] == r;
  }
}
