/** The report reduction of `src/reporter/notion-updater.ts`: the walk over
    the Playwright JSON report that collects one `(testId, status, notes)`
    record per spec whose title carries a ticket ID, the note built from a
    failure message, the numeric ticket ID, and the property update sent for
    each record. Reading the report file, `JSON.parse` and the knowledge-base
    calls are outside the model; the query is a function parameter. */
module Reporter {
  import opened Wrappers
  import opened Text

  // ------------------------------------------------------------ the report

  /** An entry of a result's `errors` array; `message` is None when the
      field is missing or is not a string. */
  datatype ReportedError = ReportedError(message: Option<string>)

  /** One run of a test (`results[k]`); a missing `errors` array is empty. */
  datatype Attempt = Attempt(status: string, errors: seq<ReportedError>)

  /** An entry of a spec's `tests` array. */
  datatype TestRun = TestRun(results: seq<Attempt>)

  datatype Spec = Spec(title: string, tests: seq<TestRun>)

  /** A suite. An array the report omits reads as empty: the walk skips a
      missing array and iterates over an empty one, which does the same. */
  datatype Suite = Suite(specs: seq<Spec>, suites: seq<Suite>)

  datatype Status = Done | AutomationFailed

  /** The record pushed for one spec. */
  datatype TestResult = TestResult(testId: string, status: Status, notes: string)

  /** The TypeError that ends the walk, and with it the whole run, when a
      spec with a ticket ID has no `tests[0]`, or `tests[0]` has no result. */
  datatype WalkError = NoTest(title: string) | NoResult(title: string)

  /** The name the knowledge base knows a status by. */
  function StatusName(s: Status): string {
    match s
    case Done => "Done"
    case AutomationFailed => "Automation Failed"
  }

  // ------------------------------------------------------------ ticket IDs

  const IdPrefix := "TC-"

  /** "TC-" followed by one or more decimal digits. */
  predicate IsTestId(id: string) {
    |id| > |IdPrefix| && StartsWith(id, IdPrefix) && AllDigits(id[|IdPrefix|..])
  }

  /** `title.match(/^(TC-\d+)/)`: "TC-" and the greedy run of digits after it. */
  function TestIdOf(title: string): (r: Option<string>)
    ensures r.Some? <==> StartsWith(title, IdPrefix) && |title| > |IdPrefix| && IsDigit(title[|IdPrefix|])
    // the ID is a prefix of the title and takes every digit that follows "TC-"
    ensures r.Some? ==> IsTestId(r.value) && StartsWith(title, r.value) &&
                        (|r.value| == |title| || !IsDigit(title[|r.value|]))
  {
    if StartsWith(title, IdPrefix) && |title| > |IdPrefix| && IsDigit(title[|IdPrefix|]) then
      var d := LeadingDigits(title[|IdPrefix|..]);
      assert title[..|IdPrefix| + d][|IdPrefix|..] == title[|IdPrefix|..][..d];
      Some(title[..|IdPrefix| + d])
    else None
  }

  /** `parseInt(testId.replace('TC-', ''))` for an ID the walk produced. */
  function IdNumber(testId: string): nat
    requires IsTestId(testId)
  {
    DigitsValue(testId[|IdPrefix|..])
  }

  /** The ID of a title "TC-<n><rest>" is "TC-<n>", and its number is `n`. */
  lemma TitleIdRoundTrip(n: nat, rest: string)
    requires rest == [] || !IsDigit(rest[0])
    ensures var id := IdPrefix + NatToString(n);
            TestIdOf(id + rest) == Some(id) && IdNumber(id) == n
  {
    var digits := NatToString(n);
    var title := IdPrefix + digits + rest;
    assert title[|IdPrefix|..] == digits + rest;
    LeadingDigitsOfDigits(digits, rest);
    assert title[..|IdPrefix| + |digits|] == IdPrefix + digits;
    assert (IdPrefix + digits)[|IdPrefix|..] == digits;
    DigitsValueOfNatToString(n);
  }

  /** Leading zeros do not change the number: "TC-7" and "TC-007" update the same ticket. */
  lemma {:induction false} IdNumberIgnoresLeadingZeros(zeros: nat, digits: string)
    requires |digits| > 0 && AllDigits(digits)
    ensures IsTestId(IdPrefix + Zeros(zeros) + digits)
    ensures IdNumber(IdPrefix + Zeros(zeros) + digits) == IdNumber(IdPrefix + digits)
  {
    var id := IdPrefix + Zeros(zeros) + digits;
    assert id[|IdPrefix|..] == Zeros(zeros) + digits;
    assert (IdPrefix + digits)[|IdPrefix|..] == digits;
    LeadingZerosValue(zeros, digits);
  }

  function Zeros(n: nat): (r: string)
    ensures |r| == n && AllDigits(r)
  {
    if n == 0 then "" else "0" + Zeros(n - 1)
  }

  lemma {:induction false} LeadingZerosValue(zeros: nat, digits: string)
    requires AllDigits(digits)
    ensures AllDigits(Zeros(zeros) + digits)
    ensures DigitsValue(Zeros(zeros) + digits) == DigitsValue(digits)
    decreases |digits|
  {
    var s := Zeros(zeros) + digits;
    if digits == [] {
      assert s == Zeros(zeros);
      ZerosValue(zeros);
    } else {
      var init := digits[..|digits| - 1];
      assert s[..|s| - 1] == Zeros(zeros) + init;
      LeadingZerosValue(zeros, init);
    }
  }

  lemma {:induction false} ZerosValue(n: nat)
    ensures DigitsValue(Zeros(n)) == 0
  {
    if n > 0 {
      var z := Zeros(n);
      assert z == Zeros(n - 1) + "0" by {
        ZerosSnoc(n - 1);
      }
      assert z[..|z| - 1] == Zeros(n - 1);
      ZerosValue(n - 1);
    }
  }

  lemma {:induction false} ZerosSnoc(n: nat)
    ensures "0" + Zeros(n) == Zeros(n) + "0"
  {
    if n > 0 {
      ZerosSnoc(n - 1);
    }
  }

  // ----------------------------------------------------------- ANSI escapes

  const Esc: char := '\U{1B}'

  /** The first index at or after `from` that holds an 'm' or a line terminator, else |s|. */
  function StopIndex(s: string, from: nat): (r: nat)
    requires from <= |s|
    ensures from <= r <= |s|
    ensures forall k :: from <= k < r ==> s[k] != 'm' && !IsLineTerminator(s[k])
    ensures r < |s| ==> s[r] == 'm' || IsLineTerminator(s[r])
    decreases |s| - from
  {
    if from == |s| || s[from] == 'm' || IsLineTerminator(s[from]) then from
    else StopIndex(s, from + 1)
  }

  /** Where a match of `\u001b\[.*?m` at the start of `s` ends: the index of
      its 'm', the first one after "ESC[" that no line terminator precedes. */
  function EscapeEnd(s: string): (r: Option<nat>)
    ensures r.Some? ==> 2 <= r.value < |s| && s[..2] == [Esc, '['] && s[r.value] == 'm'
    ensures r.Some? ==> forall k :: 2 <= k < r.value ==> s[k] != 'm' && !IsLineTerminator(s[k])
  {
    if |s| >= 2 && s[0] == Esc && s[1] == '[' then
      var k := StopIndex(s, 2);
      if k < |s| && s[k] == 'm' then Some(k) else None
    else None
  }

  /** `s.replace(/\u001b\[.*?m/g, '')`: one left-to-right pass that removes
      every match and keeps every other character. */
  function StripAnsi(s: string): (r: string)
    ensures |r| <= |s|
    decreases |s|
  {
    if s == [] then []
    else match EscapeEnd(s)
      case Some(k) => StripAnsi(s[k + 1..])
      case None => [s[0]] + StripAnsi(s[1..])
  }

  /** Text without an escape character is left as it is. */
  lemma {:induction false} StripAnsiPlain(s: string)
    requires Esc !in s
    ensures StripAnsi(s) == s
  {
    if s != [] {
      StripAnsiPlain(s[1..]);
      assert [s[0]] + s[1..] == s;
    }
  }

  /** Escape-free text before anything else is kept, and the rest is stripped on its own. */
  lemma {:induction false} StripAnsiPlainPrefix(a: string, b: string)
    requires Esc !in a
    ensures StripAnsi(a + b) == a + StripAnsi(b)
  {
    if a != [] {
      assert (a + b)[0] == a[0];
      assert (a + b)[1..] == a[1..] + b;
      StripAnsiPlainPrefix(a[1..], b);
      assert [a[0]] + a[1..] == a;
    } else {
      assert a + b == b;
    }
  }

  /** A complete SGR sequence "ESC[<params>m" is removed, whatever follows it. */
  lemma StripAnsiSgr(params: string, rest: string)
    requires forall i :: 0 <= i < |params| ==> params[i] != 'm' && !IsLineTerminator(params[i])
    ensures StripAnsi([Esc, '['] + params + "m" + rest) == StripAnsi(rest)
  {
    var s := [Esc, '['] + params + "m" + rest;
    var end := 2 + |params|;
    assert s[end] == 'm';
    forall k | 2 <= k < end
      ensures s[k] != 'm' && !IsLineTerminator(s[k])
    {
      assert s[k] == params[k - 2];
    }
    assert StopIndex(s, 2) == end;
    assert s[end + 1..] == rest;
  }

  /** An escape whose parameters are cut by a line break is not a match: the
      escape character stays. */
  lemma StripAnsiKeepsBrokenEscape(params: string, rest: string)
    requires forall i :: 0 <= i < |params| ==> params[i] != 'm' && !IsLineTerminator(params[i])
    ensures StripAnsi([Esc, '['] + params + "\n" + rest) ==
              [Esc] + StripAnsi(['['] + params + "\n" + rest)
  {
    var s := [Esc, '['] + params + "\n" + rest;
    var end := 2 + |params|;
    assert s[end] == '\n';
    forall k | 2 <= k < end
      ensures s[k] != 'm' && !IsLineTerminator(s[k])
    {
      assert s[k] == params[k - 2];
    }
    assert StopIndex(s, 2) == end;
    assert s[1..] == ['['] + params + "\n" + rest;
  }

  // ------------------------------------------------------- the failure note

  const NotStringNote := "Error message is not a string."
  const CallLogMarker := "Call log:"
  const HeadlineLimit := 100
  const Ellipsis := "..."

  /** The lines of a message once its escapes are gone. */
  function Lines(raw: string): (r: seq<string>)
    ensures |r| >= 1
  {
    Split(StripAnsi(raw), '\n')
  }

  /** `lines.findIndex(l => l.includes('Call log:'))`, searching from `from`. */
  function FindCallLog(lines: seq<string>, from: nat): (r: Option<nat>)
    requires from <= |lines|
    ensures r.Some? ==> from <= r.value < |lines| && Contains(lines[r.value], CallLogMarker)
    ensures r.Some? ==> forall k :: from <= k < r.value ==> !Contains(lines[k], CallLogMarker)
    ensures r.None? ==> forall k :: from <= k < |lines| ==> !Contains(lines[k], CallLogMarker)
    decreases |lines| - from
  {
    if from == |lines| then None
    else if Contains(lines[from], CallLogMarker) then Some(from)
    else FindCallLog(lines, from + 1)
  }

  /** The trimmed line after the first "Call log:" line, when that next line
      exists and is not empty before trimming. */
  function CallLogDetail(lines: seq<string>): Option<string> {
    match FindCallLog(lines, 0)
    case Some(i) => if i + 1 < |lines| && lines[i + 1] != "" then Some(Trim(lines[i + 1])) else None
    case None => None
  }

  /** The note's first line: the trimmed first line of the message, cut to
      100 characters and marked with "..." when it is longer. */
  function Headline(first: string): (r: string)
    ensures |r| <= HeadlineLimit + |Ellipsis|
    ensures |first| <= HeadlineLimit ==> r == first
    ensures |first| > HeadlineLimit ==>
              |r| == HeadlineLimit + |Ellipsis| && StartsWith(first, r[..HeadlineLimit]) && EndsWith(r, Ellipsis)
  {
    if |first| > HeadlineLimit then first[..HeadlineLimit] + Ellipsis else first
  }

  /** The note of a failed test whose first error has a string message. */
  function FailureNote(raw: string): string {
    var lines := Lines(raw);
    WithDetail(Headline(Trim(lines[0])), CallLogDetail(lines))
  }

  /** The headline, followed on a second line by the call-log detail when there is one. */
  function WithDetail(head: string, detail: Option<string>): string {
    match detail
    case Some(d) => head + "\n" + d
    case None => head
  }

  function FirstMessage(errors: seq<ReportedError>): Option<string> {
    if errors == [] then None else errors[0].message
  }

  /** The notes of a spec whose last result is `last`. */
  function NotesFor(last: Attempt): (r: string)
    // a pass clears the notes; a failure without a string message gets the fixed note
    ensures last.status == "passed" ==> r == ""
    ensures last.status != "passed" && FirstMessage(last.errors).None? ==> r == NotStringNote
    ensures last.status != "passed" && FirstMessage(last.errors).Some? ==>
              r == FailureNote(FirstMessage(last.errors).value)
  {
    if last.status == "passed" then ""
    else match FirstMessage(last.errors)
      case None => NotStringNote
      case Some(raw) => FailureNote(raw)
  }

  /** Line `i` is the first line mentioning "Call log:", and the line after
      it is not empty and trims to `detail`. */
  predicate DetailAt(lines: seq<string>, i: nat, detail: string) {
    && i + 1 < |lines|
    && Contains(lines[i], CallLogMarker)
    && (forall k | 0 <= k < i :: !Contains(lines[k], CallLogMarker))
    && lines[i + 1] != ""
    && detail == Trim(lines[i + 1])
  }

  /** The detail line is the trimmed successor of the FIRST line mentioning
      "Call log:", and only when that successor is not empty. */
  lemma CallLogDetailIsNextLine(lines: seq<string>, detail: string)
    ensures CallLogDetail(lines) == Some(detail) <==> exists i: nat :: DetailAt(lines, i, detail)
  {
    if CallLogDetail(lines) == Some(detail) {
      DetailIsAtFirstMention(lines, detail);
    }
    if exists i: nat :: DetailAt(lines, i, detail) {
      var i: nat :| DetailAt(lines, i, detail);
      DetailAtIsDetail(lines, i, detail);
    }
  }

  lemma DetailIsAtFirstMention(lines: seq<string>, detail: string)
    requires CallLogDetail(lines) == Some(detail)
    ensures FindCallLog(lines, 0).Some? && DetailAt(lines, FindCallLog(lines, 0).value, detail)
  {
  }

  lemma DetailAtIsDetail(lines: seq<string>, i: nat, detail: string)
    requires DetailAt(lines, i, detail)
    ensures CallLogDetail(lines) == Some(detail)
  {
    var j := FindCallLog(lines, 0).value;
    assert i == j;
  }

  /** A character absent from `s` is absent from its trim. */
  lemma TrimKeepsOut(s: string, c: char)
    requires c !in s
    ensures c !in Trim(s)
  {
    var t := TrimStart(s);
    assert t == s[|s| - |t|..];
    assert TrimEnd(t) == t[..|TrimEnd(t)|];
  }

  /** The note has one line, or two when a "Call log:" detail exists; its
      first line is the headline of the message's first line and holds at
      most 103 characters. */
  lemma FailureNoteLines(raw: string)
    ensures var lines := Lines(raw);
            var parts := Split(FailureNote(raw), '\n');
            && parts[0] == Headline(Trim(lines[0]))
            && |parts[0]| <= HeadlineLimit + |Ellipsis|
            && (CallLogDetail(lines).None? ==> parts == [parts[0]])
            && (CallLogDetail(lines).Some? ==> parts == [parts[0], CallLogDetail(lines).value])
  {
    var lines := Lines(raw);
    TrimKeepsOut(lines[0], '\n');
    HeadlineKeepsOut(Trim(lines[0]), '\n');
    DetailKeepsOut(lines, '\n');
    WithDetailLines(Headline(Trim(lines[0])), CallLogDetail(lines));
  }

  /** Cutting a line adds no character but those of the ellipsis. */
  lemma HeadlineKeepsOut(first: string, c: char)
    requires c !in first && c !in Ellipsis
    ensures c !in Headline(first)
  {
    if |first| > HeadlineLimit {
      var head := Headline(first);
      assert forall k | 0 <= k < HeadlineLimit :: head[k] == first[k];
      assert head[HeadlineLimit..] == Ellipsis;
    }
  }

  /** The call-log detail is a trimmed line, so it holds no line break. */
  lemma DetailKeepsOut(lines: seq<string>, c: char)
    requires forall i :: 0 <= i < |lines| ==> c !in lines[i]
    ensures CallLogDetail(lines).Some? ==> c !in CallLogDetail(lines).value
  {
    if CallLogDetail(lines).Some? {
      var i := FindCallLog(lines, 0).value;
      TrimKeepsOut(lines[i + 1], c);
    }
  }

  lemma WithDetailLines(head: string, detail: Option<string>)
    requires '\n' !in head && (detail.Some? ==> '\n' !in detail.value)
    ensures Split(WithDetail(head, detail), '\n') == if detail.Some? then [head, detail.value] else [head]
  {
    match detail
    case None =>
      SplitNoSep(head, '\n');
    case Some(d) =>
      SplitAround(head, d, '\n');
      SplitNoSep(d, '\n');
  }

  // ------------------------------------------------------------ the walk

  function LastOf(results: seq<Attempt>): Attempt
    requires results != []
  {
    results[|results| - 1]
  }

  /** What one spec contributes: nothing when its title has no ticket ID,
      a crash when it has no last result, else one record. */
  function SpecResult(spec: Spec): (r: Result<Option<TestResult>, WalkError>)
    ensures TestIdOf(spec.title).None? ==> r == Success(None)
    ensures TestIdOf(spec.title).Some? && spec.tests != [] && spec.tests[0].results != [] ==>
              r.Success? && r.value.Some?
    ensures r.Failure? <==> TestIdOf(spec.title).Some? && (spec.tests == [] || spec.tests[0].results == [])
    ensures r.Success? && r.value.Some? ==>
              var last := LastOf(spec.tests[0].results);
              && Some(r.value.value.testId) == TestIdOf(spec.title)
              && (r.value.value.status == Done <==> last.status == "passed")
              && r.value.value.notes == NotesFor(last)
  {
    match TestIdOf(spec.title)
    case None => Success(None)
    case Some(id) =>
      if spec.tests == [] then Failure(NoTest(spec.title))
      else if spec.tests[0].results == [] then Failure(NoResult(spec.title))
      else
        var last := LastOf(spec.tests[0].results);
        var status := if last.status == "passed" then Done else AutomationFailed;
        Success(Some(TestResult(id, status, NotesFor(last))))
  }

  /** Two stretches of the walk one after the other: the first crash wins. */
  function Then(first: Result<seq<TestResult>, WalkError>, next: Result<seq<TestResult>, WalkError>)
    : Result<seq<TestResult>, WalkError>
  {
    if first.Failure? then first
    else if next.Failure? then next
    else Success(first.value + next.value)
  }

  function Contribution(spec: Spec): Result<seq<TestResult>, WalkError> {
    match SpecResult(spec)
    case Failure(e) => Failure(e)
    case Success(None) => Success([])
    case Success(Some(t)) => Success([t])
  }

  /** The records of a list of specs, in order. */
  function WalkSpecs(specs: seq<Spec>): Result<seq<TestResult>, WalkError> {
    if specs == [] then Success([])
    else Then(WalkSpecs(specs[..|specs| - 1]), Contribution(specs[|specs| - 1]))
  }

  /** A walk that does not crash pushes at most one record per spec, each
      carrying a ticket ID. */
  lemma {:induction false} WalkSpecsRecords(specs: seq<Spec>)
    ensures WalkSpecs(specs).Success? ==> |WalkSpecs(specs).value| <= |specs|
    ensures WalkSpecs(specs).Success? ==>
              forall k :: 0 <= k < |WalkSpecs(specs).value| ==> IsTestId(WalkSpecs(specs).value[k].testId)
  {
    if specs != [] {
      WalkSpecsRecords(specs[..|specs| - 1]);
    }
  }

  /** The records of one suite: its own specs, then its nested suites. */
  function WalkSuite(suite: Suite): Result<seq<TestResult>, WalkError>
    decreases suite, |suite.suites| + 1
  {
    Then(WalkSpecs(suite.specs), WalkChildren(suite, |suite.suites|))
  }

  /** `traverseSuites` over the first `n` nested suites of `parent`, one after the other. */
  function WalkChildren(parent: Suite, n: nat): Result<seq<TestResult>, WalkError>
    requires n <= |parent.suites|
    decreases parent, n
  {
    if n == 0 then Success([])
    else Then(WalkChildren(parent, n - 1), WalkSuite(parent.suites[n - 1]))
  }

  /** A suite whose nested suites are the report's top-level `suites`. */
  function Root(suites: seq<Suite>): Suite {
    Suite([], suites)
  }

  /** `traverseSuites(testResultsRaw.suites)`. */
  function Walk(suites: seq<Suite>): Result<seq<TestResult>, WalkError> {
    WalkChildren(Root(suites), |suites|)
  }

  /** Every spec of a suite in the order the walk meets them: its own specs,
      then those of its nested suites, siblings in array order. */
  function SuiteSpecs(suite: Suite): seq<Spec>
    decreases suite, |suite.suites| + 1
  {
    suite.specs + ChildrenSpecs(suite, |suite.suites|)
  }

  function ChildrenSpecs(parent: Suite, n: nat): seq<Spec>
    requires n <= |parent.suites|
    decreases parent, n
  {
    if n == 0 then [] else ChildrenSpecs(parent, n - 1) + SuiteSpecs(parent.suites[n - 1])
  }

  /** Every spec of the report, in pre-order. */
  function AllSpecs(suites: seq<Suite>): seq<Spec> {
    ChildrenSpecs(Root(suites), |suites|)
  }

  lemma ThenAssociative(a: Result<seq<TestResult>, WalkError>, b: Result<seq<TestResult>, WalkError>,
                        c: Result<seq<TestResult>, WalkError>)
    ensures Then(Then(a, b), c) == Then(a, Then(b, c))
  {
    if a.Success? && b.Success? && c.Success? {
      assert (a.value + b.value) + c.value == a.value + (b.value + c.value);
    }
  }

  /** Walking two lists of specs is walking their concatenation. */
  lemma {:induction false} WalkSpecsAppend(a: seq<Spec>, b: seq<Spec>)
    ensures WalkSpecs(a + b) == Then(WalkSpecs(a), WalkSpecs(b))
    decreases |b|
  {
    if b == [] {
      assert a + b == a;
      match WalkSpecs(a)
      case Success(done) => assert done + [] == done;
      case Failure(_) =>
    } else {
      var init := b[..|b| - 1];
      assert (a + b)[..|a + b| - 1] == a + init;
      WalkSpecsAppend(a, init);
      ThenAssociative(WalkSpecs(a), WalkSpecs(init), Contribution(b[|b| - 1]));
    }
  }

  /** The tree walk is the walk of the flattened spec list: the records come
      in pre-order, a suite's own specs before its nested suites. */
  lemma WalkIsFlatWalk(suites: seq<Suite>)
    ensures Walk(suites) == WalkSpecs(AllSpecs(suites))
  {
    ChildrenAreFlatWalk(Root(suites), |suites|);
  }

  lemma {:induction false} ChildrenAreFlatWalk(parent: Suite, n: nat)
    requires n <= |parent.suites|
    ensures WalkChildren(parent, n) == WalkSpecs(ChildrenSpecs(parent, n))
    decreases parent, n, 1
  {
    if n == 0 {
      ChildrenFlatBase(parent);
    } else {
      ChildrenFlatStep(parent, n);
    }
  }

  lemma {:induction false} ChildrenFlatBase(parent: Suite)
    ensures WalkChildren(parent, 0) == WalkSpecs(ChildrenSpecs(parent, 0))
  {
    assert ChildrenSpecs(parent, 0) == [];
  }

  /** Nested suite `n - 1` extends both sides the same way. */
  lemma {:induction false} ChildrenFlatStep(parent: Suite, n: nat)
    requires 0 < n <= |parent.suites|
    ensures WalkChildren(parent, n) == WalkSpecs(ChildrenSpecs(parent, n))
    decreases parent, n, 0
  {
    ChildrenAreFlatWalk(parent, n - 1);
    var child := parent.suites[n - 1];
    SuiteIsFlatWalk(child);
    WalkSpecsAppend(ChildrenSpecs(parent, n - 1), SuiteSpecs(child));
  }

  lemma {:induction false} SuiteIsFlatWalk(suite: Suite)
    ensures WalkSuite(suite) == WalkSpecs(SuiteSpecs(suite))
    decreases suite, |suite.suites| + 1, 0
  {
    ChildrenAreFlatWalk(suite, |suite.suites|);
    WalkSpecsAppend(suite.specs, ChildrenSpecs(suite, |suite.suites|));
  }

  /** Once one nested suite crashes, the walk of the later ones changes nothing. */
  lemma {:induction false} CrashStays(parent: Suite, n: nat, m: nat)
    requires n <= m <= |parent.suites| && WalkChildren(parent, n).Failure?
    ensures WalkChildren(parent, m) == WalkChildren(parent, n)
    decreases m
  {
    if m > n {
      CrashStays(parent, n, m - 1);
    }
  }

  /** A crash in the specs or the nested suites of suite `i` is the crash of
      the whole walk of `parent`'s nested suites. */
  lemma NextSuiteCrashes(parent: Suite, i: nat, e: WalkError)
    requires i < |parent.suites| && WalkChildren(parent, i).Success?
    requires var next := parent.suites[i];
             WalkSpecs(next.specs) == Failure(e) ||
             (WalkSpecs(next.specs).Success? && WalkChildren(next, |next.suites|) == Failure(e))
    ensures WalkChildren(parent, |parent.suites|) == Failure(e)
  {
    SuiteCrashes(parent.suites[i], e);
    ChildrenStep(parent, i);
    CrashStays(parent, i + 1, |parent.suites|);
  }

  /** One more nested suite: the walk so far, then that suite's walk. */
  lemma ChildrenStep(parent: Suite, n: nat)
    requires n < |parent.suites|
    ensures WalkChildren(parent, n + 1) == Then(WalkChildren(parent, n), WalkSuite(parent.suites[n]))
  {
  }

  /** A crash in a suite's specs, or after them in its nested suites, is the suite's crash. */
  lemma SuiteCrashes(suite: Suite, e: WalkError)
    requires WalkSpecs(suite.specs) == Failure(e) ||
             (WalkSpecs(suite.specs).Success? && WalkChildren(suite, |suite.suites|) == Failure(e))
    ensures WalkSuite(suite) == Failure(e)
  {
  }

  /** Suite `i` adds the records of its specs, then those of its nested suites. */
  lemma NextSuiteSucceeds(parent: Suite, i: nat)
    requires i < |parent.suites| && WalkChildren(parent, i).Success?
    requires var next := parent.suites[i];
             WalkSpecs(next.specs).Success? && WalkChildren(next, |next.suites|).Success?
    ensures var next := parent.suites[i];
            WalkChildren(parent, i + 1) ==
              Success(WalkChildren(parent, i).value + WalkSpecs(next.specs).value
                      + WalkChildren(next, |next.suites|).value)
  {
    var next := parent.suites[i];
    var x := WalkChildren(parent, i).value;
    var y := WalkSpecs(next.specs).value;
    var z := WalkChildren(next, |next.suites|).value;
    assert x + (y + z) == x + y + z;
  }

  /** One more spec: the walk so far, then that spec's contribution. */
  lemma SpecsStep(specs: seq<Spec>, j: nat)
    requires j < |specs|
    ensures WalkSpecs(specs[..j + 1]) == Then(WalkSpecs(specs[..j]), Contribution(specs[j]))
  {
    assert specs[..j + 1][..j] == specs[..j];
  }

  /** Records pushed for a walk, then for a next part that does not crash,
      are the records of the two in sequence. */
  lemma PushedThen(start: seq<TestResult>, before: seq<TestResult>, after: seq<TestResult>,
                   first: Result<seq<TestResult>, WalkError>, next: Result<seq<TestResult>, WalkError>)
    requires first.Success? && next.Success?
    requires before == start + first.value && after == before + next.value
    ensures Then(first, next).Success? && after == start + Then(first, next).value
  {
  }

  /** A crash among the first `j` specs is the crash of the whole list. */
  lemma CrashSpreads(specs: seq<Spec>, j: nat, e: WalkError)
    requires j <= |specs| && WalkSpecs(specs[..j]) == Failure(e)
    ensures WalkSpecs(specs) == Failure(e)
  {
    WalkSpecsAppend(specs[..j], specs[j..]);
    assert specs[..j] + specs[j..] == specs;
  }

  lemma PrefixOfAppend(a: seq<TestResult>, b: seq<TestResult>)
    ensures a <= a + b
  {
  }

  lemma PrefixKept(a: seq<TestResult>, x: seq<TestResult>, b: seq<TestResult>)
    requires a + x <= b
    ensures a <= b
  {
    assert b[..|a|] == (a + x)[..|a|];
  }

  /** After suite `i`'s specs and nested suites are pushed, what was pushed is
      the walk of the first `i + 1` nested suites. */
  lemma SuiteAppended(parent: Suite, i: nat, start: seq<TestResult>, before: seq<TestResult>, now: seq<TestResult>)
    requires i < |parent.suites| && WalkChildren(parent, i).Success?
    requires before == start + WalkChildren(parent, i).value
    requires var next := parent.suites[i];
             && WalkSpecs(next.specs).Success? && WalkChildren(next, |next.suites|).Success?
             && now == before + WalkSpecs(next.specs).value + WalkChildren(next, |next.suites|).value
    ensures WalkChildren(parent, i + 1).Success?
    ensures now == start + WalkChildren(parent, i + 1).value
  {
    var next := parent.suites[i];
    NextSuiteSucceeds(parent, i);
    AppendThree(start, WalkChildren(parent, i).value, WalkSpecs(next.specs).value,
                WalkChildren(next, |next.suites|).value);
  }

  lemma AppendThree(a: seq<TestResult>, x: seq<TestResult>, y: seq<TestResult>, z: seq<TestResult>)
    ensures a + x + y + z == a + (x + y + z)
  {
  }

  /** The state `traverseSuites` pushes into: the `updates` array. */
  class ResultCollector {
    var updates: seq<TestResult>

    constructor ()
      ensures updates == []
    {
      updates := [];
    }

    /** The notes of lines 46-68, reassigned step by step. */
    static method BuildNotes(last: Attempt) returns (notes: string)
      ensures notes == NotesFor(last)
    {
      notes := "";
      if last.status != "passed" {
        var rawError := FirstMessage(last.errors);
        if rawError.None? {
          notes := NotStringNote;
        } else {
          notes := BuildFailureNote(rawError.value);
        }
      }
    }

    /** Lines 58-68: strip the escapes, take the first line, cut it, and add
        the line after "Call log:". */
    static method BuildFailureNote(rawError: string) returns (finalNote: string)
      ensures finalNote == FailureNote(rawError)
    {
      var cleanAnsi := StripAnsi(rawError);
      var lines := Split(cleanAnsi, '\n');
      finalNote := Trim(lines[0]);
      if |finalNote| > HeadlineLimit {
        finalNote := finalNote[..HeadlineLimit] + Ellipsis;
      }
      assert finalNote == Headline(Trim(lines[0]));
      var callLogIndex := FindCallLog(lines, 0);
      if callLogIndex.Some? && callLogIndex.value + 1 < |lines| && lines[callLogIndex.value + 1] != "" {
        assert CallLogDetail(lines) == Some(Trim(lines[callLogIndex.value + 1]));
        finalNote := finalNote + "\n" + Trim(lines[callLogIndex.value + 1]);
      } else {
        assert CallLogDetail(lines) == None;
      }
    }

    /** The record pushed for a spec that has a ticket ID and a last result. */
    static method RecordOf(spec: Spec, id: string) returns (record: TestResult)
      requires TestIdOf(spec.title) == Some(id)
      requires spec.tests != [] && spec.tests[0].results != []
      ensures SpecResult(spec) == Success(Some(record))
    {
      var last := LastOf(spec.tests[0].results);
      var status := if last.status == "passed" then Done else AutomationFailed;
      var notes := BuildNotes(last);
      record := TestResult(id, status, notes);
    }

    /** One spec of the walk: pushes its record when it carries a ticket ID,
        or reports the error when it has no last result. */
    method CollectSpec(spec: Spec) returns (crash: Option<WalkError>)
      modifies this
      ensures crash.None? <==> Contribution(spec).Success?
      ensures crash.Some? ==> crash.value == Contribution(spec).error
      ensures crash.None? ==> updates == old(updates) + Contribution(spec).value
      ensures crash.Some? ==> updates == old(updates)
    {
      var id := TestIdOf(spec.title);
      if id.Some? {
        if spec.tests == [] || spec.tests[0].results == [] {
          return Some(if spec.tests == [] then NoTest(spec.title) else NoResult(spec.title));
        }
        var record := RecordOf(spec, id.value);
        updates := updates + [record];
      }
      return None;
    }

    /** Pushes the record of each spec of `specs` that carries a ticket ID;
        stops with the error at the first spec that has no last result. */
    method CollectSpecs(specs: seq<Spec>) returns (crash: Option<WalkError>)
      modifies this
      ensures crash.None? <==> WalkSpecs(specs).Success?
      ensures crash.Some? ==> crash.value == WalkSpecs(specs).error
      ensures crash.None? ==> updates == old(updates) + WalkSpecs(specs).value
      // on a crash, the records of the specs before the crashing one stay pushed
      ensures crash.Some? ==> exists j | 0 <= j < |specs| ::
                WalkSpecs(specs[..j]).Success? && Contribution(specs[j]) == Failure(crash.value)
                && updates == old(updates) + WalkSpecs(specs[..j]).value
      ensures crash.Some? ==> old(updates) <= updates
    {
      var j := 0;
      while j < |specs|
        invariant 0 <= j <= |specs|
        invariant WalkSpecs(specs[..j]).Success?
        invariant updates == old(updates) + WalkSpecs(specs[..j]).value
      {
        SpecsStep(specs, j);
        ghost var before := updates;
        crash := CollectSpec(specs[j]);
        if crash.Some? {
          CrashSpreads(specs, j + 1, crash.value);
          assert Contribution(specs[j]) == Failure(crash.value);
          PrefixOfAppend(old(updates), WalkSpecs(specs[..j]).value);
          return;
        }
        PushedThen(old(updates), before, updates, WalkSpecs(specs[..j]), Contribution(specs[j]));
        j := j + 1;
      }
      assert specs[..j] == specs;
      return None;
    }

    /** `traverseSuites(suites)` for the nested suites of `parent`: for each
        suite, its specs, then its own nested suites. */
    method TraverseSuites(ghost parent: Suite, suites: seq<Suite>) returns (crash: Option<WalkError>)
      requires parent.suites == suites
      modifies this
      ensures crash.None? <==> WalkChildren(parent, |suites|).Success?
      ensures crash.Some? ==> crash.value == WalkChildren(parent, |suites|).error
      ensures crash.None? ==> updates == old(updates) + WalkChildren(parent, |suites|).value
      ensures crash.Some? ==> old(updates) <= updates
      decreases parent
    {
      var i := 0;
      while i < |suites|
        invariant 0 <= i <= |suites|
        invariant WalkChildren(parent, i).Success?
        invariant updates == old(updates) + WalkChildren(parent, i).value
      {
        var suite := suites[i];
        ghost var before := updates;
        crash := CollectSpecs(suite.specs);
        if crash.Some? {
          NextSuiteCrashes(parent, i, crash.value);
          PrefixKept(old(updates), WalkChildren(parent, i).value, updates);
          return;
        }
        crash := TraverseSuites(suite, suite.suites);
        if crash.Some? {
          NextSuiteCrashes(parent, i, crash.value);
          PrefixKept(before, WalkSpecs(suite.specs).value, updates);
          PrefixKept(old(updates), WalkChildren(parent, i).value, updates);
          return;
        }
        SuiteAppended(parent, i, old(updates), before, updates);
        i := i + 1;
      }
      return None;
    }

    /** Line 85: the walk of the report's top-level suites. */
    method TraverseReport(suites: seq<Suite>) returns (crash: Option<WalkError>)
      modifies this
      ensures crash.None? <==> Walk(suites).Success?
      ensures crash.Some? ==> crash.value == Walk(suites).error
      ensures crash.None? ==> updates == old(updates) + Walk(suites).value
      ensures crash.Some? ==> old(updates) <= updates
    {
      crash := TraverseSuites(Root(suites), suites);
    }
  }

  // ------------------------------------------------------------- the payload

  const NotesLimit := 2000

  /** A property value of the page update. */
  datatype PropertyValue =
    | StatusValue(name: string)
    | DateValue(start: string)
    | RichTextValue(contents: seq<string>)

  datatype Payload = Payload(pageId: string, properties: map<string, PropertyValue>)

  /** `s.substring(0, n)`. */
  function Prefix(s: string, n: nat): (r: string)
    ensures |r| <= n && StartsWith(s, r)
    ensures |s| <= n ==> r == s
    ensures |s| > n ==> |r| == n
  {
    if |s| <= n then s else s[..n]
  }

  /** The `Notes` property: a failure's note cut to 2000 characters, or an
      empty rich-text list that clears the notes of a pass. */
  function NotesValue(update: TestResult): (v: PropertyValue)
    ensures v.RichTextValue?
    ensures update.status.Done? <==> v.contents == []
    ensures update.status == AutomationFailed ==>
              |v.contents| == 1 && |v.contents[0]| <= NotesLimit && StartsWith(update.notes, v.contents[0])
    ensures update.status == AutomationFailed && |update.notes| <= NotesLimit ==> v.contents == [update.notes]
    ensures update.status == AutomationFailed && |update.notes| > NotesLimit ==>
              v.contents == [update.notes[..NotesLimit]]
  {
    if update.status == AutomationFailed then RichTextValue([Prefix(update.notes, NotesLimit)])
    else RichTextValue([])
  }

  /** The update sent for `update` once its page is known. */
  function PayloadFor(pageId: string, update: TestResult, now: string): (p: Payload)
    ensures p.pageId == pageId
    ensures p.properties.Keys == {"Status", "Last Run", "Notes"}
    ensures p.properties["Status"] == StatusValue(StatusName(update.status))
    ensures p.properties["Last Run"] == DateValue(now)
    ensures p.properties["Notes"] == NotesValue(update)
  {
    Payload(pageId, map["Status" := StatusValue(StatusName(update.status)),
                        "Last Run" := DateValue(now),
                        "Notes" := NotesValue(update)])
  }

  /** Builds the payload as lines 118-151 do: Status and Last Run first,
      then Notes set or cleared. */
  method BuildPayload(pageId: string, update: TestResult, now: string) returns (payload: Payload)
    ensures payload == PayloadFor(pageId, update, now)
  {
    var properties := map["Status" := StatusValue(StatusName(update.status)), "Last Run" := DateValue(now)];
    if update.status == AutomationFailed {
      properties := properties["Notes" := RichTextValue([Prefix(update.notes, NotesLimit)])];
    } else {
      properties := properties["Notes" := RichTextValue([])];
    }
    payload := Payload(pageId, properties);
  }

  // ------------------------------------------------------------ the sync loop

  /** The updates sent for `updates`: a record whose query failed or found
      no page is skipped; otherwise the first page found is updated, stamped
      with `clock(k)`, the time read while record `k` is handled. */
  function Planned(updates: seq<TestResult>, query: nat -> Option<seq<string>>, clock: nat -> string): (r: seq<Payload>)
    requires forall k :: 0 <= k < |updates| ==> IsTestId(updates[k].testId)
    ensures |r| <= |updates|
  {
    if updates == [] then []
    else
      var init := updates[..|updates| - 1];
      var u := updates[|updates| - 1];
      var pages := query(IdNumber(u.testId));
      Planned(init, query, clock) +
        (if pages.Some? && pages.value != [] then [PayloadFor(pages.value[0], u, clock(|updates| - 1))] else [])
  }

  /** The loop of lines 90-163, with the knowledge-base query as `query`
      (None when it throws) and the time read in pass `k` as `clock(k)`;
      returns the updates it sends, in order. */
  method SyncUpdates(updates: seq<TestResult>, query: nat -> Option<seq<string>>, clock: nat -> string)
    returns (sent: seq<Payload>)
    requires forall k :: 0 <= k < |updates| ==> IsTestId(updates[k].testId)
    ensures sent == Planned(updates, query, clock)
  {
    sent := [];
    var i := 0;
    while i < |updates|
      invariant 0 <= i <= |updates|
      invariant sent == Planned(updates[..i], query, clock)
    {
      var update := updates[i];
      PlannedStep(updates, query, clock, i);
      var idNumber := IdNumber(update.testId);
      var response := query(idNumber);
      if response.Some? && response.value != [] {
        var now := clock(i);
        var payload := BuildPayload(response.value[0], update, now);
        sent := sent + [payload];
      }
      i := i + 1;
    }
    assert updates[..i] == updates;
  }

  /** One more pass of the loop adds at most the update for record `i`. */
  lemma PlannedStep(updates: seq<TestResult>, query: nat -> Option<seq<string>>, clock: nat -> string, i: nat)
    requires forall k :: 0 <= k < |updates| ==> IsTestId(updates[k].testId)
    requires i < |updates|
    ensures var pages := query(IdNumber(updates[i].testId));
            Planned(updates[..i + 1], query, clock) ==
              Planned(updates[..i], query, clock) +
                (if pages.Some? && pages.value != [] then [PayloadFor(pages.value[0], updates[i], clock(i))] else [])
  {
    assert updates[..i + 1][..i] == updates[..i];
  }

  /** Every update sent goes to a page the query returned first for the
      number of some record, and carries that record's status. */
  lemma {:induction false} PlannedComeFromRecords(updates: seq<TestResult>, query: nat -> Option<seq<string>>,
                                                 clock: nat -> string, j: nat)
    requires forall k :: 0 <= k < |updates| ==> IsTestId(updates[k].testId)
    requires j < |Planned(updates, query, clock)|
    ensures exists k | 0 <= k < |updates| ::
              var pages := query(IdNumber(updates[k].testId));
              && pages.Some? && pages.value != []
              && Planned(updates, query, clock)[j] == PayloadFor(pages.value[0], updates[k], clock(k))
  {
    var init := updates[..|updates| - 1];
    var n := |updates| - 1;
    var head := Planned(init, query, clock);
    if j < |head| {
      PlannedComeFromRecords(init, query, clock, j);
      var k :| 0 <= k < |init| &&
               var pages := query(IdNumber(init[k].testId));
               && pages.Some? && pages.value != []
               && head[j] == PayloadFor(pages.value[0], init[k], clock(k));
      PlannedKeepsEarlier(updates, query, clock, j);
      assert init[k] == updates[k];
    } else {
      PlannedLast(updates, query, clock, j);
    }
  }

  /** The payloads planned for all but the last record come first. */
  lemma PlannedKeepsEarlier(updates: seq<TestResult>, query: nat -> Option<seq<string>>, clock: nat -> string, j: nat)
    requires forall k :: 0 <= k < |updates| ==> IsTestId(updates[k].testId)
    requires updates != [] && j < |Planned(updates[..|updates| - 1], query, clock)|
    ensures j < |Planned(updates, query, clock)|
    ensures Planned(updates, query, clock)[j] == Planned(updates[..|updates| - 1], query, clock)[j]
  {
  }

  /** A payload after those of the earlier records is the last record's. */
  lemma PlannedLast(updates: seq<TestResult>, query: nat -> Option<seq<string>>, clock: nat -> string, j: nat)
    requires forall k :: 0 <= k < |updates| ==> IsTestId(updates[k].testId)
    requires updates != [] && |Planned(updates[..|updates| - 1], query, clock)| <= j < |Planned(updates, query, clock)|
    ensures var u := updates[|updates| - 1];
            var pages := query(IdNumber(u.testId));
            && pages.Some? && pages.value != []
            && Planned(updates, query, clock)[j] == PayloadFor(pages.value[0], u, clock(|updates| - 1))
  {
  }

  /** The query for the record's ticket number finds a page. */
  predicate Found(u: TestResult, query: nat -> Option<seq<string>>)
    requires IsTestId(u.testId)
  {
    var pages := query(IdNumber(u.testId));
    pages.Some? && pages.value != []
  }

  /** How many of the records find a page. */
  function FoundCount(updates: seq<TestResult>, query: nat -> Option<seq<string>>): (n: nat)
    requires forall k :: 0 <= k < |updates| ==> IsTestId(updates[k].testId)
    ensures n <= |updates|
  {
    if updates == [] then 0
    else FoundCount(updates[..|updates| - 1], query) + (if Found(updates[|updates| - 1], query) then 1 else 0)
  }

  /** Exactly one update is sent per record whose query finds a page. */
  lemma {:induction false} PlannedLength(updates: seq<TestResult>, query: nat -> Option<seq<string>>,
                                         clock: nat -> string)
    requires forall k :: 0 <= k < |updates| ==> IsTestId(updates[k].testId)
    ensures |Planned(updates, query, clock)| == FoundCount(updates, query)
  {
    if updates != [] {
      PlannedLength(updates[..|updates| - 1], query, clock);
    }
  }

  /** A record whose query finds a page is sent, to the first page found, with
      its own values and time, after the updates of the earlier found records. */
  lemma {:induction false} PlannedSendsFound(updates: seq<TestResult>, query: nat -> Option<seq<string>>,
                                             clock: nat -> string, k: nat)
    requires forall i :: 0 <= i < |updates| ==> IsTestId(updates[i].testId)
    requires k < |updates| && Found(updates[k], query)
    ensures var j := FoundCount(updates[..k], query);
            && j < |Planned(updates, query, clock)|
            && Planned(updates, query, clock)[j] ==
                 PayloadFor(query(IdNumber(updates[k].testId)).value[0], updates[k], clock(k))
  {
    var init := updates[..|updates| - 1];
    if k == |updates| - 1 {
      assert init == updates[..k];
      PlannedLength(init, query, clock);
    } else {
      assert init[..k] == updates[..k];
      assert init[k] == updates[k];
      PlannedSendsFound(init, query, clock, k);
      PlannedKeepsEarlier(updates, query, clock, FoundCount(updates[..k], query));
    }
  }

  /** Records further on are sent further on, so no two found records share
      an update. */
  lemma FoundCountOrders(updates: seq<TestResult>, query: nat -> Option<seq<string>>, k1: nat, k2: nat)
    requires forall i :: 0 <= i < |updates| ==> IsTestId(updates[i].testId)
    requires k1 < k2 <= |updates| && Found(updates[k1], query)
    ensures FoundCount(updates[..k1], query) < FoundCount(updates[..k2], query)
  {
    assert updates[..k1 + 1][..k1] == updates[..k1];
    FoundCountGrows(updates, query, k1 + 1, k2);
  }

  lemma {:induction false} FoundCountGrows(updates: seq<TestResult>, query: nat -> Option<seq<string>>, k1: nat, k2: nat)
    requires forall i :: 0 <= i < |updates| ==> IsTestId(updates[i].testId)
    requires k1 <= k2 <= |updates|
    ensures FoundCount(updates[..k1], query) <= FoundCount(updates[..k2], query)
    decreases k2 - k1
  {
    if k1 < k2 {
      FoundCountGrows(updates, query, k1, k2 - 1);
      assert updates[..k2][..k2 - 1] == updates[..k2 - 1];
    }
  }

  /** When every query finds a page, every record is sent. */
  lemma {:induction false} PlannedCount(updates: seq<TestResult>, query: nat -> Option<seq<string>>, clock: nat -> string)
    requires forall k :: 0 <= k < |updates| ==> IsTestId(updates[k].testId)
    requires forall k :: 0 <= k < |updates| ==>
               var pages := query(IdNumber(updates[k].testId)); pages.Some? && pages.value != []
    ensures |Planned(updates, query, clock)| == |updates|
  {
    if updates != [] {
      PlannedCount(updates[..|updates| - 1], query, clock);
    }
  }
}
