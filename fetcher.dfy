/** The ticket-content parsing of `src/generator/fetcher.ts`: reading the
    ticket's database properties, rendering the page's blocks to text with
    numbered-list counting, splitting a section into `prefixN -> line`
    entries, and the fallback that treats a page without sections as steps.

    The knowledge-base calls that produce the properties and the blocks, the
    regular expressions that find the four section captures, and `JSON.parse`
    are outside the model: the captures are inputs, and the JSON parser is an
    arbitrary partial function passed in as `parse`. */
module Fetcher {
  import opened Wrappers
  import opened Text

  // ---------------------------------------------------------------- values

  /** A rich-text run of the knowledge base; only its plain text is read. */
  datatype RichText = RichText(plainText: string)

  /** The value of a formula property: its string result (possibly null) and
      its numeric result (possibly null). */
  datatype Formula = Formula(str: Option<string>, number: Option<int>)

  /** A database property value, by its `type`. */
  datatype PropValue =
    | TitleProp(title: seq<RichText>)
    | RichTextProp(richText: seq<RichText>)
    | SelectProp(select: Option<string>)      // the selected option's name; None when nothing is selected
    | StatusProp(status: Option<string>)
    | NumberProp(number: Option<int>)
    | FormulaProp(formula: Formula)
    | UniqueIdProp(prefix: Option<string>, uniqueNumber: int)
    | OtherProp(kind: string)

  /** What `JSON.parse` can return (numbers restricted to integers). */
  datatype Json =
    | JNull
    | JBool(b: bool)
    | JNumber(n: int)
    | JString(s: string)
    | JArray(items: seq<Json>)
    | JObject(fields: map<string, Json>)

  /** The object literal `{}`. */
  const EmptyObject: Json := JObject(map[])

  /** A page block, by its `type`. */
  datatype Block =
    | Paragraph(rich: seq<RichText>)
    | Heading1(rich: seq<RichText>)
    | Heading2(rich: seq<RichText>)
    | Heading3(rich: seq<RichText>)
    | BulletedItem(rich: seq<RichText>)
    | NumberedItem(rich: seq<RichText>)
    | Code(language: string, rich: seq<RichText>)
    | Unsupported(kind: string)

  /** The parsed sections of a ticket page. */
  datatype Sections = Sections(
    prerequisites: map<string, string>,
    steps: map<string, string>,
    expectedResult: map<string, string>,
    testData: Json)

  /** The capture groups of the four section regular expressions, when they matched. */
  datatype SectionCaptures = SectionCaptures(
    prerequisites: Option<string>,
    steps: Option<string>,
    expected: Option<string>,
    testData: Option<string>)

  // ------------------------------------------------------ property helpers

  /** `rich.map(t => t.plain_text)`: the text of each run, in order. */
  function RunTexts(rich: seq<RichText>): (r: seq<string>)
    ensures |r| == |rich|
    ensures forall i :: 0 <= i < |rich| ==> r[i] == rich[i].plainText
  {
    if rich == [] then [] else [rich[0].plainText] + RunTexts(rich[1..])
  }

  /** `rich.map(t => t.plain_text).join('')` */
  function PlainText(rich: seq<RichText>): (r: string)
    ensures rich == [] ==> r == ""
    ensures |rich| == 1 ==> r == rich[0].plainText
  {
    if rich == [] then "" else rich[0].plainText + PlainText(rich[1..])
  }

  /** The text of a run list is its runs' texts joined with nothing between them. */
  lemma {:induction false} PlainTextIsConcat(rich: seq<RichText>)
    ensures PlainText(rich) == Concat(RunTexts(rich))
  {
    if rich != [] {
      PlainTextIsConcat(rich[1..]);
      assert RunTexts(rich)[1..] == RunTexts(rich[1..]);
    }
  }

  /** The text of runs `a` then `b` is the text of `a` followed by that of `b`. */
  lemma {:induction false} PlainTextAppend(a: seq<RichText>, b: seq<RichText>)
    ensures PlainText(a + b) == PlainText(a) + PlainText(b)
  {
    if a != [] {
      var x := a[0].plainText;
      assert (a + b)[1..] == a[1..] + b;
      assert PlainText(a + b) == x + PlainText(a[1..] + b);
      PlainTextAppend(a[1..], b);
      assert x + (PlainText(a[1..]) + PlainText(b)) == (x + PlainText(a[1..])) + PlainText(b);
    } else {
      assert a + b == b;
    }
  }

  /** The first run's plain text, or '' when there is none. */
  function FirstPlainText(rich: seq<RichText>): string {
    if rich == [] then "" else rich[0].plainText
  }

  /** `getTitle`: the first title run's plain text, '' when the property or the run is missing. */
  function GetTitle(p: Option<PropValue>): (r: string)
    ensures !(p.Some? && p.value.TitleProp?) ==> r == ""
    ensures p.Some? && p.value.TitleProp? && p.value.title != [] ==> r == p.value.title[0].plainText
    ensures p.Some? && p.value.TitleProp? && p.value.title == [] ==> r == ""
  {
    if p.Some? && p.value.TitleProp? then FirstPlainText(p.value.title) else ""
  }

  /** `getText`: the first rich-text run's plain text, '' when missing. */
  function GetText(p: Option<PropValue>): (r: string)
    ensures !(p.Some? && p.value.RichTextProp?) ==> r == ""
    ensures p.Some? && p.value.RichTextProp? && p.value.richText != [] ==> r == p.value.richText[0].plainText
    ensures p.Some? && p.value.RichTextProp? && p.value.richText == [] ==> r == ""
  {
    if p.Some? && p.value.RichTextProp? then FirstPlainText(p.value.richText) else ""
  }

  /** `getSelect`: the selected option's name, '' when missing. */
  function GetSelect(p: Option<PropValue>): (r: string)
    ensures !(p.Some? && p.value.SelectProp? && p.value.select.Some?) ==> r == ""
    ensures p.Some? && p.value.SelectProp? && p.value.select.Some? ==> r == p.value.select.value
  {
    if p.Some? && p.value.SelectProp? then p.value.select.GetOr("") else ""
  }

  /** `getStatus`: the status name, '' when missing. */
  function GetStatus(p: Option<PropValue>): (r: string)
    ensures !(p.Some? && p.value.StatusProp? && p.value.status.Some?) ==> r == ""
    ensures p.Some? && p.value.StatusProp? && p.value.status.Some? ==> r == p.value.status.value
  {
    if p.Some? && p.value.StatusProp? then p.value.status.GetOr("") else ""
  }

  /** `getId`: the ticket ID from a formula, unique-ID or number property. */
  function GetId(p: Option<PropValue>): (r: string)
    // a unique ID is "prefix-number", or the bare number without a prefix
    ensures p.Some? && p.value.UniqueIdProp? ==>
              var u := p.value;
              r == (if u.prefix.Some? && u.prefix.value != "" then u.prefix.value + "-" else "")
                   + IntToString(u.uniqueNumber)
    // so a ticket with a unique ID always has a non-empty ID, ending in its number
    ensures p.Some? && p.value.UniqueIdProp? ==>
              r != "" && EndsWith(r, IntToString(p.value.uniqueNumber))
    // a formula gives its non-empty string, else its number, else ''
    ensures p.Some? && p.value.FormulaProp? ==>
              var f := p.value.formula;
              r == (if f.str.Some? && f.str.value != "" then f.str.value
                    else if f.number.Some? then IntToString(f.number.value) else "")
    // a number property gives its number; any other property, or none, gives ''
    ensures p.Some? && p.value.NumberProp? ==>
              r == (if p.value.number.Some? then IntToString(p.value.number.value) else "")
    ensures (p.None? || !(p.value.UniqueIdProp? || p.value.FormulaProp? || p.value.NumberProp?)) ==> r == ""
  {
    match p
    case None => ""
    case Some(FormulaProp(f)) =>
      if f.str.Some? && f.str.value != "" then f.str.value
      else if f.number.Some? then IntToString(f.number.value)
      else ""
    case Some(UniqueIdProp(prefix, n)) =>
      (if prefix.Some? && prefix.value != "" then prefix.value + "-" else "") + IntToString(n)
    case Some(NumberProp(n)) =>
      if n.Some? then IntToString(n.value) else ""
    case Some(_) => ""
  }

  // ------------------------------------------------------ code-fence match

  /** The four characters at `at` spell "json" in any letter case. */
  predicate JsonTagAt(s: string, at: nat) {
    && at + 4 <= |s|
    && (s[at] == 'j' || s[at] == 'J')
    && (s[at + 1] == 's' || s[at + 1] == 'S')
    && (s[at + 2] == 'o' || s[at + 2] == 'O')
    && (s[at + 3] == 'n' || s[at + 3] == 'N')
  }

  /** The index just past the white space that starts at `from`. */
  function SkipSpace(s: string, from: nat): (r: nat)
    requires from <= |s|
    ensures from <= r <= |s|
    ensures AllSpace(s[from..r])
    ensures r == |s| || !IsSpace(s[r])
    decreases |s| - from
  {
    if from < |s| && IsSpace(s[from]) then SkipSpace(s, from + 1) else from
  }

  const Fence := "```"

  /** The capture of ``/```(?:json)?\s*([\s\S]*?)\s*```/i``: the text between
      the first fence and the next one, without an opening "json" tag and
      without surrounding white space; None when no two fences occur. */
  function FenceBody(text: string): (r: Option<string>)
    ensures r.Some? ==> Contains(text, Fence)
  {
    match IndexOf(text, Fence, 0)
    case None => None
    case Some(open) =>
      var afterTag := if JsonTagAt(text, open + 3) then open + 7 else open + 3;
      CaptureFrom(text, SkipSpace(text, afterTag))
  }

  /** The lazy capture that starts at `start`: up to the next fence, without
      the white space before it; None when no fence follows. */
  function CaptureFrom(text: string, start: nat): Option<string>
    requires start <= |text|
  {
    match IndexOf(text, Fence, start)
    case None => None
    case Some(close) => Some(TrimEnd(text[start..close]))
  }

  /** A JSON code block as the knowledge base renders it gives back exactly its text. */
  lemma FenceBodyOfJsonBlock(t: string)
    requires t != [] && !IsSpace(t[0]) && !IsSpace(t[|t| - 1])
    requires !Contains(t, Fence)
    ensures FenceBody("```json\n" + t + "\n```") == Some(t)
  {
    var s := "```json\n" + t + "\n```";
    var close := |"```json\n"| + |t| + 1;
    JsonBlockOpens(t, s);
    BlockCloses("```json\n", t, s, close);
    FenceBodyBetween(s, 8, close, t);
  }

  /** A JSON block opens with a fence at 0 and a "json" tag, and `t` starts
      right after the newline. */
  lemma JsonBlockOpens(t: string, s: string)
    requires t != [] && !IsSpace(t[0])
    requires s == "```json\n" + t + "\n```"
    ensures IndexOf(s, Fence, 0) == Some(0)
    ensures SkipSpace(s, if JsonTagAt(s, 3) then 7 else 3) == 8
  {
    OpeningFence(s);
    JsonTagSkipped(s, t);
  }

  /** A block whose text `t` follows the prefix `p` closes with the fence
      right after `t` and its newline. */
  lemma BlockCloses(p: string, t: string, s: string, close: nat)
    requires t != [] && !IsSpace(t[|t| - 1]) && !Contains(t, Fence)
    requires s == p + t + "\n```" && close == |p| + |t| + 1
    ensures IndexOf(s, Fence, |p|) == Some(close)
    ensures |p| <= close <= |s| && t == TrimEnd(s[|p|..close])
  {
    TextBeforeClose(p, t);
    ClosingFence(p, t, |p|);
    TrimEndNewline(t);
  }

  /** What lies between the prefix and the closing fence of "<p><t>\n```". */
  lemma TextBeforeClose(p: string, t: string)
    ensures (p + t + "\n```")[|p|..|p| + |t| + 1] == t + "\n"
  {
  }

  /** A code block in any language other than JSON keeps its language tag in
      the captured text, which is then what `JSON.parse` sees. */
  lemma FenceBodyKeepsOtherLanguage(tag: string, t: string)
    requires tag != [] && !IsSpace(tag[0]) && '`' !in tag && !JsonTagAt(tag + t, 0)
    requires t != [] && !IsSpace(t[|t| - 1]) && !Contains(t, Fence)
    ensures FenceBody(Fence + tag + t + "\n```") == Some(tag + t)
  {
    var p := Fence + tag;
    var s := p + t + "\n```";
    assert s[..3] == Fence;
    OpeningFence(s);
    TagAfterFence(tag, t);
    assert SkipSpace(s, 3) == 3;
    forall k | 3 <= k < |p|
      ensures p[k] != '`'
    {
      assert p[k] == tag[k - 3];
    }
    ClosingFence(p, t, 3);
    FencedSlice(p, t, 3);
    assert p[3..] == tag;
    TrimEndNewline(tag + t);
    FenceBodyBetween(s, 3, |p| + |t| + 1, tag + t);
  }

  /** Right after the opening fence the text reads `tag + t`. */
  lemma TagAfterFence(tag: string, t: string)
    requires tag != [] && !JsonTagAt(tag + t, 0)
    ensures var s := Fence + tag + t + "\n```";
            s[3] == tag[0] && !JsonTagAt(s, 3)
  {
    var s := Fence + tag + t + "\n```";
    forall i | 3 <= i < 3 + |tag| + |t|
      ensures s[i] == (tag + t)[i - 3]
    {
    }
  }

  /** The capture runs from the first non-space after the opening fence and
      its tag up to the next fence, trimmed at its end. */
  lemma FenceBodyBetween(s: string, start: nat, close: nat, body: string)
    requires IndexOf(s, Fence, 0) == Some(0)
    requires SkipSpace(s, if JsonTagAt(s, 3) then 7 else 3) == start
    requires IndexOf(s, Fence, start) == Some(close)
    requires start <= close <= |s| && body == TrimEnd(s[start..close])
    ensures FenceBody(s) == Some(body)
  {
    CaptureUpTo(s, start, close, body);
  }

  lemma CaptureUpTo(s: string, start: nat, close: nat, body: string)
    requires start <= close <= |s| && IndexOf(s, Fence, start) == Some(close)
    requires body == TrimEnd(s[start..close])
    ensures CaptureFrom(s, start) == Some(body)
  {
  }

  /** After "```json" and a newline, the capture starts at the first character of `t`. */
  lemma JsonTagSkipped(s: string, t: string)
    requires t != [] && !IsSpace(t[0]) && s == "```json\n" + t + "\n```"
    ensures JsonTagAt(s, 3) && SkipSpace(s, 7) == 8
  {
    assert s[7] == '\n' && s[8] == t[0];
    assert SkipSpace(s, 8) == 8;
  }

  /** The text between `from` and the closing fence of "<p><t>\n```". */
  lemma FencedSlice(p: string, t: string, from: nat)
    requires from <= |p|
    ensures (p + t + "\n```")[from..|p| + |t| + 1] == p[from..] + t + "\n"
  {
  }

  /** A text that starts with a fence has its first fence at 0. */
  lemma OpeningFence(s: string)
    requires |s| >= 3 && s[..3] == Fence
    ensures IndexOf(s, Fence, 0) == Some(0)
  {
    IndexOfFinds(s, Fence, 0, 0);
  }

  /** After a prefix with no backtick from `from` on, the next fence is the
      one closing "<prefix><t>\n```", when `t` holds none. */
  lemma ClosingFence(p: string, t: string, from: nat)
    requires from <= |p| && forall k :: from <= k < |p| ==> p[k] != '`'
    requires !Contains(t, Fence)
    ensures IndexOf(p + t + "\n```", Fence, from) == Some(|p| + |t| + 1)
  {
    var s := p + t + "\n```";
    var close := |p| + |t| + 1;
    assert s[close..close + 3] == Fence;
    forall k | from <= k < close
      ensures !OccursAt(s, Fence, k)
    {
      if k < |p| {
        NoFenceOver(s, k, k);
      } else if k + 3 <= |p| + |t| {
        assert s[k..k + 3] == t[k - |p|..k - |p| + 3];
        assert !OccursAt(t, Fence, k - |p|);
      } else {
        NoFenceOver(s, k, |p| + |t|);
      }
    }
    IndexOfFinds(s, Fence, from, close);
  }

  /** A fence cannot occur over a character other than a backtick. */
  lemma NoFenceOver(s: string, k: nat, j: nat)
    requires k <= j < |s| && j < k + 3 && s[j] != '`'
    ensures !OccursAt(s, Fence, k)
  {
    if k + 3 <= |s| {
      assert s[k..k + 3][j - k] == s[j];
    }
  }

  /** A text that does not end in white space is the trim of itself plus a newline. */
  lemma TrimEndNewline(x: string)
    requires x != [] && !IsSpace(x[|x| - 1])
    ensures TrimEnd(x + "\n") == x
  {
    assert (x + "\n")[..|x|] == x;
  }

  /** `getSelectors`: {} for empty text; otherwise the parse of the fence body
      when there is a fenced block, else of the whole text; {} when that parse fails. */
  function GetSelectors(p: Option<PropValue>, parse: string -> Option<Json>): (r: Json)
    ensures GetText(p) == "" ==> r == EmptyObject
    ensures GetText(p) != "" && FenceBody(GetText(p)).Some? ==>
              r == parse(FenceBody(GetText(p)).value).GetOr(EmptyObject)
    ensures GetText(p) != "" && FenceBody(GetText(p)).None? ==>
              r == parse(GetText(p)).GetOr(EmptyObject)
  {
    var text := GetText(p);
    if text == "" then EmptyObject
    else
      var clean := match FenceBody(text) case Some(body) => body case None => text;
      parse(clean).GetOr(EmptyObject)
  }

  // ------------------------------------------------------- block rendering

  /** How many numbered items immediately precede block `i`. */
  function RunBefore(blocks: seq<Block>, i: nat): (r: nat)
    requires i <= |blocks|
    ensures r <= i
  {
    if i == 0 || !blocks[i - 1].NumberedItem? then 0 else 1 + RunBefore(blocks, i - 1)
  }

  /** The number a numbered item at position `i` is shown with: its place in its run. */
  function Numeral(blocks: seq<Block>, i: nat): nat
    requires i <= |blocks|
  {
    1 + RunBefore(blocks, i)
  }

  /** One block as text, given the current list counter. */
  function RenderBlock(b: Block, counter: nat): string {
    match b
    case NumberedItem(rich) => NatToString(counter) + ". " + PlainText(rich)
    case Paragraph(rich) => PlainText(rich)
    case Heading1(rich) => "# " + PlainText(rich)
    case Heading2(rich) => "## " + PlainText(rich)
    case Heading3(rich) => "### " + PlainText(rich)
    case BulletedItem(rich) => "- " + PlainText(rich)
    case Code(language, rich) => "```" + language + "\n" + PlainText(rich) + "\n```"
    case Unsupported(_) => ""
  }

  /** Every block rendered, each numbered item with its place in its run. */
  function Rendered(blocks: seq<Block>): (r: seq<string>)
    ensures |r| == |blocks|
  {
    seq(|blocks|, i requires 0 <= i < |blocks| => RenderBlock(blocks[i], Numeral(blocks, i)))
  }

  /** The map over the blocks in `fetchPageContent`, threading `listCounter`,
      followed by the filter and the join. */
  method RenderPageContent(blocks: seq<Block>) returns (content: string)
    ensures content == Join(DropEmpty(Rendered(blocks)), '\n')
  {
    var listCounter: nat := 1;
    var lines: seq<string> := [];
    ghost var rendered := Rendered(blocks);
    var i := 0;
    while i < |blocks|
      invariant 0 <= i <= |blocks|
      invariant listCounter == Numeral(blocks, i)
      invariant lines == rendered[..i]
    {
      var text: string;
      if blocks[i].NumberedItem? {
        text := NatToString(listCounter) + ". " + PlainText(blocks[i].rich);
        listCounter := listCounter + 1;
      } else {
        listCounter := 1;
        text := RenderBlock(blocks[i], listCounter);
      }
      RenderStep(blocks, i, lines, text);
      lines := lines + [text];
      i := i + 1;
    }
    assert rendered[..|blocks|] == rendered;
    content := Join(DropEmpty(lines), '\n');
  }

  /** One step of the map: the counter the loop keeps renders block `i` as
      `Rendered` does, and moves on to the next block's numeral. */
  lemma RenderStep(blocks: seq<Block>, i: nat, lines: seq<string>, text: string)
    requires i < |blocks| && lines == Rendered(blocks)[..i]
    requires text == RenderBlock(blocks[i], if blocks[i].NumberedItem? then Numeral(blocks, i) else 1)
    ensures lines + [text] == Rendered(blocks)[..i + 1]
  {
    var rendered := Rendered(blocks);
    assert text == rendered[i] by {
      if !blocks[i].NumberedItem? {
        match blocks[i]
        case Unsupported(_) =>
        case _ =>
      }
    }
    assert rendered[..i + 1] == rendered[..i] + [rendered[i]];
  }

  /** A run of numbered items that follows a non-numbered block (or the start)
      is numbered 1, 2, 3, ... */
  lemma {:induction false} RunIsNumberedFromOne(blocks: seq<Block>, start: nat, len: nat, j: nat)
    requires start + len <= |blocks|
    requires start == 0 || !blocks[start - 1].NumberedItem?
    requires forall k :: start <= k < start + len ==> blocks[k].NumberedItem?
    requires j < len
    ensures Numeral(blocks, start + j) == j + 1
  {
    if j > 0 {
      RunIsNumberedFromOne(blocks, start, len, j - 1);
    }
  }

  /** Any block other than a numbered item, whatever it renders to, restarts the count. */
  lemma ResetAfterOtherBlock(blocks: seq<Block>, i: nat)
    requires i + 1 < |blocks|
    requires !blocks[i].NumberedItem? && blocks[i + 1].NumberedItem?
    ensures Rendered(blocks)[i + 1] == "1. " + PlainText(blocks[i + 1].rich)
  {
  }

  // ---------------------------------------------------- list-to-object map

  /** The lines of a section: split on '\n', trimmed, blank ones dropped. */
  function TrimmedNonBlank(lines: seq<string>): (r: seq<string>)
    ensures |r| <= |lines|
    ensures forall i :: 0 <= i < |r| ==> r[i] != "" && Trimmed(r[i])
  {
    if lines == [] then []
    else
      var t := Trim(lines[0]);
      var rest := TrimmedNonBlank(lines[1..]);
      if t == "" then rest
      else
        PrependPlain(t, rest);
        [t] + rest
  }

  /** `.map(l => l.trim())` */
  function TrimAll(lines: seq<string>): (r: seq<string>)
    ensures |r| == |lines|
    ensures forall i :: 0 <= i < |lines| ==> r[i] == Trim(lines[i])
  {
    if lines == [] then [] else [Trim(lines[0])] + TrimAll(lines[1..])
  }

  /** The section lines are the trimmed lines with the empty ones filtered out,
      so `DropEmptyAppend` and `DropEmptyContents` say which lines are kept. */
  lemma {:induction false} TrimmedNonBlankIsTrimThenFilter(lines: seq<string>)
    ensures TrimmedNonBlank(lines) == DropEmpty(TrimAll(lines))
  {
    if lines != [] {
      TrimmedNonBlankIsTrimThenFilter(lines[1..]);
      assert TrimAll(lines)[1..] == TrimAll(lines[1..]);
    }
  }

  lemma PrependPlain(t: string, rest: seq<string>)
    requires t != "" && Trimmed(t)
    requires forall i :: 0 <= i < |rest| ==> rest[i] != "" && Trimmed(rest[i])
    ensures forall i :: 0 <= i < |[t] + rest| ==> ([t] + rest)[i] != "" && Trimmed(([t] + rest)[i])
  {
    forall i | 0 <= i < |[t] + rest|
      ensures ([t] + rest)[i] != "" && Trimmed(([t] + rest)[i])
    {
      if i > 0 {
        assert ([t] + rest)[i] == rest[i - 1];
      }
    }
  }

  function NonBlankLines(text: string): seq<string> {
    TrimmedNonBlank(Split(text, '\n'))
  }

  /** The line starts with a list marker: digits and a dot, or '-', or '*'. */
  predicate HasMarker(line: string) {
    var d := LeadingDigits(line);
    (d > 0 && d < |line| && line[d] == '.') || (line != [] && (line[0] == '-' || line[0] == '*'))
  }

  /** `h` is a list marker: one or more digits and a dot, or '-', or '*'. */
  predicate MarkerHead(h: string) {
    h == "-" || h == "*" || (|h| >= 2 && h[|h| - 1] == '.' && AllDigits(h[..|h| - 1]))
  }

  /** A marker head holds no white space. */
  lemma HeadHasNoSpace(h: string)
    requires MarkerHead(h)
    ensures forall i :: 0 <= i < |h| ==> !IsSpace(h[i])
  {
    forall i | 0 <= i < |h|
      ensures !IsSpace(h[i])
    {
      if i < |h| - 1 && h != "-" && h != "*" {
        assert h[i] == h[..|h| - 1][i];
      }
    }
  }

  /** `m` is a list marker followed by white space. */
  predicate IsMarker(m: string) {
    var k := LeadingNonSpace(m);
    MarkerHead(m[..k]) && AllSpace(m[k..])
  }

  /** The marker replace of `parseListToObject`: removes one leading marker
      (digits and a dot, '-' or '*') and the white space after it, and nothing else. */
  function StripMarker(line: string): (r: string)
    ensures |r| <= |line| && r == line[|line| - |r|..]
    ensures |r| == |line| <==> !HasMarker(line)
  {
    var d := LeadingDigits(line);
    if d > 0 && d < |line| && line[d] == '.' then TrimStart(line[d + 1..])
    else if line != [] && (line[0] == '-' || line[0] == '*') then TrimStart(line[1..])
    else line
  }

  /** What the replace removes is exactly one marker and the white space after
      it: the rest does not start with white space. */
  lemma StripMarkerRemovesMarker(line: string, r: string)
    requires HasMarker(line) && r == StripMarker(line)
    ensures IsMarker(line[..|line| - |r|]) && (r == [] || !IsSpace(r[0]))
  {
    var d := LeadingDigits(line);
    var k := 1;
    if d > 0 && d < |line| && line[d] == '.' {
      DigitsHead(line, d);
      k := d + 1;
    } else {
      assert line[..1] == [line[0]];
    }
    TrimAfterHead(line, k, r);
  }

  /** Leading digits followed by a dot make a marker head. */
  lemma DigitsHead(line: string, d: nat)
    requires 0 < d < |line| && AllDigits(line[..d]) && line[d] == '.'
    ensures MarkerHead(line[..d + 1])
  {
    assert line[..d + 1][..d] == line[..d];
  }

  /** A marker head followed by the white space `trimStart` drops is a marker. */
  lemma TrimAfterHead(line: string, k: nat, r: string)
    requires 1 <= k <= |line| && MarkerHead(line[..k]) && r == TrimStart(line[k..])
    ensures IsMarker(line[..|line| - |r|]) && (r == [] || !IsSpace(r[0]))
  {
    var s := line[k..];
    SliceSplit(line, k, r);
    MarkerOfParts(line[..|line| - |r|], line[..k], s[..|s| - |r|]);
  }

  lemma SliceSplit(line: string, k: nat, r: string)
    requires k <= |line| - |r|
    ensures line[..|line| - |r|] == line[..k] + line[k..][..|line[k..]| - |r|]
  {
  }

  /** A marker head followed by white space is a marker. */
  lemma MarkerOfParts(m: string, head: string, space: string)
    requires MarkerHead(head) && AllSpace(space) && m == head + space
    ensures IsMarker(m)
  {
    HeadHasNoSpace(head);
    LeadingNonSpaceOf(head, space);
    assert m[..|head|] == head;
    assert m[|head|..] == space;
  }

  /** A rendered numbered item "n. text" loses exactly its "n. ". */
  lemma StripNumberedMarker(n: nat, t: string)
    requires t == [] || !IsSpace(t[0])
    ensures StripMarker(NatToString(n) + ". " + t) == t
  {
    StripDigitsMarker(NatToString(n), t);
  }

  /** "<digits>. text" loses exactly its "<digits>. ". */
  lemma StripDigitsMarker(digits: string, t: string)
    requires digits != [] && AllDigits(digits)
    requires t == [] || !IsSpace(t[0])
    ensures StripMarker(digits + ". " + t) == t
  {
    var line := digits + ". " + t;
    DigitsMarkerParts(digits, t);
    TrimStartAfterSpace(t);
    StripAtDot(line, |digits|);
  }

  /** After leading digits and a dot, the replace leaves the trimmed rest. */
  lemma StripAtDot(line: string, d: nat)
    requires LeadingDigits(line) == d && 0 < d < |line| && line[d] == '.'
    ensures StripMarker(line) == TrimStart(line[d + 1..])
  {
  }

  /** "<digits>. text" has its leading digits, then '.', then " text". */
  lemma DigitsMarkerParts(digits: string, t: string)
    requires AllDigits(digits)
    ensures var line := digits + ". " + t;
            && LeadingDigits(line) == |digits|
            && line[|digits|] == '.'
            && line[|digits| + 1..] == " " + t
  {
    var line := digits + ". " + t;
    assert line == digits + (". " + t);
    LeadingDigitsOfDigits(digits, ". " + t);
  }

  lemma TrimStartAfterSpace(t: string)
    requires t == [] || !IsSpace(t[0])
    ensures TrimStart(" " + t) == t
  {
    assert (" " + t)[1..] == t;
  }

  /** The key of the `n`th entry of a section: `${prefix}${n}`. */
  function ListKey(prefix: string, n: nat): string {
    prefix + NatToString(n)
  }

  lemma ListKeyInjective(prefix: string, m: nat, n: nat)
    requires ListKey(prefix, m) == ListKey(prefix, n)
    ensures m == n
  {
    assert NatToString(m) == ListKey(prefix, m)[|prefix|..];
    assert NatToString(n) == ListKey(prefix, n)[|prefix|..];
    NatToStringInjective(m, n);
  }

  /** Each line of a section without its list marker. */
  function Cleaned(lines: seq<string>): (r: seq<string>)
    ensures |r| == |lines|
    ensures forall i :: 0 <= i < |lines| ==> r[i] == StripMarker(lines[i])
  {
    if lines == [] then [] else [StripMarker(lines[0])] + Cleaned(lines[1..])
  }

  /** The entries the `forEach` has written after its first `n` values. */
  function EntriesUpTo(values: seq<string>, prefix: string, n: nat): map<string, string>
    requires n <= |values|
  {
    if n == 0 then map[]
    else EntriesUpTo(values, prefix, n - 1)[ListKey(prefix, n) := values[n - 1]]
  }

  /** `parseListToObject(text, prefix)` as a value. */
  function ListEntries(text: string, prefix: string): map<string, string> {
    var values := Cleaned(NonBlankLines(text));
    EntriesUpTo(values, prefix, |values|)
  }

  /** After `n` values, entry k (1 <= k <= n) holds value k. */
  lemma {:induction false} EntryAt(values: seq<string>, prefix: string, n: nat, k: nat)
    requires n <= |values| && 1 <= k <= n
    ensures ListKey(prefix, k) in EntriesUpTo(values, prefix, n)
    ensures EntriesUpTo(values, prefix, n)[ListKey(prefix, k)] == values[k - 1]
  {
    if k < n {
      EntryAt(values, prefix, n - 1, k);
      if ListKey(prefix, n) == ListKey(prefix, k) {
        ListKeyInjective(prefix, n, k);
      }
    }
  }

  /** After `n` values, every key is the key of one of them. */
  lemma {:induction false} KeyIndex(values: seq<string>, prefix: string, n: nat, key: string) returns (k: nat)
    requires n <= |values| && key in EntriesUpTo(values, prefix, n)
    ensures 1 <= k <= n && key == ListKey(prefix, k)
  {
    if key == ListKey(prefix, n) {
      k := n;
    } else {
      k := KeyIndex(values, prefix, n - 1, key);
    }
  }

  /** After `n` values there are exactly `n` entries. */
  lemma {:induction false} EntriesCount(values: seq<string>, prefix: string, n: nat)
    requires n <= |values|
    ensures |EntriesUpTo(values, prefix, n)| == n
  {
    if n > 0 {
      EntriesCount(values, prefix, n - 1);
      if ListKey(prefix, n) in EntriesUpTo(values, prefix, n - 1) {
        var k := KeyIndex(values, prefix, n - 1, ListKey(prefix, n));
        ListKeyInjective(prefix, n, k);
      }
    }
  }

  /** `parseListToObject`: one entry per non-blank line, keyed prefix1..prefixN in
      line order, each value the trimmed line without its list marker. */
  lemma ListEntriesShape(text: string, prefix: string)
    ensures |ListEntries(text, prefix)| == |NonBlankLines(text)|
    ensures forall k :: 1 <= k <= |NonBlankLines(text)| ==>
              ListKey(prefix, k) in ListEntries(text, prefix) &&
              ListEntries(text, prefix)[ListKey(prefix, k)] == StripMarker(NonBlankLines(text)[k - 1])
    ensures forall key :: key in ListEntries(text, prefix) ==>
              exists k :: 1 <= k <= |NonBlankLines(text)| && key == ListKey(prefix, k)
  {
    var lines := NonBlankLines(text);
    var values := Cleaned(lines);
    var entries := ListEntries(text, prefix);
    assert entries == EntriesUpTo(values, prefix, |values|);
    EntriesCount(values, prefix, |values|);
    forall k | 1 <= k <= |lines|
      ensures ListKey(prefix, k) in entries && entries[ListKey(prefix, k)] == StripMarker(lines[k - 1])
    {
      EntryAt(values, prefix, |values|, k);
    }
    forall key | key in entries
      ensures exists k :: 1 <= k <= |lines| && key == ListKey(prefix, k)
    {
      var k := KeyIndex(values, prefix, |values|, key);
    }
  }

  /** `parseListToObject`, which fills `obj` line by line. */
  method ParseListToObject(text: string, prefix: string) returns (obj: map<string, string>)
    ensures obj == ListEntries(text, prefix)
  {
    var lines := NonBlankLines(text);
    ghost var values := Cleaned(lines);
    ListEntriesUnfold(text, prefix, lines, values);
    obj := map[];
    var index := 0;
    while index < |lines|
      invariant 0 <= index <= |lines|
      invariant obj == EntriesUpTo(values, prefix, index)
    {
      var cleanLine := StripMarker(lines[index]);
      EntriesStep(values, prefix, index, cleanLine);
      obj := obj[ListKey(prefix, index + 1) := cleanLine];
      index := index + 1;
    }
  }

  lemma ListEntriesUnfold(text: string, prefix: string, lines: seq<string>, values: seq<string>)
    requires lines == NonBlankLines(text) && values == Cleaned(lines)
    ensures |values| == |lines| && ListEntries(text, prefix) == EntriesUpTo(values, prefix, |lines|)
  {
  }

  lemma EntriesStep(values: seq<string>, prefix: string, n: nat, value: string)
    requires n < |values| && values[n] == value
    ensures EntriesUpTo(values, prefix, n + 1) == EntriesUpTo(values, prefix, n)[ListKey(prefix, n + 1) := value]
  {
  }

  /** A string with a non-blank trim has a non-blank line. */
  lemma {:induction false} NonBlankTextHasLine(text: string)
    requires Trim(text) != ""
    ensures |NonBlankLines(text)| >= 1
  {
    var i :| 0 <= i < |text| && !IsSpace(text[i]) by {
      var t := TrimStart(text);
      assert t != [] && !IsSpace(t[0]);
      assert text[|text| - |t|] == t[0];
    }
    NonSpaceGivesLine(text, i);
  }

  lemma {:induction false} NonSpaceGivesLine(text: string, i: nat)
    requires i < |text| && !IsSpace(text[i])
    ensures |TrimmedNonBlank(Split(text, '\n'))| >= 1
    decreases |text|
  {
    var rest := Split(text[1..], '\n');
    if i == 0 {
      assert text[0] != '\n';
      var first := Split(text, '\n')[0];
      assert first == [text[0]] + rest[0];
      assert Trim(first) != "" by {
        assert !IsSpace(first[0]);
      }
    } else {
      NonSpaceGivesLine(text[1..], i - 1);
      if text[0] == '\n' {
        assert Split(text, '\n')[1..] == rest;
      } else {
        NonBlankHeadOrTail(text[0], rest);
      }
    }
  }

  /** Prepending a character to the first line keeps a non-blank line non-blank somewhere. */
  lemma {:induction false} NonBlankHeadOrTail(c: char, rest: seq<string>)
    requires |rest| >= 1 && |TrimmedNonBlank(rest)| >= 1
    ensures |TrimmedNonBlank([[c] + rest[0]] + rest[1..])| >= 1
  {
    if Trim(rest[0]) == "" {
      BlankFirstLine(c, rest);
    } else {
      FilledFirstLine(c, rest);
    }
  }

  lemma BlankFirstLine(c: char, rest: seq<string>)
    requires |rest| >= 1 && |TrimmedNonBlank(rest)| >= 1 && Trim(rest[0]) == ""
    ensures |TrimmedNonBlank([[c] + rest[0]] + rest[1..])| >= 1
  {
    NewHeadParts(c, rest);
    TrimmedNonBlankStep(rest);
    TailKeepsLine([[c] + rest[0]] + rest[1..]);
  }

  lemma FilledFirstLine(c: char, rest: seq<string>)
    requires |rest| >= 1 && Trim(rest[0]) != ""
    ensures |TrimmedNonBlank([[c] + rest[0]] + rest[1..])| >= 1
  {
    var i := NonSpaceAt(rest[0]);
    ShiftedNonSpace(c, rest[0], i);
    FirstLineKept([c] + rest[0], rest[1..]);
  }

  lemma ShiftedNonSpace(c: char, t: string, i: nat)
    requires i < |t| && !IsSpace(t[i])
    ensures Trim([c] + t) != ""
  {
    assert ([c] + t)[i + 1] == t[i];
    HasNonSpaceTrim([c] + t, i + 1);
  }

  lemma FirstLineKept(head: string, tail: seq<string>)
    requires Trim(head) != ""
    ensures |TrimmedNonBlank([head] + tail)| >= 1
  {
    assert ([head] + tail)[0] == head;
    TrimmedNonBlankStep([head] + tail);
  }

  lemma TailKeepsLine(lines: seq<string>)
    requires lines != [] && |TrimmedNonBlank(lines[1..])| >= 1
    ensures |TrimmedNonBlank(lines)| >= 1
  {
    TrimmedNonBlankStep(lines);
  }

  lemma NewHeadParts(c: char, rest: seq<string>)
    requires |rest| >= 1
    ensures var lines := [[c] + rest[0]] + rest[1..];
            && lines[1..] == rest[1..]
            && forall i :: 0 <= i < |rest[0]| ==> lines[0][i + 1] == rest[0][i]
  {
    var lines := [[c] + rest[0]] + rest[1..];
    assert lines[1..] == rest[1..];
  }

  /** One step of `TrimmedNonBlank`: a blank first line adds nothing, any
      other adds one line. */
  lemma TrimmedNonBlankStep(lines: seq<string>)
    requires lines != []
    ensures Trim(lines[0]) == "" ==> TrimmedNonBlank(lines) == TrimmedNonBlank(lines[1..])
    ensures Trim(lines[0]) != "" ==> |TrimmedNonBlank(lines)| == 1 + |TrimmedNonBlank(lines[1..])|
  {
  }

  /** A string that does not trim to "" has a character other than white space. */
  lemma NonSpaceAt(t: string) returns (i: nat)
    requires Trim(t) != ""
    ensures i < |t| && !IsSpace(t[i])
  {
    var u := TrimStart(t);
    i := |t| - |u|;
    assert u != [] && t[i] == u[0];
  }

  /** A string with a non-space character does not trim to "". */
  lemma HasNonSpaceTrim(s: string, i: nat)
    requires i < |s| && !IsSpace(s[i])
    ensures Trim(s) != ""
  {
    var t := TrimStart(s);
    assert t != [] && !IsSpace(t[0]);
  }

  // ------------------------------------------------------ section fallback

  /** The test data: the trimmed capture, its fenced body when it has one,
      parsed; {} when there is no capture or the parse fails. */
  function TestDataOf(capture: Option<string>, parse: string -> Option<Json>): (r: Json)
    ensures capture.None? ==> r == EmptyObject
    // the text parsed is the fenced body of the trimmed capture, or the trimmed capture
    ensures capture.Some? && FenceBody(Trim(capture.value)).Some? ==>
              r == parse(FenceBody(Trim(capture.value)).value).GetOr(EmptyObject)
    ensures capture.Some? && FenceBody(Trim(capture.value)).None? ==>
              r == parse(Trim(capture.value)).GetOr(EmptyObject)
  {
    if capture.None? then EmptyObject
    else
      var raw := Trim(capture.value);
      var clean := match FenceBody(raw) case Some(body) => body case None => raw;
      parse(clean).GetOr(EmptyObject)
  }

  /** The entries of a section list: its parse when the section was found, else none. */
  function SectionList(capture: Option<string>, prefix: string): map<string, string> {
    if capture.Some? then ListEntries(capture.value, prefix) else map[]
  }

  /** One `if (match) sections.x = parseListToObject(match[1], prefix)` line. */
  method ParseSection(capture: Option<string>, prefix: string) returns (entries: map<string, string>)
    ensures entries == SectionList(capture, prefix)
  {
    entries := map[];
    if capture.Some? {
      entries := ParseListToObject(capture.value, prefix);
    }
  }

  /** `parseTestContent`, which fills `sections` field by field. */
  method ParseTestContent(content: string, found: SectionCaptures, parse: string -> Option<Json>)
    returns (sections: Sections)
    ensures sections.prerequisites == SectionList(found.prerequisites, "prerequisites")
    ensures sections.expectedResult == SectionList(found.expected, "expectedResult")
    ensures sections.testData == TestDataOf(found.testData, parse)
    // the sections as found, unless all three lists came out empty on a non-blank page ...
    ensures var steps := SectionList(found.steps, "step");
            var noneFound := |steps| == 0 && |sections.prerequisites| == 0 && |sections.expectedResult| == 0;
            && (!(noneFound && Trim(content) != "") ==> sections.steps == steps)
            // ... in which case the whole page is read as steps
            && (noneFound && Trim(content) != "" ==> sections.steps == ListEntries(content, "step"))
    // a non-blank page never yields three empty lists
    ensures Trim(content) != "" ==>
              |sections.steps| + |sections.prerequisites| + |sections.expectedResult| > 0
  {
    var prerequisites := ParseSection(found.prerequisites, "prerequisites");
    var steps := ParseSection(found.steps, "step");
    var expected := ParseSection(found.expected, "expectedResult");
    var testData := EmptyObject;
    if found.testData.Some? {
      testData := TestDataOf(found.testData, parse);
    }
    if |steps| == 0 && |prerequisites| == 0 && |expected| == 0 && Trim(content) != "" {
      steps := ParseListToObject(content, "step");
      FallbackHasSteps(content);
    }
    sections := Sections(prerequisites, steps, expected, testData);
  }

  /** Reading a non-blank page as steps yields at least one step. */
  lemma FallbackHasSteps(content: string)
    requires Trim(content) != ""
    ensures |ListEntries(content, "step")| > 0
  {
    NonBlankTextHasLine(content);
    ListEntriesShape(content, "step");
  }
}
