# A verified model of the self-healing test pipeline

The repository turns test tickets kept in a Notion database into Playwright
tests. It then reports each test run back to the ticket. This project models
its core in Dafny and proves properties of that model:

- **Smart actions** (`src/framework/actions/smart-actions.ts`):
  - `smartClick` and `smartFill` try the primary selector with a 2-second
    timeout.
  - On failure they log a `[HEALING]` warning.
  - Without a text hint they rethrow the original error.
  - With a text hint, `smartClick` clicks the element whose text loosely
    matches the hint. `smartFill` fills the textbox named by the hint, and
    falls back to the field whose placeholder is the hint.
  - When a fallback heals the action, they record one
    "Broken Locator Warning" annotation.
  - The browser is an abstract `Page`. Its answer to each driver request may
    depend on every request sent before. The two methods are proved for every
    such page.
- **Ticket fetching** (`src/generator/fetcher.ts`):
  - the property readers `getTitle`, `getText`, `getSelect`, `getStatus`,
    `getId` and `getSelectors`, including the code-fence capture of the
    selectors JSON;
  - the rendering of page blocks to text, where numbered items are counted
    with `listCounter` and the count restarts after any other block;
  - `parseListToObject`, which splits a section into `prefix1..prefixN`
    entries without their list markers;
  - `parseTestContent`, including the test-data parse and the fallback that
    reads a page without sections as steps.
- **File writing** (`src/generator/writer.ts`):
  - the name sanitisation `replace(/[^a-z0-9]/gi, '_').toLowerCase()`;
  - the names and directories of test files, page objects and shared data
    files;
  - the stripping of the code fences around a generated reply.
- **Result reporting** (`src/reporter/notion-updater.ts`):
  - `traverseSuites`, the recursive walk of the Playwright JSON report. It
    extracts the `TC-<digits>` ticket ID from each spec title, takes the
    status of the last result, and builds the failure note. To build the
    note it strips the ANSI escapes, trims the first line, cuts it to 100
    characters plus "...", and adds the line after "Call log:".
  - `parseInt` of the ticket number.
  - The update payload sent per record. It sets Status and Last Run. For a
    failure it sets Notes, cut to 2000 characters; for a pass it clears Notes.
- **Pipeline** (cross-module lemmas):
  - A unique ID the fetcher builds as `TC-<n>` comes back from a test title
    as the same ID and the number `n`.
  - A numbered list rendered by the fetcher and parsed back by
    `parseListToObject` gives exactly its items, keyed in order.

Modules:

| module | contents |
|---|---|
| `Wrappers` | `Option` and `Result` |
| `Text` | the JavaScript string operations the core uses: `\s`, `trim`, `split`, `join`, decimal digits |
| `SmartActions` | the smart actions |
| `Fetcher` | ticket fetching |
| `Writer` | file writing |
| `Reporter` | result reporting |
| `Pipeline` | the cross-module round trips |

The state `traverseSuites` pushes into is a class (`ResultCollector`) with an
`updates` field. Its methods are proved against the pure walk `Walk`. The loop
of `parseListToObject`, the render loop and the sync loop are methods with
loop invariants, each proved against a function.

What the code of `smart-actions.ts` does, and therefore what the model does:

- The class defines only `smartClick` and `smartFill`. It keeps no selector
  registry and generates no candidate selectors; the only fallbacks are the
  hint-based ones.
- The page objects call `smartWaitForVisibility`
  (src/framework/pages/title.page.ts:62,
  src/framework/pages/authentication.page.ts:43), but the class does not
  define it, so it is not modelled.
- When a hint fallback throws, that fallback's own error propagates, not the
  primary selector's error (smart-actions.ts:25 and :62). For `smartFill` it
  is the placeholder fill's error. The model returns that error.
- A hint of `""` is falsy (smart-actions.ts:23 and :52), so it counts as no
  hint: the original error is rethrown.
- `smartClick`'s fallback is a single loose text click (smart-actions.ts:25).
  Only `smartFill` tries a second locator: the textbox by name first, then the
  placeholder (smart-actions.ts:59-62).

## Model

| member | source | states |
|---|---|---|
| SmartActions.SmartActions.constructor | src/framework/actions/smart-actions.ts:6-8 | the wrapper drives the page it was given |
| SmartActions.SmartActions.SmartClick | src/framework/actions/smart-actions.ts:15-38 | a primary click with a 2000 ms timeout. If it completes: nothing else is sent, logged or annotated. If it throws: exactly one healing warning. With no (or an empty) hint: the original error, unchanged. With a hint: one loose text click, whose outcome is the result. One annotation naming the selector and the hint is added exactly when the fallback completed. At most two driver requests. |
| SmartActions.SmartActions.SmartFill | src/framework/actions/smart-actions.ts:46-73 | a primary fill with a 2000 ms timeout. If it throws: one warning. With no hint: the original error. With a hint: the textbox-by-name fill; if that completes, the placeholder is never tried; if it throws, the placeholder fill decides and its error is the one thrown. One annotation exactly when a fallback completed. At most three driver requests. |
| SmartActions.ClickNoteNamesSelectorAndHint | src/framework/actions/smart-actions.ts:29-32 | the click annotation is a "Broken Locator Warning" whose description contains both the failed selector and the hint |
| SmartActions.FillNoteNamesSelectorAndHint | src/framework/actions/smart-actions.ts:65-68 | the same for the fill annotation |
| Fetcher.GetTitle | src/generator/fetcher.ts:54 | the first title run's plain text; '' for a missing property, for a property of another kind, and for an empty run list |
| Fetcher.GetText | src/generator/fetcher.ts:55 | the first rich-text run's plain text; '' for a missing property, for a property of another kind, and for an empty run list |
| Fetcher.GetSelect | src/generator/fetcher.ts:56 | the selected option's name; '' when nothing is selected |
| Fetcher.GetStatus | src/generator/fetcher.ts:57 | the status name; '' when missing |
| Fetcher.GetId | src/generator/fetcher.ts:59-63 | per property kind; a unique ID always gives a non-empty ID ending in its number. A formula gives its non-empty string, else its number, else ''. A unique ID gives "prefix-number", or the bare number when the prefix is empty. A number property gives its number, or '' when it is null. Anything else gives ''. |
| Fetcher.FenceBodyOfJsonBlock | src/generator/fetcher.ts:71-72 | the code-fence capture of a ```` ```json ```` block is exactly the block's text |
| Fetcher.FenceBodyKeepsOtherLanguage | src/generator/fetcher.ts:71-72 | a fence tagged with another language keeps the tag in the capture |
| Fetcher.GetSelectors | src/generator/fetcher.ts:66-78 | {} for empty text. Otherwise the parse of the fence body when a fenced block exists, else the parse of the whole text. {} when the parse fails. |
| Fetcher.PlainText | src/generator/fetcher.ts:124 | the join of the runs' plain text: '' for none, the run's text for one |
| Fetcher.PlainTextIsConcat | src/generator/fetcher.ts:124 | for any number of runs, the text is the concatenation of every run's plain text, in order |
| Fetcher.PlainTextAppend | src/generator/fetcher.ts:124 | the text of two run lists put together is the first text followed by the second |
| Fetcher.RenderPageContent | src/generator/fetcher.ts:119-140 | the `listCounter` loop yields the join with '\n' of the non-empty rendered blocks, where each numbered item carries its place in its run |
| Fetcher.RunIsNumberedFromOne | src/generator/fetcher.ts:119-130 | a run of numbered items after the start or after any other block is numbered 1, 2, 3, … |
| Fetcher.ResetAfterOtherBlock | src/generator/fetcher.ts:127-130 | a numbered item right after another kind of block is rendered "1. …" |
| Text.DropEmpty | src/generator/fetcher.ts:140 | the filter keeps only non-empty lines and never adds any |
| Text.DropEmptyAppend | src/generator/fetcher.ts:140 | filtering distributes over concatenation, so kept lines stay in their order |
| Text.DropEmptyContents | src/generator/fetcher.ts:140 | every non-empty line is kept as often as it occurs, and only the empty ones are dropped |
| Fetcher.TrimmedNonBlank | src/generator/fetcher.ts:189 | split, trim, filter: every kept line is non-empty and its own trim |
| Fetcher.TrimmedNonBlankIsTrimThenFilter | src/generator/fetcher.ts:189 | the kept lines are exactly the trimmed lines with the empty ones filtered out, in order |
| Fetcher.StripMarker | src/generator/fetcher.ts:193 | the result is a suffix of the line. It is shorter exactly when the line starts with a marker ("<digits>.", "-" or "*"). |
| Fetcher.StripMarkerRemovesMarker | src/generator/fetcher.ts:193 | what is removed is one marker plus the white space after it, and the rest does not start with white space |
| Fetcher.StripNumberedMarker | src/generator/fetcher.ts:193 | "n. text" loses exactly "n. " |
| Fetcher.ListKeyInjective | src/generator/fetcher.ts:194 | distinct line numbers give distinct keys |
| Fetcher.ListEntriesShape | src/generator/fetcher.ts:188-197 | one entry per non-blank line. Key `prefix<k>` holds line k without its marker, and there are no other keys. |
| Fetcher.ParseListToObject | src/generator/fetcher.ts:188-197 | the `forEach` loop builds exactly `ListEntries(text, prefix)` |
| Fetcher.NonBlankTextHasLine | src/generator/fetcher.ts:181-182 | a page whose trim is non-blank has at least one non-blank line |
| Fetcher.TestDataOf | src/generator/fetcher.ts:165-178 | {} without a capture. Otherwise the capture is trimmed; when it holds a code fence, the fence body is parsed, else the trimmed capture is parsed; {} when the parse fails. |
| Fetcher.ParseSection | src/generator/fetcher.ts:161-163 | a section is its capture's list parse when the header was found, and empty when it was not |
| Fetcher.ParseTestContent | src/generator/fetcher.ts:147-186 | each section is the list parse of its capture, or empty. Test data is parsed from the fence body or the raw capture. When all three lists are empty on a non-blank page, the whole page is read as steps. A non-blank page never yields three empty lists. |
| Writer.ReplaceUnsafeAt | src/generator/writer.ts:23 | the replace keeps ASCII letters and digits and turns every other character into '_' |
| Writer.Sanitize | src/generator/writer.ts:23 | sanitisation keeps the length |
| Writer.SanitizeAt | src/generator/writer.ts:23 | character by character: letters lowered, digits kept, everything else '_' |
| Writer.SanitizeIsSafe | src/generator/writer.ts:23-24 | sanitised names use only a-z, 0-9 and '_' |
| Writer.SanitizeFixedPoints | src/generator/writer.ts:23 | a name is unchanged if and only if it is already safe |
| Writer.SanitizeIdempotent | src/generator/writer.ts:23 | sanitising twice is sanitising once |
| Writer.SanitizeMergesNames | src/generator/writer.ts:44-45 | "Log in" and "log_in" get the same page-object file |
| Writer.TestFileNameShape | src/generator/writer.ts:25 | the name is the raw ticket ID, '_', the sanitised title and ".spec.ts", and the title part reads back |
| Writer.TestFileNameIsOneSegment | src/generator/writer.ts:25 | a ticket ID without '/' gives a single path segment |
| Writer.FileLocations | src/generator/writer.ts:28-64 | test files and the shared data file of a module share src/tests/<safeModule>; page objects go to src/framework/pages. An empty module name puts them straight into src/tests. |
| Writer.JoinPathAppend | src/generator/writer.ts:29 | joining a file name onto a directory appends one segment |
| Writer.StripFences | src/generator/writer.ts:10 | the cleaned code is no longer than the reply and occurs in it |
| Writer.StripFencesRemovesOnlyFences | src/generator/writer.ts:10 | the reply is an opening (nothing, "```" or "```typescript" with the white space after it, or both in turn), then the cleaned code unchanged, then nothing or one closing "```" |
| Writer.StripFencesRemovesPresentFences | src/generator/writer.ts:10 | a fence that is there goes: a reply starting with "```" (or "```typescript") loses at least that fence and all the white space after it; a bare "```" after "```typescript" and its white space goes as well; a reply starting otherwise loses nothing at the front, and a "```" at the end that the opening did not take is removed |
| Writer.StripFencesNoFence | src/generator/writer.ts:10 | a reply without fences is kept as it is |
| Writer.StripFencesOfFencedReply | src/generator/writer.ts:10 | ```` ```typescript\n<body>\n``` ```` becomes "<body>\n" |
| Writer.StripFencesAfterProse | src/generator/writer.ts:10 | a reply that opens with prose keeps its opening fence; only the closing fence goes |
| Reporter.TestIdOf | src/reporter/notion-updater.ts:41-43 | an ID exists exactly when the title starts with "TC-" and a digit. The ID is a prefix of the title that takes every following digit. |
| Reporter.TitleIdRoundTrip | src/reporter/notion-updater.ts:41-43 | the title "TC-<n><rest>" (rest not starting with a digit) yields "TC-<n>", whose number is n |
| Reporter.IdNumberIgnoresLeadingZeros | src/reporter/notion-updater.ts:92 | "TC-007" and "TC-7" query the same ticket number |
| Reporter.StripAnsi | src/reporter/notion-updater.ts:58 | the ANSI replace never lengthens the message |
| Reporter.StripAnsiPlain | src/reporter/notion-updater.ts:58 | a message without ESC is unchanged |
| Reporter.StripAnsiPlainPrefix | src/reporter/notion-updater.ts:58 | escape-free text before the rest is kept, and the rest is stripped on its own |
| Reporter.StripAnsiSgr | src/reporter/notion-updater.ts:58 | a complete "ESC[…m" sequence is removed |
| Reporter.StripAnsiKeepsBrokenEscape | src/reporter/notion-updater.ts:58 | an escape cut by a line break is not matched, and ESC stays |
| Reporter.FindCallLog | src/reporter/notion-updater.ts:64 | `findIndex`: the first line that contains "Call log:", or none |
| Reporter.CallLogDetailIsNextLine | src/reporter/notion-updater.ts:64-67 | the detail is the trimmed line after the first "Call log:" line, and exists exactly when that line exists and is non-empty (both directions) |
| Reporter.Headline | src/reporter/notion-updater.ts:61-62 | at most 103 characters. A line of at most 100 characters is kept. A longer one becomes its first 100 characters followed by "...". |
| Reporter.FailureNoteLines | src/reporter/notion-updater.ts:58-68 | the note's first line is the headline of the message's first line. The note has two lines exactly when a call-log detail exists. |
| Reporter.NotesFor | src/reporter/notion-updater.ts:46-74 | a pass gives ''. A failure without a string message gives "Error message is not a string.". Otherwise the failure note. |
| Reporter.SpecResult | src/reporter/notion-updater.ts:40-75 | a title without an ID contributes nothing. A titled spec without `tests[0]` or without a result crashes the walk (if and only if); a titled spec with both always gives exactly one record. That record has the ID, status Done exactly when the last result passed, and its notes. |
| Reporter.WalkSpecsRecords | src/reporter/notion-updater.ts:38-78 | a walk of specs that does not crash pushes at most one record per spec, each with an ID of the form TC-<digits> |
| Reporter.WalkSpecsAppend | src/reporter/notion-updater.ts:39 | walking two spec lists is walking their concatenation, and the first crash wins |
| Reporter.WalkIsFlatWalk | src/reporter/notion-updater.ts:36-83 | the recursive walk equals the walk of all specs in pre-order: a suite's own specs, then its nested suites |
| Reporter.CrashStays | src/reporter/notion-updater.ts:44 | once a suite crashes, later suites change nothing |
| Reporter.ResultCollector.constructor | src/reporter/notion-updater.ts:33 | `updates` starts empty |
| Reporter.ResultCollector.BuildNotes | src/reporter/notion-updater.ts:46-74 | the step-by-step notes equal `NotesFor` of the last result |
| Reporter.ResultCollector.BuildFailureNote | src/reporter/notion-updater.ts:56-68 | strip, split, trim, cut and call-log append give the failure note |
| Reporter.ResultCollector.RecordOf | src/reporter/notion-updater.ts:43-75 | the pushed record is the spec's result |
| Reporter.ResultCollector.CollectSpec | src/reporter/notion-updater.ts:39-76 | one spec: it crashes exactly when the spec's contribution is an error, with that error, and then pushes nothing; otherwise it appends exactly that spec's records (none without a ticket ID, one with) |
| Reporter.ResultCollector.CollectSpecs | src/reporter/notion-updater.ts:38-78 | it crashes exactly when the spec walk fails, with that error; the records of the specs before the crashing one stay pushed. Otherwise it appends exactly the walk's records. |
| Reporter.ResultCollector.TraverseSuites | src/reporter/notion-updater.ts:36-83 | the recursive traversal crashes exactly when the walk does, keeping what was pushed before; otherwise it appends exactly the walk's records, in pre-order |
| Reporter.ResultCollector.TraverseReport | src/reporter/notion-updater.ts:85 | the traversal of the report's top-level suites pushes `Walk(suites)`; a crash keeps what was already pushed |
| Reporter.Prefix | src/reporter/notion-updater.ts:141 | `substring(0, n)`: a prefix of at most n characters, the whole string when it is short |
| Reporter.NotesValue | src/reporter/notion-updater.ts:134-151 | the notes are cleared exactly when the record is Done. A failure's notes are one text: the whole note when it has at most 2000 characters, else its first 2000 characters. |
| Reporter.PayloadFor | src/reporter/notion-updater.ts:118-151 | exactly the keys Status, Last Run and Notes, holding the status name, the run time and the notes value, on the found page |
| Reporter.BuildPayload | src/reporter/notion-updater.ts:118-151 | the payload built in two steps equals `PayloadFor` |
| Reporter.Planned | src/reporter/notion-updater.ts:90-163 | at most one update per record; the time of each is read while its record is handled (line 115) |
| Reporter.SyncUpdates | src/reporter/notion-updater.ts:90-163 | the loop sends exactly the planned updates, in record order, reading the clock once per found page |
| Reporter.PlannedComeFromRecords | src/reporter/notion-updater.ts:108-115 | every update sent goes to the first page found for some record's number, and carries that record's values and the time read in that record's pass |
| Reporter.PlannedLength | src/reporter/notion-updater.ts:108-115 | the number of updates sent is the number of records whose query finds a page |
| Reporter.PlannedSendsFound | src/reporter/notion-updater.ts:108-115 | a record whose query finds a page is sent to the first page found, with its own values and time, at the position given by the number of earlier found records |
| Reporter.FoundCountOrders | src/reporter/notion-updater.ts:90-115 | a later found record is sent at a later position, so no two records share an update |
| Reporter.PlannedCount | src/reporter/notion-updater.ts:108-113 | when every query finds a page, every record is sent |
| Pipeline.UniqueIdRoundTrip | src/generator/fetcher.ts:61 | the ID "TC-<n>" built from a unique ID comes back from a test title as the same ID, with number n |
| Pipeline.RenderedNumberedList | src/generator/fetcher.ts:119-126 | the i-th rendered line of a numbered list is "<i+1>. <item>" |
| Pipeline.NumberedListLines | src/generator/fetcher.ts:140 | the page text of a numbered list splits back into its rendered lines |
| Pipeline.NumberedListRoundTrip | src/generator/fetcher.ts:188-197 | parsing a rendered numbered list gives one entry per item, `prefix<k>` ↦ item k, with no numbers left |
| Text.JoinSplit | src/generator/fetcher.ts:189 | joining the split pieces with the separator gives the text back |
| Text.SplitJoin | src/generator/fetcher.ts:140 | splitting a join of separator-free pieces gives the pieces back |
| Text.TrimIdempotent | src/generator/fetcher.ts:189 | trimming twice is trimming once |
| Text.DigitsValueOfNatToString | src/reporter/notion-updater.ts:92 | `parseInt` of the decimal form of n is n |

## Left out

- The Notion API calls (`databases/dataSources.query`, `blocks.children.list`, `pages.update`) are not modelled: the query is a function parameter, the blocks and properties are inputs, and the model returns the payloads to send rather than sending them.
- `JSON.parse` is an arbitrary partial function passed in; JSON numbers are integers only, since floating point is not modelled.
- The four section regular expressions of `parseTestContent` are not modelled: their captures are an input (`SectionCaptures`).
- The language-model translator, `main.ts`, the debug and dump scripts, the page objects and the generated tests are not part of this model.
- The file system (`existsSync`, `mkdirSync`, `writeFileSync`), `process.cwd()` and the ESLint run are left out. Paths are lists of segments below the working directory.
- Writer.JoinPath: models only `path.join` dropping empty segments. Segments holding '/', '.' or '..' are not normalised.
- Console logging is modelled only for the healing warning. Every other `console.*` call is left out.
- Timeouts are not modelled: the page's answer to a request with a timeout is simply Completed or Threw.
- Concurrency (`Promise.all` over tickets, parallel test workers) is left out; every operation is sequential.
- Reporter.Headline: lengths count characters; JavaScript counts UTF-16 code units, so for characters outside the Basic Multilingual Plane the cut can fall at a different place.
- Reporter.Prefix: `substring(0, n)` cuts after n characters in the model and after n UTF-16 code units in JavaScript; the two differ once a character outside the Basic Multilingual Plane comes before the cut.
- Reporter.IdNumber: defined only for IDs the walk produced ("TC-" and digits). Beyond 2^53 `parseInt` loses precision; the model's number is exact.
- Fetcher.GetId: a unique ID whose number is null renders as "null" in the source; the model's unique-ID number is always present. Number properties and formula numbers are integers: a fractional Notion number, which `toString()` renders as for example "1.5", cannot be represented.
- The `catch` that sets "Extracted Error" (notion-updater.ts lines 70-73) is left out: nothing in its `try` block can throw on the values the model admits.
- The per-update `catch` of the sync loop (lines 157-162) is left out. The model states which updates are sent, not how the service answers them.
- A crash of the walk (`tests[0]` or its last result missing) is a `WalkError` result rather than an exception. It ends the run before any update is sent; the records pushed before it stay in `updates`, but nothing is synchronised.
- Writer.Sanitize: the model replaces per Unicode scalar value, while JavaScript's regular expression without the `u` flag works per UTF-16 code unit, so a character outside the Basic Multilingual Plane becomes "__" in the source and "_" in the model. Names in ASCII are unaffected.
- Writer.SanitizeAt: states the per-character result, per Unicode scalar value as for Writer.Sanitize.
- Writer.ReplaceUnsafeAt: the replace works per Unicode scalar value, as for Writer.Sanitize.
- `fetchPageContent`'s own `catch`, which returns '' when the block listing fails, is part of the listing call and is left out.
- The `process.exit` checks for missing credentials and a missing report file are left out.
