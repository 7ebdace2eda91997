/** Properties that span two stages of the pipeline: the ticket ID the
    generator reads from the knowledge base is the one the reporter extracts
    again from a test title, and a numbered list rendered by `fetchPageContent`
    is read back item by item by `parseListToObject`. */
module Pipeline {
  import opened Wrappers
  import opened Text
  import Fetcher
  import Reporter

  /** A ticket whose unique ID has the prefix "TC" gets the ID "TC-<n>"; a
      test titled with that ID followed by anything but a digit is reported
      under the same ID, and the reporter queries the knowledge base for `n`. */
  lemma UniqueIdRoundTrip(n: nat, rest: string)
    requires rest == [] || !IsDigit(rest[0])
    ensures var id := Fetcher.GetId(Some(Fetcher.UniqueIdProp(Some("TC"), n)));
            && id == Reporter.IdPrefix + NatToString(n)
            && Reporter.TestIdOf(id + rest) == Some(id)
            && Reporter.IsTestId(id)
            && Reporter.IdNumber(id) == n
  {
    assert "TC" + "-" == Reporter.IdPrefix;
    Reporter.TitleIdRoundTrip(n, rest);
  }

  /** The blocks of a list whose items read `items`, in order. */
  function NumberedList(items: seq<string>): (blocks: seq<Fetcher.Block>)
    ensures |blocks| == |items|
    ensures forall i :: 0 <= i < |blocks| ==> blocks[i].NumberedItem?
  {
    seq(|items|, i requires 0 <= i < |items| => Fetcher.NumberedItem([Fetcher.RichText(items[i])]))
  }

  /** An item that survives the trip: not blank, no white space at either end,
      and on one line. */
  predicate PlainItem(item: string) {
    item != "" && Trimmed(item) && '\n' !in item
  }

  /** The `i`th line rendered for a numbered list is "<i+1>. <item>". */
  lemma {:induction false} RenderedNumberedList(items: seq<string>, i: nat)
    requires i < |items|
    ensures Fetcher.Rendered(NumberedList(items))[i] == NatToString(i + 1) + ". " + items[i]
  {
    var blocks := NumberedList(items);
    Fetcher.RunIsNumberedFromOne(blocks, 0, |blocks|, i);
  }

  lemma {:induction false} DropEmptyKeepsNonEmpty(lines: seq<string>)
    requires forall i :: 0 <= i < |lines| ==> lines[i] != ""
    ensures DropEmpty(lines) == lines
  {
    if lines != [] {
      DropEmptyKeepsNonEmpty(lines[1..]);
      HeadTail(lines);
    }
  }

  lemma {:induction false} TrimmedNonBlankKeepsTrimmed(lines: seq<string>)
    requires forall i :: 0 <= i < |lines| ==> lines[i] != "" && Trim(lines[i]) == lines[i]
    ensures Fetcher.TrimmedNonBlank(lines) == lines
  {
    if lines != [] {
      TrimmedNonBlankKeepsTrimmed(lines[1..]);
      HeadTail(lines);
    }
  }

  /** The rendered line of an item is non-blank, its own trim, and on one line. */
  lemma ListLineIsPlain(digits: string, item: string)
    requires digits != [] && AllDigits(digits) && PlainItem(item)
    ensures var line := digits + ". " + item;
            line != "" && Trim(line) == line && '\n' !in line
  {
    var line := digits + ". " + item;
    ListLineOneLine(digits, item);
    ListLineTrimmed(digits, item);
    TrimFixed(line);
  }

  lemma ListLineTrimmed(digits: string, item: string)
    requires digits != [] && AllDigits(digits) && item != [] && Trimmed(item)
    ensures Trimmed(digits + ". " + item)
  {
    var line := digits + ". " + item;
    assert line[0] == digits[0];
    assert line[|line| - 1] == item[|item| - 1];
  }

  lemma ListLineOneLine(digits: string, item: string)
    requires AllDigits(digits) && '\n' !in item
    ensures '\n' !in digits + ". " + item
  {
    var line := digits + ". " + item;
    forall k | 0 <= k < |line|
      ensures line[k] != '\n'
    {
      if k < |digits| {
        assert line[k] == digits[k];
      } else if k >= |digits| + 2 {
        assert line[k] == item[k - |digits| - 2];
      }
    }
  }

  /** The page text of a numbered list splits back into its rendered lines. */
  lemma NumberedListLines(items: seq<string>)
    requires |items| >= 1
    requires forall i :: 0 <= i < |items| ==> PlainItem(items[i])
    ensures var lines := Fetcher.Rendered(NumberedList(items));
            && Fetcher.NonBlankLines(Join(DropEmpty(lines), '\n')) == lines
            && forall i :: 0 <= i < |lines| ==> lines[i] == NatToString(i + 1) + ". " + items[i]
  {
    var lines := Fetcher.Rendered(NumberedList(items));
    forall i | 0 <= i < |lines|
      ensures lines[i] == NatToString(i + 1) + ". " + items[i]
      ensures lines[i] != "" && Trim(lines[i]) == lines[i] && '\n' !in lines[i]
    {
      RenderedNumberedList(items, i);
      ListLineIsPlain(NatToString(i + 1), items[i]);
    }
    DropEmptyKeepsNonEmpty(lines);
    SplitJoin(lines, '\n');
    TrimmedNonBlankKeepsTrimmed(lines);
  }

  /** Parsed entries of a text whose non-blank lines are `lines`, when each
      line loses its marker to become the matching item. */
  lemma EntriesOfLines(content: string, lines: seq<string>, items: seq<string>, prefix: string)
    requires Fetcher.NonBlankLines(content) == lines && |lines| == |items|
    requires forall i :: 0 <= i < |lines| ==> Fetcher.StripMarker(lines[i]) == items[i]
    ensures var entries := Fetcher.ListEntries(content, prefix);
            && |entries| == |items|
            && forall k :: 1 <= k <= |items| ==>
                 Fetcher.ListKey(prefix, k) in entries && entries[Fetcher.ListKey(prefix, k)] == items[k - 1]
  {
    Fetcher.ListEntriesShape(content, prefix);
  }

  /** Each rendered line of a numbered list loses its number to give back its item. */
  lemma NumberedLinesStrip(items: seq<string>)
    requires forall i :: 0 <= i < |items| ==> PlainItem(items[i])
    ensures var lines := Fetcher.Rendered(NumberedList(items));
            forall i :: 0 <= i < |lines| ==> Fetcher.StripMarker(lines[i]) == items[i]
  {
    var lines := Fetcher.Rendered(NumberedList(items));
    forall i | 0 <= i < |lines|
      ensures Fetcher.StripMarker(lines[i]) == items[i]
    {
      NumberedLineStrips(items, i, lines[i]);
    }
  }

  lemma NumberedLineStrips(items: seq<string>, i: nat, line: string)
    requires i < |items| && PlainItem(items[i])
    requires line == Fetcher.Rendered(NumberedList(items))[i]
    ensures Fetcher.StripMarker(line) == items[i]
  {
    var item := items[i];
    RenderedNumberedList(items, i);
    assert item == [] || !IsSpace(item[0]);
    Fetcher.StripNumberedMarker(i + 1, item);
  }

  /** Rendering a numbered list and parsing the page text back as a section
      gives one entry per item, keyed `prefix1..prefixN` in order, each
      holding the item's text without the number `fetchPageContent` added. */
  lemma NumberedListRoundTrip(items: seq<string>, prefix: string)
    requires |items| >= 1
    requires forall i :: 0 <= i < |items| ==> PlainItem(items[i])
    ensures var content := Join(DropEmpty(Fetcher.Rendered(NumberedList(items))), '\n');
            var entries := Fetcher.ListEntries(content, prefix);
            && |entries| == |items|
            && forall k :: 1 <= k <= |items| ==>
                 Fetcher.ListKey(prefix, k) in entries && entries[Fetcher.ListKey(prefix, k)] == items[k - 1]
  {
    var lines := Fetcher.Rendered(NumberedList(items));
    NumberedListLines(items);
    NumberedLinesStrip(items);
    EntriesOfLines(Join(DropEmpty(lines), '\n'), lines, items, prefix);
  }
}
