/** The self-healing action wrapper of `src/framework/actions/smart-actions.ts`.

    The browser is abstract: a `Page` answers every driver request with
    either completion or a thrown error, and which one it answers may depend
    on everything the page has been asked before. The wrapper's methods are
    proved against that answer function, for every possible page. */
module SmartActions {
  import opened Wrappers
  import opened Text

  /** One request sent to the browser driver. */
  datatype DriverAction =
    | Click(selector: string, timeoutMs: nat)            // page.click(selector, { timeout })
    | ClickByText(text: string, exact: bool)             // page.getByText(text, { exact }).click()
    | Fill(selector: string, value: string, timeoutMs: nat) // page.fill(selector, value, { timeout })
    | FillByRole(role: string, name: string, value: string) // page.getByRole(role, { name }).fill(value)
    | FillByPlaceholder(text: string, value: string)     // page.getByPlaceholder(text).fill(value)

  /** The error a driver request throws; the wrapper never looks inside it. */
  datatype DriverError = DriverError(message: string)

  /** How a request, or a whole wrapper call, ends. */
  datatype Outcome = Completed | Threw(error: DriverError)

  /** An entry of the test's annotation list (`test.info().annotations`). */
  datatype Annotation = Annotation(kind: string, description: string)

  /** Timeout of the primary attempt, in milliseconds. */
  const PrimaryTimeoutMs: nat := 2000

  const BrokenLocatorWarning := "Broken Locator Warning"

  /** JavaScript truthiness of the optional hint: absent and "" both count as no hint. */
  predicate HasHint(textHint: Option<string>) {
    textHint.Some? && textHint.value != ""
  }

  /** The warning written to the console when the primary selector fails. */
  function HealingWarning(selector: string): string {
    "[HEALING] Selector failed: " + selector + ". Initiating fallback..."
  }

  /** The annotation `smartClick` adds after healing through the text hint. */
  function ClickHealedNote(selector: string, hint: string): Annotation {
    Annotation(BrokenLocatorWarning,
      "Original selector '" + selector + "' failed. Healed using text hint: \"" + hint + "\".")
  }

  /** The annotation `smartFill` adds after healing through the hint. */
  function FillHealedNote(selector: string, hint: string): Annotation {
    Annotation(BrokenLocatorWarning,
      "Original selector '" + selector + "' failed. Healed using hint: \"" + hint + "\".")
  }

  /** `s` occurs in `a + s + b`. */
  lemma OccursInMiddle(a: string, s: string, b: string)
    ensures Contains(a + s + b, s)
  {
    assert OccursAt(a + s + b, s, |a|);
  }

  /** The click annotation names both the failed selector and the hint that healed it. */
  lemma ClickNoteNamesSelectorAndHint(selector: string, hint: string)
    ensures ClickHealedNote(selector, hint).kind == BrokenLocatorWarning
    ensures Contains(ClickHealedNote(selector, hint).description, selector)
    ensures Contains(ClickHealedNote(selector, hint).description, hint)
  {
    var pre := "Original selector '";
    var mid := "' failed. Healed using text hint: \"";
    var post := "\".";
    assert ClickHealedNote(selector, hint).description == pre + selector + (mid + hint + post);
    OccursInMiddle(pre, selector, mid + hint + post);
    assert ClickHealedNote(selector, hint).description == (pre + selector + mid) + hint + post;
    OccursInMiddle(pre + selector + mid, hint, post);
  }

  /** The fill annotation names both the failed selector and the hint that healed it. */
  lemma FillNoteNamesSelectorAndHint(selector: string, hint: string)
    ensures FillHealedNote(selector, hint).kind == BrokenLocatorWarning
    ensures Contains(FillHealedNote(selector, hint).description, selector)
    ensures Contains(FillHealedNote(selector, hint).description, hint)
  {
    var pre := "Original selector '";
    var mid := "' failed. Healed using hint: \"";
    var post := "\".";
    assert FillHealedNote(selector, hint).description == pre + selector + (mid + hint + post);
    OccursInMiddle(pre, selector, mid + hint + post);
    assert FillHealedNote(selector, hint).description == (pre + selector + mid) + hint + post;
    OccursInMiddle(pre + selector + mid, hint, post);
  }

  /** The live page behind the driver. */
  class Page {
    /** The page's answer to a request, given the requests it has already received. */
    const respond: (seq<DriverAction>, DriverAction) -> Outcome
    /** Every request sent to this page so far, in order. */
    var performed: seq<DriverAction>

    constructor (respond: (seq<DriverAction>, DriverAction) -> Outcome)
      ensures this.respond == respond && performed == []
    {
      this.respond := respond;
      performed := [];
    }

    /** Sends one request and awaits its outcome. */
    method Perform(action: DriverAction) returns (o: Outcome)
      modifies this
      ensures performed == old(performed) + [action]
      ensures o == respond(old(performed), action)
    {
      o := respond(performed, action);
      performed := performed + [action];
    }
  }

  /** The running test's execution record (`test.info()`). */
  class TestInfo {
    var annotations: seq<Annotation>

    constructor ()
      ensures annotations == []
    {
      annotations := [];
    }

    method Annotate(a: Annotation)
      modifies this
      ensures annotations == old(annotations) + [a]
    {
      annotations := annotations + [a];
    }
  }

  /** The console's warning stream (`console.warn`). */
  class Console {
    var warnings: seq<string>

    constructor ()
      ensures warnings == []
    {
      warnings := [];
    }

    method Warn(message: string)
      modifies this
      ensures warnings == old(warnings) + [message]
    {
      warnings := warnings + [message];
    }
  }

  class SmartActions {
    const page: Page

    constructor (page: Page)
      ensures this.page == page
    {
      this.page := page;
    }

    /** `smartClick(selector, textHint?)`: a native click; if it throws, either
        rethrow (no hint) or click the first element whose text loosely matches
        the hint and record one annotation once that click has completed. */
    method SmartClick(selector: string, textHint: Option<string>, info: TestInfo, console: Console)
      returns (o: Outcome)
      modifies page, info, console
      ensures var h := old(page.performed);
              var primary := page.respond(h, Click(selector, PrimaryTimeoutMs));
              // the primary click works: nothing else is tried, logged or recorded
              && (primary.Completed? ==>
                    && o == Completed
                    && page.performed == h + [Click(selector, PrimaryTimeoutMs)]
                    && info.annotations == old(info.annotations)
                    && console.warnings == old(console.warnings))
              // it fails: one warning, whatever happens next
              && (primary.Threw? ==>
                    console.warnings == old(console.warnings) + [HealingWarning(selector)])
              // it fails and there is no hint: the original error, unchanged
              && (primary.Threw? && !HasHint(textHint) ==>
                    && o == primary
                    && page.performed == h + [Click(selector, PrimaryTimeoutMs)]
                    && info.annotations == old(info.annotations))
              // it fails and there is a hint: one loose text click, whose outcome is the result
              && (primary.Threw? && HasHint(textHint) ==>
                    var fallback := ClickByText(textHint.value, false);
                    var healed := page.respond(h + [Click(selector, PrimaryTimeoutMs)], fallback);
                    && o == healed
                    && page.performed == h + [Click(selector, PrimaryTimeoutMs), fallback]
                    && info.annotations == old(info.annotations) +
                         (if healed.Completed? then [ClickHealedNote(selector, textHint.value)] else []))
      // exactly one annotation is added when, and only when, a fallback healed the click
      ensures info.annotations == old(info.annotations) ||
              (HasHint(textHint) && o.Completed? &&
               info.annotations == old(info.annotations) + [ClickHealedNote(selector, textHint.value)])
      ensures |info.annotations| == |old(info.annotations)| + 1 <==>
              (page.respond(old(page.performed), Click(selector, PrimaryTimeoutMs)).Threw? && o.Completed?)
      // at most two driver requests
      ensures |old(page.performed)| < |page.performed| <= |old(page.performed)| + 2
    {
      var primary := page.Perform(Click(selector, PrimaryTimeoutMs));
      if primary.Completed? {
        return Completed;
      }
      console.Warn(HealingWarning(selector));
      if HasHint(textHint) {
        o := page.Perform(ClickByText(textHint.value, false));
        if o.Completed? {
          info.Annotate(ClickHealedNote(selector, textHint.value));
        }
      } else {
        o := primary;
      }
    }

    /** `smartFill(selector, value, textHint?)`: a native fill; if it throws,
        either rethrow (no hint) or fill the textbox whose accessible name is
        the hint, and only if that throws the field whose placeholder is the
        hint; one annotation once either has completed. */
    method SmartFill(selector: string, value: string, textHint: Option<string>, info: TestInfo, console: Console)
      returns (o: Outcome)
      modifies page, info, console
      ensures var h := old(page.performed);
              var primary := page.respond(h, Fill(selector, value, PrimaryTimeoutMs));
              && (primary.Completed? ==>
                    && o == Completed
                    && page.performed == h + [Fill(selector, value, PrimaryTimeoutMs)]
                    && info.annotations == old(info.annotations)
                    && console.warnings == old(console.warnings))
              && (primary.Threw? ==>
                    console.warnings == old(console.warnings) + [HealingWarning(selector)])
              && (primary.Threw? && !HasHint(textHint) ==>
                    && o == primary
                    && page.performed == h + [Fill(selector, value, PrimaryTimeoutMs)]
                    && info.annotations == old(info.annotations))
              && (primary.Threw? && HasHint(textHint) ==>
                    var h1 := h + [Fill(selector, value, PrimaryTimeoutMs)];
                    var byRole := FillByRole("textbox", textHint.value, value);
                    var roleOutcome := page.respond(h1, byRole);
                    // the role-based fill works: the placeholder is never tried
                    && (roleOutcome.Completed? ==>
                          && o == Completed
                          && page.performed == h1 + [byRole]
                          && info.annotations == old(info.annotations) + [FillHealedNote(selector, textHint.value)])
                    // it fails: the placeholder fill decides, and its error is the one thrown
                    && (roleOutcome.Threw? ==>
                          var byPlaceholder := FillByPlaceholder(textHint.value, value);
                          var last := page.respond(h1 + [byRole], byPlaceholder);
                          && o == last
                          && page.performed == h1 + [byRole, byPlaceholder]
                          && info.annotations == old(info.annotations) +
                               (if last.Completed? then [FillHealedNote(selector, textHint.value)] else [])))
      ensures info.annotations == old(info.annotations) ||
              (HasHint(textHint) && o.Completed? &&
               info.annotations == old(info.annotations) + [FillHealedNote(selector, textHint.value)])
      ensures |info.annotations| == |old(info.annotations)| + 1 <==>
              (page.respond(old(page.performed), Fill(selector, value, PrimaryTimeoutMs)).Threw? && o.Completed?)
      // at most three driver requests
      ensures |old(page.performed)| < |page.performed| <= |old(page.performed)| + 3
    {
      var primary := page.Perform(Fill(selector, value, PrimaryTimeoutMs));
      if primary.Completed? {
        return Completed;
      }
      console.Warn(HealingWarning(selector));
      if HasHint(textHint) {
        o := page.Perform(FillByRole("textbox", textHint.value, value));
        if o.Threw? {
          o := page.Perform(FillByPlaceholder(textHint.value, value));
        }
        if o.Completed? {
          info.Annotate(FillHealedNote(selector, textHint.value));
        }
      } else {
        o := primary;
      }
    }
  }
}
