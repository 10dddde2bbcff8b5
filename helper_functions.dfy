/**
 * The line-oriented readers of the language model's answer: the list of
 * recommended focus areas, and the reasoning given for each of them.
 *
 * Each reader is a method with a loop over the lines, as in the backend, and
 * is proved equal to a fold over the lines (`ListItems`, `RunReasoning`) about
 * which the lemmas below state order, membership and overwriting.
 */
module Parsers {
  import opened Wrappers
  import opened Text

  const FOCUS_PREFIX := "Focus Area"
  const REASONING_PREFIX := "Reasoning"

  /** The lines of a text, as `text.split('\n')` gives them. */
  function Lines(text: string): (lines: seq<string>)
    ensures |lines| >= 1
    ensures forall k :: 0 <= k < |lines| ==> '\n' !in lines[k]
  {
    Split(text, '\n')
  }

  /** The stripped text after the first colon of a line, when it has one. */
  function AfterColon(line: string): (r: Option<string>)
    ensures r.None? <==> ':' !in line
    ensures r.Some? ==> SplitOnce(line, ':').Some? && r.value == Strip(SplitOnce(line, ':').value.1)
  {
    match SplitOnce(line, ':')
    case None => None
    case Some((_, rest)) => Some(Strip(rest))
  }

  /** The focus area a line names: a `Focus Area` line at column 0 that has a colon. */
  function FocusItem(line: string): Option<string>
  {
    if StartsWith(line, FOCUS_PREFIX) then AfterColon(line) else None
  }

  /** What one line adds to the list: its focus item, or nothing. */
  function LineItems(line: string): seq<string>
  {
    match FocusItem(line)
    case Some(item) => [item]
    case None => []
  }

  /** The items of the list reader for these lines, in line order (defined from the last line). */
  function ListItems(lines: seq<string>): seq<string>
  {
    if lines == [] then []
    else ListItems(lines[..|lines| - 1]) + LineItems(lines[|lines| - 1])
  }

  /** `parse_llm_list_response`: one item per qualifying line of the text, in order. */
  method ParseListResponse(llmResponse: string) returns (items: seq<string>)
    ensures items == ListItems(Lines(llmResponse))
  {
    var lines := Lines(llmResponse);
    items := [];
    for i := 0 to |lines|
      invariant items == ListItems(lines[..i])
    {
      var line := lines[i];
      assert lines[..i + 1][..i] == lines[..i];
      if StartsWith(line, FOCUS_PREFIX) {
        var parts := SplitOnce(line, ':');
        if parts.Some? {
          var item := Strip(parts.value.1);
          items := items + [item];
        }
      }
    }
    assert lines[..|lines|] == lines;
  }

  /** Reading a text in two pieces gives the items of the first piece, then those of the second. */
  lemma {:induction false} ListItemsAppend(a: seq<string>, b: seq<string>)
    ensures ListItems(a + b) == ListItems(a) + ListItems(b)
    decreases |b|
  {
    if b == [] {
      assert a + b == a;
    } else {
      var init := b[..|b| - 1];
      var last := b[|b| - 1];
      assert (a + b)[..|a + b| - 1] == a + init;
      assert (a + b)[|a + b| - 1] == last;
      calc {
        ListItems(a + b);
        ListItems(a + init) + LineItems(last);
        { ListItemsAppend(a, init); }
        (ListItems(a) + ListItems(init)) + LineItems(last);
        ListItems(a) + (ListItems(init) + LineItems(last));
        ListItems(a) + ListItems(b);
      }
    }
  }


  /** An item is listed exactly when some line names it. */
  lemma {:induction false} ListItemsMembers(lines: seq<string>, x: string)
    ensures x in ListItems(lines) <==> exists k :: 0 <= k < |lines| && FocusItem(lines[k]) == Some(x)
  {
    if lines != [] {
      var init := lines[..|lines| - 1];
      var last := lines[|lines| - 1];
      ListItemsMembers(init, x);
      assert ListItems(lines) == ListItems(init) + LineItems(last);
      if x in ListItems(lines) {
        if x in ListItems(init) {
          var k :| 0 <= k < |init| && FocusItem(init[k]) == Some(x);
          assert lines[k] == init[k];
        } else {
          assert FocusItem(lines[|lines| - 1]) == Some(x);
        }
      } else {
        forall k | 0 <= k < |lines| ensures FocusItem(lines[k]) != Some(x) {
          if k < |lines| - 1 {
            assert lines[k] == init[k];
          }
        }
      }
    }
  }

  /** The list is empty exactly when no line names a focus area. */
  lemma {:induction false} ListItemsEmpty(lines: seq<string>)
    ensures ListItems(lines) == [] <==> forall k :: 0 <= k < |lines| ==> FocusItem(lines[k]).None?
  {
    if lines != [] {
      var init := lines[..|lines| - 1];
      ListItemsEmpty(init);
      if ListItems(lines) == [] {
        forall k | 0 <= k < |lines| ensures FocusItem(lines[k]).None? {
          if k < |lines| - 1 {
            assert lines[k] == init[k];
          }
        }
      }
      if forall k :: 0 <= k < |lines| ==> FocusItem(lines[k]).None? {
        assert forall k :: 0 <= k < |init| ==> init[k] == lines[k];
      }
    }
  }

  /**
   * The item is what follows the first colon, stripped: later colons stay in it.
   */
  lemma FocusItemAfterFirstColon(tag: string, rest: string)
    requires ':' !in tag
    ensures FocusItem(FOCUS_PREFIX + tag + ":" + rest) == Some(Strip(rest))
  {
    var head := FOCUS_PREFIX + tag;
    var line := head + ":" + rest;
    assert line[..|FOCUS_PREFIX|] == FOCUS_PREFIX;
    assert ':' !in head;
    IndexOfAfterPrefix(head, ':', rest);
    assert line == head + [':'] + rest;
    assert line[..|head|] == head;
    assert line[|head| + 1..] == rest;
  }

  /** A line that starts with white space, or has no colon, names no focus area. */
  lemma IgnoredFocusLines(line: string)
    ensures line != [] && IsSpace(line[0]) ==> FocusItem(line).None?
    ensures ':' !in line ==> FocusItem(line).None?
  {
    assert StartsWith(line, FOCUS_PREFIX) ==> line[0] == 'F';
  }

  /** The reasoning reader's state: the map built so far and the current focus area. */
  datatype ReasoningState = ReasoningState(reasoning: map<string, string>, cursor: Option<string>)

  const START := ReasoningState(map[], None)

  /** Python's truth test on the cursor: set and not empty. */
  predicate CursorSet(cursor: Option<string>) {
    cursor.Some? && cursor.value != ""
  }

  /** What one line does to the reasoning reader's state. */
  function ReasoningStep(st: ReasoningState, line: string): ReasoningState
  {
    if StartsWith(line, FOCUS_PREFIX) then
      match AfterColon(line)
      case Some(area) => st.(cursor := Some(area))
      case None => st
    else if StartsWith(line, REASONING_PREFIX) then
      match AfterColon(line)
      case Some(text) =>
        if CursorSet(st.cursor) then st.(reasoning := st.reasoning[st.cursor.value := text]) else st
      case None => st
    else st
  }

  /** The state after reading `lines` from `st` (defined from the last line). */
  function RunReasoning(st: ReasoningState, lines: seq<string>): ReasoningState
  {
    if lines == [] then st
    else ReasoningStep(RunReasoning(st, lines[..|lines| - 1]), lines[|lines| - 1])
  }

  /** The map the reasoning reader returns for these lines. */
  function ReasoningOf(lines: seq<string>): map<string, string>
  {
    RunReasoning(START, lines).reasoning
  }

  /** `parse_llm_reasoning_response`: the reasoning recorded under each focus area. */
  method ParseReasoningResponse(llmResponse: string) returns (reasoning: map<string, string>)
    ensures reasoning == ReasoningOf(Lines(llmResponse))
  {
    var lines := Lines(llmResponse);
    reasoning := map[];
    var currentFocusArea: Option<string> := None;
    for i := 0 to |lines|
      invariant ReasoningState(reasoning, currentFocusArea) == RunReasoning(START, lines[..i])
    {
      var line := lines[i];
      assert lines[..i + 1][..i] == lines[..i];
      if StartsWith(line, FOCUS_PREFIX) {
        var parts := SplitOnce(line, ':');
        if parts.Some? {
          currentFocusArea := Some(Strip(parts.value.1));
        }
      } else if StartsWith(line, REASONING_PREFIX) {
        var parts := SplitOnce(line, ':');
        if parts.Some? && currentFocusArea.Some? && currentFocusArea.value != "" {
          reasoning := reasoning[currentFocusArea.value := Strip(parts.value.1)];
        }
      }
    }
    assert lines[..|lines|] == lines;
  }

  /** Reading `a + b` is reading `a`, then reading `b` from where `a` left off. */
  lemma {:induction false} RunReasoningAppend(st: ReasoningState, a: seq<string>, b: seq<string>)
    ensures RunReasoning(st, a + b) == RunReasoning(RunReasoning(st, a), b)
    decreases |b|
  {
    if b == [] {
      assert a + b == a;
    } else {
      var init := b[..|b| - 1];
      RunReasoningAppend(st, a, init);
      assert (a + b)[..|a + b| - 1] == a + init;
      assert (a + b)[|a + b| - 1] == b[|b| - 1];
    }
  }

  /** One line keeps the keys and the cursor among the items listed so far plus its own. */
  lemma StepKeepsListed(st: ReasoningState, line: string, items: seq<string>)
    requires forall key :: key in st.reasoning ==> key in items
    requires st.cursor.Some? ==> st.cursor.value in items
    ensures forall key :: key in ReasoningStep(st, line).reasoning ==> key in items + LineItems(line)
    ensures ReasoningStep(st, line).cursor.Some? ==> ReasoningStep(st, line).cursor.value in items + LineItems(line)
  {
  }

  /**
   * Every key of the reasoning map, and the cursor when it is set, is an item
   * of the list reader on the same lines.
   */
  lemma {:induction false} ReasoningKeysListed(lines: seq<string>)
    ensures forall key :: key in ReasoningOf(lines) ==> key in ListItems(lines)
    ensures RunReasoning(START, lines).cursor.Some? ==> RunReasoning(START, lines).cursor.value in ListItems(lines)
  {
    if lines != [] {
      var init := lines[..|lines| - 1];
      var last := lines[|lines| - 1];
      ReasoningKeysListed(init);
      StepKeepsListed(RunReasoning(START, init), last, ListItems(init));
    }
  }

  /** Reasoning before the first line that names a focus area is dropped. */
  lemma {:induction false} ReasoningBeforeFocusDropped(before: seq<string>, after: seq<string>)
    requires forall k :: 0 <= k < |before| ==> FocusItem(before[k]).None?
    ensures RunReasoning(START, before) == START
    ensures ReasoningOf(before + after) == ReasoningOf(after)
    decreases |before|
  {
    if before != [] {
      var init := before[..|before| - 1];
      ReasoningBeforeFocusDropped(init, after);
      assert FocusItem(before[|before| - 1]).None?;
    }
    RunReasoningAppend(START, before, after);
  }

  /** Lines that do not start with `Focus Area` never move the cursor. */
  lemma {:induction false} CursorStaysWithoutFocusLines(st: ReasoningState, lines: seq<string>)
    requires forall k :: 0 <= k < |lines| ==> !StartsWith(lines[k], FOCUS_PREFIX)
    ensures RunReasoning(st, lines).cursor == st.cursor
  {
    if lines != [] {
      CursorStaysWithoutFocusLines(st, lines[..|lines| - 1]);
      assert !StartsWith(lines[|lines| - 1], FOCUS_PREFIX);
    }
  }

  /** Reading a single line is one step. */
  lemma RunOneLine(st: ReasoningState, line: string)
    ensures RunReasoning(st, [line]) == ReasoningStep(st, line)
  {
    assert [line][..0] == [];
  }

  /**
   * Under a set cursor, a later `Reasoning` line replaces the text of an
   * earlier one, whatever lines that name no focus area come between.
   */
  lemma LaterReasoningOverwrites(st: ReasoningState, between: seq<string>, line: string)
    requires CursorSet(st.cursor)
    requires forall k :: 0 <= k < |between| ==> !StartsWith(between[k], FOCUS_PREFIX)
    requires StartsWith(line, REASONING_PREFIX) && ':' in line
    ensures RunReasoning(st, between).cursor == st.cursor
    ensures var after := RunReasoning(st, between + [line]).reasoning;
      st.cursor.value in after && Some(after[st.cursor.value]) == AfterColon(line)
  {
    CursorStaysWithoutFocusLines(st, between);
    var mid := RunReasoning(st, between);
    assert line[0] == 'R';
    RunReasoningAppend(st, between, [line]);
    RunOneLine(mid, line);
  }

  /**
   * A `Focus Area` line never records reasoning; without a colon it leaves the
   * cursor where it was.
   */
  lemma FocusLineNeverReasoning(st: ReasoningState, line: string)
    requires StartsWith(line, FOCUS_PREFIX)
    ensures ReasoningStep(st, line).reasoning == st.reasoning
    ensures ':' !in line ==> ReasoningStep(st, line) == st
  {
  }

  /** A `Reasoning` line read while the cursor is unset or empty changes nothing. */
  lemma ReasoningNeedsCursor(st: ReasoningState, line: string)
    requires !CursorSet(st.cursor)
    requires !StartsWith(line, FOCUS_PREFIX)
    ensures ReasoningStep(st, line) == st
  {
  }

  /** What follows the first colon of a line, stripped, is made of the line's characters. */
  lemma AfterColonWithin(line: string, c: char)
    requires AfterColon(line).Some? && c in AfterColon(line).value
    ensures c in line
  {
    var parts := SplitOnce(line, ':').value;
    var rest := parts.1;
    StripChars(rest, c);
    assert line == (parts.0 + [':']) + rest;
    InSuffix(parts.0 + [':'], rest, c);
  }

  lemma InSuffix(a: string, b: string, c: char)
    requires c in b
    ensures c in a + b
  {
    var k :| 0 <= k < |b| && b[k] == c;
    assert (a + b)[|a| + k] == c;
  }

  /** A character that no line holds is in no listed item. */
  lemma {:induction false} ListItemsWithin(lines: seq<string>, c: char)
    requires forall k :: 0 <= k < |lines| ==> c !in lines[k]
    ensures forall k :: 0 <= k < |ListItems(lines)| ==> c !in ListItems(lines)[k]
    decreases |lines|
  {
    if lines != [] {
      var init := lines[..|lines| - 1];
      var last := lines[|lines| - 1];
      ListItemsWithin(init, c);
      if FocusItem(last).Some? && c in FocusItem(last).value {
        AfterColonWithin(last, c);
      }
    }
  }

  /** No recorded text holds `c`. */
  predicate FreeOf(reasoning: map<string, string>, c: char) {
    forall key :: key in reasoning ==> c !in reasoning[key]
  }

  /** One line adds no reasoning holding a character that the line does not hold. */
  lemma ReasoningStepWithin(st: ReasoningState, line: string, c: char)
    requires FreeOf(st.reasoning, c) && c !in line
    ensures FreeOf(ReasoningStep(st, line).reasoning, c)
  {
    if AfterColon(line).Some? && c in AfterColon(line).value {
      AfterColonWithin(line, c);
    }
  }

  /** A character that no line holds is in no recorded reasoning. */
  lemma {:induction false} ReasoningWithin(st: ReasoningState, lines: seq<string>, c: char)
    requires FreeOf(st.reasoning, c)
    requires forall k :: 0 <= k < |lines| ==> c !in lines[k]
    ensures FreeOf(RunReasoning(st, lines).reasoning, c)
    decreases |lines|
  {
    if lines != [] {
      var init := lines[..|lines| - 1];
      assert forall k :: 0 <= k < |init| ==> init[k] == lines[k];
      ReasoningWithin(st, init, c);
      ReasoningStepWithin(RunReasoning(st, init), lines[|lines| - 1], c);
    }
  }
}
