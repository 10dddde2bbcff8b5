/**
 * The answer format the focus prompt asks the language model for: per area, a
 * line `Focus Area <n>: <area>` and then a line `Reasoning: <why>`. The lemmas
 * here read such an answer back with both readers of the parsers module.
 */
module AnswerFormat {
  import opened Wrappers
  import opened Text
  import opened Parsers

  /** The text after the first colon, when what comes before it has none. */
  lemma AfterColonOf(before: string, rest: string)
    requires ':' !in before
    ensures AfterColon(before + ":" + rest) == Some(Strip(rest))
  {
    IndexOfAfterPrefix(before, ':', rest);
    var line := before + ":" + rest;
    assert line[..|before|] == before;
    assert line[|before| + 1..] == rest;
  }

  /** Text that `strip` leaves alone: empty, or no white space at either end. */
  predicate Stripped(s: string) {
    s == [] || (!IsSpace(s[0]) && !IsSpace(s[|s| - 1]))
  }

  /** One space after the colon, as the model is asked to write, is what `strip` removes. */
  lemma StripAfterSpace(s: string)
    requires Stripped(s)
    ensures Strip(" " + s) == s
  {
    var t := " " + s;
    assert IsSpace(t[0]);
    assert s != [] ==> t[1] == s[0];
    var i := SkipSpace(t, 0);
    assert i == 1;
    var j := SkipSpaceBack(t, 1, |t|);
    assert j == |t|;
    assert t[1..|t|] == s;
  }

  /** The line naming a focus area, as the prompt's output format asks for it. */
  function FocusLine(tag: string, area: string): string {
    FOCUS_PREFIX + tag + ": " + area
  }

  /** The line giving the reasoning for the area named just before it. */
  function ReasonLine(reason: string): string {
    REASONING_PREFIX + ": " + reason
  }

  /** A well-formed answer: a focus line and a reasoning line per area (defined from the last area). */
  function AnswerLines(tags: seq<string>, areas: seq<string>, reasons: seq<string>): seq<string>
    requires |tags| == |areas| == |reasons|
  {
    if areas == [] then []
    else
      var n := |areas| - 1;
      AnswerLines(tags[..n], areas[..n], reasons[..n]) + [FocusLine(tags[n], areas[n]), ReasonLine(reasons[n])]
  }

  /** Each area paired with its reasoning; a repeated area keeps its last reasoning. */
  function Pairs(areas: seq<string>, reasons: seq<string>): (m: map<string, string>)
    requires |areas| == |reasons|
    ensures m.Keys == set k | 0 <= k < |areas| :: areas[k]
  {
    if areas == [] then map[]
    else
      var n := |areas| - 1;
      var m := Pairs(areas[..n], reasons[..n])[areas[n] := reasons[n]];
      assert forall k :: 0 <= k < n ==> areas[..n][k] == areas[k];
      m
  }

  /** The conditions under which an answer's pieces come back unchanged. */
  predicate WellFormedPieces(tags: seq<string>, areas: seq<string>, reasons: seq<string>) {
    && |tags| == |areas| == |reasons|
    && (forall k :: 0 <= k < |tags| ==> ':' !in tags[k] && '\n' !in tags[k])
    && (forall k :: 0 <= k < |areas| ==> areas[k] != "" && Stripped(areas[k]) && '\n' !in areas[k])
    && (forall k :: 0 <= k < |reasons| ==> Stripped(reasons[k]) && '\n' !in reasons[k])
  }

  /** A line `head: value` whose head has no colon reads back as the value. */
  lemma HeadedLine(head: string, value: string)
    requires ':' !in head && Stripped(value)
    ensures StartsWith(head + ": " + value, head)
    ensures AfterColon(head + ": " + value) == Some(value)
  {
    ColonSpace(head, value);
    AfterColonOf(head, " " + value);
    StripAfterSpace(value);
    PrefixOfConcat(head, ": " + value);
  }

  lemma ColonSpace(head: string, value: string)
    ensures head + ": " + value == head + ":" + (" " + value)
  {
  }

  lemma PrefixOfConcat(a: string, b: string)
    ensures StartsWith(a + b, a)
  {
    assert (a + b)[..|a|] == a;
  }

  lemma NoColonInPrefixes()
    ensures ':' !in FOCUS_PREFIX && ':' !in REASONING_PREFIX
    ensures REASONING_PREFIX[0] != FOCUS_PREFIX[0]
  {
  }

  lemma FocusLineRead(tag: string, area: string)
    requires ':' !in tag && Stripped(area)
    ensures StartsWith(FocusLine(tag, area), FOCUS_PREFIX)
    ensures AfterColon(FocusLine(tag, area)) == Some(area)
    ensures FocusItem(FocusLine(tag, area)) == Some(area)
  {
    NoColonInPrefixes();
    HeadedLine(FOCUS_PREFIX + tag, area);
    var line := FocusLine(tag, area);
    assert line[..|FOCUS_PREFIX|] == (FOCUS_PREFIX + tag)[..|FOCUS_PREFIX|] == FOCUS_PREFIX;
  }

  lemma ReasonLineRead(reason: string)
    requires Stripped(reason)
    ensures !StartsWith(ReasonLine(reason), FOCUS_PREFIX)
    ensures StartsWith(ReasonLine(reason), REASONING_PREFIX)
    ensures AfterColon(ReasonLine(reason)) == Some(reason)
    ensures FocusItem(ReasonLine(reason)) == None
  {
    NoColonInPrefixes();
    HeadedLine(REASONING_PREFIX, reason);
    var line := ReasonLine(reason);
    assert line[0] == REASONING_PREFIX[0];
  }

  lemma {:induction false} AnswerLinesHaveNoBreaks(tags: seq<string>, areas: seq<string>, reasons: seq<string>)
    requires WellFormedPieces(tags, areas, reasons)
    ensures |AnswerLines(tags, areas, reasons)| == 2 * |areas|
    ensures forall k :: 0 <= k < |AnswerLines(tags, areas, reasons)| ==> '\n' !in AnswerLines(tags, areas, reasons)[k]
  {
    if areas != [] {
      var n := |areas| - 1;
      AnswerLinesHaveNoBreaks(tags[..n], areas[..n], reasons[..n]);
      assert '\n' !in FocusLine(tags[n], areas[n]);
      assert '\n' !in ReasonLine(reasons[n]);
    }
  }

  lemma WellFormedPrefix(tags: seq<string>, areas: seq<string>, reasons: seq<string>, n: nat)
    requires WellFormedPieces(tags, areas, reasons) && n <= |areas|
    ensures WellFormedPieces(tags[..n], areas[..n], reasons[..n])
  {
  }
}

/**
 * Both readers of the parsers module applied to a well-formed answer, line
 * pair by line pair.
 */
module AnswerReading {
  import opened Wrappers
  import opened Text
  import opened Parsers
  import opened AnswerFormat

  lemma ListItemsOfOne(f: string)
    ensures ListItems([f]) == LineItems(f)
  {
    assert [f][..0] == [];
  }

  /** A focus line and a line that is not one add exactly the focus line's area to the list. */
  lemma ListItemsPairStep(prev: seq<string>, f: string, r: string, x: string)
    requires FocusItem(f) == Some(x) && FocusItem(r) == None
    ensures ListItems(prev + [f, r]) == ListItems(prev) + [x]
  {
    ListItemsOfPair(f, r, x);
    ListItemsAfter(prev, [f, r], [x]);
  }

  lemma {:induction false} ListItemsOfPair(f: string, r: string, x: string)
    requires FocusItem(f) == Some(x) && FocusItem(r) == None
    ensures ListItems([f, r]) == [x]
  {
    assert [f, r][..1] == [f];
    assert ListItems([f, r]) == ListItems([f]) + LineItems(r);
    ListItemsOfOne(f);
  }

  lemma ListItemsAfter(prev: seq<string>, p: seq<string>, items: seq<string>)
    requires ListItems(p) == items
    ensures ListItems(prev + p) == ListItems(prev) + items
  {
    ListItemsAppend(prev, p);
  }

  /** Two lines are read one after the other. */
  lemma RunTwo(st: ReasoningState, f: string, r: string)
    ensures RunReasoning(st, [f, r]) == ReasoningStep(ReasoningStep(st, f), r)
  {
    RunOneLine(st, f);
    RunLastLine(st, f, r);
  }

  lemma RunLastLine(st: ReasoningState, f: string, r: string)
    ensures RunReasoning(st, [f, r]) == ReasoningStep(RunReasoning(st, [f]), r)
  {
    assert [f, r][..1] == [f];
  }

  lemma FocusLineItem(tag: string, area: string)
    requires ':' !in tag && Stripped(area)
    ensures FocusItem(FocusLine(tag, area)) == Some(area)
  {
    FocusLineRead(tag, area);
  }

  lemma ReasonLineItem(reason: string)
    requires Stripped(reason)
    ensures FocusItem(ReasonLine(reason)) == None
  {
    ReasonLineRead(reason);
  }

  lemma FocusLineStep(st: ReasoningState, tag: string, area: string)
    requires ':' !in tag && Stripped(area)
    ensures ReasoningStep(st, FocusLine(tag, area)) == st.(cursor := Some(area))
  {
    FocusLineRead(tag, area);
  }

  lemma ReasonLineStep(st: ReasoningState, reason: string)
    requires Stripped(reason) && CursorSet(st.cursor)
    ensures ReasoningStep(st, ReasonLine(reason)) == st.(reasoning := st.reasoning[st.cursor.value := reason])
  {
    ReasonLineRead(reason);
  }

  lemma ListItemsAnswerStep(prev: seq<string>, tag: string, area: string, reason: string)
    requires ':' !in tag && Stripped(area) && Stripped(reason)
    ensures ListItems(prev + [FocusLine(tag, area), ReasonLine(reason)]) == ListItems(prev) + [area]
  {
    FocusLineItem(tag, area);
    ReasonLineItem(reason);
    ListItemsPairStep(prev, FocusLine(tag, area), ReasonLine(reason), area);
  }

  lemma LastSplit(s: seq<string>)
    requires s != []
    ensures s[..|s| - 1] + [s[|s| - 1]] == s
  {
  }

  /** The list reader on a well-formed answer gives the areas, in order. */
  lemma {:induction false} ReadAnswerList(tags: seq<string>, areas: seq<string>, reasons: seq<string>)
    requires WellFormedPieces(tags, areas, reasons)
    ensures ListItems(AnswerLines(tags, areas, reasons)) == areas
  {
    if areas != [] {
      var n := |areas| - 1;
      var prev := AnswerLines(tags[..n], areas[..n], reasons[..n]);
      var f, r := FocusLine(tags[n], areas[n]), ReasonLine(reasons[n]);
      WellFormedPrefix(tags, areas, reasons, n);
      ReadAnswerList(tags[..n], areas[..n], reasons[..n]);
      ListItemsAnswerStep(prev, tags[n], areas[n], reasons[n]);
      LastSplit(areas);
    }
  }

  /** The reasoning reader on a well-formed answer pairs each area with its reasoning. */
  lemma {:induction false} ReadAnswerReasoning(tags: seq<string>, areas: seq<string>, reasons: seq<string>)
    requires WellFormedPieces(tags, areas, reasons)
    ensures RunReasoning(START, AnswerLines(tags, areas, reasons))
         == ReasoningState(Pairs(areas, reasons), if areas == [] then None else Some(areas[|areas| - 1]))
  {
    if areas != [] {
      var n := |areas| - 1;
      var prev := AnswerLines(tags[..n], areas[..n], reasons[..n]);
      var f, r := FocusLine(tags[n], areas[n]), ReasonLine(reasons[n]);
      WellFormedPrefix(tags, areas, reasons, n);
      ReadAnswerReasoning(tags[..n], areas[..n], reasons[..n]);
      var st := RunReasoning(START, prev);
      FocusLineStep(st, tags[n], areas[n]);
      ReasonLineStep(st.(cursor := Some(areas[n])), reasons[n]);
      RunReasoningAppend(START, prev, [f, r]);
      RunTwo(st, f, r);
    }
  }

  /**
   * The answer format the focus prompt asks for, read back by both readers:
   * the list reader returns the areas in order, and the reasoning reader maps
   * each area to the reasoning written under it.
   */
  lemma ParseWellFormedAnswer(tags: seq<string>, areas: seq<string>, reasons: seq<string>)
    requires WellFormedPieces(tags, areas, reasons)
    ensures var text := Join(AnswerLines(tags, areas, reasons), "\n");
      && ListItems(Lines(text)) == areas
      && ReasoningOf(Lines(text)) == Pairs(areas, reasons)
  {
    var lines := AnswerLines(tags, areas, reasons);
    AnswerLinesHaveNoBreaks(tags, areas, reasons);
    ReadAnswerList(tags, areas, reasons);
    ReadAnswerReasoning(tags, areas, reasons);
    if lines == [] {
      assert Join(lines, "\n") == "";
      assert Lines("") == [""];
      assert ListItems([""]) == ListItems([]) + LineItems("");
    } else {
      SplitJoin(lines, '\n');
    }
  }
}
