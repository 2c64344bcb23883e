/**
 * pkg/utils/terminal.go without the animation: how `Spin` turns a step's
 * result into the value the caller sees, which stop line it draws, and the
 * text of the two kinds of full-width lines (`GetFullLine`, `PrintSeparator`). The terminal width is a
 * parameter; a call of `strings.Repeat` with a negative count, which panics,
 * is a None result.
 */
module Terminal {
  import opened Errors

  /** How creating and starting the spinner went (`yacspin.New`, then `Start`). */
  datatype SpinnerStatus = Started | NewFailed | StartFailed

  /**
   * `Spin`: the callback has run once and returned `callbackResult`. With a
   * working spinner a SkippedError anywhere in the chain becomes success and
   * any other error comes back unchanged; without one, the raw result is
   * returned, skip or not.
   */
  function Spin(spinner: SpinnerStatus, callbackResult: Option<Error>): (r: Option<Error>)
    ensures spinner == Started ==> (r.None? <==> (callbackResult.None? || callbackResult.value.IsSkipped()))
    ensures spinner != Started ==> r == callbackResult
    ensures r.Some? ==> r == callbackResult
  {
    if spinner != Started then callbackResult
    else if callbackResult.Some? && callbackResult.value.IsSkipped() then None
    else callbackResult
  }

  /** The three ways a started spinner stops: DONE, SKIP with its message, FAIL with the error. */
  datatype Outcome = Success | Skip(reason: string) | Fail(error: Error)

  /** Which stop branch `Spin` takes for a result (terminal.go, lines 50-62). */
  function StopOutcome(callbackResult: Option<Error>): (o: Outcome)
    ensures o.Success? <==> callbackResult.None?
  {
    match callbackResult
    case None => Success
    case Some(e) => if e.IsSkipped() then Skip(e.Message()) else Fail(e)
  }

  /**
   * What a started spinner shows right of the label when it stops: "DONE ",
   * or the error's text (`%v`) followed by " - SKIP " or " - FAIL ".
   */
  function StopText(o: Outcome): string
  {
    match o
    case Success => "DONE "
    case Skip(reason) => reason + " - SKIP "
    case Fail(e) => e.Message() + " - FAIL "
  }

  /**
   * Whether drawing the stop line, `GetFullLine(label, <stop text>, '─', 1)`,
   * panics: its repeat count is -1 (`StopLinePanicsAgrees`). Only a started
   * spinner draws it (the deploy table sets neither SuccessLabel nor
   * ErrorLabel, so the left text is always the label).
   */
  predicate StopLinePanics(caption: string, spinner: SpinnerStatus, callbackResult: Option<Error>, terminalWidth: int)
  {
    spinner == Started && |caption| + StopWidth(callbackResult) + 2 == terminalWidth
  }

  /** The length of the stop text for a result. */
  function StopWidth(callbackResult: Option<Error>): nat
  {
    match callbackResult
    case None => 5
    case Some(e) => e.MessageLength() + 8
  }

  lemma StopWidthIsLength(callbackResult: Option<Error>)
    ensures StopWidth(callbackResult) == |StopText(StopOutcome(callbackResult))|
  {
    if callbackResult.Some? {
      callbackResult.value.MessageLengthIsLength();
    }
  }

  /**
   * `StopLinePanics` is exactly a started spinner's `GetFullLine` call
   * returning None; the DONE line panics when the label is 7 columns short.
   */
  lemma StopLinePanicsAgrees(caption: string, spinner: SpinnerStatus, callbackResult: Option<Error>, terminalWidth: int)
    ensures StopLinePanics(caption, spinner, callbackResult, terminalWidth)
            <==> spinner == Started && GetFullLine(caption, StopText(StopOutcome(callbackResult)), '─', 1, terminalWidth).None?
    ensures callbackResult.None? ==>
              (StopLinePanics(caption, spinner, callbackResult, terminalWidth) <==> spinner == Started && |caption| + 7 == terminalWidth)
  {
    StopWidthIsLength(callbackResult);
  }

  /**
   * With a working spinner, the caller sees an error exactly when the FAIL
   * line is shown, and then it is the error shown; SKIP and DONE both read as nil.
   */
  lemma SpinFollowsStopOutcome(callbackResult: Option<Error>)
    ensures Spin(Started, callbackResult).None? <==> !StopOutcome(callbackResult).Fail?
    ensures Spin(Started, callbackResult).Some? ==> StopOutcome(callbackResult) == Fail(Spin(Started, callbackResult).value)
    ensures StopOutcome(callbackResult).Skip? ==> StopOutcome(callbackResult).reason == callbackResult.value.Message()
  {
  }

  /** On the fallback path a skip is not turned into success: the caller sees the SkippedError. */
  lemma SpinFallbackKeepsSkip(spinner: SpinnerStatus, msg: string)
    requires spinner != Started
    ensures Spin(spinner, Some(Skipped(msg))) == Some(Skipped(msg))
    ensures Spin(Started, Some(Skipped(msg))) == None
  {
  }

  /** `strings.Repeat(string(c), n)` for n >= 0. */
  function Repeat(c: char, n: nat): (r: string)
    ensures |r| == n && forall k :: 0 <= k < n ==> r[k] == c
  {
    seq(n, _ => c)
  }

  /**
   * `GetFullLine(leftText, rightText, separator, offset)` on a terminal
   * `terminalWidth` columns wide: left and right text joined by a run of
   * separators, so that the line fills `terminalWidth - offset` columns.
   * Lengths are rune counts (`utf8.RuneCountInString`), one per char. When
   * the texts are exactly one column short of the width the repeat count is
   * -1 and the call panics (None).
   */
  function GetFullLine(leftText: string, rightText: string, separator: char, offset: int, terminalWidth: int)
    : (r: Option<string>)
    ensures var strLen, width := |leftText| + |rightText|, terminalWidth - offset;
            r.None? <==> strLen == width - 1
    ensures var strLen, width := |leftText| + |rightText|, terminalWidth - offset;
            r.Some? && strLen < width ==> FillsWidth(r.value, leftText, rightText, separator, width)
    ensures var strLen, width := |leftText| + |rightText|, terminalWidth - offset;
            strLen >= width ==> r == Some(leftText + " " + rightText)
  {
    var strLen := |leftText| + |rightText|;
    var width := terminalWidth - offset;
    if strLen < width then
      if width - strLen - 2 < 0 then None
      else Some(leftText + (" " + Repeat(separator, width - strLen - 2) + " ") + rightText)
    else Some(leftText + " " + rightText)
  }

  /**
   * line is exactly `width` runes: `left`, a space, separators only, a space,
   * then `right`.
   */
  ghost predicate FillsWidth(line: string, left: string, right: string, separator: char, width: int)
  {
    && |line| == width
    && |left| + |right| + 2 <= width
    && line[..|left|] == left
    && line[width - |right|..] == right
    && line[|left|] == ' '
    && line[width - |right| - 1] == ' '
    && forall k :: |left| < k < width - |right| - 1 ==> line[k] == separator
  }

  /**
   * `GetFullLine` as evidently intended: a line one column short gets a
   * single space and no separators instead of a panic, so every text
   * shorter than the width fills it exactly.
   */
  function GetFullLineFixed(leftText: string, rightText: string, separator: char, offset: int, terminalWidth: int)
    : (r: string)
    ensures var strLen, width := |leftText| + |rightText|, terminalWidth - offset;
            strLen < width ==> |r| == width && r[..|leftText|] == leftText && r[|r| - |rightText|..] == rightText
    ensures var strLen, width := |leftText| + |rightText|, terminalWidth - offset;
            strLen >= width - 1 ==> r == leftText + " " + rightText
  {
    var strLen := |leftText| + |rightText|;
    var width := terminalWidth - offset;
    if strLen < width - 1 then leftText + (" " + Repeat(separator, width - strLen - 2) + " ") + rightText
    else leftText + " " + rightText
  }

  /** The fix changes nothing where the original does not panic. */
  lemma GetFullLineFixedAgrees(leftText: string, rightText: string, separator: char, offset: int, terminalWidth: int)
    requires GetFullLine(leftText, rightText, separator, offset, terminalWidth).Some?
    ensures GetFullLine(leftText, rightText, separator, offset, terminalWidth)
            == Some(GetFullLineFixed(leftText, rightText, separator, offset, terminalWidth))
  {
  }

  /**
   * The spinner's first line in `Spin` is `GetFullLine(label, "", '─', 1)`:
   * on an 80-column terminal a 78-rune label makes it panic.
   */
  lemma SpinnerPrefixPanicsOnLongLabel(caption: string)
    requires |caption| == 78
    ensures GetFullLine(caption, "", '─', 1, 80).None?
    ensures |GetFullLineFixed(caption, "", '─', 1, 80)| == 79
  {
  }

  /** How many bytes UTF-8 uses for a char (Dafny chars are Unicode scalar values). */
  function Utf8Width(c: char): (n: nat)
    ensures 1 <= n <= 4 && (n == 1 <==> c as int < 0x80)
  {
    if c as int < 0x80 then 1 else if c as int < 0x800 then 2 else if c as int < 0x10000 then 3 else 4
  }

  /** `len(s)` of a Go string: its length in bytes. */
  function Utf8Length(s: string): nat
    decreases |s|
  {
    if s == [] then 0 else Utf8Width(s[0]) + Utf8Length(s[1..])
  }

  lemma {:induction false} Utf8LengthConcat(a: string, b: string)
    ensures Utf8Length(a + b) == Utf8Length(a) + Utf8Length(b)
    decreases |a|
  {
    if a != [] {
      assert (a + b)[1..] == a[1..] + b;
      Utf8LengthConcat(a[1..], b);
    } else {
      assert a + b == b;
    }
  }

  /** Byte length and rune count agree exactly on ASCII text. */
  lemma {:induction false} Utf8LengthAscii(s: string)
    ensures Utf8Length(s) >= |s|
    ensures Utf8Length(s) == |s| <==> forall k :: 0 <= k < |s| ==> s[k] as int < 0x80
    decreases |s|
  {
    if s != [] {
      Utf8LengthAscii(s[1..]);
      assert forall k :: 1 <= k < |s| ==> s[k] == s[1..][k - 1];
      if Utf8Length(s) == |s| {
        assert forall k :: 0 <= k < |s| - 1 ==> s[1..][k] as int < 0x80;
      }
    }
  }

  /**
   * The text `PrintSeparator(caption, separator)` prints on a terminal `width`
   * columns wide, without its newline. No caption: `width` separators. A
   * caption: ` caption ` centred between runs of separators, the right run
   * taking the odd column. The padding is computed from the caption's length
   * in BYTES (`len`), not in runes.
   */
  function SeparatorLine(caption: string, separator: char, width: int): (r: Option<string>)
    ensures caption == [] ==> (r.Some? <==> width >= 0)
    ensures caption == [] && r.Some? ==> r.value == Repeat(separator, width)
    ensures caption != [] ==> (r.Some? <==> Utf8Length(caption) + 2 <= width)
    ensures caption != [] && r.Some? ==>
              exists left: nat, right: nat ::
                && left + Utf8Length(caption) + 2 + right == width
                && 0 <= right - left <= 1
                && r.value == Repeat(separator, left) + " " + caption + " " + Repeat(separator, right)
  {
    if caption == [] then
      if width >= 0 then Some(Repeat(separator, width)) else None
    else
      var padded := " " + caption + " ";
      Utf8LengthConcat(" " + caption, " ");
      Utf8LengthConcat(" ", caption);
      var labelLength := Utf8Length(padded);
      // Here a negative width - labelLength always makes one of the two counts negative.
      if width < labelLength then None
      else
        var leftPadding := (width - labelLength) / 2;
        var rightPadding := width - leftPadding - labelLength;
        Some(Repeat(separator, leftPadding) + padded + Repeat(separator, rightPadding))
  }

  /** With an ASCII caption the separator line is exactly as wide as the terminal. */
  lemma SeparatorLineFillsWidth(caption: string, separator: char, width: int)
    requires forall k :: 0 <= k < |caption| ==> caption[k] as int < 0x80
    requires SeparatorLine(caption, separator, width).Some?
    ensures |SeparatorLine(caption, separator, width).value| == width
  {
    Utf8LengthAscii(caption);
  }
}
