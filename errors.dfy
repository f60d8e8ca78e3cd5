/**
 * The Go error values the core produces and inspects, `fmt.Errorf("...: %w")`
 * wrapping, and `errors.Is`, which looks through every layer of wrapping.
 */
module Errors {
  import Decimal

  datatype Error =
    | StreamEOF                     // sseparser.ErrStreamEOF: the scanner's source is exhausted
    | StreamDone                    // chat.ErrStreamDone / openai's errStreamIsDone: the [DONE] marker
    | InvalidFunctionCallSetting    // chat.ErrInvalidFunctionCallSetting
    | IoEOF                         // io.EOF
    | New(text: string)             // a one-off errors.New(text)
    | Transport(text: string)       // a failure reported by the transport or the HTTP doer
    | JsonError(reason: string)     // an encoding/json decode failure
    | UnexpectedStatusCode(expected: int, actual: int)
    | Wrapped(context: string, cause: Error)  // fmt.Errorf(context + ": %w", cause)

  /** errors.Is: `e` is `target` or wraps it at some depth. */
  predicate Is(e: Error, target: Error)
    decreases e
  {
    e == target || (e.Wrapped? && Is(e.cause, target))
  }

  const StatusTextPrefix := "unexpected status code "
  const StatusTextMiddle := " (expected "

  /** Error() of the unexpected-status error: "unexpected status code <actual> (expected <expected>)". */
  function UnexpectedStatusText(expected: int, actual: int): (text: string)
    ensures StatusTextPrefix <= text && text[|text| - 1] == ')'
    ensures |text| == |StatusTextPrefix| + |Decimal.IntToDecimal(actual)| + |StatusTextMiddle| + |Decimal.IntToDecimal(expected)| + 1
    ensures var digits := text[|StatusTextPrefix|..|StatusTextPrefix| + |Decimal.IntToDecimal(actual)|];
      digits == Decimal.IntToDecimal(actual) && Decimal.DecimalToInt(digits) == actual
  {
    var a := Decimal.IntToDecimal(actual);
    var t := StatusTextPrefix + a + StatusTextMiddle + Decimal.IntToDecimal(expected) + ")";
    assert t[|StatusTextPrefix|..|StatusTextPrefix| + |a|] == a;
    Decimal.IntRoundTrip(actual);
    t
  }

  predicate Lacks(s: string, c: char) {
    forall i :: 0 <= i < |s| ==> s[i] != c
  }

  /** A separator whose first character never occurs in `x` or `x'` splits a string uniquely. */
  lemma {:induction false} SplitAtSeparator(x: string, sep: string, y: string, x': string, y': string)
    requires |sep| > 0 && Lacks(x, sep[0]) && Lacks(x', sep[0])
    requires x + sep + y == x' + sep + y'
    ensures x == x' && y == y'
  {
    var t := x + sep + y;
    var t' := x' + sep + y';
    assert t[|x|] == sep[0] && t'[|x'|] == sep[0];
    assert x == t[..|x|];
    assert x' == t'[..|x'|];
    assert y == t[|x| + |sep|..];
    assert y' == t'[|x'| + |sep|..];
  }

  /** Printed integers contain no space. */
  lemma DecimalLacksSpace(i: int)
    ensures Lacks(Decimal.IntToDecimal(i), ' ')
  {
  }

  /** Distinct (expected, actual) pairs give distinct messages: the text names both codes. */
  lemma {:induction false} UnexpectedStatusTextInjective(expected: int, actual: int, expected': int, actual': int)
    requires UnexpectedStatusText(expected, actual) == UnexpectedStatusText(expected', actual')
    ensures expected == expected' && actual == actual'
  {
    var a, e := Decimal.IntToDecimal(actual), Decimal.IntToDecimal(expected);
    var a', e' := Decimal.IntToDecimal(actual'), Decimal.IntToDecimal(expected');
    var p := StatusTextPrefix;
    var t := p + a + StatusTextMiddle + e + ")";
    var t' := p + a' + StatusTextMiddle + e' + ")";
    assert t[|p|..] == a + StatusTextMiddle + (e + ")");
    assert t'[|p|..] == a' + StatusTextMiddle + (e' + ")");
    DecimalLacksSpace(actual);
    DecimalLacksSpace(actual');
    SplitAtSeparator(a, StatusTextMiddle, e + ")", a', e' + ")");
    assert e == (e + ")")[..|e|];
    assert e' == (e' + ")")[..|e'|];
    Decimal.IntRoundTrip(actual);
    Decimal.IntRoundTrip(actual');
    Decimal.IntRoundTrip(expected);
    Decimal.IntRoundTrip(expected');
  }
}
