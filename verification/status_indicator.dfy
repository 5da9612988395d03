/**
  The three-level population indicator shown at the head of a channel name:
  a red, yellow or green circle chosen from the player count and the two
  configured thresholds FLAG_YELLOW and FLAG_GREEN.
 */
module StatusIndicator {

  import opened Wrappers

  datatype Indicator = Low | Medium | High

  /** The glyph each indicator is rendered as: U+1F534, U+1F7E1, U+1F7E2. */
  function Glyph(i: Indicator): (c: char)
    ensures c == '\U{1F534}' <==> i == Low
    ensures c == '\U{1F7E1}' <==> i == Medium
    ensures c == '\U{1F7E2}' <==> i == High
  {
    match i
    case Low => '\U{1F534}'
    case Medium => '\U{1F7E1}'
    case High => '\U{1F7E2}'
  }

  /** Reads a glyph back; `None` for any other character. */
  function IndicatorOfGlyph(c: char): (r: Option<Indicator>)
    ensures r.Some? ==> Glyph(r.value) == c
    ensures forall i: Indicator :: Glyph(i) == c ==> r == Some(i)
  {
    if c == '\U{1F534}' then Some(Low)
    else if c == '\U{1F7E1}' then Some(Medium)
    else if c == '\U{1F7E2}' then Some(High)
    else None
  }

  /**
    The nested conditional choosing the status symbol. Total, and the
    thresholds are not required to be ordered: with green <= yellow the
    middle band is empty and Medium never occurs.
   */
  function Classify(count: int, yellow: int, green: int): (r: Indicator)
    ensures r == Low <==> count <= yellow
    ensures r == Medium <==> yellow < count <= green
    ensures r == High <==> yellow < count && green < count
    ensures green <= yellow ==> r != Medium
  {
    if count <= yellow then Low
    else if count <= green then Medium
    else High
  }

  /** Position of an indicator on the red-yellow-green scale. */
  function Rank(i: Indicator): nat
  {
    match i
    case Low => 0
    case Medium => 1
    case High => 2
  }

  /** More players never give a lower indicator, whatever the thresholds. */
  lemma ClassifyMonotone(count1: int, count2: int, yellow: int, green: int)
    requires count1 <= count2
    ensures Rank(Classify(count1, yellow, green)) <= Rank(Classify(count2, yellow, green))
  {
  }

  /** The worked example with the default thresholds 5 and 10. */
  lemma DefaultThresholdExamples()
    ensures Classify(5, 5, 10) == Low
    ensures Classify(6, 5, 10) == Medium
    ensures Classify(10, 5, 10) == Medium
    ensures Classify(11, 5, 10) == High
  {
  }
}
