/** The dashboard's stat tile: the trend icon and colour derived from the
    optional percentage change, the magnitude text and when the trend row
    appears. The change is a whole number here. */
module StatsCard {
  import opened Wrappers
  import opened Text

  datatype TrendIcon = Minus | TrendingUp | TrendingDown
  datatype TrendColor = Slate | Red | Emerald

  /** `!change`: the change is absent or zero. */
  predicate NoChange(change: Option<int>) {
    change.None? || change.value == 0
  }

  /** `getTrendIcon`. */
  function GetTrendIcon(change: Option<int>): TrendIcon {
    if NoChange(change) then Minus
    else if change.value > 0 then TrendingUp
    else TrendingDown
  }

  /** `getTrendColor`: a rise in risk is bad (red), a fall good (emerald). */
  function GetTrendColor(change: Option<int>): TrendColor {
    if NoChange(change) then Slate
    else if change.value < 0 then Emerald
    else Red
  }

  /** The icon and the colour are decided by the sign of the change and
      always agree: up with red, down with emerald, neutral with slate. */
  lemma TrendBySign(change: Option<int>)
    ensures GetTrendIcon(change) == Minus <==> GetTrendColor(change) == Slate
    ensures GetTrendIcon(change) == TrendingUp <==> GetTrendColor(change) == Red
    ensures GetTrendIcon(change) == TrendingDown <==> GetTrendColor(change) == Emerald
    ensures GetTrendIcon(change) == Minus <==> change.None? || change.value == 0
    ensures GetTrendIcon(change) == TrendingUp <==> change.Some? && change.value > 0
    ensures GetTrendIcon(change) == TrendingDown <==> change.Some? && change.value < 0
  {
  }

  function Abs(x: int): nat { if x < 0 then -x else x }

  /** The badge text: `${Math.abs(change)}%`, or `0%` without a change. */
  function MagnitudeText(change: Option<int>): string {
    if NoChange(change) then "0%" else NatToString(Abs(change.value)) + "%"
  }

  /** The text always ends in `%` after at least one digit, it reads `0%`
      exactly when there is no change, and a change and its negation read
      alike. */
  lemma MagnitudeTextSpec(change: Option<int>)
    ensures |MagnitudeText(change)| >= 2 && MagnitudeText(change)[|MagnitudeText(change)| - 1] == '%'
    ensures forall k :: 0 <= k < |MagnitudeText(change)| - 1 ==> IsDigit(MagnitudeText(change)[k])
    ensures MagnitudeText(change) == "0%" <==> NoChange(change)
    ensures change.Some? ==> MagnitudeText(change) == MagnitudeText(Some(-change.value))
  {
    if !NoChange(change) {
      var t := NatToString(Abs(change.value));
      NatToStringZero(Abs(change.value));
      assert MagnitudeText(change)[..|t|] == t;
      assert MagnitudeText(change)[0] == t[0] != '0' == "0%"[0];
    }
  }

  /** The trend row is drawn when a change is given, even a zero one, or
      when the caption is non-empty. */
  predicate ShowsTrend(change: Option<int>, changeLabel: Option<string>) {
    change.Some? || (changeLabel.Some? && changeLabel.value != "")
  }

  /** A given zero change still draws the row, with the neutral icon and
      `0%`; with neither change nor caption there is no row. */
  lemma ZeroChangeShown(changeLabel: Option<string>)
    ensures ShowsTrend(Some(0), changeLabel)
    ensures GetTrendIcon(Some(0)) == Minus && MagnitudeText(Some(0)) == "0%"
    ensures !ShowsTrend(None, None) && !ShowsTrend(None, Some(""))
  {
  }
}
