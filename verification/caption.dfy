/** The caption fit policy of the camera screen: the speech engine's latest
    partial results are joined with spaces and, when the line would be too
    long for the current screen orientation, only its most recent characters
    are kept. */
module Caption {
  import opened Wrappers
  import opened JsText

  /** The values `expo-screen-orientation` reports for the device. */
  datatype Orientation = Unknown | PortraitUp | PortraitDown | LandscapeLeft | LandscapeRight

  /** The screen's orientation state: None until the first reading arrives. */
  type OrientationState = Option<Orientation>

  const PortraitBudget: nat := 30
  const OtherBudget: nat := 70

  /** The placeholder the screen shows before the first partial result. */
  const Listening: string := "Listening..."

  predicate IsPortrait(o: OrientationState) {
    o == Some(PortraitUp) || o == Some(PortraitDown)
  }

  /** The character budget of a caption line: 30 in either portrait
      orientation, 70 for every other state including the unset one. */
  function Limit(o: OrientationState): (r: nat)
    ensures r > 0
    ensures IsPortrait(o) <==> r == PortraitBudget
    ensures !IsPortrait(o) ==> r == OtherBudget
  {
    if IsPortrait(o) then PortraitBudget else OtherBudget
  }

  /** The displayed caption: the fragments joined with single spaces, then
      fitted to the orientation's budget. */
  function FitCaption(frags: seq<string>, o: OrientationState): (r: string)
    ensures |r| < Limit(o)
    ensures IsSuffix(r, Join(frags, " "))
    ensures |Join(frags, " ")| < Limit(o) ==> r == Join(frags, " ")
    ensures |Join(frags, " ")| >= Limit(o) ==>
              r == Join(frags, " ")[|Join(frags, " ")| - (Limit(o) - 1)..]
  {
    FitLine(Join(frags, " "), o)
  }

  /** The fitting step, written as the screen computes it: leave an empty
      line alone, and once the line reaches the budget keep only its last
      `budget - 1` characters. */
  function FitLine(results: string, o: OrientationState): (r: string)
    ensures |r| < Limit(o)
    ensures IsSuffix(r, results)
    ensures |results| < Limit(o) ==> r == results
    ensures |results| >= Limit(o) ==> r == results[|results| - (Limit(o) - 1)..]
  {
    if |results| > 0 then
      if IsPortrait(o) then
        if |results| >= 30 then TrailingFit(results, 29) else results
      else
        if |results| >= 70 then TrailingFit(results, 69) else results
    else
      results
  }

  /** `results.slice(-keep)` on a line that has more than `keep` characters:
      exactly its last `keep` characters. */
  function TrailingFit(results: string, keep: nat): (r: string)
    requires 0 < keep < |results|
    ensures |r| == keep
    ensures r == results[|results| - keep..]
  {
    Slice(results, -(keep as int))
  }

  /** Independent description of a fitted line: among the suffixes of the
      joined text that fit under the budget, it is the longest one. */
  ghost predicate FitsUnder(t: string, joined: string, limit: nat) {
    IsSuffix(t, joined) && |t| < limit
  }

  lemma FitLineIsLongestFittingSuffix(joined: string, o: OrientationState, t: string)
    requires FitsUnder(t, joined, Limit(o))
    ensures FitsUnder(FitLine(joined, o), joined, Limit(o))
    ensures |t| <= |FitLine(joined, o)|
    ensures t == FitLine(joined, o) || |t| < |FitLine(joined, o)|
  {
  }

  /** Portrait captions stay under 30 characters. */
  lemma PortraitCaptionBound(frags: seq<string>, o: OrientationState)
    requires IsPortrait(o)
    ensures |FitCaption(frags, o)| < 30
  {
  }

  /** Captions in every other state, the unset one included, stay under 70. */
  lemma OtherCaptionBound(frags: seq<string>, o: OrientationState)
    requires !IsPortrait(o)
    ensures |FitCaption(frags, o)| < 70
  {
  }

  /** No fragments, or fragments that join to nothing, give the empty caption. */
  lemma EmptyCaption(frags: seq<string>, o: OrientationState)
    requires |frags| == 0 || frags == [""]
    ensures FitCaption(frags, o) == ""
  {
    JoinEmptyIff(frags, " ");
  }

  /** Fitting a fitted caption again, as the only fragment and under the same
      orientation, leaves it unchanged. */
  lemma FitCaptionIdempotent(frags: seq<string>, o: OrientationState)
    ensures FitCaption([FitCaption(frags, o)], o) == FitCaption(frags, o)
  {
  }

  /** The initial partial results render as the placeholder itself, whatever
      the orientation. */
  lemma InitialCaptionIsListening(o: OrientationState)
    ensures FitCaption([Listening], o) == Listening
  {
  }

  /** Two fragments short enough for a landscape line are shown whole, with
      one space between them. */
  lemma ShortLandscapeCaption()
    ensures FitCaption(["Hello", "world"], Some(LandscapeLeft)) == "Hello world"
  {
    assert Join(["Hello", "world"], " ") == "Hello" + " " + Join(["world"], " ");
  }

  /** A 61-character sentence in portrait keeps its last 29 characters; it
      is written as its first 32 characters followed by its last 29. */
  lemma LongPortraitCaption()
    ensures FitCaption(["The quick brown fox jumps over t" + "he lazy dog and keeps running"], Some(PortraitUp))
         == "he lazy dog and keeps running"
  {
    var head := "The quick brown fox jumps over t";
    var tail := "he lazy dog and keeps running";
    assert |head| == 32 && |tail| == 29;
    assert Join([head + tail], " ") == head + tail;
    assert (head + tail)[32..] == tail;
  }
}
