/**
 * The stylist card: a fixed table of tips per style vibe and body part, a
 * typewriter that reveals the current tip one character per tick, a
 * refresh button, and a free-text box in "manual" mode.
 *
 * The interval timer is modelled as a loop over its ticks, run to the end;
 * the 600 ms refresh delay splits a refresh into the click and the timeout.
 */
module UiStyleRecommendation {
  import opened Common

  /** One vibe's tips: a default and one per body part. */
  datatype VibeTips = VibeTips(default: string, head: string, torso: string, arms: string, legs: string, feet: string)

  const StreetTips := VibeTips(
    "Layer an oversized graphic tee under a cropped bomber for effortless edge.",
    "A structured cap or beanie adds instant street credibility to any look.",
    "Try an oversized hoodie with a contrast zip-up layered underneath.",
    "Roll up sleeves or add statement watches for subtle detail.",
    "Wide-leg cargo pants with a tapered ankle create the perfect silhouette.",
    "Chunky sneakers or high-top classics complete the urban aesthetic.")

  const FormalTips := VibeTips(
    "A well-fitted navy blazer transforms any outfit into polished perfection.",
    "Keep hair sleek and minimal—let the outfit speak for itself.",
    "Invest in quality fabric—a crisp white shirt is always timeless.",
    "French cuffs with subtle cufflinks add refined sophistication.",
    "Tailored trousers with a clean break at the ankle elongate the frame.",
    "Oxford shoes in cognac or black leather anchor formal attire elegantly.")

  const SportyTips := VibeTips(
    "Mix technical fabrics with casual pieces for elevated athleisure appeal.",
    "A performance cap with mesh panels keeps you cool and camera-ready.",
    "Compression base layers under loose tops create dynamic proportions.",
    "Quarter-zip pullovers offer both function and streamlined style.",
    "Joggers with tapered cuts balance comfort with a polished look.",
    "Lightweight trainers in monochrome tones keep the focus on form.")

  /** `recommendations[selectedVibe]`. */
  function TipsOf(vibe: string): Option<VibeTips> {
    match vibe
    case "street" => Some(StreetTips)
    case "formal" => Some(FormalTips)
    case "sporty" => Some(SportyTips)
    case _ => None
  }

  /** `vibeRecs[key]`: the tip under `key`, if the table has that key. */
  function TipFor(tips: VibeTips, key: string): Option<string> {
    match key
    case "default" => Some(tips.default)
    case "head" => Some(tips.head)
    case "torso" => Some(tips.torso)
    case "arms" => Some(tips.arms)
    case "legs" => Some(tips.legs)
    case "feet" => Some(tips.feet)
    case _ => None
  }

  const BodyPartKeys := {"head", "torso", "arms", "legs", "feet"}

  /**
   * `getRecommendation`: the vibe's table, or the street table for an
   * unknown vibe; then the selected part's tip, or the table's default for
   * no selection or an unknown part.
   */
  function Recommendation(vibe: string, bodyPart: Option<string>): (r: string)
    ensures var tips := if TipsOf(vibe).Some? then TipsOf(vibe).value else StreetTips;
            && (!Truthy(bodyPart) || bodyPart.value !in BodyPartKeys ==> r == tips.default)
            && (Truthy(bodyPart) && bodyPart.value in BodyPartKeys ==> Some(r) == TipFor(tips, bodyPart.value))
    ensures |r| > 0
  {
    var tips := if TipsOf(vibe).Some? then TipsOf(vibe).value else StreetTips;
    var key := if Truthy(bodyPart) then bodyPart.value else "default";
    var tip := TipFor(tips, key);
    if tip.Some? && tip.value != "" then tip.value else tips.default
  }

  /** A vibe without a table of its own, "manual" among them, gets the street tips. */
  lemma UnknownVibeIsStreet(vibe: string, bodyPart: Option<string>)
    requires TipsOf(vibe).None?
    ensures Recommendation(vibe, bodyPart) == Recommendation("street", bodyPart)
  {
  }

  /** Each vibe gives each body part its own tip, different from the vibe's default. */
  lemma PartTipsDiffer(vibe: string, part: string)
    requires vibe in {"street", "formal", "sporty"} && part in BodyPartKeys
    ensures Recommendation(vibe, Some(part)) != Recommendation(vibe, None)
  {
  }

  // ----------------------------------------------------------------------
  // The typewriter

  /**
   * The interval callback, run tick by tick until it clears itself: it shows
   * `text[..index]` and increments `index` while `index <= |text|`, and stops
   * on the tick after that. `frames` are the texts shown, in order.
   */
  method Typewriter(text: string) returns (frames: seq<string>, ticks: nat)
    ensures |frames| == |text| + 1
    ensures forall t :: 0 <= t < |frames| ==> StartsWith(text, frames[t]) && |frames[t]| == t
    ensures frames[|text|] == text
    ensures ticks == |text| + 2
  {
    var index := 0;
    var running := true;
    frames := [];
    ticks := 0;
    while running
      invariant index <= |text| + 1
      invariant |frames| == index
      invariant forall t :: 0 <= t < |frames| ==> frames[t] == text[..t]
      invariant !running ==> index == |text| + 1
      invariant ticks == index + (if running then 0 else 1)
      decreases |text| + 2 - ticks
    {
      ticks := ticks + 1;
      if index <= |text| {
        frames := frames + [text[..index]];
        index := index + 1;
      } else {
        running := false;
      }
    }
    assert frames[|text|] == text[..|text|];
  }

  /** The cursor pulses when the shown text is as long as the current tip. */
  predicate CursorPulses(displayed: string, current: string) {
    |displayed| == |current|
  }

  /** While the typewriter runs the cursor pulses exactly on its last frame, which shows the whole tip. */
  lemma CursorPulsesWhenComplete(displayed: string, current: string)
    requires StartsWith(current, displayed)
    ensures CursorPulses(displayed, current) <==> displayed == current
  {
  }

  // ----------------------------------------------------------------------
  // Manual mode

  /** The card shows the free-text box instead of a tip in "manual" mode. */
  predicate IsManual(vibe: string) {
    vibe == "manual"
  }

  /** `manualStyle.length`: JavaScript counts UTF-16 code units. */
  function CharCount(s: string): (r: nat)
    ensures r >= |s|
    ensures r == |s| <==> forall k :: 0 <= k < |s| ==> s[k] <= '\U{FFFF}'
  {
    if |s| == 0 then 0
    else (if s[0] <= '\U{FFFF}' then 1 else 2) + CharCount(s[1..])
  }

  /** For text in the Basic Multilingual Plane the count is the number of characters typed. */
  lemma {:induction false} CharCountOfBmp(s: string, c: char)
    requires c <= '\U{FFFF}'
    ensures CharCount(s + [c]) == CharCount(s) + 1
    decreases |s|
  {
    if |s| > 0 {
      assert (s + [c])[1..] == s[1..] + [c];
      CharCountOfBmp(s[1..], c);
    }
  }

  // ----------------------------------------------------------------------
  // The component's state

  class StylistCard {
    var isRefreshing: bool
    var currentRecommendation: string
    var displayedText: string
    var manualStyle: string

    constructor ()
      ensures !isRefreshing && currentRecommendation == "" && displayedText == "" && manualStyle == ""
    {
      isRefreshing := false;
      currentRecommendation := "";
      displayedText := "";
      manualStyle := "";
    }

    /** The effect on a change of vibe or body part: a new tip, typed out from the start. */
    method SelectionChanged(vibe: string, bodyPart: Option<string>) returns (frames: seq<string>)
      modifies this
      ensures currentRecommendation == Recommendation(vibe, bodyPart)
      ensures |frames| == |currentRecommendation| + 1 && frames[0] == "" && displayedText == currentRecommendation
      ensures forall t :: 0 <= t < |frames| ==> StartsWith(currentRecommendation, frames[t])
      ensures isRefreshing == old(isRefreshing) && manualStyle == old(manualStyle)
    {
      currentRecommendation := Recommendation(vibe, bodyPart);
      displayedText := "";
      var ticks;
      frames, ticks := Typewriter(currentRecommendation);
      displayedText := frames[|frames| - 1];
    }

    /** `handleRefresh`, the click: the spinner starts and the shown text is cleared. */
    method Refresh()
      modifies this
      ensures isRefreshing && displayedText == ""
      ensures currentRecommendation == old(currentRecommendation) && manualStyle == old(manualStyle)
    {
      isRefreshing := true;
      displayedText := "";
    }

    /**
     * `handleRefresh`, the timeout: the tip is derived again and typed out.
     * The table is fixed, so for an unchanged selection it is the same tip.
     */
    method RefreshElapsed(vibe: string, bodyPart: Option<string>) returns (frames: seq<string>)
      modifies this
      ensures !isRefreshing
      ensures currentRecommendation == Recommendation(vibe, bodyPart)
      ensures old(currentRecommendation) == Recommendation(vibe, bodyPart) ==>
                currentRecommendation == old(currentRecommendation)
      ensures |frames| == |currentRecommendation| + 1 && frames[0] == "" && displayedText == currentRecommendation
      ensures forall t :: 0 <= t < |frames| ==> StartsWith(currentRecommendation, frames[t])
      ensures manualStyle == old(manualStyle)
    {
      currentRecommendation := Recommendation(vibe, bodyPart);
      isRefreshing := false;
      var ticks;
      frames, ticks := Typewriter(currentRecommendation);
      displayedText := frames[|frames| - 1];
    }

    /** Typing into the manual-mode box. */
    method SetManualStyle(text: string) returns (count: nat)
      modifies this
      ensures manualStyle == text && count == CharCount(text)
      ensures currentRecommendation == old(currentRecommendation) && displayedText == old(displayedText)
    {
      manualStyle := text;
      count := CharCount(text);
    }
  }
}
