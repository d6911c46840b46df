/**
 * `generateRecommendation`: load the newest capture and the latest
 * preferences, derive the analysis defaults and the target style, select
 * up to ten matching items, ask the text model for recommendations, take
 * the JSON between the first `{` and the last `}` of its answer, and
 * generate try-on images for the first two recommendations at most,
 * skipping the ones that fail.
 *
 * The item query runs over the collection as given; the text model, the
 * image editor, the clock and `JSON.parse` of the extracted span are
 * oracle parameters. The editor is given the recommendation's position
 * and the whole `editImage` request, the captured snapshot included.
 *
 * The controller calls `mediaModel.generateText` and
 * `mediaModel.editImage`, which backend/models/mediaModel.js does not
 * define. The model takes both as oracles for the behaviour the
 * controller evidently intends. The code as written is the instance where
 * `generateText` always throws: every request with a capture then fails
 * with 500, which `GenerateRecommendation`'s contract states.
 */
module Recommendation {
  import opened Common
  import opened Files
  import Captures
  import Items
  import MediaImage

  // ----------------------------------------------------------------------
  // Loading the inputs

  /** The capture the handler works from: its analysis and the snapshot bytes, if any. */
  datatype LoadedCapture = LoadedCapture(analysis: Analysis, snapshot: Option<seq<byte>>)

  /**
   * The newest capture, or `None` when there is no `.json` file or it does
   * not parse (the handler's inner `catch` leaves `captureData` null). A
   * JSON object without the capture fields has an empty analysis and no snapshot.
   */
  function LoadCapture(dir: Directory, listing: seq<string>): (r: Option<LoadedCapture>)
    requires IsListingOf(listing, dir)
    ensures r.None? <==> Captures.LatestCaptureFile(dir, listing).None?
                         || !Captures.LatestCaptureFile(dir, listing).value.IsJson()
    ensures r.Some? && Captures.LatestCaptureFile(dir, listing).value.CaptureJson? ==>
              var rec := Captures.LatestCaptureFile(dir, listing).value.capture;
              r.value == LoadedCapture(rec.overshootData, Captures.SnapshotBytes(dir, rec.snapshotPath))
    ensures r.Some? && !Captures.LatestCaptureFile(dir, listing).value.CaptureJson? ==>
              r.value == LoadedCapture(Analysis("", "", "", ""), None)
  {
    var latest := Captures.LatestCaptureFile(dir, listing);
    if latest.None? || !latest.value.IsJson() then None
    else if latest.value.CaptureJson? then
      var rec := latest.value.capture;
      Some(LoadedCapture(rec.overshootData, Captures.SnapshotBytes(dir, rec.snapshotPath)))
    else
      Some(LoadedCapture(Analysis("", "", "", ""), None))
  }

  /** `prefsData.preferences || []` from `latest.json`, and `[]` whenever that fails. */
  function LoadPreferences(dir: Directory): (r: seq<Preference>)
    ensures r != [] ==> "latest.json" in dir && dir["latest.json"].content.PreferencesJson?
                        && r == dir["latest.json"].content.prefs.preferences
    ensures "latest.json" in dir && dir["latest.json"].content.PreferencesJson? ==>
              r == dir["latest.json"].content.prefs.preferences
  {
    if "latest.json" in dir && dir["latest.json"].content.PreferencesJson?
    then dir["latest.json"].content.prefs.preferences
    else []
  }

  // ----------------------------------------------------------------------
  // Analysis defaults and the target style

  /** `overshootData.colour || overshootData.color || 'unknown'`. */
  function ColorOf(a: Analysis): (r: string)
    ensures r != ""
    ensures a.colour != "" ==> r == a.colour
    ensures a.colour == "" && a.color != "" ==> r == a.color
    ensures a.colour == "" && a.color == "" ==> r == "unknown"
  {
    if a.colour != "" then a.colour else if a.color != "" then a.color else "unknown"
  }

  function StyleOf(a: Analysis): (r: string)
    ensures r != "" && (r == a.style || (a.style == "" && r == "formal"))
  {
    if a.style != "" then a.style else "formal"
  }

  function ItemOf(a: Analysis): (r: string)
    ensures r != "" && (r == a.item || (a.item == "" && r == "tops"))
  {
    if a.item != "" then a.item else "tops"
  }

  /** `vibeMap[styleVibe] || style`. */
  function TargetStyle(styleVibe: string, style: string): (r: string)
    ensures styleVibe == "street" ==> r == "streetwear"
    ensures styleVibe == "formal" ==> r == "formal"
    ensures styleVibe == "sporty" ==> r == "active"
    ensures styleVibe == "manual" ==> r == "custom"
    ensures styleVibe !in {"street", "formal", "sporty", "manual"} ==> r == style
  {
    match styleVibe
    case "street" => "streetwear"
    case "formal" => "formal"
    case "sporty" => "active"
    case "manual" => "custom"
    case _ => style
  }

  // ----------------------------------------------------------------------
  // The item query: `$or` of a case-insensitive colour match, style
  // equality and item equality, `limit(10)`, in natural order

  const QueryLimit := 10

  predicate Matches(x: Items.Item, color: string, style: string, item: string) {
    IsInfix(Lower(color), Lower(x.color)) || x.style == style || x.item == item
  }

  /** Every matching item, in collection order. */
  function Matching(items: seq<Items.Item>, color: string, style: string, item: string): (r: seq<Items.Item>)
    ensures |r| <= |items|
    ensures forall k :: 0 <= k < |r| ==> Matches(r[k], color, style, item)
    decreases |items|
  {
    if |items| == 0 then []
    else if Matches(items[0], color, style, item) then [items[0]] + Matching(items[1..], color, style, item)
    else Matching(items[1..], color, style, item)
  }

  /** Matching distributes over concatenation: it keeps the collection's order. */
  lemma {:induction false} MatchingConcat(a: seq<Items.Item>, b: seq<Items.Item>, color: string, style: string, item: string)
    ensures Matching(a + b, color, style, item) == Matching(a, color, style, item) + Matching(b, color, style, item)
    decreases |a|
  {
    if |a| == 0 {
      assert a + b == b;
    } else {
      assert (a + b)[0] == a[0] && (a + b)[1..] == a[1..] + b;
      MatchingConcat(a[1..], b, color, style, item);
    }
  }

  /** Every matching item of the collection is selected by `Matching`. */
  lemma {:induction false} MatchingComplete(items: seq<Items.Item>, color: string, style: string, item: string, x: Items.Item)
    requires x in items && Matches(x, color, style, item)
    ensures x in Matching(items, color, style, item)
    decreases |items|
  {
    if items[0] != x {
      assert x in items[1..];
      MatchingComplete(items[1..], color, style, item, x);
    }
  }

  /** `Item.find({ $or: … }).limit(10)`. */
  function Query(items: seq<Items.Item>, color: string, style: string, item: string): (r: seq<Items.Item>)
    ensures |r| <= QueryLimit
    ensures forall k :: 0 <= k < |r| ==> Matches(r[k], color, style, item)
    ensures |r| < QueryLimit ==> forall x :: x in items && Matches(x, color, style, item) ==> x in r
    ensures |r| <= |Matching(items, color, style, item)| && r == Matching(items, color, style, item)[..|r|]
  {
    var all := Matching(items, color, style, item);
    if |all| <= QueryLimit then
      forall x | x in items && Matches(x, color, style, item) ensures x in all {
        MatchingComplete(items, color, style, item, x);
      }
      all
    else all[..QueryLimit]
  }

  // ----------------------------------------------------------------------
  // The prompt sections

  /** `${p.bodyPart}: ${p.comment}`. */
  function PreferenceLine(p: Preference): string {
    p.bodyPart + ": " + p.comment
  }

  function PreferenceLines(prefs: seq<Preference>): (r: seq<string>)
    ensures |r| == |prefs|
    ensures forall k :: 0 <= k < |r| ==> r[k] == PreferenceLine(prefs[k]) && r[k] != ""
  {
    seq(|prefs|, k requires 0 <= k < |prefs| => PreferenceLine(prefs[k]))
  }

  /** The preference summary: the lines joined by ", ", in list order; empty exactly without preferences. */
  function PreferenceSummary(prefs: seq<Preference>): (r: string)
    ensures r == "" <==> |prefs| == 0
    ensures |prefs| > 0 ==> StartsWith(r, PreferenceLine(prefs[0]))
  {
    JoinOfNonEmpty(PreferenceLines(prefs), ", ");
    var r := Join(PreferenceLines(prefs), ", ");
    assert |prefs| > 0 ==> r[..|PreferenceLine(prefs[0])|] == PreferenceLine(prefs[0]);
    r
  }

  /** A preference appended to the list adds ", " and its line, or is the whole summary when it is the first. */
  lemma PreferenceSummarySnoc(prefs: seq<Preference>, p: Preference)
    ensures PreferenceSummary(prefs + [p]) ==
              if prefs == [] then PreferenceLine(p) else PreferenceSummary(prefs) + ", " + PreferenceLine(p)
  {
    assert PreferenceLines(prefs + [p]) == PreferenceLines(prefs) + [PreferenceLine(p)];
    if prefs != [] {
      JoinSnoc(PreferenceLines(prefs), PreferenceLine(p), ", ");
    }
  }

  /** `- ${item.item} (${item.color}, ${item.style}): ${item.productLink}`. */
  function ItemLine(x: Items.Item): (r: string)
    ensures r != "" && r[0] == '-'
  {
    "- " + x.item + " (" + x.color + ", " + x.style + "): " + x.productLink
  }

  function ItemLines(items: seq<Items.Item>): (r: seq<string>)
    ensures |r| == |items|
    ensures forall k :: 0 <= k < |r| ==> r[k] == ItemLine(items[k]) && r[k] != ""
  {
    seq(|items|, k requires 0 <= k < |items| => ItemLine(items[k]))
  }

  /** The item descriptions: one line per item, joined by line feeds; empty exactly without items. */
  function ItemDescriptions(items: seq<Items.Item>): (r: string)
    ensures r == "" <==> |items| == 0
    ensures |items| > 0 ==> StartsWith(r, ItemLine(items[0]))
  {
    JoinOfNonEmpty(ItemLines(items), "\n");
    var r := Join(ItemLines(items), "\n");
    assert |items| > 0 ==> r[..|ItemLine(items[0])|] == ItemLine(items[0]);
    r
  }

  /** An item appended to the list adds a line feed and its line, or is the whole text when it is the first. */
  lemma ItemDescriptionsSnoc(items: seq<Items.Item>, x: Items.Item)
    ensures ItemDescriptions(items + [x]) ==
              if items == [] then ItemLine(x) else ItemDescriptions(items) + "\n" + ItemLine(x)
  {
    assert ItemLines(items + [x]) == ItemLines(items) + [ItemLine(x)];
    if items != [] {
      JoinSnoc(ItemLines(items), ItemLine(x), "\n");
    }
  }

  /**
   * The values the recommendation prompt is filled in with (the fixed
   * template text around them is left out): `${itemDescriptions || 'No
   * matching items found'}` and `${preferenceSummary || 'No specific preferences'}`.
   */
  datatype RecommendationPrompt = RecommendationPrompt(
    color: string,
    style: string,
    item: string,
    availableItems: string,
    userPreferences: string,
    targetStyle: string)

  /** The arguments of `generateText`: the filled-in prompt and the text model. */
  datatype TextRequest = TextRequest(prompt: RecommendationPrompt, model: string)

  const TextModel := "gemini-2.0-flash-exp"

  const NoItemsText := "No matching items found"
  const NoPreferencesText := "No specific preferences"

  function PromptFor(color: string, style: string, item: string, matching: seq<Items.Item>,
                     prefs: seq<Preference>, targetStyle: string): (r: RecommendationPrompt)
    ensures r.availableItems == NoItemsText <==> |matching| == 0 || ItemDescriptions(matching) == NoItemsText
    ensures r.userPreferences == NoPreferencesText <==> |prefs| == 0 || PreferenceSummary(prefs) == NoPreferencesText
    ensures |matching| > 0 ==> r.availableItems == ItemDescriptions(matching)
    ensures |prefs| > 0 ==> r.userPreferences == PreferenceSummary(prefs)
    ensures r.color == color && r.style == style && r.item == item && r.targetStyle == targetStyle
  {
    var described := ItemDescriptions(matching);
    var summary := PreferenceSummary(prefs);
    RecommendationPrompt(color, style, item,
      if described != "" then described else NoItemsText,
      if summary != "" then summary else NoPreferencesText,
      targetStyle)
  }

  // ----------------------------------------------------------------------
  // `recommendationText.match(/\{[\s\S]*\}/)`

  function FirstIndexOf(s: string, c: char): (r: Option<nat>)
    ensures r.Some? ==> r.value < |s| && s[r.value] == c && c !in s[..r.value]
    ensures r.None? <==> c !in s
  {
    if |s| == 0 then None
    else if s[0] == c then Some(0)
    else match FirstIndexOf(s[1..], c) {
      case None => None
      case Some(k) =>
        assert s[..k + 1] == [s[0]] + s[1..][..k];
        Some(k + 1)
    }
  }

  function LastIndexOf(s: string, c: char): (r: Option<nat>)
    ensures r.Some? ==> r.value < |s| && s[r.value] == c && c !in s[r.value + 1..]
    ensures r.None? <==> c !in s
  {
    if |s| == 0 then None
    else if s[|s| - 1] == c then Some(|s| - 1)
    else match LastIndexOf(s[..|s| - 1], c) {
      case None => None
      case Some(k) =>
        assert s[k + 1..] == s[..|s| - 1][k + 1..] + [s[|s| - 1]];
        Some(k)
    }
  }

  /**
   * The greedy match: from the first `{` to the last `}`. There is a match
   * exactly when some `}` follows some `{`.
   */
  function JsonSpan(text: string): (r: Option<string>)
    ensures r.Some? <==> exists i, j :: 0 <= i < j < |text| && text[i] == '{' && text[j] == '}'
    ensures r.Some? ==> exists i, j :: 0 <= i < j < |text| && text[i] == '{' && text[j] == '}' && r.value == text[i..j + 1]
                                       && '{' !in text[..i] && '}' !in text[j + 1..]
  {
    var i := FirstIndexOf(text, '{');
    var j := LastIndexOf(text, '}');
    if i.Some? && j.Some? && i.value < j.value then
      Some(text[i.value..j.value + 1])
    else
      NoBracePair(text);
      None
  }

  /** Without a `{` before the last `}`, no `}` follows any `{`. */
  lemma NoBracePair(text: string)
    requires var i, j := FirstIndexOf(text, '{'), LastIndexOf(text, '}');
             !(i.Some? && j.Some? && i.value < j.value)
    ensures forall a, b :: 0 <= a < b < |text| && text[a] == '{' && text[b] == '}' ==> false
  {
    var i, j := FirstIndexOf(text, '{'), LastIndexOf(text, '}');
    forall a, b | 0 <= a < b < |text| && text[a] == '{' && text[b] == '}' ensures false {
    }
  }

  /** One entry of the parsed `recommendations` array; `""` stands for a falsy member. */
  datatype Suggestion = Suggestion(name: string, description: string, items: Option<seq<string>>, style: string)

  /** The result of `JSON.parse` on the span: a failure, or the `recommendations` member (absent or an array). */
  datatype ParsedAnswer = ParseError | Parsed(recommendations: Option<seq<Suggestion>>)

  function Suggestions(text: string, parse: string -> ParsedAnswer): (r: seq<Suggestion>)
    ensures JsonSpan(text).None? ==> r == []
    ensures JsonSpan(text).Some? && parse(JsonSpan(text).value).ParseError? ==> r == []
    ensures JsonSpan(text).Some? && parse(JsonSpan(text).value).Parsed? ==>
              r == (var p := parse(JsonSpan(text).value).recommendations; if p.Some? then p.value else [])
  {
    var span := JsonSpan(text);
    if span.None? then []
    else match parse(span.value) {
      case ParseError => []
      case Parsed(recs) => if recs.Some? then recs.value else []
    }
  }

  // ----------------------------------------------------------------------
  // The image loop

  datatype GeneratedImage = GeneratedImage(name: string, description: string, dataUrl: string,
                                           items: seq<string>, style: string)

  /** The image prompt for one recommendation. */
  function ImagePrompt(targetStyle: string, s: Suggestion): string {
    "Transform this person into wearing " + targetStyle + " style outfit. \nOutfit details: "
    + (if s.description != "" then s.description else "stylish outfit")
    + "\nStyle: " + targetStyle
    + "\nMake it look realistic and fashionable. Keep the person's face and body proportions the same."
  }

  /**
   * The arguments of `editImage`: the prompt, the snapshot bytes, their
   * MIME type, the image model, the aspect ratio and the image size.
   */
  datatype EditRequest = EditRequest(prompt: string, image: seq<byte>, mimeType: string,
                                     model: string, aspectRatio: string, imageSize: string)

  const EditModel := "gemini-3-pro-image-preview"

  /** The edit request for one recommendation: the captured snapshot with its image prompt. */
  function EditRequestFor(targetStyle: string, s: Suggestion, snapshot: seq<byte>): EditRequest {
    EditRequest(ImagePrompt(targetStyle, s), snapshot, "image/png", EditModel, "3:4", "2K")
  }

  /**
   * The image part of an editor answer: `None` when the call threw, or the
   * answer has no candidates, no parts or no part carrying an image.
   */
  function EditedPart(response: Option<MediaImage.GenerateResponse>): (r: Option<MediaImage.Part>)
    ensures r.Some? <==> response.Some? && response.value.candidates.Some?
                         && MediaImage.FirstCandidateParts(response.value.candidates.value).Some?
                         && MediaImage.FindImagePart(MediaImage.FirstCandidateParts(response.value.candidates.value).value).Some?
    ensures r.Some? ==> MediaImage.CarriesImage(r.value)
    ensures r.Some? ==>
              var parts := MediaImage.FirstCandidateParts(response.value.candidates.value).value;
              r.value == parts[MediaImage.FindImagePart(parts).value]
  {
    if response.None? || response.value.candidates.None? then None
    else
      var parts := MediaImage.FirstCandidateParts(response.value.candidates.value);
      if parts.None? then None
      else match MediaImage.FindImagePart(parts.value) {
        case None => None
        case Some(k) => Some(parts.value[k])
      }
  }

  /**
   * The image for the i-th recommendation: `None` when the editor throws,
   * answers without candidates or parts, or without an image part.
   */
  function ImageFor(i: nat, s: Suggestion, targetStyle: string, snapshot: seq<byte>,
                    edit: (nat, EditRequest) -> Option<MediaImage.GenerateResponse>): (r: Option<GeneratedImage>)
    ensures r.Some? <==> EditedPart(edit(i, EditRequestFor(targetStyle, s, snapshot))).Some?
    ensures r.Some? ==>
              var part := EditedPart(edit(i, EditRequestFor(targetStyle, s, snapshot))).value;
              r.value.dataUrl == "data:" + MediaImage.MimeType(part) + ";base64,"
                                 + (if MediaImage.ImageData(part).Some? then MediaImage.ImageData(part).value else "undefined")
    ensures r.Some? ==> r.value.name == (if s.name != "" then s.name else "Outfit " + NatToString(i + 1))
    ensures r.Some? ==> r.value.description == s.description
    ensures r.Some? ==> r.value.items == (if s.items.Some? then s.items.value else [])
    ensures r.Some? ==> r.value.style == (if s.style != "" then s.style else targetStyle)
  {
    var part := EditedPart(edit(i, EditRequestFor(targetStyle, s, snapshot)));
    if part.None? then None
    else
      var data := MediaImage.ImageData(part.value);
      Some(GeneratedImage(
        if s.name != "" then s.name else "Outfit " + NatToString(i + 1),
        s.description,
        "data:" + MediaImage.MimeType(part.value) + ";base64," + (if data.Some? then data.value else "undefined"),
        if s.items.Some? then s.items.value else [],
        if s.style != "" then s.style else targetStyle))
  }

  /** The images of the first `n` recommendations, in order, failures skipped. */
  function Collected(recs: seq<Suggestion>, n: nat, targetStyle: string, snapshot: seq<byte>,
                     edit: (nat, EditRequest) -> Option<MediaImage.GenerateResponse>): seq<GeneratedImage>
    requires n <= |recs|
  {
    if n == 0 then []
    else
      var img := ImageFor(n - 1, recs[n - 1], targetStyle, snapshot, edit);
      Collected(recs, n - 1, targetStyle, snapshot, edit) + (if img.Some? then [img.value] else [])
  }

  function Min(a: nat, b: nat): nat { if a < b then a else b }

  const MaxImages := 2

  /** The `for` loop over `i < Math.min(recommendations.length, 2)`. */
  method GenerateImages(recs: seq<Suggestion>, targetStyle: string, snapshot: seq<byte>,
                        edit: (nat, EditRequest) -> Option<MediaImage.GenerateResponse>)
    returns (generatedImages: seq<GeneratedImage>)
    ensures generatedImages == Collected(recs, Min(|recs|, MaxImages), targetStyle, snapshot, edit)
  {
    generatedImages := [];
    var i := 0;
    while i < Min(|recs|, MaxImages)
      invariant i <= Min(|recs|, MaxImages)
      invariant generatedImages == Collected(recs, i, targetStyle, snapshot, edit)
    {
      var image := ImageFor(i, recs[i], targetStyle, snapshot, edit);
      if image.Some? {
        generatedImages := generatedImages + [image.value];
      }
      i := i + 1;
    }
  }

  /** At most one image per attempted recommendation, and one for each that succeeds. */
  lemma {:induction false} CollectedCount(recs: seq<Suggestion>, n: nat, targetStyle: string, snapshot: seq<byte>,
                                          edit: (nat, EditRequest) -> Option<MediaImage.GenerateResponse>)
    requires n <= |recs|
    ensures |Collected(recs, n, targetStyle, snapshot, edit)| <= n
    ensures (forall i :: 0 <= i < n ==> ImageFor(i, recs[i], targetStyle, snapshot, edit).Some?) ==>
              |Collected(recs, n, targetStyle, snapshot, edit)| == n
  {
    if n > 0 {
      CollectedCount(recs, n - 1, targetStyle, snapshot, edit);
    }
  }

  /** Every collected image is the image of one attempted recommendation. */
  lemma {:induction false} CollectedFrom(recs: seq<Suggestion>, n: nat, targetStyle: string, snapshot: seq<byte>,
                                         edit: (nat, EditRequest) -> Option<MediaImage.GenerateResponse>, k: nat)
    requires n <= |recs| && k < |Collected(recs, n, targetStyle, snapshot, edit)|
    ensures exists i :: 0 <= i < n && ImageFor(i, recs[i], targetStyle, snapshot, edit) == Some(Collected(recs, n, targetStyle, snapshot, edit)[k])
  {
    var prev := Collected(recs, n - 1, targetStyle, snapshot, edit);
    if k < |prev| {
      CollectedFrom(recs, n - 1, targetStyle, snapshot, edit, k);
    } else {
      assert ImageFor(n - 1, recs[n - 1], targetStyle, snapshot, edit) == Some(Collected(recs, n, targetStyle, snapshot, edit)[k]);
    }
  }

  // ----------------------------------------------------------------------
  // The handler

  datatype RecommendationReply =
    | NoCapture                 // 400 "No capture data found"
    | Failed                    // 500 "Failed to generate recommendation"
    | Recommended(recommendations: seq<Suggestion>, generatedImages: seq<GeneratedImage>,
                  textRecommendation: string, matchingItems: nat, timestamp: string)  // 200 with `success: true`
  {
    function HttpStatus(): int {
      match this
      case NoCapture => 400
      case Failed => 500
      case Recommended(_, _, _, _, _) => 200
    }
  }

  /** `textParts?.map(part => part.text).join(' ') || ''`. */
  function AnswerText(response: MediaImage.GenerateResponse): string
    requires response.candidates.Some?
  {
    var text := MediaImage.TextOf(MediaImage.FirstCandidateParts(response.candidates.value));
    if text.Some? then text.value else ""
  }

  /**
   * The handler. `queried` tells whether the item query ran and `prompt`
   * is what the text model was asked; `generateText` is `None` when the
   * call throws; `now` is `new Date().toISOString()`.
   */
  method GenerateRecommendation(
    styleVibe: string,
    captures: Directory, listing: seq<string>,
    preferencesDir: Directory,
    items: seq<Items.Item>,
    generateText: TextRequest -> Option<MediaImage.GenerateResponse>,
    parse: string -> ParsedAnswer,
    edit: (nat, EditRequest) -> Option<MediaImage.GenerateResponse>,
    now: string)
    returns (reply: RecommendationReply, queried: bool, prompt: Option<RecommendationPrompt>)
    requires IsListingOf(listing, captures)
    ensures LoadCapture(captures, listing).None? <==> reply == NoCapture
    ensures reply == NoCapture ==> !queried && prompt.None?
    ensures LoadCapture(captures, listing).Some? ==>
              var capture := LoadCapture(captures, listing).value;
              var color, style, item := ColorOf(capture.analysis), StyleOf(capture.analysis), ItemOf(capture.analysis);
              var matching := Query(items, color, style, item);
              var target := TargetStyle(styleVibe, style);
              && queried
              && prompt == Some(PromptFor(color, style, item, matching, LoadPreferences(preferencesDir), target))
              && var response := generateText(TextRequest(prompt.value, TextModel));
                 if response.None? || response.value.candidates.None? || capture.snapshot.None? then reply == Failed
                 else
                   var text := AnswerText(response.value);
                   var recs := Suggestions(text, parse);
                   reply == Recommended(recs, Collected(recs, Min(|recs|, MaxImages), target, capture.snapshot.value, edit), text, |matching|, now)
    ensures LoadCapture(captures, listing).Some? && (forall t :: generateText(t).None?) ==> reply == Failed
  {
    queried, prompt := false, None;
    var captureData := LoadCapture(captures, listing);
    if captureData.None? {
      return NoCapture, queried, prompt;
    }
    var preferences := LoadPreferences(preferencesDir);
    var analysis := captureData.value.analysis;
    var color, style, item := ColorOf(analysis), StyleOf(analysis), ItemOf(analysis);
    var matchingItems := Query(items, color, style, item);
    queried := true;
    var targetStyle := TargetStyle(styleVibe, style);
    prompt := Some(PromptFor(color, style, item, matchingItems, preferences, targetStyle));
    var textResponse := generateText(TextRequest(prompt.value, TextModel));
    if textResponse.None? || textResponse.value.candidates.None? {
      return Failed, queried, prompt;
    }
    var recommendationText := AnswerText(textResponse.value);
    var recommendations := Suggestions(recommendationText, parse);
    if captureData.value.snapshot.None? {
      // `captureData.snapshot.replace(…)` throws on the missing snapshot
      return Failed, queried, prompt;
    }
    var generatedImages := GenerateImages(recommendations, targetStyle, captureData.value.snapshot.value, edit);
    reply := Recommended(recommendations, generatedImages, recommendationText, |matchingItems|, now);
  }
}
