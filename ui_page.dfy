/**
 * The page component: its two pieces of state (the selected style vibe and
 * the selected body part, `null` modelled as `None`) and the two mappings
 * it hands to the camera preview, from a body part to an item category and
 * from a vibe to an analysis label.
 */
module UiPage {
  import opened Common
  import Recommendation

  const InitialVibe := "street"
  const InitialBodyPart: Option<string> := None

  /** `getSelectedItem`: the item category for the selected body part; `undefined` is `None`. */
  function SelectedItem(bodyPart: Option<string>): (r: Option<string>)
    ensures r.Some? <==> bodyPart in {Some("torso"), Some("legs"), Some("feet")}
    ensures r.Some? ==> r.value in {"tops", "bottoms", "shoes"}
    ensures bodyPart == Some("torso") ==> r == Some("tops")
    ensures bodyPart == Some("legs") ==> r == Some("bottoms")
    ensures bodyPart == Some("feet") ==> r == Some("shoes")
  {
    match bodyPart
    case Some("torso") => Some("tops")
    case Some("legs") => Some("bottoms")
    case Some("feet") => Some("shoes")
    case _ => None
  }

  /** `getSelectedVibe`: the analysis label for the selected vibe, "formal" for any other. */
  function SelectedVibe(vibe: string): (r: string)
    ensures r in {"streetwear", "formal", "active"}
    ensures r == "streetwear" <==> vibe == "street"
    ensures r == "active" <==> vibe == "sporty"
    ensures vibe !in {"street", "sporty"} ==> r == "formal"
  {
    match vibe
    case "street" => "streetwear"
    case "formal" => "formal"
    case "sporty" => "active"
    case _ => "formal"
  }

  /** The five body parts map to three distinct categories; head and arms have none. */
  lemma SelectedItemOfParts()
    ensures SelectedItem(Some("head")).None? && SelectedItem(Some("arms")).None?
    ensures SelectedItem(InitialBodyPart).None?
    ensures forall p, q :: SelectedItem(p).Some? && SelectedItem(p) == SelectedItem(q) ==> p == q
  {
  }

  /** On first render the preview is asked for streetwear and no item category. */
  lemma InitialSelection()
    ensures SelectedVibe(InitialVibe) == "streetwear"
    ensures SelectedItem(InitialBodyPart) == None
  {
  }

  /**
   * The page's label agrees with the style the recommendation handler targets
   * for the three named vibes, and not for "manual", which the page sends as
   * "formal" while the handler maps it to "custom".
   */
  lemma VibeLabelMatchesTargetStyle(vibe: string, style: string)
    ensures vibe in {"street", "formal", "sporty"} ==>
              SelectedVibe(vibe) == Recommendation.TargetStyle(vibe, style)
    ensures SelectedVibe("manual") == "formal" && Recommendation.TargetStyle("manual", style) == "custom"
  {
  }
}
