/**
 * The outfit previews: a fixed table of outfits per style vibe, and the
 * component's state, which is the playing outfit id and the set of liked
 * outfit ids (`null` modelled as `None`). A play click toggles the playing
 * id with the same rule as a body-part click, `Common.ToggledChoice`.
 */
module UiOutfits {
  import opened Common

  datatype Outfit = Outfit(id: int, name: string, thumbnail: string, duration: string)

  const StreetOutfits := [
    Outfit(1, "Urban Oversized", "gradient-1", "0:08"),
    Outfit(2, "Layered Streetwear", "gradient-2", "0:12")
  ]
  const FormalOutfits := [
    Outfit(1, "Classic Tailored", "gradient-1", "0:10"),
    Outfit(2, "Modern Minimalist", "gradient-2", "0:08")
  ]
  const SportyOutfits := [
    Outfit(1, "Performance Fit", "gradient-1", "0:09"),
    Outfit(2, "Athletic Luxe", "gradient-2", "0:11")
  ]

  /** `outfitsByVibe[selectedVibe] || outfitsByVibe.street`. */
  function OutfitsFor(vibe: string): (r: seq<Outfit>)
    ensures vibe == "formal" ==> r == FormalOutfits
    ensures vibe == "sporty" ==> r == SportyOutfits
    ensures vibe !in {"formal", "sporty"} ==> r == StreetOutfits
    ensures |r| == 2 && r[0].id == 1 && r[1].id == 2
  {
    match vibe
    case "street" => StreetOutfits
    case "formal" => FormalOutfits
    case "sporty" => SportyOutfits
    case _ => StreetOutfits
  }

  /** The "manual" vibe has no table of its own and shows the street outfits. */
  lemma ManualShowsStreet()
    ensures OutfitsFor("manual") == OutfitsFor("street")
  {
  }

  /** Whatever is playing and whichever table is shown, at most one outfit is shown as playing. */
  lemma AtMostOnePlaying(vibe: string, playing: Option<int>)
    ensures var outfits := OutfitsFor(vibe);
            forall i, j ::
              (0 <= i < |outfits| && 0 <= j < |outfits| &&
               Some(outfits[i].id) == playing && Some(outfits[j].id) == playing) ==> i == j
  {
  }

  /** Clicking play on an outfit while another plays makes the clicked one the only one playing. */
  lemma PlayReplaces(vibe: string, playing: Option<int>, k: nat)
    requires k < |OutfitsFor(vibe)|
    requires playing != Some(OutfitsFor(vibe)[k].id)
    ensures var outfits := OutfitsFor(vibe);
            forall j :: 0 <= j < |outfits| ==>
              (Some(outfits[j].id) == ToggledChoice(playing, outfits[k].id) <==> j == k)
  {
  }

  class OutfitPreviews {
    var playingId: Option<int>
    var likedIds: set<int>

    constructor ()
      ensures playingId.None? && likedIds == {}
    {
      playingId := None;
      likedIds := {};
    }

    /** `toggleLike`: copy the set, then delete the id if present, otherwise add it. */
    method ToggleLike(id: int)
      modifies this
      ensures likedIds == Toggled(old(likedIds), id)
      ensures playingId == old(playingId)
    {
      var next := likedIds;
      if id in next {
        next := next - {id};
      } else {
        next := next + {id};
      }
      likedIds := next;
    }

    /** The play/pause button of outfit `id`. */
    method TogglePlay(id: int)
      modifies this
      ensures playingId == ToggledChoice(old(playingId), id)
      ensures likedIds == old(likedIds)
    {
      playingId := if playingId == Some(id) then None else Some(id);
    }
  }
}
