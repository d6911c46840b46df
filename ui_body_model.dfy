/**
 * The body model component. The selected part belongs to the page and is
 * changed through a toggle: clicking the selected part clears the
 * selection, clicking any other part selects it. The component's own view
 * state is the rotation in degrees, the zoom and the hovered part; every
 * handler replaces the previous value with a new one.
 *
 * The zoom factor is kept in integer tenths: 10 is a factor of 1.0, and the
 * clamps at 0.8 and 1.3 are 8 and 13.
 */
module UiBodyModel {
  import opened Common

  datatype BodyPartInfo = BodyPartInfo(id: string, name: string, description: string)

  /** The clickable parts, in the order their pills are shown. */
  const BodyParts: seq<BodyPartInfo> := [
    BodyPartInfo("head", "Head", "Accessories, hair, eyewear"),
    BodyPartInfo("torso", "Torso", "Tops, jackets, shirts"),
    BodyPartInfo("arms", "Arms", "Sleeves, watches, bracelets"),
    BodyPartInfo("legs", "Legs", "Pants, shorts, skirts"),
    BodyPartInfo("feet", "Feet", "Shoes, sneakers, boots")
  ]

  predicate IsPartId(id: string) {
    exists k :: 0 <= k < |BodyParts| && BodyParts[k].id == id
  }

  /** The five parts have distinct ids, exactly head, torso, arms, legs and feet. */
  lemma PartIds()
    ensures |BodyParts| == 5
    ensures forall i, j :: 0 <= i < j < |BodyParts| ==> BodyParts[i].id != BodyParts[j].id
    ensures forall id :: IsPartId(id) <==> id in {"head", "torso", "arms", "legs", "feet"}
  {
    forall id | id in {"head", "torso", "arms", "legs", "feet"} ensures IsPartId(id) {
      var k := if id == "head" then 0 else if id == "torso" then 1 else if id == "arms" then 2
               else if id == "legs" then 3 else 4;
      assert BodyParts[k].id == id;
    }
  }

  // ----------------------------------------------------------------------
  // Selection

  /** The eight drawn shapes of the silhouette. */
  datatype Shape = Head | Torso | LeftArm | RightArm | LeftLeg | RightLeg | LeftFoot | RightFoot

  function PartOfShape(s: Shape): string {
    match s
    case Head => "head"
    case Torso => "torso"
    case LeftArm | RightArm => "arms"
    case LeftLeg | RightLeg => "legs"
    case LeftFoot | RightFoot => "feet"
  }

  function ClickShape(selected: Option<string>, s: Shape): (r: Option<string>)
    ensures r.None? <==> selected == Some(PartOfShape(s))
    ensures r.Some? ==> r.value == PartOfShape(s)
  {
    ToggledChoice(selected, PartOfShape(s))
  }

  function ClickPill(selected: Option<string>, k: nat): (r: Option<string>)
    requires k < |BodyParts|
    ensures r.None? <==> selected == Some(BodyParts[k].id)
    ensures r.Some? ==> r.value == BodyParts[k].id
  {
    ToggledChoice(selected, BodyParts[k].id)
  }

  /**
   * The two shapes of a pair select the same part, every shape selects one
   * of the five parts, and clicking a shape acts like clicking that part's pill.
   */
  lemma ShapesSelectParts(selected: Option<string>)
    ensures ClickShape(selected, LeftArm) == ClickShape(selected, RightArm) == ClickPill(selected, 2)
    ensures ClickShape(selected, LeftLeg) == ClickShape(selected, RightLeg) == ClickPill(selected, 3)
    ensures ClickShape(selected, LeftFoot) == ClickShape(selected, RightFoot) == ClickPill(selected, 4)
    ensures ClickShape(selected, Head) == ClickPill(selected, 0)
    ensures ClickShape(selected, Torso) == ClickPill(selected, 1)
    ensures forall s :: IsPartId(PartOfShape(s))
  {
    forall s ensures IsPartId(PartOfShape(s)) {
      var k := match s
        case Head => 0
        case Torso => 1
        case LeftArm | RightArm => 2
        case LeftLeg | RightLeg => 3
        case LeftFoot | RightFoot => 4;
      assert BodyParts[k].id == PartOfShape(s);
    }
  }

  // ----------------------------------------------------------------------
  // The floating label

  /** `bodyParts.find(p => p.id === id)`. */
  function FindPart(id: string): (r: Option<BodyPartInfo>)
    ensures r.Some? <==> IsPartId(id)
    ensures r.Some? ==> r.value.id == id && r.value in BodyParts
  {
    FindFrom(id, 0)
  }

  function FindFrom(id: string, k: nat): (r: Option<BodyPartInfo>)
    requires k <= |BodyParts|
    ensures r.Some? <==> exists j :: k <= j < |BodyParts| && BodyParts[j].id == id
    ensures r.Some? ==> r.value.id == id && r.value in BodyParts
    decreases |BodyParts| - k
  {
    if k == |BodyParts| then None
    else if BodyParts[k].id == id then Some(BodyParts[k])
    else FindFrom(id, k + 1)
  }

  /** The label shown for `hoveredPart || selectedBodyPart`, if any. */
  function Label(hovered: Option<string>, selected: Option<string>): (r: Option<BodyPartInfo>)
    ensures Truthy(hovered) ==> r == FindPart(hovered.value)
    ensures !Truthy(hovered) && Truthy(selected) ==> r == FindPart(selected.value)
    ensures !Truthy(hovered) && !Truthy(selected) ==> r.None?
    ensures r.Some? ==> Some(r.value.id) in {hovered, selected}
  {
    if Truthy(hovered) then FindPart(hovered.value)
    else if Truthy(selected) then FindPart(selected.value)
    else None
  }

  /** While a part is hovered its label is shown, whatever is selected. */
  lemma HoveredLabelWins(hovered: string, selected: Option<string>)
    requires IsPartId(hovered)
    ensures Label(Some(hovered), selected).Some?
    ensures Label(Some(hovered), selected).value.id == hovered
  {
  }

  // ----------------------------------------------------------------------
  // Rotation and zoom

  const RotationStep := 45
  const InitialZoom := 10
  const MinZoom := 8
  const MaxZoom := 13

  datatype View = View(rotation: int, zoom: int, hovered: Option<string>)

  const InitialView := View(0, InitialZoom, None)

  datatype ViewEvent = Rotate | ZoomIn | ZoomOut | Enter(part: string) | Leave

  function ZoomInOf(z: int): (r: int)
    ensures r <= MaxZoom
    ensures z < MaxZoom ==> r == z + 1
    ensures z >= MaxZoom ==> r == MaxZoom
  {
    if z + 1 < MaxZoom then z + 1 else MaxZoom
  }

  function ZoomOutOf(z: int): (r: int)
    ensures r >= MinZoom
    ensures z > MinZoom ==> r == z - 1
    ensures z <= MinZoom ==> r == MinZoom
  {
    if z - 1 > MinZoom then z - 1 else MinZoom
  }

  /** The view after one handler runs. */
  function Step(v: View, e: ViewEvent): (r: View)
    ensures e.Rotate? ==> r == v.(rotation := v.rotation + RotationStep)
    ensures !e.Rotate? ==> r.rotation == v.rotation
    ensures e.ZoomIn? ==> r == v.(zoom := ZoomInOf(v.zoom))
    ensures e.ZoomOut? ==> r == v.(zoom := ZoomOutOf(v.zoom))
    ensures e.Enter? ==> r == v.(hovered := Some(e.part))
    ensures e.Leave? ==> r == v.(hovered := None)
    ensures MinZoom <= v.zoom <= MaxZoom ==> MinZoom <= r.zoom <= MaxZoom
  {
    match e
    case Rotate => v.(rotation := v.rotation + RotationStep)
    case ZoomIn => v.(zoom := ZoomInOf(v.zoom))
    case ZoomOut => v.(zoom := ZoomOutOf(v.zoom))
    case Enter(p) => v.(hovered := Some(p))
    case Leave => v.(hovered := None)
  }

  function Run(v: View, events: seq<ViewEvent>): View
    decreases |events|
  {
    if |events| == 0 then v else Run(Step(v, events[0]), events[1..])
  }

  function Rotations(events: seq<ViewEvent>): nat {
    if |events| == 0 then 0 else (if events[0].Rotate? then 1 else 0) + Rotations(events[1..])
  }

  /**
   * From any view whose zoom is in range, every sequence of handler runs
   * keeps the zoom in [0.8, 1.3] and turns the model by 45 degrees per rotate.
   */
  lemma {:induction false} RunInvariant(v: View, events: seq<ViewEvent>)
    requires MinZoom <= v.zoom <= MaxZoom
    ensures MinZoom <= Run(v, events).zoom <= MaxZoom
    ensures Run(v, events).rotation == v.rotation + RotationStep * Rotations(events)
    decreases |events|
  {
    if |events| > 0 {
      RunInvariant(Step(v, events[0]), events[1..]);
    }
  }

  /** The initial view is in range, so every reachable view is. */
  lemma ReachableViews(events: seq<ViewEvent>)
    ensures MinZoom <= Run(InitialView, events).zoom <= MaxZoom
    ensures Run(InitialView, events).rotation == RotationStep * Rotations(events)
  {
    RunInvariant(InitialView, events);
  }

  /** Three zoom-ins reach the maximum, and a fourth changes nothing. */
  lemma ZoomSaturates()
    ensures Run(InitialView, [ZoomIn, ZoomIn, ZoomIn]).zoom == MaxZoom
    ensures Run(InitialView, [ZoomIn, ZoomIn, ZoomIn, ZoomIn]).zoom == MaxZoom
    ensures Run(InitialView, [ZoomOut, ZoomOut, ZoomOut]).zoom == MinZoom
  {
    assert [ZoomIn, ZoomIn, ZoomIn][1..] == [ZoomIn, ZoomIn];
    assert [ZoomIn, ZoomIn][1..] == [ZoomIn];
    assert [ZoomIn, ZoomIn, ZoomIn, ZoomIn][1..] == [ZoomIn, ZoomIn, ZoomIn];
    assert [ZoomOut, ZoomOut, ZoomOut][1..] == [ZoomOut, ZoomOut];
    assert [ZoomOut, ZoomOut][1..] == [ZoomOut];
  }
}
