/**
 * The annotations panel. Its own state is the comment being typed and the
 * set of expanded annotation ids; the annotations themselves and the
 * selected body part belong to the parent and arrive as inputs. Adding a
 * note hands `(bodyPart, comment)` to the parent's callback, which is
 * modelled as the note the handler returns.
 *
 * For display the annotations are grouped by body part: one group per body
 * part that occurs, groups in order of first occurrence (the insertion
 * order of the accumulator's keys), each group in list order.
 */
module UiAnnotations {
  import opened Common

  datatype Annotation = Annotation(id: string, bodyPart: string, comment: string, timestamp: int)

  /** The arguments of one `onAddAnnotation` call. */
  datatype NewNote = NewNote(bodyPart: string, comment: string)

  /** The guard of `handleAddComment`. */
  predicate CanAdd(selected: Option<string>, commentText: string) {
    Truthy(selected) && TrimIsNonEmpty(commentText)
  }

  /** A comment made only of white space is never added, whatever is selected. */
  lemma BlankCommentNeverAdds(selected: Option<string>, commentText: string)
    requires forall k :: 0 <= k < |commentText| ==> IsWhitespace(commentText[k])
    ensures !CanAdd(selected, commentText)
  {
  }

  class AnnotationsPanel {
    var commentText: string
    var expanded: set<string>

    constructor ()
      ensures commentText == "" && expanded == {}
    {
      commentText := "";
      expanded := {};
    }

    /** Typing into the input. */
    method SetCommentText(text: string)
      modifies this
      ensures commentText == text && expanded == old(expanded)
    {
      commentText := text;
    }

    /**
     * `handleAddComment`: when a body part is selected and the trimmed text
     * is non-empty, the untrimmed text is handed on and the input cleared;
     * otherwise nothing happens.
     */
    method HandleAddComment(selected: Option<string>) returns (added: Option<NewNote>)
      modifies this
      ensures CanAdd(selected, old(commentText)) ==>
                added == Some(NewNote(selected.value, old(commentText))) && commentText == ""
      ensures !CanAdd(selected, old(commentText)) ==> added.None? && commentText == old(commentText)
      ensures expanded == old(expanded)
    {
      added := None;
      if CanAdd(selected, commentText) {
        added := Some(NewNote(selected.value, commentText));
        commentText := "";
      }
    }

    /** `toggleExpanded`: copy the set, then delete the id if present, otherwise add it. */
    method ToggleExpanded(id: string)
      modifies this
      ensures expanded == Toggled(old(expanded), id)
      ensures commentText == old(commentText)
    {
      var next := expanded;
      if id in next {
        next := next - {id};
      } else {
        next := next + {id};
      }
      expanded := next;
    }
  }

  // ----------------------------------------------------------------------
  // Grouping by body part

  /** The annotations of one body part, in list order. */
  function GroupOf(annotations: seq<Annotation>, part: string): (r: seq<Annotation>)
    ensures |r| <= |annotations|
    ensures forall m :: 0 <= m < |r| ==> r[m].bodyPart == part
    ensures |r| == 0 <==> forall k :: 0 <= k < |annotations| ==> annotations[k].bodyPart != part
    decreases |annotations|
  {
    if |annotations| == 0 then []
    else
      var n := |annotations| - 1;
      GroupOf(annotations[..n], part) + (if annotations[n].bodyPart == part then [annotations[n]] else [])
  }

  /** Some annotation is on the body part. */
  predicate Occurs(annotations: seq<Annotation>, part: string) {
    exists k :: 0 <= k < |annotations| && annotations[k].bodyPart == part
  }

  /** The body parts that occur, each once, in order of first occurrence. */
  function Appearing(annotations: seq<Annotation>): (r: seq<string>)
    ensures forall p :: p in r <==> exists k :: 0 <= k < |annotations| && annotations[k].bodyPart == p
    ensures forall i :: 0 <= i < |r| ==> Occurs(annotations, r[i])
    ensures forall i, j :: 0 <= i < j < |r| ==> r[i] != r[j]
    ensures |r| == 0 <==> |annotations| == 0
    decreases |annotations|
  {
    if |annotations| == 0 then []
    else
      var n := |annotations| - 1;
      var prev := Appearing(annotations[..n]);
      assert forall k :: 0 <= k < n ==> annotations[..n][k] == annotations[k];
      if annotations[n].bodyPart in prev then prev else prev + [annotations[n].bodyPart]
  }

  /** The position of the first annotation of a body part that occurs. */
  function FirstIndex(annotations: seq<Annotation>, part: string): (k: nat)
    requires Occurs(annotations, part)
    ensures k < |annotations| && annotations[k].bodyPart == part
    ensures forall m :: 0 <= m < k ==> annotations[m].bodyPart != part
    decreases |annotations|
  {
    var n := |annotations| - 1;
    if exists k :: 0 <= k < n && annotations[k].bodyPart == part then
      assert forall k :: 0 <= k < n ==> annotations[..n][k] == annotations[k];
      assert Occurs(annotations[..n], part);
      FirstIndex(annotations[..n], part)
    else n
  }

  /** A body part that already occurs keeps its first position when the list grows. */
  lemma FirstIndexSnoc(init: seq<Annotation>, a: Annotation, part: string)
    requires Occurs(init, part)
    ensures Occurs(init + [a], part)
    ensures FirstIndex(init + [a], part) == FirstIndex(init, part)
  {
    var all := init + [a];
    var g := FirstIndex(init, part);
    assert all[g] == init[g];
    var f := FirstIndex(all, part);
  }

  /** Every key occurs, and the keys come in the order their body parts first occur in the list. */
  predicate InFirstOccurrenceOrder(annotations: seq<Annotation>, keys: seq<string>) {
    && (forall i :: 0 <= i < |keys| ==> Occurs(annotations, keys[i]))
    && (forall i, j :: 0 <= i < j < |keys| ==> FirstIndex(annotations, keys[i]) < FirstIndex(annotations, keys[j]))
  }

  /** The keys come in the order their body parts first occur in the list. */
  lemma {:induction false} AppearingInFirstOccurrenceOrder(annotations: seq<Annotation>)
    ensures forall i, j :: 0 <= i < j < |Appearing(annotations)| ==>
              FirstIndex(annotations, Appearing(annotations)[i]) < FirstIndex(annotations, Appearing(annotations)[j])
    ensures InFirstOccurrenceOrder(annotations, Appearing(annotations))
    decreases |annotations|
  {
    var r := Appearing(annotations);
    if |annotations| > 0 {
      var n := |annotations| - 1;
      var init, last := annotations[..n], annotations[n];
      var prev := Appearing(init);
      assert annotations == init + [last];
      AppearingInFirstOccurrenceOrder(init);
      forall i | 0 <= i < |prev|
        ensures FirstIndex(annotations, prev[i]) == FirstIndex(init, prev[i])
      {
        FirstIndexSnoc(init, last, prev[i]);
      }
      if last.bodyPart !in prev {
        assert r == prev + [last.bodyPart];
        assert FirstIndex(annotations, last.bodyPart) == n;
        forall i, j | 0 <= i < j < |r|
          ensures FirstIndex(annotations, r[i]) < FirstIndex(annotations, r[j])
        {
          assert r[i] == prev[i];
          if j < |prev| {
            assert r[j] == prev[j];
            assert FirstIndex(init, prev[i]) < FirstIndex(init, prev[j]);
            assert FirstIndex(annotations, prev[i]) == FirstIndex(init, prev[i]);
            assert FirstIndex(annotations, prev[j]) == FirstIndex(init, prev[j]);
          } else {
            assert r[j] == last.bodyPart;
            assert FirstIndex(annotations, prev[i]) == FirstIndex(init, prev[i]) < n;
          }
        }
      }
    }
  }

  /** The positions of the annotations of one body part, in list order. */
  function GroupPositions(annotations: seq<Annotation>, part: string): (r: seq<nat>)
    ensures |r| == |GroupOf(annotations, part)|
    decreases |annotations|
  {
    if |annotations| == 0 then []
    else
      var n := |annotations| - 1;
      GroupPositions(annotations[..n], part) + (if annotations[n].bodyPart == part then [n] else [])
  }

  /** `g` is the list's members at positions `pos`, taken in increasing order. */
  predicate IsOrderedSelection(annotations: seq<Annotation>, pos: seq<nat>, g: seq<Annotation>) {
    && |pos| == |g|
    && (forall m :: 0 <= m < |pos| ==> pos[m] < |annotations| && annotations[pos[m]] == g[m])
    && (forall m1, m2 :: 0 <= m1 < m2 < |pos| ==> pos[m1] < pos[m2])
  }

  /** A group keeps the relative order its members have in the list. */
  lemma {:induction false} GroupIsOrderedSelection(annotations: seq<Annotation>, part: string)
    ensures IsOrderedSelection(annotations, GroupPositions(annotations, part), GroupOf(annotations, part))
    decreases |annotations|
  {
    if |annotations| > 0 {
      var n := |annotations| - 1;
      var init := annotations[..n];
      assert annotations == init + [annotations[n]];
      GroupIsOrderedSelection(init, part);
      SelectionExtend(init, annotations[n], GroupPositions(init, part), GroupOf(init, part));
    }
  }

  /** An ordered selection stays one when the list grows, with or without its new last member. */
  lemma SelectionExtend(init: seq<Annotation>, a: Annotation, pos: seq<nat>, g: seq<Annotation>)
    requires IsOrderedSelection(init, pos, g)
    ensures IsOrderedSelection(init + [a], pos, g)
    ensures IsOrderedSelection(init + [a], pos + [|init|], g + [a])
  {
    var all := init + [a];
    assert forall m :: 0 <= m < |pos| ==> all[pos[m]] == init[pos[m]];
  }

  /** Every annotation of the body part is in the group. */
  lemma {:induction false} GroupIsComplete(annotations: seq<Annotation>, part: string, k: nat)
    requires k < |annotations| && annotations[k].bodyPart == part
    ensures k in GroupPositions(annotations, part)
    decreases |annotations|
  {
    var n := |annotations| - 1;
    var init := annotations[..n];
    var prev := GroupPositions(init, part);
    assert GroupPositions(annotations, part) == prev + (if annotations[n].bodyPart == part then [n] else []);
    if k < n {
      assert init[k] == annotations[k];
      GroupIsComplete(init, part, k);
    }
  }

  /**
   * `groupedAnnotations`: the `reduce` that pushes each annotation onto its
   * body part's array, creating the array on first sight. `keys` is the
   * order `Object.entries` lists the groups in.
   */
  method GroupAnnotations(annotations: seq<Annotation>) returns (keys: seq<string>, groups: map<string, seq<Annotation>>)
    ensures keys == Appearing(annotations)
    ensures forall p :: p in groups <==> p in keys
    ensures forall p :: p in groups ==> groups[p] == GroupOf(annotations, p)
    ensures |keys| == 0 <==> |annotations| == 0
    ensures InFirstOccurrenceOrder(annotations, keys)
  {
    keys := [];
    groups := map[];
    var i := 0;
    while i < |annotations|
      invariant 0 <= i <= |annotations|
      invariant keys == Appearing(annotations[..i])
      invariant forall p :: p in groups <==> p in keys
      invariant forall p :: p in groups ==> groups[p] == GroupOf(annotations[..i], p)
    {
      var a := annotations[i];
      assert annotations[..i + 1][..i] == annotations[..i];
      if a.bodyPart !in groups {
        groups := groups[a.bodyPart := []];
        keys := keys + [a.bodyPart];
      }
      groups := groups[a.bodyPart := groups[a.bodyPart] + [a]];
      i := i + 1;
    }
    assert annotations[..i] == annotations;
    AppearingInFirstOccurrenceOrder(annotations);
  }

  /** The sizes of the groups named by `keys`. */
  function GroupSizes(annotations: seq<Annotation>, keys: seq<string>): nat {
    if |keys| == 0 then 0 else |GroupOf(annotations, keys[0])| + GroupSizes(annotations, keys[1..])
  }

  function Occurrences(keys: seq<string>, p: string): nat {
    if |keys| == 0 then 0 else (if keys[0] == p then 1 else 0) + Occurrences(keys[1..], p)
  }

  lemma {:induction false} OccursOnce(keys: seq<string>, p: string)
    requires forall i, j :: 0 <= i < j < |keys| ==> keys[i] != keys[j]
    requires p in keys
    ensures Occurrences(keys, p) == 1
  {
    if keys[0] == p {
      OccursNot(keys[1..], p);
    } else {
      OccursOnce(keys[1..], p);
    }
  }

  lemma {:induction false} OccursNot(keys: seq<string>, p: string)
    requires p !in keys
    ensures Occurrences(keys, p) == 0
  {
    if |keys| > 0 {
      OccursNot(keys[1..], p);
    }
  }

  lemma {:induction false} SizesOfEmpty(keys: seq<string>)
    ensures GroupSizes([], keys) == 0
  {
    if |keys| > 0 {
      SizesOfEmpty(keys[1..]);
    }
  }

  /** Appending one annotation grows the group sizes by the number of keys naming its body part. */
  lemma {:induction false} SizesSnoc(annotations: seq<Annotation>, a: Annotation, keys: seq<string>)
    ensures GroupSizes(annotations + [a], keys) == GroupSizes(annotations, keys) + Occurrences(keys, a.bodyPart)
  {
    if |keys| > 0 {
      assert (annotations + [a])[..|annotations|] == annotations;
      SizesSnoc(annotations, a, keys[1..]);
    }
  }

  /** With distinct keys covering every body part that occurs, the group sizes add up to the list's length. */
  lemma {:induction false} SizesCover(annotations: seq<Annotation>, keys: seq<string>)
    requires forall i, j :: 0 <= i < j < |keys| ==> keys[i] != keys[j]
    requires forall k :: 0 <= k < |annotations| ==> annotations[k].bodyPart in keys
    ensures GroupSizes(annotations, keys) == |annotations|
    decreases |annotations|
  {
    if |annotations| == 0 {
      SizesOfEmpty(keys);
    } else {
      var n := |annotations| - 1;
      var init := annotations[..n];
      assert annotations == init + [annotations[n]];
      SizesCover(init, keys);
      SizesSnoc(init, annotations[n], keys);
      OccursOnce(keys, annotations[n].bodyPart);
    }
  }

  /** The counts shown per group add up to the "Total notes" figure. */
  lemma GroupSizesSum(annotations: seq<Annotation>)
    ensures GroupSizes(annotations, Appearing(annotations)) == |annotations|
  {
    SizesCover(annotations, Appearing(annotations));
  }

  /** Each annotation is shown in its own body part's group and in no other. */
  lemma EachInItsGroup(annotations: seq<Annotation>, k: nat)
    requires k < |annotations|
    ensures annotations[k] in GroupOf(annotations, annotations[k].bodyPart)
    ensures forall p :: p != annotations[k].bodyPart ==> annotations[k] !in GroupOf(annotations, p)
  {
    var part := annotations[k].bodyPart;
    GroupIsComplete(annotations, part, k);
    GroupIsOrderedSelection(annotations, part);
    var pos := GroupPositions(annotations, part);
    var m :| 0 <= m < |pos| && pos[m] == k;
    assert GroupOf(annotations, part)[m] == annotations[k];
  }
}
