/**
 * `createItemSchema`: a Zod object schema over the five item fields.
 * `color`, `item` and `style` must be strings of length at least 1;
 * `productLink` and `imageLink` must be strings that parse as URLs. Zod
 * checks every field and reports one issue per failing field, in the
 * schema's field order; unknown keys are dropped from the parsed value.
 *
 * Whether a string parses as a URL (the WHATWG `URL` constructor Zod
 * calls) is an oracle parameter.
 */
module ItemValidator {
  import opened Common

  /** A request body member: missing, a string, or some other JSON value. */
  datatype JsValue = Missing | Str(s: string) | NonString

  datatype ItemInput = ItemInput(color: JsValue, item: JsValue, style: JsValue, productLink: JsValue, imageLink: JsValue)

  /** The parsed value: the five fields, nothing else. */
  datatype ValidItem = ValidItem(color: string, item: string, style: string, productLink: string, imageLink: string)

  datatype IssueCode =
    | InvalidType   // "Required" for a missing member, "Expected string" otherwise
    | TooSmall      // `min(1)` on the empty string
    | InvalidUrl    // `url()` on a string that does not parse

  datatype Issue = Issue(path: string, code: IssueCode)

  /** `z.string().min(1)` on one member. */
  function CheckNonEmpty(field: string, v: JsValue): (r: Option<Issue>)
    ensures r.None? <==> v.Str? && |v.s| >= 1
    ensures r.Some? ==> r.value.path == field
    ensures r.Some? ==> (r.value.code == InvalidType <==> !v.Str?)
  {
    match v
    case Str(s) => if |s| >= 1 then None else Some(Issue(field, TooSmall))
    case _ => Some(Issue(field, InvalidType))
  }

  /** `z.string().url()` on one member. */
  function CheckUrl(field: string, v: JsValue, urlParses: string -> bool): (r: Option<Issue>)
    ensures r.None? <==> v.Str? && urlParses(v.s)
    ensures r.Some? ==> r.value.path == field
    ensures r.Some? ==> (r.value.code == InvalidType <==> !v.Str?)
  {
    match v
    case Str(s) => if urlParses(s) then None else Some(Issue(field, InvalidUrl))
    case _ => Some(Issue(field, InvalidType))
  }

  function AsSeq(o: Option<Issue>): seq<Issue> {
    if o.Some? then [o.value] else []
  }

  /** The issues of the five checks, in field order. */
  function Issues(input: ItemInput, urlParses: string -> bool): seq<Issue> {
    AsSeq(CheckNonEmpty("color", input.color))
    + AsSeq(CheckNonEmpty("item", input.item))
    + AsSeq(CheckNonEmpty("style", input.style))
    + AsSeq(CheckUrl("productLink", input.productLink, urlParses))
    + AsSeq(CheckUrl("imageLink", input.imageLink, urlParses))
  }

  predicate IsValid(input: ItemInput, urlParses: string -> bool) {
    && input.color.Str? && |input.color.s| >= 1
    && input.item.Str? && |input.item.s| >= 1
    && input.style.Str? && |input.style.s| >= 1
    && input.productLink.Str? && urlParses(input.productLink.s)
    && input.imageLink.Str? && urlParses(input.imageLink.s)
  }

  /** `createItemSchema.parse`: the parsed item, or the thrown error's issues. */
  function Parse(input: ItemInput, urlParses: string -> bool): (r: Result<ValidItem, seq<Issue>>)
    ensures r.Ok? <==> IsValid(input, urlParses)
    ensures r.Ok? ==> r.value == ValidItem(input.color.s, input.item.s, input.style.s,
                                           input.productLink.s, input.imageLink.s)
    ensures r.Err? ==> |r.error| > 0
    ensures r.Err? ==> forall k :: 0 <= k < |r.error| ==>
                         r.error[k].path in {"color", "item", "style", "productLink", "imageLink"}
  {
    var issues := Issues(input, urlParses);
    if |issues| == 0 then
      Ok(ValidItem(input.color.s, input.item.s, input.style.s, input.productLink.s, input.imageLink.s))
    else
      Err(issues)
  }

  /** A missing member fails validation with an `InvalidType` issue naming it. */
  lemma MissingFieldFails(input: ItemInput, urlParses: string -> bool)
    requires input.color.Missing? || input.item.Missing? || input.style.Missing?
             || input.productLink.Missing? || input.imageLink.Missing?
    ensures Parse(input, urlParses).Err?
    ensures exists k :: 0 <= k < |Issues(input, urlParses)| && Issues(input, urlParses)[k].code == InvalidType
  {
    var c, i, s := CheckNonEmpty("color", input.color), CheckNonEmpty("item", input.item), CheckNonEmpty("style", input.style);
    var p, m := CheckUrl("productLink", input.productLink, urlParses), CheckUrl("imageLink", input.imageLink, urlParses);
    var all := Issues(input, urlParses);
    assert all == AsSeq(c) + AsSeq(i) + AsSeq(s) + AsSeq(p) + AsSeq(m);
    if input.color.Missing? {
      assert all[0] == c.value;
    } else if input.item.Missing? {
      assert all[|AsSeq(c)|] == i.value;
    } else if input.style.Missing? {
      assert all[|AsSeq(c)| + |AsSeq(i)|] == s.value;
    } else if input.productLink.Missing? {
      assert all[|AsSeq(c)| + |AsSeq(i)| + |AsSeq(s)|] == p.value;
    } else {
      assert all[|AsSeq(c)| + |AsSeq(i)| + |AsSeq(s)| + |AsSeq(p)|] == m.value;
    }
  }

  /** The length check is on the raw string: a whitespace-only colour is accepted as it is. */
  lemma WhitespaceColourPasses(input: ItemInput, urlParses: string -> bool)
    requires input.color == Str("   ")
    requires IsValid(input.(color := Str("red")), urlParses)
    ensures Parse(input, urlParses).Ok?
    ensures Parse(input, urlParses).value.color == "   "
  {
  }

  /** The field names in schema order, and the check each one gets. */
  const Fields := ["color", "item", "style", "productLink", "imageLink"]

  function Check(k: nat, input: ItemInput, urlParses: string -> bool): Option<Issue>
    requires k < 5
  {
    [CheckNonEmpty("color", input.color), CheckNonEmpty("item", input.item), CheckNonEmpty("style", input.style),
     CheckUrl("productLink", input.productLink, urlParses), CheckUrl("imageLink", input.imageLink, urlParses)][k]
  }

  /**
   * There is exactly one issue per failing field, and a field has an issue
   * exactly when its check fails.
   */
  lemma IssuePerFailingField(input: ItemInput, urlParses: string -> bool, k: nat)
    requires k < 5
    ensures Check(k, input, urlParses).Some? <==>
              exists j :: 0 <= j < |Issues(input, urlParses)| && Issues(input, urlParses)[j].path == Fields[k]
  {
    var parts := [AsSeq(Check(0, input, urlParses)), AsSeq(Check(1, input, urlParses)), AsSeq(Check(2, input, urlParses)),
                  AsSeq(Check(3, input, urlParses)), AsSeq(Check(4, input, urlParses))];
    var all := Issues(input, urlParses);
    assert all == parts[0] + parts[1] + parts[2] + parts[3] + parts[4];
    var offset := |parts[0]| * (if k > 0 then 1 else 0) + |parts[1]| * (if k > 1 then 1 else 0)
                  + |parts[2]| * (if k > 2 then 1 else 0) + |parts[3]| * (if k > 3 then 1 else 0);
    if Check(k, input, urlParses).Some? {
      assert all[offset] == Check(k, input, urlParses).value;
    } else {
      forall j | 0 <= j < |all| ensures all[j].path != Fields[k] {
        var m := if j < |parts[0]| then 0
                 else if j < |parts[0]| + |parts[1]| then 1
                 else if j < |parts[0]| + |parts[1]| + |parts[2]| then 2
                 else if j < |parts[0]| + |parts[1]| + |parts[2]| + |parts[3]| then 3
                 else 4;
        assert all[j] == Check(m, input, urlParses).value;
      }
    }
  }
}
