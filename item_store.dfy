/**
 * The item collection and its controller (`createItem`, `getItems`,
 * `getItemById`, `deleteItem`). The collection is a sequence of stored
 * items in natural (insertion) order, keyed by a distinct ObjectId. Ids are
 * kept in the canonical form the database prints: 24 lower-case hex digits.
 * A lookup casts the path parameter to an ObjectId first; a parameter that
 * is not 24 hex digits fails the cast (400), and hex digits of either case
 * name the same id.
 *
 * The item schema trims every field before saving and requires each to be
 * non-empty; a parsed item whose field is only white space therefore fails
 * at the database with a validation error that is not Zod's (500).
 *
 * The id the database assigns, the insertion time and whether the insert
 * is otherwise rejected (a lost connection, say) are parameters of
 * `CreateItem`.
 */
module Items {
  import opened Common
  import ItemValidator

  datatype Item = Item(
    id: string,
    color: string,
    item: string,
    style: string,
    productLink: string,
    imageLink: string,
    createdAt: int)

  predicate IsHexDigit(c: char) {
    ('0' <= c <= '9') || ('a' <= c <= 'f') || ('A' <= c <= 'F')
  }

  /** A string the ObjectId cast accepts. */
  predicate IsObjectIdText(id: string) {
    |id| == 24 && forall k :: 0 <= k < |id| ==> IsHexDigit(id[k])
  }

  predicate IsCanonicalId(id: string) {
    IsObjectIdText(id) && forall k :: 0 <= k < |id| ==> !('A' <= id[k] <= 'F')
  }

  predicate DistinctIds(items: seq<Item>) {
    forall i, j :: 0 <= i < j < |items| ==> items[i].id != items[j].id
  }

  /** `findById`, as the index of the item with that id. */
  function Find(items: seq<Item>, id: string): (r: Option<nat>)
    ensures r.Some? ==> r.value < |items| && items[r.value].id == id
    ensures r.None? <==> forall k :: 0 <= k < |items| ==> items[k].id != id
  {
    if |items| == 0 then None
    else if items[0].id == id then Some(0)
    else match Find(items[1..], id) {
      case None => None
      case Some(k) => Some(k + 1)
    }
  }

  /** The collection without the item carrying `id`. */
  function Without(items: seq<Item>, id: string): (r: seq<Item>)
    ensures |r| <= |items|
    ensures forall x :: x in r <==> x in items && x.id != id
    ensures forall k :: 0 <= k < |r| ==> r[k].id != id
  {
    if |items| == 0 then []
    else if items[0].id == id then Without(items[1..], id)
    else
      assert forall x :: x in items <==> x == items[0] || x in items[1..];
      [items[0]] + Without(items[1..], id)
  }

  lemma {:induction false} WithoutKeepsDistinct(items: seq<Item>, id: string)
    requires DistinctIds(items)
    ensures DistinctIds(Without(items, id))
    decreases |items|
  {
    if |items| > 0 {
      assert DistinctIds(items[1..]) by {
        forall i, j | 0 <= i < j < |items[1..]| ensures items[1..][i].id != items[1..][j].id {
          assert items[1..][i] == items[i + 1] && items[1..][j] == items[j + 1];
        }
      }
      WithoutKeepsDistinct(items[1..], id);
      if items[0].id != id {
        var rest := Without(items[1..], id);
        forall j | 0 <= j < |rest| ensures rest[j].id != items[0].id {
          assert rest[j] in items[1..];
          var m :| 0 <= m < |items[1..]| && items[1..][m] == rest[j];
          assert items[m + 1] == rest[j];
        }
      }
    }
  }

  /** With distinct ids, removing an id removes exactly one item when it is present. */
  lemma {:induction false} WithoutRemovesOne(items: seq<Item>, id: string)
    requires DistinctIds(items)
    requires Find(items, id).Some?
    ensures |Without(items, id)| == |items| - 1
    decreases |items|
  {
    assert DistinctIds(items[1..]) by {
      forall i, j | 0 <= i < j < |items[1..]| ensures items[1..][i].id != items[1..][j].id {
        assert items[1..][i] == items[i + 1] && items[1..][j] == items[j + 1];
      }
    }
    if items[0].id == id {
      WithoutAbsent(items[1..], id);
    } else {
      assert Find(items[1..], id).Some?;
      WithoutRemovesOne(items[1..], id);
    }
  }

  lemma {:induction false} WithoutAbsent(items: seq<Item>, id: string)
    requires forall k :: 0 <= k < |items| ==> items[k].id != id
    ensures Without(items, id) == items
    decreases |items|
  {
    if |items| > 0 {
      WithoutAbsent(items[1..], id);
    }
  }

  /** Appending an item under a fresh canonical id keeps the ids distinct and canonical. */
  lemma AppendKeepsIdsValid(items: seq<Item>, x: Item)
    requires DistinctIds(items) && forall k :: 0 <= k < |items| ==> IsCanonicalId(items[k].id)
    requires IsCanonicalId(x.id) && Find(items, x.id).None?
    ensures DistinctIds(items + [x]) && forall k :: 0 <= k < |items + [x]| ==> IsCanonicalId((items + [x])[k].id)
  {
  }

  // ----------------------------------------------------------------------
  // `sort({ createdAt: -1 })`

  predicate NewestFirst(s: seq<Item>) {
    forall i, j :: 0 <= i < j < |s| ==> s[i].createdAt >= s[j].createdAt
  }

  function InsertByCreated(x: Item, s: seq<Item>): (r: seq<Item>)
    requires NewestFirst(s)
    ensures NewestFirst(r)
    ensures multiset(r) == multiset(s) + multiset{x}
    ensures |r| == |s| + 1
    ensures |r| > 0 && (r[0] == x || (|s| > 0 && r[0] == s[0]))
  {
    if |s| == 0 || x.createdAt >= s[0].createdAt then [x] + s
    else
      assert s == [s[0]] + s[1..];
      [s[0]] + InsertByCreated(x, s[1..])
  }

  function SortByCreated(s: seq<Item>): (r: seq<Item>)
    ensures NewestFirst(r)
    ensures multiset(r) == multiset(s)
  {
    if |s| == 0 then []
    else
      assert s == [s[0]] + s[1..];
      InsertByCreated(s[0], SortByCreated(s[1..]))
  }

  // ----------------------------------------------------------------------
  // The controller

  datatype ItemReply =
    | ValidationFailed(issues: seq<ItemValidator.Issue>)  // 400
    | Created(saved: Item)                               // 201
    | ServerError                                        // 500
    | ItemList(list: seq<Item>)
    | Found(found: Item)
    | NotFound                                           // 404
    | InvalidId                                          // 400
    | Deleted                                            // `{ ok: true }`
  {
    function HttpStatus(): int {
      match this
      case ValidationFailed(_) => 400
      case InvalidId => 400
      case Created(_) => 201
      case ServerError => 500
      case NotFound => 404
      case _ => 200
    }
  }

  /** The document the schema stores: every field trimmed. */
  function ItemOf(id: string, v: ItemValidator.ValidItem, now: int): Item {
    Item(id, Trim(v.color), Trim(v.item), Trim(v.style), Trim(v.productLink), Trim(v.imageLink), now)
  }

  /** The schema's `required` check, made after trimming. */
  predicate StoreAccepts(v: ItemValidator.ValidItem) {
    Trim(v.color) != "" && Trim(v.item) != "" && Trim(v.style) != ""
    && Trim(v.productLink) != "" && Trim(v.imageLink) != ""
  }

  class ItemStore {
    var items: seq<Item>

    ghost predicate Valid()
      reads this
    {
      DistinctIds(items) && forall k :: 0 <= k < |items| ==> IsCanonicalId(items[k].id)
    }

    constructor ()
      ensures items == [] && Valid()
    {
      items := [];
    }

    /**
     * `createItem`: parse, then insert. `newId` is the id the database
     * assigns; an insert that the database rejects (a field that trims to
     * nothing, `rejected`, or an id already in use) answers 500.
     */
    method CreateItem(input: ItemValidator.ItemInput, urlParses: string -> bool,
                      newId: string, now: int, rejected: bool)
      returns (reply: ItemReply)
      requires Valid() && IsCanonicalId(newId)
      modifies this
      ensures Valid()
      ensures var parsed := ItemValidator.Parse(input, urlParses);
              && (parsed.Err? ==> reply == ValidationFailed(parsed.error) && items == old(items))
              && (parsed.Ok? && (!StoreAccepts(parsed.value) || rejected || Find(old(items), newId).Some?) ==>
                    reply == ServerError && items == old(items))
              && (parsed.Ok? && StoreAccepts(parsed.value) && !rejected && Find(old(items), newId).None? ==>
                    && reply == Created(ItemOf(newId, parsed.value, now))
                    && items == old(items) + [reply.saved])
    {
      var parsed := ItemValidator.Parse(input, urlParses);
      if parsed.Err? {
        return ValidationFailed(parsed.error);
      }
      if !StoreAccepts(parsed.value) || rejected || Find(items, newId).Some? {
        return ServerError;
      }
      var saved := ItemOf(newId, parsed.value, now);
      AppendKeepsIdsValid(items, saved);
      items := items + [saved];
      reply := Created(saved);
    }

    /** `getItems`: every item, newest first. */
    method GetItems() returns (reply: ItemReply)
      ensures reply.ItemList?
      ensures NewestFirst(reply.list)
      ensures multiset(reply.list) == multiset(items)
    {
      reply := ItemList(SortByCreated(items));
    }

    /** `getItemById`. */
    method GetItemById(id: string) returns (reply: ItemReply)
      ensures !IsObjectIdText(id) <==> reply == InvalidId
      ensures IsObjectIdText(id) ==>
                if Find(items, Lower(id)).None? then reply == NotFound
                else reply == Found(items[Find(items, Lower(id)).value])
      ensures reply.Found? ==> reply.found in items && reply.found.id == Lower(id)
    {
      if !IsObjectIdText(id) {
        return InvalidId;
      }
      var k := Find(items, Lower(id));
      if k.None? {
        return NotFound;
      }
      reply := Found(items[k.value]);
    }

    /** `deleteItem`. */
    method DeleteItem(id: string) returns (reply: ItemReply)
      requires Valid()
      modifies this
      ensures Valid()
      ensures !IsObjectIdText(id) ==> reply == InvalidId && items == old(items)
      ensures IsObjectIdText(id) && Find(old(items), Lower(id)).None? ==> reply == NotFound && items == old(items)
      ensures IsObjectIdText(id) && Find(old(items), Lower(id)).Some? ==>
                && reply == Deleted
                && items == Without(old(items), Lower(id))
                && |items| == |old(items)| - 1
    {
      if !IsObjectIdText(id) {
        return InvalidId;
      }
      var key := Lower(id);
      if Find(items, key).None? {
        return NotFound;
      }
      WithoutKeepsDistinct(items, key);
      WithoutRemovesOne(items, key);
      items := Without(items, key);
      reply := Deleted;
    }
  }

  /** A successful delete followed by a lookup of the same id finds nothing. */
  lemma DeleteThenFind(items: seq<Item>, id: string)
    requires IsObjectIdText(id)
    ensures Find(Without(items, Lower(id)), Lower(id)).None?
  {
  }

  /** A created item is found again by its id, in either letter case. */
  lemma {:induction false} CreateThenFind(items: seq<Item>, x: Item, id: string)
    requires Find(items, x.id).None?
    requires IsObjectIdText(id) && Lower(id) == x.id
    ensures Find(items + [x], Lower(id)) == Some(|items|)
    decreases |items|
  {
    if |items| > 0 {
      assert (items + [x])[1..] == items[1..] + [x];
      CreateThenFind(items[1..], x, id);
    }
  }

  /**
   * A colour of spaces passes the request schema but not the item schema:
   * the request is answered 500, not 400, and nothing is stored.
   */
  lemma BlankColourIsServerError(input: ItemValidator.ItemInput, urlParses: string -> bool)
    requires input.color == ItemValidator.Str("   ")
    requires ItemValidator.IsValid(input.(color := ItemValidator.Str("red")), urlParses)
    ensures ItemValidator.Parse(input, urlParses).Ok?
    ensures !StoreAccepts(ItemValidator.Parse(input, urlParses).value)
  {
    TrimEmptyIff("   ");
  }

  /** A stored item's fields are the input's fields trimmed, and non-empty. */
  lemma StoredFieldsTrimmed(id: string, v: ItemValidator.ValidItem, now: int)
    requires StoreAccepts(v)
    ensures var x := ItemOf(id, v, now);
            && x.color != "" && TrimmedFrom(x.color, v.color)
            && x.item != "" && TrimmedFrom(x.item, v.item)
            && x.style != "" && TrimmedFrom(x.style, v.style)
            && x.productLink != "" && TrimmedFrom(x.productLink, v.productLink)
            && x.imageLink != "" && TrimmedFrom(x.imageLink, v.imageLink)
            && x.createdAt == now && x.id == id
  {
  }
}
