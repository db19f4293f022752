/** The JSON-file database of src/app/api/shopping-lists/route.ts: lists by
    id and share codes pointing at list ids. The new list id and the ISO
    time stamp are passed in. */
module ShoppingListsApi {
  import opened Common
  import opened ShoppingList

  /** Every item stamped `now`, as `POST` does. */
  function StampAll(items: seq<Item>, now: string): (r: seq<Item>)
    ensures |r| == |items|
    ensures forall i :: 0 <= i < |items| ==> r[i] == items[i].(addedAt := Some(now))
  {
    MapSeq((it: Item) => it.(addedAt := Some(now)), items)
  }

  /** Items as `PUT` stores them: an item keeps its own `addedAt` when it
      has one and is stamped `now` otherwise. */
  function KeepStamps(items: seq<Item>, now: string): (r: seq<Item>)
    ensures |r| == |items|
    ensures forall i :: 0 <= i < |items| ==>
      r[i] == items[i].(addedAt := if Present(items[i].addedAt) then items[i].addedAt else Some(now))
  {
    MapSeq((it: Item) => it.(addedAt := if Present(it.addedAt) then it.addedAt else Some(now)), items)
  }

  /** Every stored item then has a time stamp, and stamps already there are
      kept. */
  lemma KeepStamps_Stamped(items: seq<Item>, now: string, i: int)
    requires 0 <= i < |items| && now != ""
    ensures Present(KeepStamps(items, now)[i].addedAt)
    ensures Present(items[i].addedAt) ==> KeepStamps(items, now)[i].addedAt == items[i].addedAt
  {}

  /** The list `PUT` leaves: only the fields given change. */
  function Updated(l: List, name: Option<string>, description: Option<string>, items: Option<seq<Item>>, now: string): (r: List)
    ensures r.id == l.id && r.isShared == l.isShared && r.createdAt == l.createdAt && r.updatedAt == now
    ensures r.name == name.GetOr(l.name) && r.description == description.GetOr(l.description)
    ensures r.items == if items.Some? then KeepStamps(items.value, now) else l.items
  {
    l.(name := name.GetOr(l.name), description := description.GetOr(l.description),
       items := if items.Some? then KeepStamps(items.value, now) else l.items, updatedAt := now)
  }

  /** The shares that do not point at `listId`. */
  function SharesWithout(shares: map<string, string>, listId: string): (r: map<string, string>)
    ensures forall code :: code in r <==> code in shares && shares[code] != listId
    ensures forall code :: code in r ==> r[code] == shares[code]
  {
    map code | code in shares && shares[code] != listId :: shares[code]
  }

  /** What a `GET` answers. */
  datatype Found = Missing | One(list: List) | All(lists: set<List>)

  class Db {
    var lists: map<string, List>
    var shares: map<string, string>

    constructor ()
      ensures lists == map[] && shares == map[]
    {
      lists := map[];
      shares := map[];
    }

    /** `POST`: a name is required; the new list is not shared and every
        item is stamped with the creation time. */
    method Post(name: Option<string>, description: Option<string>, items: Option<seq<Item>>, listId: string, now: string)
      returns (status: int, created: Option<List>)
      modifies this
      ensures shares == old(shares)
      ensures !Present(name) ==> status == 400 && created.None? && lists == old(lists)
      ensures Present(name) ==> status == 201 && created.Some? && lists == old(lists)[listId := created.value]
      ensures Present(name) && created.Some? ==>
        created.value == List(listId, name.value, if Present(description) then description.value else "",
                              StampAll(items.GetOr([]), now), false, now, now)
    {
      if !Present(name) {
        return 400, None;
      }
      var newList := List(listId, name.value, if Present(description) then description.value else "",
                          StampAll(items.GetOr([]), now), false, now, now);
      lists := lists[listId := newList];
      return 201, Some(newList);
    }

    /** `GET`: by share code first, then by id, else every list. An unknown
        code, a code whose list is gone, or an unknown id answers 404. */
    method Get(id: Option<string>, share: Option<string>) returns (status: int, found: Found)
      ensures Present(share) ==>
        if share.value in shares && shares[share.value] != "" && shares[share.value] in lists
        then status == 200 && found == One(lists[shares[share.value]])
        else status == 404 && found == Missing
      ensures !Present(share) && Present(id) ==>
        if id.value in lists then status == 200 && found == One(lists[id.value]) else status == 404 && found == Missing
      ensures !Present(share) && !Present(id) ==> status == 200 && found == All(lists.Values)
    {
      if Present(share) {
        if share.value !in shares || shares[share.value] == "" {
          return 404, Missing;
        }
        var sharedListId := shares[share.value];
        if sharedListId !in lists {
          return 404, Missing;
        }
        return 200, One(lists[sharedListId]);
      }
      if Present(id) {
        if id.value !in lists {
          return 404, Missing;
        }
        return 200, One(lists[id.value]);
      }
      return 200, All(lists.Values);
    }

    /** `PUT`: an id is required and must exist; the given fields replace
        the stored ones. */
    method Put(id: Option<string>, name: Option<string>, description: Option<string>, items: Option<seq<Item>>, now: string)
      returns (status: int, updated: Option<List>)
      modifies this
      ensures shares == old(shares)
      ensures !Present(id) ==> status == 400 && updated.None? && lists == old(lists)
      ensures Present(id) && id.value !in old(lists) ==> status == 404 && updated.None? && lists == old(lists)
      ensures Present(id) && id.value in old(lists) ==>
        (status == 200 && updated == Some(Updated(old(lists)[id.value], name, description, items, now))
         && lists == old(lists)[id.value := updated.value])
    {
      if !Present(id) {
        return 400, None;
      }
      if id.value !in lists {
        return 404, None;
      }
      var list := Updated(lists[id.value], name, description, items, now);
      lists := lists[id.value := list];
      return 200, Some(list);
    }

    /** `DELETE`: removes the list, then each share code pointing at it. */
    method Delete(id: Option<string>) returns (status: int)
      modifies this
      ensures !Present(id) ==> status == 400 && lists == old(lists) && shares == old(shares)
      ensures Present(id) && id.value !in old(lists) ==> status == 404 && lists == old(lists) && shares == old(shares)
      ensures Present(id) && id.value in old(lists) ==>
        (status == 200 && lists == old(lists) - {id.value} && shares == SharesWithout(old(shares), id.value))
    {
      if !Present(id) {
        return 400;
      }
      var listId := id.value;
      if listId !in lists {
        return 404;
      }
      lists := lists - {listId};
      var codes := shares.Keys;
      ghost var original := shares;
      while codes != {}
        invariant codes <= original.Keys && lists == old(lists) - {listId}
        invariant forall code :: code in shares <==> code in original && (code in codes || original[code] != listId)
        invariant forall code :: code in shares ==> shares[code] == original[code]
        decreases codes
      {
        var code :| code in codes;
        if shares[code] == listId {
          shares := shares - {code};
        }
        codes := codes - {code};
      }
      return 200;
    }
  }

  /** After a delete no share code leads to the deleted list, and every
      other code still leads where it did. */
  lemma SharesWithout_Effect(shares: map<string, string>, listId: string, code: string)
    ensures code in SharesWithout(shares, listId) ==> SharesWithout(shares, listId)[code] != listId
    ensures code in shares && shares[code] != listId ==> code in SharesWithout(shares, listId) && SharesWithout(shares, listId)[code] == shares[code]
  {}
}
