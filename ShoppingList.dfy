/** The shopping-list records shared by the client store and the
    shopping-lists route, and the client store of
    src/stores/shoppingListStore.ts. Server answers are parameters: a
    failed request is an `Err` with its message. ISO time stamps are
    strings supplied by the caller. */
module ShoppingList {
  import opened Common

  /** One line of a list: a plan, how many, optional notes and when it was
      added (absent until the server stamps it). */
  datatype Item = Item(planId: string, quantity: int, notes: Option<string>, addedAt: Option<string>)

  datatype List = List(id: string, name: string, description: string, items: seq<Item>,
                       isShared: bool, createdAt: string, updatedAt: string)

  // ------------------------------------------------------------ item edits

  /** The new items of `addItem(listId, planId, quantity)`: when an item of
      the plan exists every item of that plan gets `quantity` more;
      otherwise one item is appended. */
  function AddItemTo(items: seq<Item>, planId: string, quantity: int, now: string): (r: seq<Item>)
    ensures (exists i :: 0 <= i < |items| && items[i].planId == planId) ==> |r| == |items|
    ensures (forall i :: 0 <= i < |items| ==> items[i].planId != planId) ==>
      r == items + [Item(planId, quantity, None, Some(now))]
  {
    if exists i :: 0 <= i < |items| && items[i].planId == planId then
      MapSeq((it: Item) => if it.planId == planId then it.(quantity := it.quantity + quantity) else it, items)
    else
      items + [Item(planId, quantity, None, Some(now))]
  }

  /** Adding to an existing item raises exactly that plan's quantities and
      touches nothing else. */
  lemma AddItemTo_Existing(items: seq<Item>, planId: string, quantity: int, now: string, k: int)
    requires 0 <= k < |items| && items[k].planId == planId
    ensures var r := AddItemTo(items, planId, quantity, now);
      |r| == |items|
      && (forall i :: 0 <= i < |items| && items[i].planId == planId ==> r[i] == items[i].(quantity := items[i].quantity + quantity))
      && (forall i :: 0 <= i < |items| && items[i].planId != planId ==> r[i] == items[i])
  {}

  /** `removeItem`'s items: every item of the plan dropped, the others kept
      in order. */
  function RemoveItemFrom(items: seq<Item>, planId: string): (r: seq<Item>)
    ensures forall i :: 0 <= i < |r| ==> r[i].planId != planId
    ensures forall it :: it in items && it.planId != planId ==> it in r
    ensures forall it :: it in r ==> it in items
  {
    var keep := (it: Item) => it.planId != planId;
    assert forall it :: it in items && it.planId != planId ==> it in Filter(keep, items) by {
      forall it | it in items && it.planId != planId ensures it in Filter(keep, items) {
        Filter_Mem(keep, items, it);
      }
    }
    assert forall it :: it in Filter(keep, items) ==> it in items by {
      forall it | it in Filter(keep, items) ensures it in items {
        Filter_Mem(keep, items, it);
      }
    }
    Filter(keep, items)
  }

  /** Removing a plan that is not in the list changes nothing, and
      removing twice is removing once. */
  lemma RemoveItemFrom_Absent(items: seq<Item>, planId: string)
    ensures (forall i :: 0 <= i < |items| ==> items[i].planId != planId) ==> RemoveItemFrom(items, planId) == items
    ensures RemoveItemFrom(RemoveItemFrom(items, planId), planId) == RemoveItemFrom(items, planId)
  {
    var keep := (it: Item) => it.planId != planId;
    if forall i :: 0 <= i < |items| ==> items[i].planId != planId {
      Filter_All(keep, items);
    }
    Filter_All(keep, RemoveItemFrom(items, planId));
  }

  /** `updateItem`'s items: each item of the plan takes the given quantity
      and notes, an absent one keeping the old value. */
  function UpdateItemIn(items: seq<Item>, planId: string, quantity: Option<int>, notes: Option<string>): (r: seq<Item>)
    ensures |r| == |items|
    ensures forall i :: 0 <= i < |items| && items[i].planId != planId ==> r[i] == items[i]
    ensures forall i :: 0 <= i < |items| && items[i].planId == planId ==>
      r[i].planId == planId && r[i].addedAt == items[i].addedAt
      && r[i].quantity == quantity.GetOr(items[i].quantity)
      && r[i].notes == (if notes.Some? then notes else items[i].notes)
  {
    MapSeq((it: Item) => if it.planId == planId
      then it.(quantity := quantity.GetOr(it.quantity), notes := if notes.Some? then notes else it.notes)
      else it, items)
  }

  /** Updating with neither a quantity nor notes changes nothing. */
  lemma UpdateItemIn_Nothing(items: seq<Item>, planId: string)
    ensures UpdateItemIn(items, planId, None, None) == items
  {
    var r := UpdateItemIn(items, planId, None, None);
    assert forall i :: 0 <= i < |items| ==> r[i] == items[i];
  }

  // ----------------------------------------------------------- list edits

  /** `lists.filter(l => l.id !== id)`. */
  function WithoutList(lists: seq<List>, id: string): (r: seq<List>)
    ensures forall i :: 0 <= i < |r| ==> r[i].id != id
    ensures forall l :: l in lists && l.id != id ==> l in r
  {
    var keep := (l: List) => l.id != id;
    assert forall l :: l in lists && l.id != id ==> l in Filter(keep, lists) by {
      forall l | l in lists && l.id != id ensures l in Filter(keep, lists) {
        Filter_Mem(keep, lists, l);
      }
    }
    Filter(keep, lists)
  }

  /** `lists.map(l => l.id === id ? updated : l)`. */
  function ReplaceList(lists: seq<List>, id: string, updated: List): (r: seq<List>)
    ensures |r| == |lists|
    ensures forall i :: 0 <= i < |lists| ==> r[i] == if lists[i].id == id then updated else lists[i]
  {
    MapSeq((l: List) => if l.id == id then updated else l, lists)
  }

  /** Applies an edit to the current list's items only when it is the list
      named; otherwise the current list is unchanged. */
  function EditCurrent(current: Option<List>, listId: string, edit: seq<Item> -> seq<Item>): (r: Option<List>)
    ensures current.None? || current.value.id != listId ==> r == current
    ensures current.Some? && current.value.id == listId ==> r == Some(current.value.(items := edit(current.value.items)))
  {
    if current.Some? && current.value.id == listId then Some(current.value.(items := edit(current.value.items)))
    else current
  }

  /** The client store. */
  class Store {
    var lists: seq<List>
    var currentList: Option<List>
    var loading: bool
    var error: Option<string>

    constructor ()
      ensures lists == [] && currentList == None && !loading && error == None
    {
      lists := [];
      currentList := None;
      loading := false;
      error := None;
    }

    /** The error a background sync leaves: only a failed request that was
        made (there is a current list) records its message. */
    static function SyncError(current: Option<List>, sync: Option<string>, previous: Option<string>): Option<string> {
      if current.Some? && sync.Some? then sync else previous
    }

    /** `fetchLists()` with the server's answer. */
    method FetchLists(response: Result<seq<List>>)
      modifies this
      ensures !loading && currentList == old(currentList)
      ensures response.Ok? ==> lists == response.value && error == None
      ensures response.Err? ==> lists == old(lists) && error == Some(response.error)
    {
      loading := true;
      if response.Ok? {
        lists := response.value;
        error := None;
      } else {
        error := Some(response.error);
      }
      loading := false;
    }

    /** `fetchList(id)` with the server's answer: the list found becomes
        current. */
    method FetchList(response: Result<List>) returns (found: Option<List>)
      modifies this
      ensures !loading && lists == old(lists)
      ensures response.Ok? ==> found == Some(response.value) && currentList == found && error == None
      ensures response.Err? ==> found == None && currentList == old(currentList) && error == Some(response.error)
    {
      loading := true;
      if response.Ok? {
        currentList := Some(response.value);
        error := None;
        found := currentList;
      } else {
        error := Some(response.error);
        found := None;
      }
      loading := false;
    }

    /** `createList(name, description)` with the server's answer: the new
        list is appended and becomes current. */
    method CreateList(response: Result<List>) returns (created: Option<List>)
      modifies this
      ensures !loading
      ensures response.Ok? ==> created == Some(response.value) && lists == old(lists) + [response.value]
      ensures response.Ok? ==> currentList == Some(response.value) && error == None
      ensures response.Err? ==> created == None && lists == old(lists) && currentList == old(currentList)
      ensures response.Err? ==> error == Some(response.error)
    {
      loading := true;
      if response.Ok? {
        lists := lists + [response.value];
        currentList := Some(response.value);
        error := None;
        created := Some(response.value);
      } else {
        error := Some(response.error);
        created := None;
      }
      loading := false;
    }

    /** `updateList(id, ...)` with the server's answer. */
    method UpdateList(id: string, response: Result<List>)
      modifies this
      ensures loading == old(loading)
      ensures response.Ok? ==> lists == ReplaceList(old(lists), id, response.value) && error == None
      ensures response.Ok? ==> currentList == (if old(currentList).Some? && old(currentList).value.id == id then Some(response.value) else old(currentList))
      ensures response.Err? ==> lists == old(lists) && currentList == old(currentList) && error == Some(response.error)
    {
      if response.Ok? {
        lists := ReplaceList(lists, id, response.value);
        if currentList.Some? && currentList.value.id == id {
          currentList := Some(response.value);
        }
        error := None;
      } else {
        error := Some(response.error);
      }
    }

    /** `deleteList(id)` with the server's answer (`None` for success): the
        list goes, and the current list is cleared only if it was that one. */
    method DeleteList(id: string, failure: Option<string>)
      modifies this
      ensures loading == old(loading)
      ensures failure.None? ==> lists == WithoutList(old(lists), id) && error == None
      ensures failure.None? ==> currentList == (if old(currentList).Some? && old(currentList).value.id == id then None else old(currentList))
      ensures failure.Some? ==> lists == old(lists) && currentList == old(currentList) && error == failure
    {
      if failure.None? {
        lists := WithoutList(lists, id);
        if currentList.Some? && currentList.value.id == id {
          currentList := None;
        }
        error := None;
      } else {
        error := failure;
      }
    }

    /** `addItem(listId, planId, quantity = 1)` at `now`, then the sync
        whose failure message is `sync`. */
    method AddItem(listId: string, planId: string, quantity: Option<int>, now: string, sync: Option<string>)
      modifies this
      ensures lists == old(lists) && loading == old(loading)
      ensures currentList == EditCurrent(old(currentList), listId, items => AddItemTo(items, planId, quantity.GetOr(1), now))
      ensures error == SyncError(currentList, sync, old(error))
    {
      currentList := EditCurrent(currentList, listId, items => AddItemTo(items, planId, quantity.GetOr(1), now));
      error := SyncError(currentList, sync, error);
    }

    /** `removeItem(listId, planId)`, then the sync. */
    method RemoveItem(listId: string, planId: string, sync: Option<string>)
      modifies this
      ensures lists == old(lists) && loading == old(loading)
      ensures currentList == EditCurrent(old(currentList), listId, items => RemoveItemFrom(items, planId))
      ensures error == SyncError(currentList, sync, old(error))
    {
      currentList := EditCurrent(currentList, listId, items => RemoveItemFrom(items, planId));
      error := SyncError(currentList, sync, error);
    }

    /** `updateItem(listId, planId, quantity?, notes?)`, then the sync. */
    method UpdateItem(listId: string, planId: string, quantity: Option<int>, notes: Option<string>, sync: Option<string>)
      modifies this
      ensures lists == old(lists) && loading == old(loading)
      ensures currentList == EditCurrent(old(currentList), listId, items => UpdateItemIn(items, planId, quantity, notes))
      ensures error == SyncError(currentList, sync, old(error))
    {
      currentList := EditCurrent(currentList, listId, items => UpdateItemIn(items, planId, quantity, notes));
      error := SyncError(currentList, sync, error);
    }

    /** `setError(error)`. */
    method SetError(e: Option<string>)
      modifies this
      ensures error == e && lists == old(lists) && currentList == old(currentList) && loading == old(loading)
    {
      error := e;
    }
  }
}
