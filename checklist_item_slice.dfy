/** The checklist-item cache: a flat `items` list, the last fetched list per
  * checklist (`itemsByChecklistId`), a loading flag per checklist
  * (`loadingItems`), and the request `status` and `error`. Fetching writes
  * the per-checklist entries and replaces `items`; create, status change,
  * rename and delete act on the flat `items` list only. */
module ChecklistItemSlice {
  import opened JsNumbers
  import opened JsValues
  import opened AsyncThunks
  import opened IdLists

  /** The property name `obj[checklistId]` uses: `String(checklistId)`. A
    * numeric checklist id and the same id read from a route parameter name
    * the same entry of `loadingItems` and `itemsByChecklistId`. */
  function KeyOf(checklistId: Value): (k: string)
    ensures checklistId.Str? ==> k == checklistId.s
    ensures checklistId.Num? ==> k == IntToString(checklistId.n)
  {
    ToJsString(checklistId)
  }

  /** The list `fetchChecklistItems` takes from a response body: the body
    * when it is an array, else `body.data` when that is an array, else
    * `body.items` when that is an array, else an empty array. `None` is the
    * TypeError thrown when the body is null. */
  function ItemsEnvelope(body: Value): (r: Option<Value>)
    ensures r.None? <==> Nullish(body)
    ensures r.Some? ==> r.value.Arr?
    ensures body.Arr? ==> r == Some(body)
    ensures r.Some? && !body.Arr? && GetOpt(body, "data").Arr? ==> r.value == GetOpt(body, "data")
    ensures r.Some? && !body.Arr? && !GetOpt(body, "data").Arr? && GetOpt(body, "items").Arr? ==>
      r.value == GetOpt(body, "items")
    ensures r.Some? && !body.Arr? && !GetOpt(body, "data").Arr? && !GetOpt(body, "items").Arr? ==>
      r.value == Arr([])
  {
    if body.Arr? then Some(body)
    else
      match Get(body, "data")
      case None => None
      case Some(data) =>
        if data.Arr? then Some(data)
        else if GetOpt(body, "items").Arr? then Some(GetOpt(body, "items"))
        else Some(Arr([]))
  }

  /** How `fetchChecklistItems(checklistId)` settles: always an array when it
    * is fulfilled. */
  function FetchItemsOutcome(res: HttpResult): (r: Phase<Value>)
    ensures !r.Pending?
    ensures r.Fulfilled? <==> res.Response? && !Nullish(res.data)
    ensures r.Fulfilled? ==> r.result.Arr? && ItemsEnvelope(res.data) == Some(r.result)
    ensures r.Rejected? && res.RequestError? ==> r.payload == res.responseData
    ensures r.Rejected? && res.Response? ==> r.payload == Undefined
  {
    match res
    case Response(data) =>
      (match ItemsEnvelope(data)
       case None => RejectWithValue(Undefined)
       case Some(list) => Fulfilled(list))
    case RequestError(responseData, _) => RejectWithValue(responseData)
  }

  /** How `createChecklistItem({checklistId, data})` settles: a new item
    * `{id, name: data.itemName, status: false}`, whose id is the server's
    * when truthy and otherwise the clock reading `now`. */
  function CreateItemOutcome(res: HttpResult, itemName: Value, now: int): (r: Phase<Value>)
    ensures !r.Pending?
    ensures r.Fulfilled? <==> res.Response? && !Nullish(res.data)
    ensures r.Fulfilled? ==>
      && r.result.Obj?
      && r.result.fields.Keys == {"id", "name", "status"}
      && r.result.fields["status"] == Bool(false)
      && r.result.fields["name"] == itemName
      && (Truthy(GetOpt(res.data, "id")) ==> r.result.fields["id"] == GetOpt(res.data, "id"))
      && (!Truthy(GetOpt(res.data, "id")) ==> r.result.fields["id"] == Num(now))
    ensures r.Rejected? && res.RequestError? ==> r.payload == res.responseData
  {
    match res
    case Response(data) =>
      (match Get(data, "id")
       case None => RejectWithValue(Undefined)
       case Some(id) =>
         Fulfilled(Obj(map["id" := Or(id, Num(now)), "name" := itemName, "status" := Bool(false)])))
    case RequestError(responseData, _) => RejectWithValue(responseData)
  }

  /** The payload of `updateChecklistItemStatus.fulfilled`. */
  datatype StatusChange = StatusChange(itemId: Value, status: Value)

  /** The payload of `updateChecklistItemName.fulfilled`. */
  datatype NameChange = NameChange(itemId: Value, name: Value)

  /** How `updateChecklistItemStatus` settles. It has no `catch`. */
  function UpdateStatusOutcome(res: HttpResult, itemId: Value, status: Value): (r: Phase<StatusChange>)
    ensures !r.Pending?
    ensures r.Fulfilled? <==> res.Response?
    ensures r.Fulfilled? ==> r.result == StatusChange(itemId, status)
  {
    match res
    case Response(_) => Fulfilled(StatusChange(itemId, status))
    case RequestError(_, message) => RejectWithError(message)
  }

  /** How `updateChecklistItemName` settles: the new name is the caller's
    * `data.itemName`. */
  function UpdateNameOutcome(res: HttpResult, itemId: Value, itemName: Value): (r: Phase<NameChange>)
    ensures !r.Pending?
    ensures r.Fulfilled? <==> res.Response?
    ensures r.Fulfilled? ==> r.result == NameChange(itemId, itemName)
    ensures r.Rejected? ==> r.payload == res.responseData
  {
    match res
    case Response(_) => Fulfilled(NameChange(itemId, itemName))
    case RequestError(responseData, _) => RejectWithValue(responseData)
  }

  /** How `deleteChecklistItem` settles. It has no `catch`. The checklist
    * delete thunk is written the same way, so `DeleteChecklistOutcome` is
    * this same function. */
  function DeleteItemOutcome(res: HttpResult, itemId: Value): (r: Phase<Value>)
    ensures !r.Pending?
    ensures r.Fulfilled? <==> res.Response?
    ensures r.Fulfilled? ==> r.result == itemId
  {
    match res
    case Response(_) => Fulfilled(itemId)
    case RequestError(_, message) => RejectWithError(message)
  }

  /** The list after `updateChecklistItemStatus.fulfilled`: `find` the first
    * item with the id and, when it is truthy, set its `status`. A write to a
    * primitive throws, and a search that throws changes nothing either. */
  function WithStatus(items: seq<Value>, id: Value, status: Value): (r: seq<Value>)
    ensures |r| == |items|
    ensures !FindById(items, id).Found? ==> r == items
    ensures FindById(items, id).Found? ==>
      var k := FindById(items, id).index;
      && (forall j :: 0 <= j < |items| && j != k ==> r[j] == items[j])
      && (items[k].Obj? ==> r[k] == Obj(items[k].fields["status" := status]))
      && (!items[k].Obj? ==> r == items)
  {
    match FindById(items, id)
    case Found(k) =>
      if !Truthy(items[k]) then items
      else
        (match SetField(items[k], "status", status)
         case Some(v) => items[k := v]
         case None => items)
    case _ => items
  }

  /** The list after `updateChecklistItemName.fulfilled`: `findIndex` the
    * first item with the id and set its `name`. */
  function WithName(items: seq<Value>, id: Value, name: Value): (r: seq<Value>)
    ensures |r| == |items|
    ensures !FindById(items, id).Found? ==> r == items
    ensures FindById(items, id).Found? ==>
      var k := FindById(items, id).index;
      && (forall j :: 0 <= j < |items| && j != k ==> r[j] == items[j])
      && (items[k].Obj? ==> r[k] == Obj(items[k].fields["name" := name]))
      && (!items[k].Obj? ==> r == items)
  {
    match FindById(items, id)
    case Found(k) =>
      (match SetField(items[k], "name", name)
       case Some(v) => items[k := v]
       case None => items)
    case _ => items
  }

  /** A search by id ends at the first readable element that matches. */
  lemma {:induction false} FindByIdAt(items: seq<Value>, id: Value, k: nat)
    requires k < |items| && Matches(items[k], id)
    requires forall j :: 0 <= j < k ==> !Nullish(items[j]) && !Matches(items[j], id)
    ensures FindById(items, id) == Found(k)
  {
    if k > 0 {
      FindByIdAt(items[1..], id, k - 1);
    }
  }

  /** Writing a field other than `id` on the found item keeps it the first match. */
  lemma FindByIdAfterWrite(items: seq<Value>, id: Value, key: string, x: Value)
    requires FindById(items, id).Found? && items[FindById(items, id).index].Obj?
    requires key != "id"
    ensures var k := FindById(items, id).index;
      FindById(items[k := Obj(items[k].fields[key := x])], id) == Found(k)
  {
    var k := FindById(items, id).index;
    var v := Obj(items[k].fields[key := x]);
    assert GetOpt(v, "id") == GetOpt(items[k], "id");
    FindByIdAt(items[k := v], id, k);
  }

  /** After a status change the first matching item reads back the new status
    * and keeps its id and name. */
  lemma StatusChangeReadsBack(items: seq<Value>, id: Value, status: Value)
    requires FindById(items, id).Found? && items[FindById(items, id).index].Obj?
    ensures var k := FindById(items, id).index;
      var r := WithStatus(items, id, status);
      && GetOpt(r[k], "status") == status
      && GetOpt(r[k], "id") == GetOpt(items[k], "id")
      && GetOpt(r[k], "name") == GetOpt(items[k], "name")
  {
  }

  /** Repeating a status change changes nothing more. */
  lemma StatusChangeIdempotent(items: seq<Value>, id: Value, status: Value)
    ensures WithStatus(WithStatus(items, id, status), id, status) == WithStatus(items, id, status)
  {
    var s := FindById(items, id);
    if s.Found? && items[s.index].Obj? {
      var k := s.index;
      var v := Obj(items[k].fields["status" := status]);
      FindByIdAfterWrite(items, id, "status", status);
      assert v.fields["status" := status] == v.fields;
    }
  }

  /** A rename changes only the name of the first matching item: its id and
    * its status stay as they were. */
  lemma RenameKeepsIdAndStatus(items: seq<Value>, id: Value, name: Value)
    requires FindById(items, id).Found? && items[FindById(items, id).index].Obj?
    ensures var k := FindById(items, id).index;
      var r := WithName(items, id, name);
      && GetOpt(r[k], "name") == name
      && GetOpt(r[k], "id") == GetOpt(items[k], "id")
      && GetOpt(r[k], "status") == GetOpt(items[k], "status")
  {
  }

  /** Repeating a rename changes nothing more. */
  lemma RenameIdempotent(items: seq<Value>, id: Value, name: Value)
    ensures WithName(WithName(items, id, name), id, name) == WithName(items, id, name)
  {
    var s := FindById(items, id);
    if s.Found? && items[s.index].Obj? {
      var k := s.index;
      var v := Obj(items[k].fields["name" := name]);
      FindByIdAfterWrite(items, id, "name", name);
      assert v.fields["name" := name] == v.fields;
    }
  }

  /** A fulfilled fetch always carries an array, so the reducer's fallback
    * to an empty list never applies to it. */
  lemma FetchedListIsStored(res: HttpResult)
    requires FetchItemsOutcome(res).Fulfilled?
    ensures ArrayElems(FetchItemsOutcome(res).result) == FetchItemsOutcome(res).result.elems
  {
  }

  /** The three response shapes the client accepts give the same list. */
  lemma FetchShapesAgree(list: seq<Value>)
    ensures FetchItemsOutcome(Response(Arr(list))) == Fulfilled(Arr(list))
    ensures FetchItemsOutcome(Response(Obj(map["data" := Arr(list)]))) == Fulfilled(Arr(list))
    ensures FetchItemsOutcome(Response(Obj(map["items" := Arr(list)]))) == Fulfilled(Arr(list))
  {
  }

  /** Deleting the id a create gave its item removes that item again, when
    * the id is a primitive that no earlier item carries. */
  lemma DeleteUndoesCreate(items: seq<Value>, res: HttpResult, itemName: Value, now: int)
    requires CreateItemOutcome(res, itemName, now).Fulfilled?
    requires var id := CreateItemOutcome(res, itemName, now).result.fields["id"];
      !id.Arr? && !id.Obj? && Readable(items) && forall j :: 0 <= j < |items| ==> !Matches(items[j], id)
    ensures var created := CreateItemOutcome(res, itemName, now).result;
      Deleted(items + [created], created.fields["id"]) == items
  {
    var c := CreateItemOutcome(res, itemName, now).result;
    assert Matches(c, c.fields["id"]);
    DeleteAppendedMatch(items, c, c.fields["id"]);
  }

  /** The actions the item reducer receives. */
  datatype ItemAction =
    | FetchItems(checklistId: Value, fetch: Phase<Value>)
    | CreateItem(create: Phase<Value>)
    | UpdateStatus(update: Phase<StatusChange>)
    | UpdateName(rename: Phase<NameChange>)
    | DeleteItem(delete: Phase<Value>)

  class ItemCache {
    var items: seq<Value>
    var status: Status
    var error: Value
    var itemsByChecklistId: map<string, Value>
    var loadingItems: map<string, bool>

    constructor()
      ensures items == [] && status == Idle && error == Null
      ensures itemsByChecklistId == map[] && loadingItems == map[]
    {
      items := [];
      status := Idle;
      error := Null;
      itemsByChecklistId := map[];
      loadingItems := map[];
    }

    /** `fetchChecklistItems.pending`: raises the checklist's loading flag. */
    method FetchPending(checklistId: Value)
      modifies this
      ensures loadingItems == old(loadingItems)[KeyOf(checklistId) := true]
      ensures status == Loading && error == Null
      ensures items == old(items) && itemsByChecklistId == old(itemsByChecklistId)
    {
      loadingItems := loadingItems[KeyOf(checklistId) := true];
      status := Loading;
      error := Null;
    }

    /** `fetchChecklistItems.fulfilled`: records the payload for the
      * checklist, lowers its flag, and replaces `items` with it when it is
      * an array (with an empty list otherwise). `error` is not cleared. */
    method FetchFulfilled(checklistId: Value, payload: Value)
      modifies this
      ensures itemsByChecklistId == old(itemsByChecklistId)[KeyOf(checklistId) := payload]
      ensures loadingItems == old(loadingItems)[KeyOf(checklistId) := false]
      ensures status == Succeeded
      ensures items == ArrayElems(payload)
      ensures error == old(error)
    {
      var key := KeyOf(checklistId);
      itemsByChecklistId := itemsByChecklistId[key := payload];
      loadingItems := loadingItems[key := false];
      status := Succeeded;
      if payload.Arr? {
        items := payload.elems;
      } else {
        items := [];
      }
    }

    /** `fetchChecklistItems.rejected`: lowers the flag, records the payload
      * as the error and empties `items`; the per-checklist lists stay. */
    method FetchRejected(checklistId: Value, payload: Value)
      modifies this
      ensures loadingItems == old(loadingItems)[KeyOf(checklistId) := false]
      ensures status == Failed && error == payload && items == []
      ensures itemsByChecklistId == old(itemsByChecklistId)
    {
      loadingItems := loadingItems[KeyOf(checklistId) := false];
      status := Failed;
      error := payload;
      items := [];
    }

    /** `createChecklistItem.fulfilled`: the new item goes last in `items`. */
    method CreateFulfilled(item: Value)
      modifies this
      ensures items == old(items) + [item]
      ensures status == old(status) && error == old(error)
      ensures itemsByChecklistId == old(itemsByChecklistId) && loadingItems == old(loadingItems)
    {
      items := items + [item];
    }

    /** `updateChecklistItemStatus.fulfilled` */
    method StatusFulfilled(change: StatusChange)
      modifies this
      ensures items == WithStatus(old(items), change.itemId, change.status)
      ensures status == old(status) && error == old(error)
      ensures itemsByChecklistId == old(itemsByChecklistId) && loadingItems == old(loadingItems)
    {
      var found := FindIndex(items, change.itemId);
      if found.Found? && Truthy(items[found.index]) {
        var k := found.index;
        var written := SetField(items[k], "status", change.status);
        if written.Some? {
          items := items[k := written.value];
        }
      }
    }

    /** `updateChecklistItemName.fulfilled` */
    method NameFulfilled(change: NameChange)
      modifies this
      ensures items == WithName(old(items), change.itemId, change.name)
      ensures status == old(status) && error == old(error)
      ensures itemsByChecklistId == old(itemsByChecklistId) && loadingItems == old(loadingItems)
    {
      var found := FindIndex(items, change.itemId);
      if found.Found? {
        var k := found.index;
        var written := SetField(items[k], "name", change.name);
        if written.Some? {
          items := items[k := written.value];
        }
      }
    }

    /** `deleteChecklistItem.fulfilled`: every item with the id goes. */
    method DeleteFulfilled(itemId: Value)
      modifies this
      ensures items == Deleted(old(items), itemId)
      ensures status == old(status) && error == old(error)
      ensures itemsByChecklistId == old(itemsByChecklistId) && loadingItems == old(loadingItems)
    {
      items := FilterById(items, itemId);
    }

    /** The slice reducer: the seven handled cases, and no change for the
      * actions it has no case for (the mutations' pending and rejected). */
    method Dispatch(action: ItemAction)
      modifies this
      ensures match action
        case FetchItems(c, Pending) =>
          && loadingItems == old(loadingItems)[KeyOf(c) := true]
          && status == Loading && error == Null
          && items == old(items) && itemsByChecklistId == old(itemsByChecklistId)
        case FetchItems(c, Fulfilled(payload)) =>
          && itemsByChecklistId == old(itemsByChecklistId)[KeyOf(c) := payload]
          && loadingItems == old(loadingItems)[KeyOf(c) := false]
          && status == Succeeded && items == ArrayElems(payload) && error == old(error)
        case FetchItems(c, Rejected(payload, _)) =>
          && loadingItems == old(loadingItems)[KeyOf(c) := false]
          && status == Failed && error == payload && items == []
          && itemsByChecklistId == old(itemsByChecklistId)
        case CreateItem(Fulfilled(item)) =>
          && items == old(items) + [item]
          && status == old(status) && error == old(error)
          && itemsByChecklistId == old(itemsByChecklistId) && loadingItems == old(loadingItems)
        case UpdateStatus(Fulfilled(change)) =>
          && items == WithStatus(old(items), change.itemId, change.status)
          && status == old(status) && error == old(error)
          && itemsByChecklistId == old(itemsByChecklistId) && loadingItems == old(loadingItems)
        case UpdateName(Fulfilled(change)) =>
          && items == WithName(old(items), change.itemId, change.name)
          && status == old(status) && error == old(error)
          && itemsByChecklistId == old(itemsByChecklistId) && loadingItems == old(loadingItems)
        case DeleteItem(Fulfilled(id)) =>
          && items == Deleted(old(items), id)
          && status == old(status) && error == old(error)
          && itemsByChecklistId == old(itemsByChecklistId) && loadingItems == old(loadingItems)
        case _ =>
          && items == old(items) && status == old(status) && error == old(error)
          && itemsByChecklistId == old(itemsByChecklistId) && loadingItems == old(loadingItems)
    {
      match action
      case FetchItems(c, Pending) => FetchPending(c);
      case FetchItems(c, Fulfilled(payload)) => FetchFulfilled(c, payload);
      case FetchItems(c, Rejected(payload, _)) => FetchRejected(c, payload);
      case CreateItem(Fulfilled(item)) => CreateFulfilled(item);
      case UpdateStatus(Fulfilled(change)) => StatusFulfilled(change);
      case UpdateName(Fulfilled(change)) => NameFulfilled(change);
      case DeleteItem(Fulfilled(id)) => DeleteFulfilled(id);
      case _ =>
    }
  }
}
