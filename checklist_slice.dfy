/** The checklist cache: a flat ordered list of checklists `{id, name}` with
  * the request `status` and `error`. Fetching replaces the list, creating
  * appends to it, deleting filters it by id. */
module ChecklistSlice {
  import opened JsValues
  import opened AsyncThunks
  import opened IdLists

  /** `response.data.data || response.data.items || response.data`: the first
    * truthy envelope, whatever its type. `None` is the TypeError thrown when
    * the body is null. */
  function Envelope(body: Value): (r: Option<Value>)
    ensures r.None? <==> Nullish(body)
    ensures r.Some? && Truthy(GetOpt(body, "data")) ==> r.value == GetOpt(body, "data")
    ensures r.Some? && !Truthy(GetOpt(body, "data")) && Truthy(GetOpt(body, "items")) ==>
      r.value == GetOpt(body, "items")
    ensures r.Some? && !Truthy(GetOpt(body, "data")) && !Truthy(GetOpt(body, "items")) ==>
      r.value == body
  {
    match Get(body, "data")
    case None => None
    case Some(data) => Some(Or(data, Or(GetOpt(body, "items"), body)))
  }

  /** How `fetchChecklists` settles: the envelope of a response, or
    * `rejectWithValue` of the error response's body (undefined when the
    * TypeError of a null body was caught). */
  function FetchChecklistsOutcome(res: HttpResult): (r: Phase<Value>)
    ensures !r.Pending?
    ensures r.Fulfilled? <==> res.Response? && !Nullish(res.data)
    ensures r.Fulfilled? ==> Envelope(res.data) == Some(r.result)
    ensures r.Rejected? ==> r.errorMessage == Str("Rejected")
    ensures r.Rejected? && res.RequestError? ==> r.payload == res.responseData
  {
    match res
    case Response(data) =>
      (match Envelope(data)
       case None => RejectWithValue(Undefined)
       case Some(p) => Fulfilled(p))
    case RequestError(responseData, _) => RejectWithValue(responseData)
  }

  /** How `createChecklist({name})` settles: `{id: response.data.id, name}`,
    * the id from the server and the name from the caller. */
  function CreateChecklistOutcome(res: HttpResult, name: Value): (r: Phase<Value>)
    ensures !r.Pending?
    ensures r.Fulfilled? <==> res.Response? && !Nullish(res.data)
    ensures r.Fulfilled? ==>
      && r.result.Obj?
      && r.result.fields.Keys == {"id", "name"}
      && r.result.fields["id"] == GetOpt(res.data, "id")
      && r.result.fields["name"] == name
  {
    match res
    case Response(data) =>
      (match Get(data, "id")
       case None => RejectWithValue(Undefined)
       case Some(id) => Fulfilled(Obj(map["id" := id, "name" := name])))
    case RequestError(responseData, _) => RejectWithValue(responseData)
  }

  /** How `deleteChecklist(id)` settles. It has no `catch`: a failed request
    * rejects with the request error. The item delete thunk is written the
    * same way, so `DeleteItemOutcome` is this same function. */
  function DeleteChecklistOutcome(res: HttpResult, id: Value): (r: Phase<Value>)
    ensures !r.Pending?
    ensures r.Fulfilled? <==> res.Response?
    ensures r.Fulfilled? ==> r.result == id
  {
    match res
    case Response(_) => Fulfilled(id)
    case RequestError(_, message) => RejectWithError(message)
  }

  /** The actions the checklist reducer receives. */
  datatype ChecklistAction =
    | FetchChecklists(fetch: Phase<Value>)
    | CreateChecklist(create: Phase<Value>)
    | DeleteChecklist(delete: Phase<Value>)

  class ChecklistCache {
    var items: seq<Value>
    var status: Status
    var error: Value

    constructor()
      ensures items == [] && status == Idle && error == Null
    {
      items := [];
      status := Idle;
      error := Null;
    }

    /** `fetchChecklists.pending`: only the status moves; the cached list and
      * the last error stay. */
    method FetchPending()
      modifies this
      ensures status == Loading
      ensures items == old(items) && error == old(error)
    {
      status := Loading;
    }

    /** `fetchChecklists.fulfilled`: the payload replaces the list when it is
      * an array, and an empty list replaces it otherwise. */
    method FetchFulfilled(payload: Value)
      modifies this
      ensures status == Succeeded
      ensures items == ArrayElems(payload)
      ensures error == old(error)
    {
      status := Succeeded;
      if payload.Arr? {
        items := payload.elems;
      } else {
        items := [];
      }
    }

    /** `fetchChecklists.rejected`: records `action.error.message` and keeps
      * the cached list. */
    method FetchRejected(message: Value)
      modifies this
      ensures status == Failed && error == message
      ensures items == old(items)
    {
      status := Failed;
      error := message;
    }

    /** `createChecklist.fulfilled`: the new checklist goes last. */
    method CreateFulfilled(checklist: Value)
      modifies this
      ensures items == old(items) + [checklist]
      ensures status == old(status) && error == old(error)
    {
      items := items + [checklist];
    }

    /** `deleteChecklist.fulfilled`: every checklist with the id goes. */
    method DeleteFulfilled(id: Value)
      modifies this
      ensures items == Deleted(old(items), id)
      ensures status == old(status) && error == old(error)
    {
      items := FilterById(items, id);
    }

    /** The slice reducer: the five handled cases, and no change for the
      * actions it has no case for (create and delete pending or rejected). */
    method Dispatch(action: ChecklistAction)
      modifies this
      ensures match action
        case FetchChecklists(Pending) =>
          status == Loading && items == old(items) && error == old(error)
        case FetchChecklists(Fulfilled(payload)) =>
          status == Succeeded && items == ArrayElems(payload) && error == old(error)
        case FetchChecklists(Rejected(_, message)) =>
          status == Failed && error == message && items == old(items)
        case CreateChecklist(Fulfilled(checklist)) =>
          items == old(items) + [checklist] && status == old(status) && error == old(error)
        case DeleteChecklist(Fulfilled(id)) =>
          items == Deleted(old(items), id) && status == old(status) && error == old(error)
        case _ =>
          items == old(items) && status == old(status) && error == old(error)
    {
      match action
      case FetchChecklists(Pending) => FetchPending();
      case FetchChecklists(Fulfilled(payload)) => FetchFulfilled(payload);
      case FetchChecklists(Rejected(_, message)) => FetchRejected(message);
      case CreateChecklist(Fulfilled(checklist)) => CreateFulfilled(checklist);
      case DeleteChecklist(Fulfilled(id)) => DeleteFulfilled(id);
      case _ =>
    }
  }

  /** Deleting the id a create returned removes that checklist again, when the
    * id is a primitive that no earlier checklist carries. */
  lemma DeleteUndoesCreate(items: seq<Value>, res: HttpResult, name: Value)
    requires CreateChecklistOutcome(res, name).Fulfilled?
    requires !GetOpt(res.data, "id").Arr? && !GetOpt(res.data, "id").Obj?
    requires Readable(items)
    requires forall j :: 0 <= j < |items| ==> !Matches(items[j], GetOpt(res.data, "id"))
    ensures Deleted(items + [CreateChecklistOutcome(res, name).result], GetOpt(res.data, "id")) == items
  {
    var c := CreateChecklistOutcome(res, name).result;
    assert Matches(c, GetOpt(res.data, "id"));
    DeleteAppendedMatch(items, c, GetOpt(res.data, "id"));
  }

  /** The three response shapes the client accepts give the same list. */
  lemma FetchShapesAgree(list: seq<Value>)
    ensures FetchChecklistsOutcome(Response(Arr(list))) == Fulfilled(Arr(list))
    ensures FetchChecklistsOutcome(Response(Obj(map["data" := Arr(list)]))) == Fulfilled(Arr(list))
    ensures FetchChecklistsOutcome(Response(Obj(map["items" := Arr(list)]))) == Fulfilled(Arr(list))
  {
  }

  /** The envelope is chosen by truthiness, not by being an array: a truthy
    * non-array `data` wins over an `items` array, and the stored list is then empty. */
  lemma TruthyDataHidesItems(data: Value, list: seq<Value>)
    requires Truthy(data) && !data.Arr?
    ensures FetchChecklistsOutcome(Response(Obj(map["data" := data, "items" := Arr(list)]))) == Fulfilled(data)
    ensures ArrayElems(data) == []
  {
  }
}
