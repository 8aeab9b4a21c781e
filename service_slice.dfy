/**
 * The service store (`src/store/service/serviceSlice.ts` and the record of
 * `src/store/service/serviceTypes.ts`): a list of services fed by the
 * results of the fetch, create, update and delete requests, with a loading
 * flag and an error message.
 */
module ServiceSlice {
  import opened Wrappers
  import opened Collections

  datatype ServiceAssociation = ServiceAssociation(productName: string, quantityRequired: int, isOptional: bool)

  datatype Service = Service(
    serviceId: int,
    name: string,
    description: string,
    imageUrl: string,
    price: real,
    durationMinutes: int,
    isAvailable: bool,
    associations: seq<ServiceAssociation>)

  /** `list.findIndex(s => s.service_id === id)`: the first position holding that id, or -1. */
  function FindIndex(list: seq<Service>, id: int): (i: int)
    ensures -1 <= i < |list|
    ensures 0 <= i ==> list[i].serviceId == id && forall k :: 0 <= k < i ==> list[k].serviceId != id
    ensures i == -1 <==> forall k :: 0 <= k < |list| ==> list[k].serviceId != id
  {
    if list == [] then -1
    else if list[0].serviceId == id then 0
    else
      var rest := FindIndex(list[1..], id);
      if rest == -1 then -1 else rest + 1
  }

  /** The update reducer's effect on the list: the first entry with the payload's id becomes the payload. */
  function ReplaceFirst(list: seq<Service>, updated: Service): seq<Service> {
    var index := FindIndex(list, updated.serviceId);
    if index != -1 then list[index := updated] else list
  }

  /** The delete reducer's effect on the list. */
  function RemoveService(list: seq<Service>, id: int): seq<Service> {
    Filter(list, (s: Service) => s.serviceId != id)
  }

  /**
   * An update never changes the length or the ids in order; it stores the
   * payload when its id is listed, replacing the first such entry only, and
   * otherwise changes nothing.
   */
  lemma ReplaceFirstEffect(list: seq<Service>, updated: Service)
    ensures |ReplaceFirst(list, updated)| == |list|
    ensures forall k :: 0 <= k < |list| ==> ReplaceFirst(list, updated)[k].serviceId == list[k].serviceId
    ensures (exists k :: 0 <= k < |list| && list[k].serviceId == updated.serviceId) ==>
      updated in ReplaceFirst(list, updated)
      && forall k :: 0 <= k < |list| && k != FindIndex(list, updated.serviceId) ==> ReplaceFirst(list, updated)[k] == list[k]
    ensures (forall k :: 0 <= k < |list| ==> list[k].serviceId != updated.serviceId) ==> ReplaceFirst(list, updated) == list
  {
    var index := FindIndex(list, updated.serviceId);
    if index != -1 {
      assert ReplaceFirst(list, updated)[index] == updated;
    }
  }

  /** A delete keeps the other entries in order and leaves none with that id. */
  lemma RemoveServiceEffect(list: seq<Service>, id: int)
    ensures Sublist(RemoveService(list, id), list)
    ensures forall k :: 0 <= k < |RemoveService(list, id)| ==> RemoveService(list, id)[k].serviceId != id
    ensures forall k :: 0 <= k < |list| && list[k].serviceId != id ==> list[k] in RemoveService(list, id)
    ensures FindIndex(RemoveService(list, id), id) == -1
  {
    FilterIsSublist(list, (s: Service) => s.serviceId != id);
  }

  class ServiceState {
    var list: seq<Service>
    var loading: bool
    var error: Option<string>

    constructor()
      ensures list == [] && !loading && error == None
    {
      list := [];
      loading := false;
      error := None;
    }

    /** `fetchServices.pending` */
    method FetchPending()
      modifies this
      ensures loading && list == old(list) && error == old(error)
    {
      loading := true;
    }

    /** `fetchServices.fulfilled`: the list is replaced; an earlier error stays. */
    method FetchFulfilled(payload: seq<Service>)
      modifies this
      ensures !loading && list == payload && error == old(error)
    {
      loading := false;
      list := payload;
    }

    /** `fetchServices.rejected` */
    method FetchRejected(message: string)
      modifies this
      ensures !loading && error == Some(message) && list == old(list)
    {
      loading := false;
      error := Some(message);
    }

    /** `createService.fulfilled`: the new service goes to the front. */
    method CreateFulfilled(created: Service)
      modifies this
      ensures list == [created] + old(list) && |list| == |old(list)| + 1
      ensures loading == old(loading) && error == old(error)
    {
      list := [created] + list;
    }

    /** `updateService.fulfilled` */
    method UpdateFulfilled(updated: Service)
      modifies this
      ensures list == ReplaceFirst(old(list), updated) && |list| == |old(list)|
      ensures loading == old(loading) && error == old(error)
    {
      var index := FindIndex(list, updated.serviceId);
      if index != -1 {
        list := list[index := updated];
      }
    }

    /** `deleteService.fulfilled` */
    method DeleteFulfilled(id: int)
      modifies this
      ensures list == RemoveService(old(list), id)
      ensures loading == old(loading) && error == old(error)
    {
      list := RemoveService(list, id);
    }
  }
}
