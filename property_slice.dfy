/** The `properties` slice of the Redux store: the listing tables and the
    loading/error flags, updated by one case reducer per action. The async
    thunks that produce the actions (REST calls) are not modelled: each action
    carries the payload its thunk resolved or rejected with. A thunk resolves
    with `response?.data?.data`, which is undefined (None here) when the
    response body has no `data` field. */
module PropertySlice {
  import opened Common
  import opened Records

  /** An availability report, as the API returns it. */
  type Availability = map<string, string>

  /** A snapshot of every field of the slice. */
  datatype PropertyState = PropertyState(
    properties: seq<Record>,
    currentProperty: Option<Record>,
    filteredProperties: seq<Record>,
    userProperties: seq<Record>,
    loading: bool,
    error: Option<string>,
    availability: Option<Availability>)

  const InitialState := PropertyState([], None, [], [], false, None, None)

  /** The slice's async thunks. */
  datatype Thunk =
    | CreateProperty | GetAllProperties | GetPropertyById | GetPropertiesByLocation
    | GetPropertiesByPriceRange | UpdateProperty | UpdatePropertyPartial
    | DeleteProperty | CheckPropertyAvailability

  /** The actions the slice reduces: its own three reducers, and the pending,
      fulfilled and rejected actions of every thunk. */
  datatype Action =
    | ClearPropertyErrors
    | ClearCurrentProperty
    | ClearFilteredProperties
    | Pending(thunk: Thunk)
    | Rejected(thunk: Thunk, message: string)
    | CreateFulfilled(created: Record)
    | GetAllFulfilled(all: seq<Record>)
    | GetByIdFulfilled(found: Option<Record>)
    | ByLocationFulfilled(inLocation: seq<Record>)
    | ByPriceRangeFulfilled(inRange: seq<Record>)
    | UpdateFulfilled(updated: Option<Record>)
    | UpdatePartialFulfilled(updated: Option<Record>)
    | DeleteFulfilled(deletedId: Id)
    | AvailabilityFulfilled(report: Option<Availability>)

  predicate IsFulfilled(a: Action) {
    a.CreateFulfilled? || a.GetAllFulfilled? || a.GetByIdFulfilled? || a.ByLocationFulfilled?
    || a.ByPriceRangeFulfilled? || a.UpdateFulfilled? || a.UpdatePartialFulfilled?
    || a.DeleteFulfilled? || a.AvailabilityFulfilled?
  }

  predicate IsUpdate(a: Action) {
    a.UpdateFulfilled? || a.UpdatePartialFulfilled?
  }

  /** Both update cases read `action.payload.id` once per listed property (in
      the `map` callback) and once more when a property is selected: with an
      undefined payload that throws a TypeError unless both are absent. */
  predicate UpdateThrows(s: PropertyState, updated: Option<Record>) {
    updated.None? && (|s.properties| > 0 || s.currentProperty.Some?)
  }

  /** The state after an update case, or None when it throws. */
  function AfterUpdate(s: PropertyState, updated: Option<Record>): Option<PropertyState> {
    if UpdateThrows(s, updated) then None
    else if updated.None? then Some(s.(loading := false, error := None))
    else Some(s.(properties := ReplaceById(s.properties, updated.value),
                 currentProperty := RefreshIfSameId(s.currentProperty, updated.value),
                 loading := false, error := None))
  }

  /** The slice reducer: the state after `a`, or None when its case reducer
      throws, in which case the store keeps the state it had. */
  function Reduce(s: PropertyState, a: Action): (r: Option<PropertyState>)
    ensures r.None? <==> IsUpdate(a) && UpdateThrows(s, a.updated)
    ensures r.Some? && IsFulfilled(a) ==> !r.value.loading && r.value.error.None?
    ensures r.Some? && r.value.loading != s.loading ==> !a.ClearPropertyErrors? && !a.ClearCurrentProperty? && !a.ClearFilteredProperties?
    ensures r.Some? ==> r.value.userProperties == s.userProperties
    ensures r.Some? && r.value.filteredProperties != s.filteredProperties
            ==> a.ByLocationFulfilled? || a.ByPriceRangeFulfilled? || a.ClearFilteredProperties?
    ensures r.Some? && r.value.availability != s.availability ==> a.AvailabilityFulfilled?
    ensures r.Some? && r.value.properties != s.properties
            ==> a.CreateFulfilled? || a.GetAllFulfilled? || IsUpdate(a) || a.DeleteFulfilled?
    ensures r.Some? && r.value.currentProperty != s.currentProperty
            ==> a.ClearCurrentProperty? || a.GetByIdFulfilled? || IsUpdate(a) || a.DeleteFulfilled?
  {
    match a
    case ClearPropertyErrors => Some(s.(error := None))
    case ClearCurrentProperty => Some(s.(currentProperty := None))
    case ClearFilteredProperties => Some(s.(filteredProperties := []))
    case Pending(_) => Some(s.(loading := true))
    case Rejected(_, message) => Some(s.(loading := false, error := Some(message)))
    case CreateFulfilled(created) =>
      Some(s.(properties := s.properties + [created], loading := false, error := None))
    case GetAllFulfilled(all) => Some(s.(properties := all, loading := false, error := None))
    case GetByIdFulfilled(found) => Some(s.(currentProperty := found, loading := false, error := None))
    case ByLocationFulfilled(matches) =>
      Some(s.(filteredProperties := matches, loading := false, error := None))
    case ByPriceRangeFulfilled(matches) =>
      Some(s.(filteredProperties := matches, loading := false, error := None))
    case UpdateFulfilled(updated) => AfterUpdate(s, updated)
    case UpdatePartialFulfilled(updated) => AfterUpdate(s, updated)
    case DeleteFulfilled(id) =>
      Some(s.(properties := RemoveById(s.properties, id),
              currentProperty := ClearIfSameId(s.currentProperty, id),
              loading := false, error := None))
    case AvailabilityFulfilled(report) => Some(s.(availability := report, loading := false, error := None))
  }

  /** Creating a property whose id is new and then deleting that id gives back
      the table as it was. */
  lemma CreateThenDeleteRestores(s: PropertyState, created: Record)
    requires forall p :: p in s.properties ==> p.id != created.id
    ensures Reduce(s, CreateFulfilled(created)).Some?
    ensures Reduce(Reduce(s, CreateFulfilled(created)).value, DeleteFulfilled(created.id)).value.properties
            == s.properties
  {
    RemoveByIdAppend(s.properties, [created], created.id);
    RemoveByIdAbsent(s.properties, created.id);
  }

  /** Delivering the same update twice leaves the slice as delivering it once. */
  lemma UpdateIdempotent(s: PropertyState, updated: Record)
    ensures Reduce(s, UpdateFulfilled(Some(updated))).Some?
    ensures var once := Reduce(s, UpdateFulfilled(Some(updated))).value;
            Reduce(once, UpdateFulfilled(Some(updated))) == Some(once)
  {
    ReplaceByIdIdempotent(s.properties, updated);
  }

  /** After a delete, the table holds exactly the other records, in their order. */
  lemma DeleteKeepsOthers(s: PropertyState, id: Id, rest: seq<Record>)
    requires forall p :: p in rest ==> p.id != id
    ensures Reduce(s.(properties := s.properties + rest), DeleteFulfilled(id)).value.properties
            == RemoveById(s.properties, id) + rest
  {
    RemoveByIdAppend(s.properties, rest, id);
    RemoveByIdAbsent(rest, id);
  }

  class PropertyStore {
    var properties: seq<Record>
    var currentProperty: Option<Record>
    var filteredProperties: seq<Record>
    var userProperties: seq<Record>
    var loading: bool
    var error: Option<string>
    var availability: Option<Availability>

    ghost function State(): PropertyState
      reads this
    {
      PropertyState(properties, currentProperty, filteredProperties, userProperties,
                    loading, error, availability)
    }

    /** `initialState`. */
    constructor ()
      ensures State() == InitialState
    {
      properties, currentProperty, filteredProperties, userProperties := [], None, [], [];
      loading, error, availability := false, None, None;
    }

    method ClearPropertyErrors()
      modifies this
      ensures State() == old(State()).(error := None)
    {
      error := None;
    }

    method ClearCurrentProperty()
      modifies this
      ensures State() == old(State()).(currentProperty := None)
    {
      currentProperty := None;
    }

    method ClearFilteredProperties()
      modifies this
      ensures State() == old(State()).(filteredProperties := [])
    {
      filteredProperties := [];
    }

    /** Every thunk's `pending` case. */
    method Pending()
      modifies this
      ensures State() == old(State()).(loading := true)
    {
      loading := true;
    }

    /** Every thunk's `rejected` case: the payload is the thunk's error message. */
    method Rejected(message: string)
      modifies this
      ensures State() == old(State()).(loading := false, error := Some(message))
    {
      loading := false;
      error := Some(message);
    }

    /** `createProperty.fulfilled`: the created property is pushed onto the list. */
    method CreateFulfilled(created: Record)
      modifies this
      ensures State() == old(State()).(properties := old(properties) + [created], loading := false, error := None)
    {
      properties := properties + [created];
      loading := false;
      error := None;
    }

    /** `getAllProperties.fulfilled`. */
    method GetAllFulfilled(all: seq<Record>)
      modifies this
      ensures State() == old(State()).(properties := all, loading := false, error := None)
    {
      properties := all;
      loading := false;
      error := None;
    }

    /** `getPropertyById.fulfilled`: an undefined payload leaves no property selected. */
    method GetByIdFulfilled(found: Option<Record>)
      modifies this
      ensures State() == old(State()).(currentProperty := found, loading := false, error := None)
    {
      currentProperty := found;
      loading := false;
      error := None;
    }

    /** `getPropertiesByLocation.fulfilled` and `getPropertiesByPriceRange.fulfilled`. */
    method FilterFulfilled(matches: seq<Record>)
      modifies this
      ensures State() == old(State()).(filteredProperties := matches, loading := false, error := None)
    {
      filteredProperties := matches;
      loading := false;
      error := None;
    }

    /** `updateProperty.fulfilled` and `updatePropertyPartial.fulfilled`.
        `threw` reports the TypeError of an undefined payload; the store then
        keeps its state. */
    method UpdateFulfilled(updated: Option<Record>) returns (threw: bool)
      modifies this
      ensures threw <==> UpdateThrows(old(State()), updated)
      ensures threw ==> State() == old(State())
      ensures !threw && updated.None? ==> State() == old(State()).(loading := false, error := None)
      ensures updated.Some? ==> State() == old(State()).(
                properties := ReplaceById(old(properties), updated.value),
                currentProperty := RefreshIfSameId(old(currentProperty), updated.value),
                loading := false, error := None)
    {
      if updated.None? {
        threw := |properties| > 0 || currentProperty.Some?;
        if !threw {
          loading := false;
          error := None;
        }
        return;
      }
      threw := false;
      properties := ReplaceById(properties, updated.value);
      if currentProperty.Some? && currentProperty.value.id == updated.value.id {
        currentProperty := updated;
      }
      loading := false;
      error := None;
    }

    /** `deleteProperty.fulfilled`: the payload is the deleted id. */
    method DeleteFulfilled(id: Id)
      modifies this
      ensures State() == old(State()).(
                properties := RemoveById(old(properties), id),
                currentProperty := ClearIfSameId(old(currentProperty), id),
                loading := false, error := None)
    {
      properties := RemoveById(properties, id);
      if currentProperty.Some? && currentProperty.value.id == id {
        currentProperty := None;
      }
      loading := false;
      error := None;
    }

    /** `checkPropertyAvailability.fulfilled`. */
    method AvailabilityFulfilled(report: Option<Availability>)
      modifies this
      ensures State() == old(State()).(availability := report, loading := false, error := None)
    {
      availability := report;
      loading := false;
      error := None;
    }

    /** The slice reducer: routes an action to its case reducer. `threw`
        reports a case reducer that throws; the store then keeps its state. */
    method Dispatch(a: Action) returns (threw: bool)
      modifies this
      ensures threw <==> Reduce(old(State()), a).None?
      ensures State() == Reduce(old(State()), a).GetOr(old(State()))
    {
      threw := false;
      match a
      case ClearPropertyErrors => ClearPropertyErrors();
      case ClearCurrentProperty => ClearCurrentProperty();
      case ClearFilteredProperties => ClearFilteredProperties();
      case Pending(_) => Pending();
      case Rejected(_, message) => Rejected(message);
      case CreateFulfilled(created) => CreateFulfilled(created);
      case GetAllFulfilled(all) => GetAllFulfilled(all);
      case GetByIdFulfilled(found) => GetByIdFulfilled(found);
      case ByLocationFulfilled(matches) => FilterFulfilled(matches);
      case ByPriceRangeFulfilled(matches) => FilterFulfilled(matches);
      case UpdateFulfilled(updated) => threw := UpdateFulfilled(updated);
      case UpdatePartialFulfilled(updated) => threw := UpdateFulfilled(updated);
      case DeleteFulfilled(id) => DeleteFulfilled(id);
      case AvailabilityFulfilled(report) => AvailabilityFulfilled(report);
    }
  }

  /** No reducer of this slice writes `userProperties`: whatever actions arrive, it stays empty. */
  method UserPropertiesStayEmpty(actions: seq<Action>) returns (store: PropertyStore)
    ensures store.userProperties == []
  {
    store := new PropertyStore();
    var i := 0;
    while i < |actions|
      invariant 0 <= i <= |actions|
      invariant store.userProperties == []
    {
      var _ := store.Dispatch(actions[i]);
      i := i + 1;
    }
  }
}
