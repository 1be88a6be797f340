/** The `bookings` slice of the Redux store: the booking table, the booking on
    display and the loading/error flags. Each action carries the payload its
    async thunk resolved or rejected with; the REST calls are not modelled. A
    thunk resolves with `response?.data?.data`, which is undefined (None here)
    when the response body has no `data` field. */
module BookingsSlice {
  import opened Common
  import opened Records

  /** A snapshot of every field of the slice. */
  datatype BookingsState = BookingsState(
    bookings: seq<Record>,
    currentBooking: Option<Record>,
    filteredBookings: seq<Record>,
    loading: bool,
    error: Option<string>)

  const InitialState := BookingsState([], None, [], false, None)

  /** The slice's async thunks. */
  datatype Thunk =
    | CreateBooking | GetAllBookings | GetBookingById | UpdateBooking
    | UpdateBookingPartial | DeleteBooking

  datatype Action =
    | ClearBookingErrors
    | ClearCurrentBooking
    | ClearFilteredBookings
    | Pending(thunk: Thunk)
    | Rejected(thunk: Thunk, message: string)
    | CreateFulfilled(created: Record)
    | GetAllFulfilled(all: seq<Record>)
    | GetByIdFulfilled(found: Option<Record>)
    | UpdateFulfilled(updated: Option<Record>)
    | UpdatePartialFulfilled(updated: Option<Record>)
    | DeleteFulfilled(deletedId: Id)

  predicate IsFulfilled(a: Action) {
    a.CreateFulfilled? || a.GetAllFulfilled? || a.GetByIdFulfilled? || a.UpdateFulfilled?
    || a.UpdatePartialFulfilled? || a.DeleteFulfilled?
  }

  predicate IsUpdate(a: Action) {
    a.UpdateFulfilled? || a.UpdatePartialFulfilled?
  }

  /** Both update cases read `action.payload.id` once per listed booking and
      once more when a booking is selected: with an undefined payload that
      throws a TypeError unless both are absent. */
  predicate UpdateThrows(s: BookingsState, updated: Option<Record>) {
    updated.None? && (|s.bookings| > 0 || s.currentBooking.Some?)
  }

  /** The state after an update case, or None when it throws. */
  function AfterUpdate(s: BookingsState, updated: Option<Record>): Option<BookingsState> {
    if UpdateThrows(s, updated) then None
    else if updated.None? then Some(s.(loading := false, error := None))
    else Some(s.(bookings := ReplaceById(s.bookings, updated.value),
                 currentBooking := RefreshIfSameId(s.currentBooking, updated.value),
                 loading := false, error := None))
  }

  /** The slice reducer: the state after `a`, or None when its case reducer
      throws, in which case the store keeps the state it had. */
  function Reduce(s: BookingsState, a: Action): (r: Option<BookingsState>)
    ensures r.None? <==> IsUpdate(a) && UpdateThrows(s, a.updated)
    ensures r.Some? && IsFulfilled(a) ==> !r.value.loading && r.value.error.None?
    ensures r.Some? && r.value.filteredBookings != s.filteredBookings
            ==> a.ClearFilteredBookings? && r.value.filteredBookings == []
    ensures r.Some? && r.value.bookings != s.bookings
            ==> a.CreateFulfilled? || a.GetAllFulfilled? || IsUpdate(a) || a.DeleteFulfilled?
    ensures r.Some? && r.value.currentBooking != s.currentBooking
            ==> a.ClearCurrentBooking? || a.GetByIdFulfilled? || IsUpdate(a) || a.DeleteFulfilled?
  {
    match a
    case ClearBookingErrors => Some(s.(error := None))
    case ClearCurrentBooking => Some(s.(currentBooking := None))
    case ClearFilteredBookings => Some(s.(filteredBookings := []))
    case Pending(_) => Some(s.(loading := true))
    case Rejected(_, message) => Some(s.(loading := false, error := Some(message)))
    case CreateFulfilled(created) =>
      Some(s.(bookings := s.bookings + [created], loading := false, error := None))
    case GetAllFulfilled(all) => Some(s.(bookings := all, loading := false, error := None))
    case GetByIdFulfilled(found) => Some(s.(currentBooking := found, loading := false, error := None))
    case UpdateFulfilled(updated) => AfterUpdate(s, updated)
    case UpdatePartialFulfilled(updated) => AfterUpdate(s, updated)
    case DeleteFulfilled(id) =>
      Some(s.(bookings := RemoveById(s.bookings, id),
              currentBooking := ClearIfSameId(s.currentBooking, id),
              loading := false, error := None))
  }

  /** Creating a booking whose id is new and then deleting that id gives back
      the table as it was. */
  lemma CreateThenDeleteRestores(s: BookingsState, created: Record)
    requires forall b :: b in s.bookings ==> b.id != created.id
    ensures Reduce(s, CreateFulfilled(created)).Some?
    ensures Reduce(Reduce(s, CreateFulfilled(created)).value, DeleteFulfilled(created.id)).value.bookings
            == s.bookings
  {
    RemoveByIdAppend(s.bookings, [created], created.id);
    RemoveByIdAbsent(s.bookings, created.id);
  }

  /** Delivering the same update twice leaves the slice as delivering it once. */
  lemma UpdateIdempotent(s: BookingsState, updated: Record)
    ensures Reduce(s, UpdateFulfilled(Some(updated))).Some?
    ensures var once := Reduce(s, UpdateFulfilled(Some(updated))).value;
            Reduce(once, UpdateFulfilled(Some(updated))) == Some(once)
  {
    ReplaceByIdIdempotent(s.bookings, updated);
  }

  class BookingStore {
    var bookings: seq<Record>
    var currentBooking: Option<Record>
    var filteredBookings: seq<Record>
    var loading: bool
    var error: Option<string>

    ghost function State(): BookingsState
      reads this
    {
      BookingsState(bookings, currentBooking, filteredBookings, loading, error)
    }

    /** Nothing ever fills `filteredBookings`. */
    ghost predicate Valid()
      reads this
    {
      filteredBookings == []
    }

    /** `initialState`. */
    constructor ()
      ensures Valid()
      ensures State() == InitialState
    {
      bookings, currentBooking, filteredBookings := [], None, [];
      loading, error := false, None;
    }

    method ClearBookingErrors()
      modifies this
      ensures State() == old(State()).(error := None)
    {
      error := None;
    }

    method ClearCurrentBooking()
      modifies this
      ensures State() == old(State()).(currentBooking := None)
    {
      currentBooking := None;
    }

    method ClearFilteredBookings()
      modifies this
      ensures State() == old(State()).(filteredBookings := [])
    {
      filteredBookings := [];
    }

    /** Every thunk's `pending` case. */
    method Pending()
      modifies this
      ensures State() == old(State()).(loading := true)
    {
      loading := true;
    }

    /** Every thunk's `rejected` case. */
    method Rejected(message: string)
      modifies this
      ensures State() == old(State()).(loading := false, error := Some(message))
    {
      loading := false;
      error := Some(message);
    }

    /** `createBooking.fulfilled`: the created booking is pushed onto the list. */
    method CreateFulfilled(created: Record)
      modifies this
      ensures State() == old(State()).(bookings := old(bookings) + [created], loading := false, error := None)
    {
      bookings := bookings + [created];
      loading := false;
      error := None;
    }

    /** `getAllBookings.fulfilled`. */
    method GetAllFulfilled(all: seq<Record>)
      modifies this
      ensures State() == old(State()).(bookings := all, loading := false, error := None)
    {
      bookings := all;
      loading := false;
      error := None;
    }

    /** `getBookingById.fulfilled`: an undefined payload leaves no booking selected. */
    method GetByIdFulfilled(found: Option<Record>)
      modifies this
      ensures State() == old(State()).(currentBooking := found, loading := false, error := None)
    {
      currentBooking := found;
      loading := false;
      error := None;
    }

    /** `updateBooking.fulfilled` and `updateBookingPartial.fulfilled`.
        `threw` reports the TypeError of an undefined payload; the store then
        keeps its state. */
    method UpdateFulfilled(updated: Option<Record>) returns (threw: bool)
      modifies this
      ensures threw <==> UpdateThrows(old(State()), updated)
      ensures threw ==> State() == old(State())
      ensures !threw && updated.None? ==> State() == old(State()).(loading := false, error := None)
      ensures updated.Some? ==> State() == old(State()).(
                bookings := ReplaceById(old(bookings), updated.value),
                currentBooking := RefreshIfSameId(old(currentBooking), updated.value),
                loading := false, error := None)
    {
      if updated.None? {
        threw := |bookings| > 0 || currentBooking.Some?;
        if !threw {
          loading := false;
          error := None;
        }
        return;
      }
      threw := false;
      bookings := ReplaceById(bookings, updated.value);
      if currentBooking.Some? && currentBooking.value.id == updated.value.id {
        currentBooking := updated;
      }
      loading := false;
      error := None;
    }

    /** `deleteBooking.fulfilled`: the payload is the deleted id. */
    method DeleteFulfilled(id: Id)
      modifies this
      ensures State() == old(State()).(
                bookings := RemoveById(old(bookings), id),
                currentBooking := ClearIfSameId(old(currentBooking), id),
                loading := false, error := None)
    {
      bookings := RemoveById(bookings, id);
      if currentBooking.Some? && currentBooking.value.id == id {
        currentBooking := None;
      }
      loading := false;
      error := None;
    }

    /** The slice reducer: routes an action to its case reducer. `threw`
        reports a case reducer that throws; the store then keeps its state. */
    method Dispatch(a: Action) returns (threw: bool)
      requires Valid()
      modifies this
      ensures Valid()
      ensures threw <==> Reduce(old(State()), a).None?
      ensures State() == Reduce(old(State()), a).GetOr(old(State()))
    {
      threw := false;
      match a
      case ClearBookingErrors => ClearBookingErrors();
      case ClearCurrentBooking => ClearCurrentBooking();
      case ClearFilteredBookings => ClearFilteredBookings();
      case Pending(_) => Pending();
      case Rejected(_, message) => Rejected(message);
      case CreateFulfilled(created) => CreateFulfilled(created);
      case GetAllFulfilled(all) => GetAllFulfilled(all);
      case GetByIdFulfilled(found) => GetByIdFulfilled(found);
      case UpdateFulfilled(updated) => threw := UpdateFulfilled(updated);
      case UpdatePartialFulfilled(updated) => threw := UpdateFulfilled(updated);
      case DeleteFulfilled(id) => DeleteFulfilled(id);
    }
  }

  /** Whatever actions arrive, `filteredBookings` stays empty. */
  method FilteredBookingsStayEmpty(actions: seq<Action>) returns (store: BookingStore)
    ensures store.filteredBookings == []
  {
    store := new BookingStore();
    var i := 0;
    while i < |actions|
      invariant 0 <= i <= |actions|
      invariant store.Valid()
    {
      var _ := store.Dispatch(actions[i]);
      i := i + 1;
    }
  }
}
