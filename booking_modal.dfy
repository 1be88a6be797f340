/** The booking dialog of a property: a two-month calendar grid, a
    check-in/check-out selector, a guest counter, the nights/price summary and
    the checks run before a booking draft is handed to the store.
    Dates are day numbers (see Gregorian); "today" is a parameter. */
module BookingModal {
  import opened Common
  import opened Gregorian

  // ---------------------------------------------------------------------------
  // Calendar grid

  /** Number of months the dialog shows. */
  const MonthsShown := 2

  /** One month of the grid. `days` holds a None padding slot for each weekday
      before the 1st, then the day number of every date of the month. The
      displayed month name is the locale rendering of (year, month). */
  datatype CalendarMonth = CalendarMonth(year: int, month: int, days: seq<Option<int>>)

  /** Weekday of the 1st of the month: the number of padding slots. */
  function FirstWeekday(y: int, m: int): int
    requires 1 <= m <= 12
  {
    Weekday(DayNumber(y, m, 1))
  }

  /** The grid of month (y, m). */
  function MonthGrid(y: int, m: int): seq<Option<int>>
    requires 1 <= m <= 12
  {
    seq(FirstWeekday(y, m), _ => None)
    + seq(DaysInMonth(y, m), j => Some(DayNumber(y, m, j + 1)))
  }

  /** The month `offset` months after today's, with its grid. */
  function MonthAt(today: CivilDate, offset: int): CalendarMonth
    requires 1 <= today.month <= 12
  {
    var (y, m) := AddMonths(today.year, today.month, offset);
    CalendarMonth(y, m, MonthGrid(y, m))
  }

  /** The calendar: today's month and the months after it. */
  function Calendar(today: CivilDate): seq<CalendarMonth>
    requires 1 <= today.month <= 12
  {
    seq(MonthsShown, i => MonthAt(today, i))
  }

  /** `generateCalendar`: nested loops push padding and dates into `days`, and
      each month into `months`. */
  method GenerateCalendar(today: CivilDate) returns (months: seq<CalendarMonth>)
    requires 1 <= today.month <= 12
    ensures months == Calendar(today)
  {
    months := [];
    var i := 0;
    while i < MonthsShown
      invariant 0 <= i <= MonthsShown
      invariant months == seq(i, k => MonthAt(today, k))
    {
      var (year, month) := AddMonths(today.year, today.month, i);
      var days: seq<Option<int>> := [];
      var daysInMonth := DaysInMonth(year, month);
      var firstDay := Weekday(DayNumber(year, month, 1));
      var k := 0;
      while k < firstDay
        invariant 0 <= k <= firstDay
        invariant days == seq(k, _ => None)
      {
        days := days + [None];
        k := k + 1;
      }
      var j := 1;
      while j <= daysInMonth
        invariant 1 <= j <= daysInMonth + 1
        invariant days == seq(firstDay, _ => None) + seq(j - 1, d => Some(DayNumber(year, month, d + 1)))
      {
        days := days + [Some(DayNumber(year, month, j))];
        j := j + 1;
      }
      months := months + [CalendarMonth(year, month, days)];
      i := i + 1;
    }
  }

  /** The shape of a month: fewer than seven padding slots, then dates
      1..daysInMonth as consecutive day numbers. */
  lemma MonthGridShape(y: int, m: int)
    requires 1 <= m <= 12
    ensures var g, f := MonthGrid(y, m), FirstWeekday(y, m);
            && 0 <= f < 7
            && |g| == f + DaysInMonth(y, m)
            && (forall k :: 0 <= k < f ==> g[k] == None)
            && (forall k :: f <= k < |g| ==> g[k] == Some(DayNumber(y, m, k - f + 1)))
            && (forall k :: f <= k < |g| - 1 ==> g[k + 1].value == g[k].value + 1)
  {
  }

  /** Every date sits in the column (0 = Sunday) of its own weekday. */
  lemma DatesInWeekdayColumns(y: int, m: int, k: int)
    requires 1 <= m <= 12
    requires 0 <= k < |MonthGrid(y, m)| && MonthGrid(y, m)[k].Some?
    ensures k % 7 == Weekday(MonthGrid(y, m)[k].value)
  {
    var f := FirstWeekday(y, m);
    MonthGridShape(y, m);
    var first := DayNumber(y, m, 1);
    assert MonthGrid(y, m)[k].value == first + (k - f);
    SameColumn(first, k - f);
  }

  /** Moving d days from a date moves d columns in a seven-column grid. */
  lemma SameColumn(first: int, d: int)
    requires d >= 0
    ensures (Weekday(first) + d) % 7 == Weekday(first + d)
  {
    var q := first / 7;
    assert first == 7 * q + Weekday(first);
    assert first + d == 7 * q + (Weekday(first) + d);
  }

  /** The calendar shows two months, today's first, and the second month starts
      the day after the first one ends. */
  lemma CalendarMonths(today: CivilDate)
    requires 1 <= today.month <= 12
    ensures var c := Calendar(today);
            && |c| == 2
            && c[0].year == today.year && c[0].month == today.month
            && c[1].days[FirstWeekday(c[1].year, c[1].month)]
               == Some(c[0].days[|c[0].days| - 1].value + 1)
  {
    NextMonth(today.year, today.month);
    var c := Calendar(today);
    MonthGridShape(c[0].year, c[0].month);
    MonthGridShape(c[1].year, c[1].month);
    MonthsAreContiguous(today.year, today.month);
  }

  /** Today's date is one of the cells of the first month. */
  lemma TodayIsShown(today: CivilDate)
    requires IsValidDate(today)
    ensures Some(DayNumber(today.year, today.month, today.day)) in Calendar(today)[0].days
  {
    NextMonth(today.year, today.month);
    var g := Calendar(today)[0].days;
    MonthGridShape(today.year, today.month);
    assert g[FirstWeekday(today.year, today.month) + today.day - 1]
        == Some(DayNumber(today.year, today.month, today.day));
  }

  /** February 2024 (a leap year) starts on a Thursday: four padding slots, then 29 dates. */
  lemma LeapFebruary2024()
    ensures var g := MonthGrid(2024, 2);
            |g| == 33 && g[..4] == [None, None, None, None]
            && g[4] == Some(DayNumber(2024, 2, 1)) && g[32] == Some(DayNumber(2024, 2, 29))
  {
    assert DayNumber(2024, 2, 1) == 738917;
    assert FirstWeekday(2024, 2) == 4;
  }

  // ---------------------------------------------------------------------------
  // Check-in / check-out selection

  datatype Selection = Selection(checkIn: Option<int>, checkOut: Option<int>)

  const NoDates := Selection(None, None)

  /** The selector's phases: nothing chosen, check-in only, full range. */
  datatype Phase = NoneChosen | CheckInOnly | RangeChosen

  /** The dialog treats a selection without check-in as empty, whatever its check-out. */
  function PhaseOf(s: Selection): Phase {
    if s.checkIn.None? then NoneChosen
    else if s.checkOut.None? then CheckInOnly
    else RangeChosen
  }

  /** A check-out, when there is one, comes strictly after a check-in. */
  predicate Ordered(s: Selection) {
    s.checkOut.Some? ==> s.checkIn.Some? && s.checkIn.value < s.checkOut.value
  }

  /** Day `date` is highlighted in the grid (`isDateSelected`). */
  function IsDateSelected(s: Selection, date: Option<int>): (b: bool)
    ensures b ==> date.Some? && s.checkIn.Some? && s.checkIn.value <= date.value
    ensures b && s.checkOut.None? ==> date.value == s.checkIn.value
    ensures b && s.checkOut.Some? ==> date.value <= s.checkOut.value
    ensures date.Some? && s.checkIn.Some? && s.checkOut.None? ==> (b <==> date.value == s.checkIn.value)
    ensures date.Some? && s.checkIn.Some? && s.checkOut.Some?
            ==> (b <==> s.checkIn.value <= date.value <= s.checkOut.value)
  {
    if date.None? || s.checkIn.None? then false
    else if s.checkOut.None? then date.value == s.checkIn.value
    else s.checkIn.value <= date.value && date.value <= s.checkOut.value
  }

  /** The selector as a three-phase state machine: a click with nothing or a
      full range chosen starts a new range at that day; with check-in only, a
      strictly later day closes the range and any other day moves the check-in. */
  function Select(s: Selection, date: Option<int>): (r: Selection)
    ensures date.None? ==> r == s
    ensures date.Some? ==> Ordered(r) && r.checkIn.Some?
    ensures date.Some? ==> IsDateSelected(r, date)
    ensures r.checkOut.Some? && date.Some? ==> r.checkIn == s.checkIn && r.checkOut == date
  {
    match date
    case None => s
    case Some(d) =>
      match PhaseOf(s)
      case NoneChosen => Selection(Some(d), None)
      case RangeChosen => Selection(Some(d), None)
      case CheckInOnly =>
        if d > s.checkIn.value then Selection(s.checkIn, Some(d)) else Selection(Some(d), None)
  }

  /** A third click always starts over: check-in at the clicked day, no check-out. */
  lemma RestartAfterRange(s: Selection, d: int)
    requires PhaseOf(s) == RangeChosen
    ensures Select(s, Some(d)) == Selection(Some(d), None)
  {
  }

  /** With check-in only, a later day becomes the check-out and an earlier or
      equal day becomes the new check-in. */
  lemma SecondClick(s: Selection, d: int)
    requires PhaseOf(s) == CheckInOnly
    ensures d > s.checkIn.value ==> Select(s, Some(d)) == s.(checkOut := Some(d))
    ensures d <= s.checkIn.value ==> Select(s, Some(d)) == Selection(Some(d), None)
  {
  }

  /** `isDateDisabled`: padding slots, and days before today. */
  function IsDateDisabled(date: Option<int>, today: int): (b: bool)
    ensures b <==> date.None? || date.value < today
  {
    date.None? || date.value < today
  }

  /** A click on a calendar cell: disabled cells do not react. */
  function ClickDay(s: Selection, date: Option<int>, today: int): (r: Selection)
    ensures IsDateDisabled(date, today) ==> r == s
    ensures !IsDateDisabled(date, today) ==> r == Select(s, date)
  {
    if IsDateDisabled(date, today) then s else Select(s, date)
  }

  /** No chosen day lies before today. */
  predicate NotInPast(s: Selection, today: int) {
    (s.checkIn.Some? ==> s.checkIn.value >= today)
    && (s.checkOut.Some? ==> s.checkOut.value >= today)
  }

  /** The selection after a series of clicks on the grid: clicks never choose a
      day in the past, and keep the range ordered. */
  function ClickAll(s: Selection, clicks: seq<Option<int>>, today: int): (r: Selection)
    ensures NotInPast(s, today) && Ordered(s) ==> NotInPast(r, today) && Ordered(r)
    decreases |clicks|
  {
    if clicks == [] then s else ClickAll(ClickDay(s, clicks[0], today), clicks[1..], today)
  }

  // ---------------------------------------------------------------------------
  // Nights, price and guests

  /** `calculateTotalNights`: whole days between the two dates, 0 without a range. */
  function TotalNights(s: Selection): (n: nat)
    ensures s.checkIn.None? || s.checkOut.None? ==> n == 0
    ensures PhaseOf(s) == RangeChosen && Ordered(s) ==> n == s.checkOut.value - s.checkIn.value && n >= 1
  {
    if s.checkIn.None? || s.checkOut.None? then 0
    else if s.checkOut.value >= s.checkIn.value then s.checkOut.value - s.checkIn.value
    else s.checkIn.value - s.checkOut.value
  }

  /** `calculateTotalPrice`: the nightly price (in cents; a missing price counts
      as 0) times the number of nights. */
  function TotalPrice(pricePerNight: Option<nat>, s: Selection): (p: nat)
    ensures pricePerNight.None? || TotalNights(s) == 0 ==> p == 0
    ensures pricePerNight.Some? && PhaseOf(s) == RangeChosen && Ordered(s)
            ==> p == pricePerNight.value * (s.checkOut.value - s.checkIn.value) && p >= pricePerNight.value
  {
    pricePerNight.GetOr(0) * TotalNights(s)
  }

  /** Three nights at 100 cost 300. */
  lemma ThreeNightsExample()
    ensures TotalPrice(Some(100), Selection(Some(DayNumber(2024, 6, 1)), Some(DayNumber(2024, 6, 4)))) == 300
  {
  }

  /** `handleGuestCountChange`: the change is applied only when the new count stays in 1..maxGuests. */
  function AdjustGuests(count: int, change: int, maxGuests: int): (r: int)
    ensures 1 <= count + change <= maxGuests ==> r == count + change
    ensures !(1 <= count + change <= maxGuests) ==> r == count
    ensures 1 <= count <= maxGuests ==> 1 <= r <= maxGuests
    ensures count >= 1 ==> r >= 1
  {
    var newCount := count + change;
    if 1 <= newCount && newCount <= maxGuests then newCount else count
  }

  /** The counter stops at both ends. */
  lemma GuestCounterBounds(maxGuests: int)
    requires maxGuests >= 1
    ensures AdjustGuests(maxGuests, 1, maxGuests) == maxGuests
    ensures AdjustGuests(1, -1, maxGuests) == 1
  {
  }

  // ---------------------------------------------------------------------------
  // Submission gate

  /** What the dialog knows of the property it books. */
  datatype Listing = Listing(id: Option<Id>, pricePerNight: Option<nat>, maxGuests: int)

  datatype BookingError = MissingDates | MissingProperty | TooManyGuests(maxGuests: int)

  /** The booking data passed to the store's createBooking. */
  datatype BookingDraft = BookingDraft(
    checkIn: int, checkOut: int, status: string,
    numberOfNights: nat, numberOfGuests: int, totalPrice: nat)

  const PendingStatus := "PENDING"

  /** The message the dialog shows for each failed check. */
  function ErrorMessage(e: BookingError): (msg: string)
    ensures |msg| > 0
  {
    match e
    case MissingDates => "Please select check-in and check-out dates"
    case MissingProperty => "Property information is missing"
    case TooManyGuests(max) => "Maximum " + ShowInt(max) + " guests allowed"
  }

  /** The checks of `handleBookingSubmit`, in order, and the draft they admit. */
  function ValidateBooking(s: Selection, listing: Listing, guestCount: int): (r: Result<BookingDraft, BookingError>)
    ensures r == Failure(MissingDates) <==> s.checkIn.None? || s.checkOut.None?
    ensures r == Failure(MissingProperty)
            <==> s.checkIn.Some? && s.checkOut.Some? && !Truthy(listing.id)
    ensures r.Failure? && r.error.TooManyGuests?
            ==> r.error.maxGuests == listing.maxGuests && guestCount > listing.maxGuests
    ensures r.Success?
            <==> s.checkIn.Some? && s.checkOut.Some? && Truthy(listing.id) && guestCount <= listing.maxGuests
    ensures r.Success? ==> r.value == BookingDraft(
              s.checkIn.value, s.checkOut.value, PendingStatus,
              TotalNights(s), guestCount, TotalPrice(listing.pricePerNight, s))
  {
    if s.checkIn.None? || s.checkOut.None? then Failure(MissingDates)
    else if !Truthy(listing.id) then Failure(MissingProperty)
    else if guestCount > listing.maxGuests then Failure(TooManyGuests(listing.maxGuests))
    else Success(BookingDraft(
      s.checkIn.value, s.checkOut.value, PendingStatus,
      TotalNights(s), guestCount, TotalPrice(listing.pricePerNight, s)))
  }

  /** A draft built from a selection made through the dialog books at least one
      night, checks out after it checks in, and costs the nightly price per night. */
  lemma DraftFromOrderedSelection(s: Selection, listing: Listing, guestCount: int)
    requires Ordered(s)
    requires ValidateBooking(s, listing, guestCount).Success?
    ensures var d := ValidateBooking(s, listing, guestCount).value;
            && d.checkIn < d.checkOut
            && d.numberOfNights == d.checkOut - d.checkIn >= 1
            && d.totalPrice == listing.pricePerNight.GetOr(0) * d.numberOfNights
  {
  }

  // ---------------------------------------------------------------------------
  // The dialog's state

  /** The state the dialog keeps: `selectedDates`, `guestCount` and the shown `error`. */
  class BookingSession {
    var selectedDates: Selection
    var guestCount: int
    var error: string

    ghost predicate Valid()
      reads this
    {
      Ordered(selectedDates) && guestCount >= 1
    }

    constructor ()
      ensures Valid()
      ensures selectedDates == NoDates && guestCount == 1 && error == ""
    {
      selectedDates := NoDates;
      guestCount := 1;
      error := "";
    }

    /** `handleDateSelect`. */
    method HandleDateSelect(date: Option<int>)
      requires Valid()
      modifies this
      ensures Valid()
      ensures selectedDates == Select(old(selectedDates), date)
      ensures guestCount == old(guestCount) && error == old(error)
    {
      if date.None? {
        return;
      }
      if selectedDates.checkIn.None? || (selectedDates.checkIn.Some? && selectedDates.checkOut.Some?) {
        selectedDates := Selection(date, None);
      } else {
        if date.value > selectedDates.checkIn.value {
          selectedDates := selectedDates.(checkOut := date);
        } else {
          selectedDates := Selection(date, None);
        }
      }
    }

    /** `handleGuestCountChange`. */
    method HandleGuestCountChange(change: int, maxGuests: int)
      requires Valid()
      modifies this
      ensures Valid()
      ensures guestCount == AdjustGuests(old(guestCount), change, maxGuests)
      ensures selectedDates == old(selectedDates) && error == old(error)
    {
      var newCount := guestCount + change;
      if newCount >= 1 && newCount <= maxGuests {
        guestCount := newCount;
      }
    }

    /** The validation part of `handleBookingSubmit`: on a failed check the
        message is shown and nothing is submitted; otherwise the error is cleared
        and the draft is returned for submission. */
    method HandleBookingSubmit(listing: Listing) returns (outcome: Result<BookingDraft, BookingError>)
      modifies this
      ensures outcome == ValidateBooking(selectedDates, listing, guestCount)
      ensures outcome.Failure? ==> error == ErrorMessage(outcome.error)
      ensures outcome.Success? ==> error == ""
      ensures selectedDates == old(selectedDates) && guestCount == old(guestCount)
    {
      if selectedDates.checkIn.None? || selectedDates.checkOut.None? {
        error := ErrorMessage(MissingDates);
        return Failure(MissingDates);
      }
      if !Truthy(listing.id) {
        error := ErrorMessage(MissingProperty);
        return Failure(MissingProperty);
      }
      if guestCount > listing.maxGuests {
        error := ErrorMessage(TooManyGuests(listing.maxGuests));
        return Failure(TooManyGuests(listing.maxGuests));
      }
      error := "";
      outcome := Success(BookingDraft(
        selectedDates.checkIn.value, selectedDates.checkOut.value, PendingStatus,
        TotalNights(selectedDates), guestCount, TotalPrice(listing.pricePerNight, selectedDates)));
    }
  }
}
