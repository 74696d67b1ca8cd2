/** The list of a user's bookings (src/app/components/my-bookings/my-bookings.component.ts):
    the status filter, the upcoming and past partitions, and when a booking may
    be cancelled. The component's `new Date()` is the parameter `now`. */
module MyBookingsView {
  import opened Seqs
  import opened Dates
  import opened BookingModel

  /** filteredBookings: the whole list for "all", otherwise the bookings whose
      status has that code. */
  function FilteredBookings(bookings: seq<Booking>, filterStatus: string): (r: seq<Booking>)
    ensures filterStatus == "all" ==> r == bookings
    ensures filterStatus != "all" ==> IsSubseq(r, bookings)
    ensures filterStatus != "all" ==> forall i :: 0 <= i < |r| ==> StatusCode(r[i].status) == filterStatus
    ensures filterStatus != "all" ==> forall b: Booking {:trigger multiset(r)[b]} ::
      StatusCode(b.status) == filterStatus ==> multiset(r)[b] == multiset(bookings)[b]
  {
    if filterStatus == "all" then bookings
    else Filter(bookings, (b: Booking) => StatusCode(b.status) == filterStatus)
  }

  /** A filter that names no status shows nothing. */
  lemma UnknownFilterShowsNothing(bookings: seq<Booking>, filterStatus: string)
    requires filterStatus != "all"
    requires forall s: BookingStatus :: StatusCode(s) != filterStatus
    ensures FilteredBookings(bookings, filterStatus) == []
  {
  }

  /** The booking's flight leaves after now, and the booking is confirmed. */
  predicate IsUpcoming(b: Booking, now: DateTime) {
    Before(now, b.flight.departureDate) && b.status == Confirmed
  }

  /** The booking's flight left at or before now, or the booking is completed. */
  predicate IsPast(b: Booking, now: DateTime) {
    !Before(now, b.flight.departureDate) || b.status == Completed
  }

  /** upcomingBookings. */
  function UpcomingBookings(bookings: seq<Booking>, now: DateTime): (r: seq<Booking>)
    ensures IsSubseq(r, bookings)
    ensures forall b :: b in r <==> b in bookings && Before(now, b.flight.departureDate) && b.status == Confirmed
    ensures forall b: Booking {:trigger multiset(r)[b]} :: IsUpcoming(b, now) ==> multiset(r)[b] == multiset(bookings)[b]
  {
    Filter(bookings, (b: Booking) => IsUpcoming(b, now))
  }

  /** pastBookings. */
  function PastBookings(bookings: seq<Booking>, now: DateTime): (r: seq<Booking>)
    ensures IsSubseq(r, bookings)
    ensures forall b :: b in r <==> b in bookings && (!Before(now, b.flight.departureDate) || b.status == Completed)
    ensures forall b: Booking {:trigger multiset(r)[b]} :: IsPast(b, now) ==> multiset(r)[b] == multiset(bookings)[b]
  {
    Filter(bookings, (b: Booking) => IsPast(b, now))
  }

  /** canCancelBooking: confirmed, and the flight is still to leave. */
  function CanCancelBooking(b: Booking, now: DateTime): (r: bool)
    ensures r <==> IsUpcoming(b, now)
    ensures r ==> !IsPast(b, now)
  {
    b.status == Confirmed && Before(now, b.flight.departureDate)
  }

  /** No booking is both upcoming and past; a cancelled or pending booking
      whose flight is still to leave is in neither list. */
  lemma UpcomingPastSeparate(bookings: seq<Booking>, now: DateTime, b: Booking)
    ensures !(b in UpcomingBookings(bookings, now) && b in PastBookings(bookings, now))
    ensures (b.status == BookingStatus.Cancelled || b.status == Pending) && Before(now, b.flight.departureDate) ==>
            b !in UpcomingBookings(bookings, now) && b !in PastBookings(bookings, now)
    ensures b in bookings && (b.status == Confirmed || b.status == Completed) ==>
            b in UpcomingBookings(bookings, now) || b in PastBookings(bookings, now)
  {
  }

  /** The cancel button is offered exactly for the upcoming bookings. */
  lemma CanCancelIffUpcoming(bookings: seq<Booking>, now: DateTime, b: Booking)
    requires b in bookings
    ensures CanCancelBooking(b, now) <==> b in UpcomingBookings(bookings, now)
  {
  }
}
