/** The booking service (src/app/services/booking.service.ts): the flight catalog,
    the booking ledger, and the domain logic that creates and cancels bookings.
    Browser storage is the two fields of the class; the clock, the generated id
    and the random draws are parameters. */
module Ledger {
  import opened Wrappers
  import opened Decimal
  import opened Seqs
  import opened Dates
  import opened FlightModel
  import opened BookingModel

  datatype BookingError = FlightNotFound | BookingNotFound

  /** The three flights stored when the catalog is empty. */
  const SampleFlights: seq<Flight> := [
    Flight("1", "EK201", "Santiago (SCL)", "Dubai (DXB)", DateTime(2025, 11, 15, 0),
           "22:30", "18:45+1", "16h 15m", "Boeing 777-300ER", Scheduled,
           PerClass(1200, 4500, 8500), PerClass(45, 12, 4),
           ["WiFi", "Entretenimiento a bordo", "Comida gourmet", "Lounge exclusivo"]),
    Flight("2", "EK202", "Dubai (DXB)", "Santiago (SCL)", DateTime(2025, 11, 22, 0),
           "08:15", "18:30", "16h 15m", "Airbus A380", Scheduled,
           PerClass(1300, 4700, 9000), PerClass(120, 25, 8),
           ["WiFi", "Entretenimiento", "Bar a bordo", "Ducha (First Class)"]),
    Flight("3", "EK305", "Santiago (SCL)", "Londres (LHR)", DateTime(2025, 10, 20, 0),
           "14:00", "09:30+1", "15h 30m", "Boeing 787-9", Scheduled,
           PerClass(1100, 4200, 7800), PerClass(85, 18, 6),
           ["WiFi", "Entretenimiento", "Comida premium"])
  ]

  // ---------------------------------------------------------------- pricing

  /** The price createBooking stores: the class fare times the number of
      passengers. The extras the request carries are not charged. */
  function BookingTotal(flight: Flight, dto: CreateBookingDto): (total: int)
    ensures dto.flightClass == Economy ==> total == flight.pricing.economy * |dto.passengers|
    ensures dto.flightClass == Business ==> total == flight.pricing.business * |dto.passengers|
    ensures dto.flightClass == FirstClass ==> total == flight.pricing.firstClass * |dto.passengers|
    ensures dto.passengers == [] ==> total == 0
  {
    ForClass(flight.pricing, dto.flightClass) * |dto.passengers|
  }

  /** The stored price depends only on the flight, the class and the passenger
      count: changing the extras of the request never changes it. */
  lemma BookingTotalIgnoresExtras(flight: Flight, dto: CreateBookingDto, extras: Option<BookingExtras>)
    ensures BookingTotal(flight, dto.(extras := extras)) == BookingTotal(flight, dto)
  {
  }

  // ---------------------------------------------------------------- seats

  /** Label of the passenger at position index: row 10 + index, letter A-F in turn. */
  function SeatLabel(index: nat): string {
    NatToString(10 + index) + [(65 + index % 6) as char]
  }

  /** `passengers.map((_, index) => ...)`: one label per passenger. */
  function SeatNumbers(count: nat): (r: seq<string>)
    ensures |r| == count
    ensures forall i :: 0 <= i < count ==> r[i] == SeatLabel(i)
  {
    seq(count, i requires 0 <= i < count => SeatLabel(i))
  }

  /** A seat label reads back as its row, 10 + index, followed by the letter
      'A' + index mod 6. */
  lemma SeatLabelDecodes(index: nat)
    ensures var l := SeatLabel(index);
      |l| >= 3 && ParseNat(l[..|l| - 1]) == Some(10 + index) &&
      'A' <= l[|l| - 1] <= 'F' && l[|l| - 1] as int - 'A' as int == index % 6
  {
    var l := SeatLabel(index);
    assert l[..|l| - 1] == NatToString(10 + index);
    NatRoundTrip(10 + index);
  }

  /** Different passengers never get the same label. */
  lemma SeatLabelInjective(i: nat, j: nat)
    ensures SeatLabel(i) == SeatLabel(j) ==> i == j
  {
    SeatLabelDecodes(i);
    SeatLabelDecodes(j);
  }

  /** All labels of one booking are pairwise distinct. */
  lemma SeatNumbersDistinct(count: nat)
    ensures forall i, j :: 0 <= i < j < count ==> SeatNumbers(count)[i] != SeatNumbers(count)[j]
  {
    forall i, j | 0 <= i < j < count
      ensures SeatNumbers(count)[i] != SeatNumbers(count)[j]
    {
      SeatLabelInjective(i, j);
    }
  }

  // ---------------------------------------------------------------- confirmation code

  const CodeAlphabet: string := "ABCDEFGHIJKLMNOPQRSTUVWXYZ0123456789"

  predicate IsCodeChar(c: char) {
    'A' <= c <= 'Z' || '0' <= c <= '9'
  }

  lemma CodeAlphabetChars()
    ensures |CodeAlphabet| == 36
    ensures forall k :: 0 <= k < 36 ==> IsCodeChar(CodeAlphabet[k])
  {
  }

  /** `Math.floor(Math.random() * chars.length)` for one draw r in [0, 1). */
  function DrawIndex(r: real): (k: int)
    requires 0.0 <= r < 1.0
    ensures 0 <= k < 36
  {
    (r * 36.0).Floor
  }

  /** generateConfirmationCode: six characters of A-Z0-9, one per random draw. */
  method GenerateConfirmationCode(randoms: seq<real>) returns (code: string)
    requires |randoms| == 6
    requires forall i :: 0 <= i < 6 ==> 0.0 <= randoms[i] < 1.0
    ensures |code| == 6
    ensures forall i :: 0 <= i < 6 ==> code[i] == CodeAlphabet[DrawIndex(randoms[i])]
    ensures forall i :: 0 <= i < |code| ==> IsCodeChar(code[i])
  {
    CodeAlphabetChars();
    code := "";
    for i := 0 to 6
      invariant |code| == i
      invariant forall k :: 0 <= k < i ==> code[k] == CodeAlphabet[DrawIndex(randoms[k])]
    {
      code := code + [CodeAlphabet[DrawIndex(randoms[i])]];
    }
  }

  // ---------------------------------------------------------------- queries

  /** getUserBookings: the bookings of one user, in ledger order, all of them. */
  function UserBookings(ledger: seq<Booking>, userId: string): (r: seq<Booking>)
    ensures IsSubseq(r, ledger)
    ensures forall i :: 0 <= i < |r| ==> r[i].userId == userId
    ensures forall b: Booking {:trigger multiset(r)[b]} :: b.userId == userId ==> multiset(r)[b] == multiset(ledger)[b]
  {
    Filter(ledger, (b: Booking) => b.userId == userId)
  }

  /** A booking appended to the ledger is the last of its user's bookings. */
  lemma UserBookingsAppend(ledger: seq<Booking>, b: Booking)
    ensures UserBookings(ledger + [b], b.userId) == UserBookings(ledger, b.userId) + [b]
  {
    FilterSnoc(ledger, b, (x: Booking) => x.userId == b.userId);
  }

  /** Position of the first booking with the given id (what `find` stops at). */
  function BookingIndex(ledger: seq<Booking>, bookingId: string): (r: Option<nat>)
    ensures r.None? <==> forall i :: 0 <= i < |ledger| ==> ledger[i].id != bookingId
    ensures r.Some? ==> r.value < |ledger| && ledger[r.value].id == bookingId
    ensures r.Some? ==> forall j :: 0 <= j < r.value ==> ledger[j].id != bookingId
  {
    FirstIndex(ledger, (b: Booking) => b.id == bookingId)
  }

  /** getBookingById: the first booking with that id, or none. */
  function BookingById(ledger: seq<Booking>, bookingId: string): (r: Option<Booking>)
    ensures r.None? <==> forall i :: 0 <= i < |ledger| ==> ledger[i].id != bookingId
    ensures r.Some? ==> exists k :: 0 <= k < |ledger| && ledger[k] == r.value && r.value.id == bookingId &&
                                    forall j :: 0 <= j < k ==> ledger[j].id != bookingId
  {
    match BookingIndex(ledger, bookingId)
    case None => None
    case Some(k) => Some(ledger[k])
  }

  /** `flights.find(f => f.id === flightId)`. */
  function FindFlight(catalog: seq<Flight>, flightId: string): (r: Option<Flight>)
    ensures r.None? <==> forall i :: 0 <= i < |catalog| ==> catalog[i].id != flightId
    ensures r.Some? ==> exists k :: 0 <= k < |catalog| && catalog[k] == r.value && r.value.id == flightId &&
                                    forall j :: 0 <= j < k ==> catalog[j].id != flightId
  {
    Find(catalog, (f: Flight) => f.id == flightId)
  }

  // ---------------------------------------------------------------- cancellation

  /** The ledger after cancelBooking: the first booking with the id becomes
      CANCELLED; nothing else changes and nothing is removed. */
  function CancelledLedger(ledger: seq<Booking>, bookingId: string): (r: seq<Booking>)
    ensures |r| == |ledger|
    ensures BookingIndex(ledger, bookingId).None? ==> r == ledger
    ensures BookingIndex(ledger, bookingId).Some? ==>
      var k := BookingIndex(ledger, bookingId).value;
      r[k].status == BookingStatus.Cancelled && r[k] == ledger[k].(status := BookingStatus.Cancelled)
    ensures forall j :: 0 <= j < |ledger| && Some(j) != BookingIndex(ledger, bookingId) ==> r[j] == ledger[j]
    ensures forall j :: 0 <= j < |ledger| ==> r[j].id == ledger[j].id && r[j].userId == ledger[j].userId
  {
    match BookingIndex(ledger, bookingId)
    case None => ledger
    case Some(k) => ledger[k := ledger[k].(status := BookingStatus.Cancelled)]
  }

  /** Cancelling twice: the second call finds the same booking again, so it
      succeeds, and it changes nothing more. */
  lemma CancelIdempotent(ledger: seq<Booking>, bookingId: string)
    ensures BookingIndex(CancelledLedger(ledger, bookingId), bookingId) == BookingIndex(ledger, bookingId)
    ensures CancelledLedger(CancelledLedger(ledger, bookingId), bookingId) == CancelledLedger(ledger, bookingId)
  {
    var once := CancelledLedger(ledger, bookingId);
    FirstIndexStable(ledger, once, (b: Booking) => b.id == bookingId);
  }

  // ---------------------------------------------------------------- labels

  /** getFlightClassName: the Spanish name of each class. */
  function FlightClassName(c: FlightClass): (name: string)
    ensures name == "Económica" <==> c == Economy
    ensures name == "Business" <==> c == Business
    ensures name == "Primera Clase" <==> c == FirstClass
  {
    match c
    case Economy => "Económica"
    case Business => "Business"
    case FirstClass => "Primera Clase"
  }

  /** getStatusBadgeClass: green, yellow, red or grey by status. */
  function StatusBadgeClass(s: BookingStatus): (badge: string)
    ensures badge == "bg-success" <==> s == Confirmed
    ensures badge == "bg-warning" <==> s == Pending
    ensures badge == "bg-danger" <==> s == BookingStatus.Cancelled
    ensures badge == "bg-secondary" <==> s == Completed
  {
    match s
    case Confirmed => "bg-success"
    case Pending => "bg-warning"
    case Cancelled => "bg-danger"
    case Completed => "bg-secondary"
  }

  /** getStatusText: the Spanish name of each status. */
  function StatusText(s: BookingStatus): (text: string)
    ensures text == "Confirmada" <==> s == Confirmed
    ensures text == "Pendiente" <==> s == Pending
    ensures text == "Cancelada" <==> s == BookingStatus.Cancelled
    ensures text == "Completada" <==> s == Completed
  {
    match s
    case Confirmed => "Confirmada"
    case Pending => "Pendiente"
    case Cancelled => "Cancelada"
    case Completed => "Completada"
  }

  /** The three label tables are total and tell every member apart. */
  lemma LabelsDistinguish(c1: FlightClass, c2: FlightClass, s1: BookingStatus, s2: BookingStatus)
    ensures FlightClassName(c1) == FlightClassName(c2) ==> c1 == c2
    ensures StatusText(s1) == StatusText(s2) ==> s1 == s2
    ensures StatusBadgeClass(s1) == StatusBadgeClass(s2) ==> s1 == s2
  {
  }

  // ---------------------------------------------------------------- the service

  class BookingService {
    /** The stored bookings, in the order they were saved. */
    var bookings: seq<Booking>
    /** The stored flight catalog. */
    var flights: seq<Flight>

    /** Loads both collections and seeds each only when it is empty. */
    constructor (storedBookings: seq<Booking>, storedFlights: seq<Flight>, sampleBookings: seq<Booking>)
      ensures flights == (if storedFlights == [] then SampleFlights else storedFlights)
      ensures bookings == (if storedBookings == [] then sampleBookings else storedBookings)
    {
      bookings := storedBookings;
      flights := storedFlights;
      new;
      if |flights| == 0 {
        flights := SampleFlights;
      }
      if |bookings| == 0 && |flights| > 0 {
        bookings := sampleBookings;
      }
    }

    /** createBooking: fails when the flight is not in the catalog; otherwise
        appends one CONFIRMED booking and returns it. */
    method CreateBooking(dto: CreateBookingDto, userName: string, userEmail: string,
                         id: string, now: DateTime, randoms: seq<real>)
      returns (r: Result<Booking, BookingError>)
      requires |randoms| == 6
      requires forall i :: 0 <= i < 6 ==> 0.0 <= randoms[i] < 1.0
      modifies this`bookings
      ensures r.Failure? <==> FindFlight(flights, dto.flightId).None?
      ensures r.Failure? ==> r.error == FlightNotFound && bookings == old(bookings)
      ensures r.Success? ==> bookings == old(bookings) + [r.value]
      ensures r.Success? ==> Some(r.value.flight) == FindFlight(flights, dto.flightId) && r.value.flight.id == dto.flightId
      ensures r.Success? ==> r.value.totalPrice == BookingTotal(r.value.flight, dto)
      ensures r.Success? ==> r.value.totalPrice == ForClass(r.value.flight.pricing, dto.flightClass) * |dto.passengers|
      ensures r.Success? ==> r.value.seatNumbers == SeatNumbers(|dto.passengers|)
      ensures r.Success? ==> |r.value.seatNumbers| == |r.value.passengers|
      ensures r.Success? ==>
        && r.value.status == Confirmed
        && r.value.userId == dto.userId && r.value.userName == userName && r.value.userEmail == userEmail
        && r.value.flightClass == dto.flightClass && r.value.passengers == dto.passengers
        && r.value.extras == dto.extras && r.value.id == id && r.value.bookingDate == now
        && r.value.paymentMethod == None
      ensures r.Success? ==> |r.value.confirmationCode| == 6 &&
                             forall i :: 0 <= i < 6 ==> IsCodeChar(r.value.confirmationCode[i])
      ensures r.Success? ==> UserBookings(bookings, dto.userId) == UserBookings(old(bookings), dto.userId) + [r.value]
    {
      var found := FindFlight(flights, dto.flightId);
      if found.None? {
        return Failure(FlightNotFound);
      }
      var flight := found.value;
      var pricePerPerson := ForClass(flight.pricing, dto.flightClass);
      var totalPrice := pricePerPerson * |dto.passengers|;
      var confirmationCode := GenerateConfirmationCode(randoms);
      var seatNumbers := SeatNumbers(|dto.passengers|);
      var newBooking := Booking(id, dto.userId, userName, userEmail, flight, dto.flightClass,
                                dto.passengers, seatNumbers, totalPrice, dto.extras, Confirmed,
                                now, None, confirmationCode);
      UserBookingsAppend(bookings, newBooking);
      bookings := bookings + [newBooking];
      r := Success(newBooking);
    }

    /** cancelBooking: fails when no booking has the id; otherwise marks the
        first such booking CANCELLED. */
    method CancelBooking(bookingId: string) returns (r: Result<bool, BookingError>)
      modifies this`bookings
      ensures r.Failure? <==> BookingIndex(old(bookings), bookingId).None?
      ensures r.Failure? ==> r.error == BookingNotFound && bookings == old(bookings)
      ensures r.Success? ==> r.value
      ensures bookings == CancelledLedger(old(bookings), bookingId)
    {
      var k := BookingIndex(bookings, bookingId);
      if k.None? {
        return Failure(BookingNotFound);
      }
      bookings := bookings[k.value := bookings[k.value].(status := BookingStatus.Cancelled)];
      r := Success(true);
    }
  }
}
