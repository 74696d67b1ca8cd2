/** Bookings, passengers and requests to book (src/app/models/booking.model.ts). */
module BookingModel {
  import opened Wrappers
  import opened Dates
  import opened FlightModel

  datatype BookingStatus = Pending | Confirmed | Cancelled | Completed

  /** The string each status enum member stands for. */
  function StatusCode(s: BookingStatus): string {
    match s
    case Pending => "pending"
    case Confirmed => "confirmed"
    case Cancelled => "cancelled"
    case Completed => "completed"
  }

  datatype Passenger = Passenger(
    firstName: string,
    lastName: string,
    documentType: string,
    documentNumber: string,
    dateOfBirth: DateTime,
    nationality: string)

  /** Optional extras: an absent (`undefined`) field is None. */
  datatype BookingExtras = BookingExtras(
    airportTransfer: Option<bool>,
    extraLuggage: Option<int>,
    mealPreference: Option<string>,
    specialAssistance: Option<string>)

  datatype Booking = Booking(
    id: string,
    userId: string,
    userName: string,
    userEmail: string,
    flight: Flight,
    flightClass: FlightClass,
    passengers: seq<Passenger>,
    seatNumbers: seq<string>,
    totalPrice: int,
    extras: Option<BookingExtras>,
    status: BookingStatus,
    bookingDate: DateTime,
    paymentMethod: Option<string>,
    confirmationCode: string)

  datatype CreateBookingDto = CreateBookingDto(
    userId: string,
    flightId: string,
    flightClass: FlightClass,
    passengers: seq<Passenger>,
    extras: Option<BookingExtras>)
}
