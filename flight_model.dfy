/** The flight catalog's entities (src/app/models/flight.model.ts). */
module FlightModel {
  import opened Dates

  datatype FlightClass = Economy | Business | FirstClass

  datatype FlightStatus = Scheduled | Boarding | Delayed | Departed | Arrived | Cancelled

  /** One number per cabin class: the shape of both `pricing` and `availableSeats`. */
  datatype PerClass = PerClass(economy: int, business: int, firstClass: int)

  datatype Flight = Flight(
    id: string,
    flightNumber: string,
    origin: string,
    destination: string,
    departureDate: DateTime,
    departureTime: string,
    arrivalTime: string,
    duration: string,
    aircraft: string,
    status: FlightStatus,
    pricing: PerClass,
    availableSeats: PerClass,
    amenities: seq<string>)

  /** The value a per-class record holds for one cabin class. */
  function ForClass(v: PerClass, c: FlightClass): int {
    match c
    case Economy => v.economy
    case Business => v.business
    case FirstClass => v.firstClass
  }
}
