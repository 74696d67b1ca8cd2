/** The booking form (src/app/components/booking-form/booking-form.component.ts):
    a three-step wizard that picks a class, collects the passengers and the
    extras, shows the price and builds the request sent to the booking service. */
module BookingWizard {
  import opened Wrappers
  import opened Dates
  import opened FlightModel
  import opened BookingModel
  import opened UserModel
  import Ledger

  /** The form's extras: always present, with '' / 0 / false as "none". */
  datatype FormExtras = FormExtras(airportTransfer: bool, extraLuggage: int, mealPreference: string, specialAssistance: string)

  const NoExtras: FormExtras := FormExtras(false, 0, "", "")

  /** The entry initializePassengers makes for each passenger. */
  const BlankPassenger: Passenger := Passenger("", "", "Pasaporte", "", DateTime(1990, 0, 1, 0), "Chilena")

  /** A passenger with first name, last name and document number all filled in. */
  predicate PassengerFilled(p: Passenger) {
    p.firstName != "" && p.lastName != "" && p.documentNumber != ""
  }

  /** What validateCurrentStep accepts: step 2 needs every passenger filled in,
      the other steps need nothing. */
  predicate StepComplete(step: int, passengers: seq<Passenger>) {
    step == 2 ==> forall i :: 0 <= i < |passengers| ==> PassengerFilled(passengers[i])
  }

  /** A passenger with a missing field keeps the wizard on step 2. */
  lemma IncompletePassengerBlocksStep2(passengers: seq<Passenger>, i: nat)
    requires i < |passengers| && !PassengerFilled(passengers[i])
    ensures !StepComplete(2, passengers)
  {
  }

  /** Price of the extras: 50 per passenger for the airport transfer and 10 per
      extra kilogram of luggage, the luggage only when it is positive. */
  function ExtrasCost(count: int, extras: FormExtras): int {
    (if extras.airportTransfer then 50 * count else 0) +
    (if extras.extraLuggage > 0 then extras.extraLuggage * 10 else 0)
  }

  /** Extras never lower the price of a booking for zero or more passengers. */
  lemma ExtrasCostNonNegative(count: int, extras: FormExtras)
    requires count >= 0
    ensures ExtrasCost(count, extras) >= 0
    ensures ExtrasCost(count, extras) == 0 <==> (count == 0 || !extras.airportTransfer) && extras.extraLuggage <= 0
  {
  }

  /** The extras of the request: a field is left out (`x || undefined`) when
      the form holds false, 0 or less, or the empty string. */
  function SubmittedExtras(e: FormExtras): (r: BookingExtras)
    ensures r.airportTransfer.None? <==> !e.airportTransfer
    ensures r.airportTransfer.Some? ==> r.airportTransfer.value
    ensures r.extraLuggage.None? <==> e.extraLuggage <= 0
    ensures r.extraLuggage.Some? ==> r.extraLuggage.value == e.extraLuggage > 0
    ensures r.mealPreference.None? <==> e.mealPreference == ""
    ensures r.mealPreference.Some? ==> r.mealPreference.value == e.mealPreference
    ensures r.specialAssistance.None? <==> e.specialAssistance == ""
    ensures r.specialAssistance.Some? ==> r.specialAssistance.value == e.specialAssistance
  {
    BookingExtras(
      if e.airportTransfer then Some(true) else None,
      if e.extraLuggage > 0 then Some(e.extraLuggage) else None,
      if e.mealPreference != "" then Some(e.mealPreference) else None,
      if e.specialAssistance != "" then Some(e.specialAssistance) else None)
  }

  /** Reading a request's extras back into the form's defaults. */
  function FormExtrasOf(b: BookingExtras): FormExtras {
    FormExtras(
      b.airportTransfer == Some(true),
      match b.extraLuggage case Some(kg) => kg case None => 0,
      match b.mealPreference case Some(m) => m case None => "",
      match b.specialAssistance case Some(a) => a case None => "")
  }

  /** The request's extras lose nothing the form held, except a negative luggage
      amount, which becomes 0; and they price the same either way. */
  lemma SubmittedExtrasRoundTrip(e: FormExtras, count: int)
    ensures e.extraLuggage >= 0 ==> FormExtrasOf(SubmittedExtras(e)) == e
    ensures e.extraLuggage < 0 ==> FormExtrasOf(SubmittedExtras(e)) == e.(extraLuggage := 0)
    ensures ExtrasCost(count, FormExtrasOf(SubmittedExtras(e))) == ExtrasCost(count, e)
  {
  }

  class BookingFormComponent {
    var flight: Option<Flight>
    var currentStep: int
    const totalSteps: int := 3
    var selectedClass: FlightClass
    var numberOfPassengers: int
    var passengers: seq<Passenger>
    var extras: FormExtras

    /** The wizard is always on one of its steps. */
    predicate Valid()
      reads this
    {
      1 <= currentStep <= totalSteps
    }

    constructor ()
      ensures Valid()
      ensures flight == None && currentStep == 1 && selectedClass == Economy
      ensures numberOfPassengers == 1 && passengers == [] && extras == NoExtras
    {
      flight := None;
      currentStep := 1;
      selectedClass := Economy;
      numberOfPassengers := 1;
      passengers := [];
      extras := NoExtras;
    }

    /** loadFlight: the catalog flight with that id, or none. */
    method LoadFlight(catalog: seq<Flight>, flightId: string)
      modifies this`flight
      ensures flight == Ledger.FindFlight(catalog, flightId)
    {
      flight := Ledger.FindFlight(catalog, flightId);
    }

    /** ngOnInit: loads the flight named by the route (a missing or empty id
        loads nothing) and builds the passenger list. */
    method OnInit(catalog: seq<Flight>, flightId: Option<string>)
      modifies this`flight, this`passengers
      ensures flightId.Some? && flightId.value != "" ==> flight == Ledger.FindFlight(catalog, flightId.value)
      ensures !(flightId.Some? && flightId.value != "") ==> flight == old(flight)
      ensures |passengers| == if numberOfPassengers > 0 then numberOfPassengers else 0
      ensures forall i :: 0 <= i < |passengers| ==> passengers[i] == BlankPassenger
    {
      if flightId.Some? && flightId.value != "" {
        LoadFlight(catalog, flightId.value);
      }
      InitializePassengers();
    }

    /** initializePassengers: discards the list and makes one blank passenger per
        requested passenger (none when the count is not positive). */
    method InitializePassengers()
      modifies this`passengers
      ensures |passengers| == if numberOfPassengers > 0 then numberOfPassengers else 0
      ensures forall i :: 0 <= i < |passengers| ==> passengers[i] == BlankPassenger
      ensures forall i :: 0 <= i < |passengers| ==> passengers[i].documentType == "Pasaporte"
    {
      passengers := [];
      var i := 0;
      while i < numberOfPassengers
        invariant 0 <= i
        invariant numberOfPassengers > 0 ==> i <= numberOfPassengers
        invariant numberOfPassengers <= 0 ==> i == 0
        invariant |passengers| == i
        invariant forall k :: 0 <= k < i ==> passengers[k] == BlankPassenger
      {
        passengers := passengers + [BlankPassenger];
        i := i + 1;
      }
    }

    /** onNumberOfPassengersChange, after the input has set the new count. */
    method OnNumberOfPassengersChange(count: int)
      modifies this`numberOfPassengers, this`passengers
      ensures numberOfPassengers == count
      ensures |passengers| == if count > 0 then count else 0
      ensures forall i :: 0 <= i < |passengers| ==> passengers[i] == BlankPassenger
    {
      numberOfPassengers := count;
      InitializePassengers();
    }

    /** validateCurrentStep (the alert left out). */
    method ValidateCurrentStep() returns (ok: bool)
      ensures ok == StepComplete(currentStep, passengers)
    {
      if currentStep == 1 {
        return true;
      } else if currentStep == 2 {
        for i := 0 to |passengers|
          invariant forall k :: 0 <= k < i ==> PassengerFilled(passengers[k])
        {
          var p := passengers[i];
          if p.firstName == "" || p.lastName == "" || p.documentNumber == "" {
            return false;
          }
        }
        return true;
      }
      return true;
    }

    /** nextStep: advances one step when not on the last one and the current
        step validates. */
    method NextStep()
      requires Valid()
      modifies this`currentStep
      ensures Valid()
      ensures currentStep == if old(currentStep) < totalSteps && StepComplete(old(currentStep), passengers)
                             then old(currentStep) + 1 else old(currentStep)
    {
      if currentStep < totalSteps {
        var ok := ValidateCurrentStep();
        if ok {
          currentStep := currentStep + 1;
        }
      }
    }

    /** previousStep: goes back one step unless on the first one. */
    method PreviousStep()
      requires Valid()
      modifies this`currentStep
      ensures Valid()
      ensures currentStep == if old(currentStep) > 1 then old(currentStep) - 1 else old(currentStep)
    {
      if currentStep > 1 {
        currentStep := currentStep - 1;
      }
    }

    /** getClassPrice: the fare of a class on the loaded flight, 0 without one. */
    function GetClassPrice(c: FlightClass): (price: int)
      reads this
      ensures flight.None? ==> price == 0
      ensures flight.Some? && c == Economy ==> price == flight.value.pricing.economy
      ensures flight.Some? && c == Business ==> price == flight.value.pricing.business
      ensures flight.Some? && c == FirstClass ==> price == flight.value.pricing.firstClass
    {
      if flight.None? then 0 else ForClass(flight.value.pricing, c)
    }

    /** calculateTotalPrice: the fare of the selected class per passenger plus
        the extras; 0 while no flight is loaded. */
    function CalculateTotalPrice(): (total: int)
      reads this
      ensures flight.None? ==> total == 0
      ensures flight.Some? ==> total == GetClassPrice(selectedClass) * numberOfPassengers + ExtrasCost(numberOfPassengers, extras)
    {
      if flight.None? then 0
      else
        var pricePerPerson := ForClass(flight.value.pricing, selectedClass);
        var base := pricePerPerson * numberOfPassengers;
        var withTransfer := if extras.airportTransfer then base + 50 * numberOfPassengers else base;
        if extras.extraLuggage > 0 then withTransfer + extras.extraLuggage * 10 else withTransfer
    }

    /** The request submitBooking sends; none without a flight or a session. */
    function SubmittedDto(currentUser: Option<SessionUser>): (r: Option<CreateBookingDto>)
      reads this
      ensures r.None? <==> flight.None? || currentUser.None?
      ensures r.Some? ==> && r.value.userId == currentUser.value.id && r.value.flightId == flight.value.id
                          && r.value.flightClass == selectedClass && r.value.passengers == passengers
                          && r.value.extras == Some(SubmittedExtras(extras))
    {
      if flight.None? || currentUser.None? then None
      else Some(CreateBookingDto(currentUser.value.id, flight.value.id, selectedClass, passengers, Some(SubmittedExtras(extras))))
    }
  }

  /** With no extras chosen, the shown price is the class fare times the passenger count. */
  lemma NoExtrasPrice(form: BookingFormComponent)
    requires !form.extras.airportTransfer && form.extras.extraLuggage <= 0
    ensures form.CalculateTotalPrice() == form.GetClassPrice(form.selectedClass) * form.numberOfPassengers
  {
  }

  /** The booking service prices the form's request by its passenger list,
      at the fare the form shows, and never charges the extras: when the list
      holds numberOfPassengers entries, the stored price is the shown price
      minus the extras. */
  lemma StoredPriceOmitsExtras(form: BookingFormComponent, user: SessionUser)
    requires form.flight.Some?
    ensures var dto := form.SubmittedDto(Some(user)).value;
      Ledger.BookingTotal(form.flight.value, dto) == form.GetClassPrice(form.selectedClass) * |form.passengers|
    ensures var dto := form.SubmittedDto(Some(user)).value;
      |form.passengers| == form.numberOfPassengers ==>
      Ledger.BookingTotal(form.flight.value, dto) == form.CalculateTotalPrice() - ExtrasCost(form.numberOfPassengers, form.extras)
  {
  }

  /** When the count is below 1 the form's list is empty, so the service
      stores 0 while the form shows the fare times that count. */
  lemma StoredPriceForNoPassengers(form: BookingFormComponent, user: SessionUser)
    requires form.flight.Some? && form.numberOfPassengers < 1 && form.passengers == []
    ensures Ledger.BookingTotal(form.flight.value, form.SubmittedDto(Some(user)).value) == 0
    ensures form.CalculateTotalPrice() ==
            form.GetClassPrice(form.selectedClass) * form.numberOfPassengers + ExtrasCost(form.numberOfPassengers, form.extras)
  {
  }
}
