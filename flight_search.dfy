/** The flight list (src/app/components/flights/flights.component.ts): the
    search filters over the catalog, the date text the date filter compares,
    and the seat count shown per flight. */
module FlightSearch {
  import opened Wrappers
  import opened Decimal
  import opened Seqs
  import opened Text
  import opened Dates
  import opened FlightModel

  // ---------------------------------------------------------------- dates

  /** String(n).padStart(2, '0'). */
  function TwoDigits(n: int): string {
    PadStart(IntToString(n), 2, '0')
  }

  /** formatDateForInput: year-MM-DD, month counted from 1, month and day padded to two digits. */
  function FormatDateForInput(d: DateTime): (r: string)
    ensures |r| >= 7
    ensures IsNormalised(d) ==> ParseDateInput(r) == Some(CalendarDay(d.year, d.month + 1, d.day))
  {
    var y, m, dd := IntToString(d.year), TwoDigits(d.month + 1), TwoDigits(d.day);
    if IsNormalised(d) then
      DateTextsParse(d);
      ParseDatePieces(y, m, dd, d.year, d.month + 1, d.day);
      JoinDate(y, m, dd)
    else
      JoinDate(y, m, dd)
  }

  /** The three pieces of a date text, joined by dashes. */
  function JoinDate(y: string, m: string, dd: string): string {
    y + "-" + m + "-" + dd
  }

  /** A calendar day with the month counted from 1, as a date input writes it. */
  datatype CalendarDay = CalendarDay(year: int, month: int, day: int)

  /** Reads "year-MM-DD" back: the last two characters are the day, the two
      before the last dash the month, everything before the other dash the year. */
  function ParseDateInput(s: string): Option<CalendarDay> {
    if |s| < 7 || s[|s| - 3] != '-' || s[|s| - 6] != '-' then None
    else
      match (ParseInt(s[..|s| - 6]), ParseNat(s[|s| - 5..|s| - 3]), ParseNat(s[|s| - 2..]))
      case (Some(y), Some(m), Some(d)) => Some(CalendarDay(y, m, d))
      case _ => None
  }

  lemma TwoDigitsRoundTrip(n: int)
    requires 1 <= n < 100
    ensures |TwoDigits(n)| == 2 && ParseNat(TwoDigits(n)) == Some(n)
  {
    var s := NatToString(n);
    if n < 10 {
      var t := TwoDigits(n);
      assert t == ['0'] + s;
      assert t[..1] == ['0'];
      assert DigitsValue(t[..1]) == 0 by {
        assert t[..1][..0] == [];
      }
    } else {
      assert s[..|s| - 1] == NatToString(n / 10);
      NatRoundTrip(n);
    }
  }

  /** Cutting "y-mm-dd" apart at the two dashes gives back its three pieces. */
  lemma DatePieces(y: string, m: string, dd: string)
    requires |m| == 2 && |dd| == 2
    ensures var s := y + "-" + m + "-" + dd;
      && |s| == |y| + 6 && s[..|s| - 6] == y && s[|s| - 6] == '-' && s[|s| - 3] == '-'
      && s[|s| - 5..|s| - 3] == m && s[|s| - 2..] == dd
  {
    var s := y + "-" + m + "-" + dd;
    assert s[..|s| - 6] == y;
    assert s[|s| - 5..|s| - 3] == m;
    assert s[|s| - 2..] == dd;
  }

  /** Three pieces that parse on their own parse together. */
  lemma ParseDatePieces(y: string, m: string, dd: string, year: int, month: nat, day: nat)
    requires |m| == 2 && |dd| == 2
    requires ParseInt(y) == Some(year) && ParseNat(m) == Some(month) && ParseNat(dd) == Some(day)
    ensures ParseDateInput(JoinDate(y, m, dd)) == Some(CalendarDay(year, month, day))
  {
    DatePieces(y, m, dd);
  }

  /** The year, month and day texts of a normalised date parse back on their own. */
  lemma DateTextsParse(d: DateTime)
    requires IsNormalised(d)
    ensures |TwoDigits(d.month + 1)| == 2 && ParseNat(TwoDigits(d.month + 1)) == Some(d.month + 1)
    ensures |TwoDigits(d.day)| == 2 && ParseNat(TwoDigits(d.day)) == Some(d.day)
    ensures ParseInt(IntToString(d.year)) == Some(d.year)
  {
    TwoDigitsRoundTrip(d.month + 1);
    TwoDigitsRoundTrip(d.day);
    IntRoundTrip(d.year);
  }

  /** Two normalised dates show the same text exactly when they fall on the same day. */
  lemma FormatDateSameDay(a: DateTime, b: DateTime)
    requires IsNormalised(a) && IsNormalised(b)
    ensures FormatDateForInput(a) == FormatDateForInput(b) <==>
            a.year == b.year && a.month == b.month && a.day == b.day
  {
    if FormatDateForInput(a) == FormatDateForInput(b) {
      assert CalendarDay(a.year, a.month + 1, a.day) == CalendarDay(b.year, b.month + 1, b.day);
    }
  }

  // ---------------------------------------------------------------- filters

  /** One text criterion: empty, or contained in the field ignoring case. */
  predicate MatchesText(field: string, query: string) {
    query == "" || Includes(ToLower(field), ToLower(query))
  }

  /** The three criteria of applyFilters together. */
  predicate MatchesCriteria(f: Flight, origin: string, destination: string, date: string) {
    && MatchesText(f.origin, origin)
    && MatchesText(f.destination, destination)
    && (date == "" || FormatDateForInput(f.departureDate) == date)
  }

  /** The flights applyFilters keeps: those meeting every criterion, in catalog order. */
  function MatchingFlights(flights: seq<Flight>, origin: string, destination: string, date: string): (r: seq<Flight>)
    ensures IsSubseq(r, flights)
    ensures forall i :: 0 <= i < |r| ==> MatchesCriteria(r[i], origin, destination, date)
    ensures forall f: Flight {:trigger multiset(r)[f]} ::
      MatchesCriteria(f, origin, destination, date) ==> multiset(r)[f] == multiset(flights)[f]
  {
    Filter(flights, (f: Flight) => MatchesCriteria(f, origin, destination, date))
  }

  /** With every criterion empty, every flight is kept. */
  lemma NoCriteriaKeepsAll(flights: seq<Flight>)
    ensures MatchingFlights(flights, "", "", "") == flights
  {
    FilterKeepsAll(flights, (f: Flight) => MatchesCriteria(f, "", "", ""));
  }

  /** Changing the case of any letters of the field or of the query never
      changes a text match; upper- or lower-casing a whole text is one such change. */
  lemma MatchIgnoresCase(field: string, field2: string, query: string, query2: string)
    requires SameUpToCase(field, field2) && SameUpToCase(query, query2)
    ensures MatchesText(field2, query2) == MatchesText(field, query)
  {
    SameUpToCaseLower(field, field2);
    SameUpToCaseLower(query, query2);
  }

  /** A query written exactly as it appears in the field matches it. */
  lemma OccurrenceMatches(field: string, query: string, i: nat)
    requires OccursAt(field, query, i)
    ensures MatchesText(field, query)
  {
    var lf, lq := ToLower(field), ToLower(query);
    assert lf[i..i + |query|] == lq;
    assert OccursAt(lf, lq, i);
  }

  // ---------------------------------------------------------------- seats

  const SeatsSuffix: string := " asientos disponibles"

  /** getAvailableSeatsText: "<n> asientos disponibles", n the sum of the three per-class counts. */
  function AvailableSeatsText(f: Flight): (r: string)
    ensures |r| > |SeatsSuffix| && r[|r| - |SeatsSuffix|..] == SeatsSuffix
    ensures ParseInt(r[..|r| - |SeatsSuffix|]) ==
            Some(f.availableSeats.economy + f.availableSeats.business + f.availableSeats.firstClass)
  {
    var total := f.availableSeats.economy + f.availableSeats.business + f.availableSeats.firstClass;
    IntRoundTrip(total);
    var r := IntToString(total) + SeatsSuffix;
    assert r[..|r| - |SeatsSuffix|] == IntToString(total);
    r
  }

  // ---------------------------------------------------------------- the component

  class FlightsComponent {
    var flights: seq<Flight>
    var filteredFlights: seq<Flight>
    var searchOrigin: string
    var searchDestination: string
    var selectedDate: string

    constructor ()
      ensures flights == [] && filteredFlights == []
      ensures searchOrigin == "" && searchDestination == "" && selectedDate == ""
    {
      flights := [];
      filteredFlights := [];
      searchOrigin := "";
      searchDestination := "";
      selectedDate := "";
    }

    /** loadFlights, once the catalog has arrived: everything is shown. */
    method LoadFlights(catalog: seq<Flight>)
      modifies this`flights, this`filteredFlights
      ensures flights == catalog && filteredFlights == catalog
    {
      flights := catalog;
      filteredFlights := catalog;
    }

    /** applyFilters. */
    method ApplyFilters()
      modifies this`filteredFlights
      ensures filteredFlights == MatchingFlights(flights, searchOrigin, searchDestination, selectedDate)
      ensures IsSubseq(filteredFlights, flights)
    {
      var origin, destination, date := searchOrigin, searchDestination, selectedDate;
      filteredFlights := Filter(flights, (f: Flight) => MatchesCriteria(f, origin, destination, date));
    }

    /** clearFilters: empties the criteria and shows the whole catalog again,
        which is what applying the empty criteria shows. */
    method ClearFilters()
      modifies this`searchOrigin, this`searchDestination, this`selectedDate, this`filteredFlights
      ensures searchOrigin == "" && searchDestination == "" && selectedDate == ""
      ensures filteredFlights == flights
      ensures filteredFlights == MatchingFlights(flights, searchOrigin, searchDestination, selectedDate)
    {
      searchOrigin := "";
      searchDestination := "";
      selectedDate := "";
      filteredFlights := flights;
      NoCriteriaKeepsAll(flights);
    }
  }
}
