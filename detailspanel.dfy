/** The text the flight details panel shows (src/components/FlightDetailsPanel.tsx):
    the choice between the loading, error and content views, and the fallback
    chains that turn optional strings into display text. */
module DetailsPanel {
  import opened Wrappers
  import opened Types
  import opened JsText

  const NotAvailable := "N/A"
  const UnknownEnd := "???"
  const Arrow := " \U{2192} "
  const LoadingText := "Loading details..."
  const ErrorText := "Failed to load details."

  /** `formatText`: the value itself, untrimmed, unless it is null or nothing
      but white space. */
  function FormatText(v: Option<string>): string {
    if IsTruthy(v) && Trim(v.value) != "" then v.value else NotAvailable
  }

  lemma FormatTextCases(v: Option<string>)
    ensures v.None? || AllSpace(v.value) ==> FormatText(v) == NotAvailable
    ensures v.Some? && !AllSpace(v.value) ==> FormatText(v) == v.value
  {
    if v.Some? {
      TrimEmptyIffAllSpace(v.value);
    }
  }

  /** `a || b || ... || null` over nullable strings: the first truthy one. */
  function FirstTruthy(vs: seq<Option<string>>): (r: Option<string>)
    ensures r.None? <==> forall i :: 0 <= i < |vs| ==> !IsTruthy(vs[i])
    ensures r.Some? ==> exists i :: 0 <= i < |vs| && vs[i] == r && IsTruthy(r)
                                    && forall j :: 0 <= j < i ==> !IsTruthy(vs[j])
  {
    if vs == [] then None
    else if IsTruthy(vs[0]) then vs[0]
    else
      var r := FirstTruthy(vs[1..]);
      assert forall i :: 1 <= i < |vs| ==> vs[i] == vs[1..][i - 1];
      if r.Some? then
        var i :| 0 <= i < |vs[1..]| && vs[1..][i] == r && IsTruthy(r)
                 && forall j :: 0 <= j < i ==> !IsTruthy(vs[1..][j]);
        assert vs[i + 1] == r;
        assert forall j :: 0 <= j < i + 1 ==> !IsTruthy(vs[j]) by {
          forall j | 0 <= j < i + 1 ensures !IsTruthy(vs[j]) {
            if j > 0 { assert vs[j] == vs[1..][j - 1]; }
          }
        }
        r
      else r
  }

  /** `formatAirline`: the IATA code, else the ICAO code, else null. */
  function FormatAirline(f: FlightState): Option<string> {
    FirstTruthy([f.airlineIata, f.airlineIcao])
  }

  /** `formatAircraft`: registration, else ICAO type, else IATA type. */
  function FormatAircraft(f: FlightState): Option<string> {
    FirstTruthy([f.aircraftReg, f.aircraftIcao, f.aircraftIata])
  }

  /** The airline and aircraft chains skip empty strings as well as nulls. */
  lemma FallbackChains(f: FlightState)
    ensures IsTruthy(f.airlineIata) ==> FormatAirline(f) == f.airlineIata
    ensures !IsTruthy(f.airlineIata) && IsTruthy(f.airlineIcao) ==> FormatAirline(f) == f.airlineIcao
    ensures !IsTruthy(f.airlineIata) && !IsTruthy(f.airlineIcao) ==> FormatAirline(f).None?
    ensures IsTruthy(f.aircraftReg) ==> FormatAircraft(f) == f.aircraftReg
    ensures !IsTruthy(f.aircraftReg) && IsTruthy(f.aircraftIcao) ==> FormatAircraft(f) == f.aircraftIcao
    ensures !IsTruthy(f.aircraftReg) && !IsTruthy(f.aircraftIcao) && IsTruthy(f.aircraftIata)
      ==> FormatAircraft(f) == f.aircraftIata
    ensures !IsTruthy(f.aircraftReg) && !IsTruthy(f.aircraftIcao) && !IsTruthy(f.aircraftIata)
      ==> FormatAircraft(f).None?
  {
    var a := [f.airlineIata, f.airlineIcao];
    assert a[1..] == [f.airlineIcao];
    assert !IsTruthy(a[0]) ==> FirstTruthy(a) == FirstTruthy([f.airlineIcao]);
    var b := [f.aircraftReg, f.aircraftIcao, f.aircraftIata];
    assert b[1..] == [f.aircraftIcao, f.aircraftIata] && b[1..][1..] == [f.aircraftIata];
    assert !IsTruthy(b[0]) ==> FirstTruthy(b) == FirstTruthy([f.aircraftIcao, f.aircraftIata]);
    assert !IsTruthy(b[1]) ==> FirstTruthy(b[1..]) == FirstTruthy([f.aircraftIata]);
  }

  /** One end of the route: the airport code from the details when there is
      one, else the flight's IATA code, else its ICAO code (null-coalescing,
      so an empty string stops the chain). */
  function RouteEnd(fromDetails: Option<Airport>, iata: Option<string>, icao: Option<string>): Option<string> {
    var code := if fromDetails.Some? then Some(fromDetails.value.code) else None;
    code.OrElse(iata).OrElse(icao)
  }

  lemma RouteEndChoice(fromDetails: Option<Airport>, iata: Option<string>, icao: Option<string>)
    ensures fromDetails.Some? ==> RouteEnd(fromDetails, iata, icao) == Some(fromDetails.value.code)
    ensures fromDetails.None? && iata.Some? ==> RouteEnd(fromDetails, iata, icao) == iata
    ensures fromDetails.None? && iata.None? ==> RouteEnd(fromDetails, iata, icao) == icao
  {
  }

  function Origin(f: FlightState, details: Option<FlightDetails>): Option<string> {
    RouteEnd(if details.Some? then details.value.origin else None, f.originIata, f.originIcao)
  }

  function Destination(f: FlightState, details: Option<FlightDetails>): Option<string> {
    RouteEnd(if details.Some? then details.value.destination else None, f.destinationIata, f.destinationIcao)
  }

  /** `formatRoute`. */
  function FormatRoute(f: FlightState, details: Option<FlightDetails>): string {
    var origin := Origin(f, details);
    var destination := Destination(f, details);
    if !IsTruthy(origin) && !IsTruthy(destination) then UnknownEnd + Arrow + UnknownEnd
    else origin.GetOr(UnknownEnd) + Arrow + destination.GetOr(UnknownEnd)
  }

  /** The route text is `??? → ???` when neither end is truthy (both null, both
      empty, or one of each); otherwise each end is shown as found, a null one
      as `???` and an empty one as empty. */
  lemma RouteText(f: FlightState, details: Option<FlightDetails>)
    ensures var o := Origin(f, details);
      var d := Destination(f, details);
      && (!IsTruthy(o) && !IsTruthy(d) ==> FormatRoute(f, details) == "??? \U{2192} ???")
      && (IsTruthy(o) && IsTruthy(d) ==> FormatRoute(f, details) == o.value + Arrow + d.value)
      && (IsTruthy(o) && d.None? ==> FormatRoute(f, details) == o.value + Arrow + UnknownEnd)
      && (o.None? && IsTruthy(d) ==> FormatRoute(f, details) == UnknownEnd + Arrow + d.value)
      && (IsTruthy(o) && d == Some("") ==> FormatRoute(f, details) == o.value + Arrow)
      && (o == Some("") && IsTruthy(d) ==> FormatRoute(f, details) == Arrow + d.value)
  {
    assert UnknownEnd + Arrow + UnknownEnd == "??? \U{2192} ???";
  }

  /** The panel title: the callsign, else the `icao24`. */
  function Title(f: FlightState): (r: string)
    ensures f.callsign.Some? ==> r == f.callsign.value
    ensures f.callsign.None? ==> r == f.icao24
  {
    f.callsign.GetOr(f.icao24)
  }

  /** What the component renders. Numbers go through `formatValue`, which is
      not part of this model, so the content view lists the text lines only. */
  datatype View =
    | LoadingView(text: string)
    | ErrorView(text: string)
    | ContentView(title: string, status: string, squawk: string, airline: string, aircraft: string, route: string)

  function RenderPanel(f: FlightState, details: Option<FlightDetails>, loading: bool, failed: bool): (v: View)
    ensures loading ==> v == LoadingView(LoadingText)
    ensures !loading && failed ==> v == ErrorView(ErrorText)
    ensures !loading && !failed ==>
      v == ContentView(Title(f), FormatText(f.status), FormatText(f.squawk),
                       FormatText(FormatAirline(f)), FormatText(FormatAircraft(f)), FormatRoute(f, details))
  {
    if loading then LoadingView(LoadingText)
    else if failed then ErrorView(ErrorText)
    else ContentView(Title(f), FormatText(f.status), FormatText(f.squawk),
                     FormatText(FormatAirline(f)), FormatText(FormatAircraft(f)), FormatRoute(f, details))
  }

  /** Loading wins over an error, and an error over the details, whatever the
      details are. */
  lemma ViewPrecedence(f: FlightState, d1: Option<FlightDetails>, d2: Option<FlightDetails>, failed: bool)
    ensures RenderPanel(f, d1, true, failed) == RenderPanel(f, d2, true, !failed) == LoadingView(LoadingText)
    ensures RenderPanel(f, d1, false, true) == RenderPanel(f, d2, false, true) == ErrorView(ErrorText)
  {
  }

  /** The unit test's panel: the callsign as title and the route from the
      details' airport codes. */
  lemma SamplePanel(f: FlightState, d: FlightDetails)
    requires f.callsign == Some("TEST123")
    requires d.origin.Some? && d.origin.value.code == "KSFO"
    requires d.destination.Some? && d.destination.value.code == "KDEN"
    ensures RenderPanel(f, Some(d), false, false).title == "TEST123"
    ensures RenderPanel(f, Some(d), false, false).route == "KSFO \U{2192} KDEN"
  {
    assert "KSFO" + Arrow + "KDEN" == "KSFO \U{2192} KDEN";
  }
}
