/**
 * The route-loading workflow of the map screen: clear the map, look up the
 * destination's address, geocode it, request directions, fill the step list
 * and finally append the arrival time to the last step.
 *
 * The geocoder, the directions service and the ETA service are not modelled;
 * each reply they give is the input of the method that stands for the
 * callback receiving it. Each callback runs as one atomic step.
 */
module MapKit {
  import opened Wrappers
  import opened Preferences
  import EtaFormat

  /** A map coordinate, kept opaque: no geometry is computed on it. */
  datatype Coordinate = Coordinate(latitude: real, longitude: real)

  /** The path of one route, as drawn on the map. */
  datatype Polyline = Polyline(points: seq<Coordinate>)

  /** A pin on the map. */
  datatype Annotation = Annotation(title: string, coordinate: Coordinate)

  /** A geocoder result; its name and location may be absent. */
  datatype Placemark = Placemark(name: Option<string>, location: Option<Coordinate>)

  /** One route of a directions reply: its line, its advisory notices and its step instructions. */
  datatype Route = Route(polyline: Polyline, advisoryNotices: seq<string>, steps: seq<string>)

  datatype MapType = Standard | Satellite | Hybrid

  /** The transport type of a directions request; a new request starts at AnyTransport. */
  datatype TransportType = AnyTransport | Automobile | Walking

  datatype DirectionsRequest = DirectionsRequest(
    source: Coordinate,
    destination: Coordinate,
    requestsAlternateRoutes: bool,
    transportType: TransportType)

  /** The framework callback a load is waiting for, if any. */
  datatype Stage =
    | Idle
    | Geocoding(address: string)
    | Routing(request: DirectionsRequest)
    | AwaitingEta(request: DirectionsRequest)

  const CurrentLocationTitle: string := "Current location"
  const TollNotice: string := "Toll required."
  const TollMessage: string := "Requires taking a tolled highway."
  const EtaSeparator: string := " at "

  // ---------------------------------------------------------------------------
  // Lookup tables

  /** The address handed to the geocoder for a campus key. */
  function VerboseDestination(destination: string): (address: Option<string>)
    ensures address.Some? <==> destination in {"davis", "trafalgar", "hmc"}
    ensures address.Some? ==> "Sheridan College " <= address.value
  {
    match destination
    case "davis" => Some("Sheridan College Davis Brampton Ontario")
    case "trafalgar" => Some("Sheridan College Trafalgar Oakville Ontario")
    case "hmc" => Some("Sheridan College HMC Mississauga Ontario")
    case _ => None
  }

  /** Different campuses are geocoded from different addresses. */
  lemma VerboseDestinationInjective(a: string, b: string)
    requires VerboseDestination(a).Some? && VerboseDestination(b).Some?
    requires VerboseDestination(a) == VerboseDestination(b)
    ensures a == b
  {
  }

  /** The preference string that selects a transport type, if one does. */
  function TransportName(t: TransportType): Option<string>
  {
    match t
    case AnyTransport => None
    case Automobile => Some("car")
    case Walking => Some("walk")
  }

  /** The transport type a new directions request ends up with for a preference string. */
  function RequestTransport(preference: Option<string>): (t: TransportType)
    ensures t != AnyTransport ==> TransportName(t) == preference
    ensures t == AnyTransport <==> preference != Some("car") && preference != Some("walk")
  {
    match preference
    case Some("car") => Automobile
    case Some("walk") => Walking
    case _ => AnyTransport
  }

  lemma {:induction false} RequestTransportRoundTrip(t: TransportType)
    ensures RequestTransport(TransportName(t)) == t
  {
    match t
    case AnyTransport =>
    case Automobile =>
    case Walking =>
  }

  /** The preference string of each map type. */
  function MapTypeName(t: MapType): string
  {
    match t
    case Standard => "standard"
    case Satellite => "satellite"
    case Hybrid => "hybrid"
  }

  /** The map type after applying a preference string to a map currently showing `current`. */
  function MapTypeFor(preference: Option<string>, current: MapType): (t: MapType)
    ensures preference.Some? && preference.value in {"standard", "satellite", "hybrid"} ==>
            MapTypeName(t) == preference.value
    ensures !(preference.Some? && preference.value in {"standard", "satellite", "hybrid"}) ==> t == current
  {
    match preference
    case Some("hybrid") => Hybrid
    case Some("satellite") => Satellite
    case Some("standard") => Standard
    case _ => current
  }

  lemma {:induction false} MapTypeForRoundTrip(t: MapType, current: MapType)
    ensures MapTypeFor(Some(MapTypeName(t)), current) == t
  {
    match t
    case Standard =>
    case Satellite =>
    case Hybrid =>
  }

  // ---------------------------------------------------------------------------
  // The step list built from a directions reply

  /** One advisory line per notice that is exactly TollNotice, in notice order. */
  function TollAdvisories(notices: seq<string>): (lines: seq<string>)
    ensures forall i :: 0 <= i < |lines| ==> lines[i] == TollMessage
  {
    if notices == [] then []
    else
      var last := notices[|notices| - 1];
      TollAdvisories(notices[..|notices| - 1]) + (if last == TollNotice then [TollMessage] else [])
  }

  /** There are exactly as many advisory lines as notices equal to TollNotice. */
  lemma {:induction false} TollAdvisoriesCount(notices: seq<string>)
    ensures |TollAdvisories(notices)| == multiset(notices)[TollNotice]
  {
    if notices != [] {
      var front := notices[..|notices| - 1];
      assert notices == front + [notices[|notices| - 1]];
      TollAdvisoriesCount(front);
    }
  }

  /** The lines one route contributes: its toll advisories, then its steps. */
  function RouteLines(route: Route): seq<string>
  {
    TollAdvisories(route.advisoryNotices) + route.steps
  }

  /** The step list after the directions reply `routes`, route by route in reply order. */
  function StepsFor(routes: seq<Route>): seq<string>
  {
    if routes == [] then []
    else StepsFor(routes[..|routes| - 1]) + RouteLines(routes[|routes| - 1])
  }

  /** The overlays after the directions reply `routes`: one polyline per route. */
  function Polylines(routes: seq<Route>): (lines: seq<Polyline>)
    ensures |lines| == |routes|
    ensures forall i :: 0 <= i < |routes| ==> lines[i] == routes[i].polyline
  {
    if routes == [] then []
    else Polylines(routes[..|routes| - 1]) + [routes[|routes| - 1].polyline]
  }

  lemma {:induction false} StepsForAppend(a: seq<Route>, b: seq<Route>)
    ensures StepsFor(a + b) == StepsFor(a) + StepsFor(b)
  {
    if b == [] {
      assert a + b == a;
    } else {
      var ab, front, last := a + b, b[..|b| - 1], b[|b| - 1];
      assert ab[..|ab| - 1] == a + front;
      calc {
        StepsFor(ab);
        StepsFor(a + front) + RouteLines(last);
        { StepsForAppend(a, front); }
        StepsFor(a) + StepsFor(front) + RouteLines(last);
        StepsFor(a) + StepsFor(b);
      }
    }
  }

  /**
   * Route k's lines form one block of the step list, after the lines of the
   * routes before it: first its toll advisories, then its steps in order.
   */
  lemma {:induction false} RouteBlock(routes: seq<Route>, k: nat)
    requires k < |routes|
    ensures StepsFor(routes) ==
            StepsFor(routes[..k]) + TollAdvisories(routes[k].advisoryNotices) + routes[k].steps
            + StepsFor(routes[k + 1..])
  {
    assert routes == routes[..k] + [routes[k]] + routes[k + 1..];
    StepsForAppend(routes[..k] + [routes[k]], routes[k + 1..]);
    StepsForAppend(routes[..k], [routes[k]]);
    assert [routes[k]][..0] == [];
  }

  /** Every line of the step list is a toll advisory or a step of one of the routes. */
  lemma {:induction false} StepsForLines(routes: seq<Route>, i: nat)
    requires i < |StepsFor(routes)|
    ensures StepsFor(routes)[i] == TollMessage ||
            exists k :: 0 <= k < |routes| && StepsFor(routes)[i] in routes[k].steps
  {
    var n := |routes| - 1;
    var front := StepsFor(routes[..n]);
    if i < |front| {
      StepsForLines(routes[..n], i);
      if StepsFor(routes)[i] != TollMessage {
        var k :| 0 <= k < n && front[i] in routes[..n][k].steps;
        assert routes[..n][k] == routes[k];
      }
    } else if i - |front| >= |TollAdvisories(routes[n].advisoryNotices)| {
      assert StepsFor(routes)[i] in routes[n].steps;
    }
  }

  /** Every step instruction of every route appears in the step list. */
  lemma EveryStepListed(routes: seq<Route>, k: nat, j: nat)
    requires k < |routes| && j < |routes[k].steps|
    ensures routes[k].steps[j] in StepsFor(routes)
  {
    var front, tolls, steps, back :=
      StepsFor(routes[..k]), TollAdvisories(routes[k].advisoryNotices), routes[k].steps, StepsFor(routes[k + 1..]);
    RouteBlock(routes, k);
    var whole := front + tolls + steps + back;
    assert whole[|front| + |tolls| + j] == steps[j];
  }

  /** A reply in which some route has a step yields a non-empty step list. */
  lemma StepsForNonEmpty(routes: seq<Route>, k: nat)
    requires k < |routes| && routes[k].steps != []
    ensures StepsFor(routes) != []
  {
    EveryStepListed(routes, k, 0);
  }

  /** When the last route has steps, the last line is that route's last step. */
  lemma LastLineIsLastStep(routes: seq<Route>)
    requires routes != [] && routes[|routes| - 1].steps != []
    ensures StepsFor(routes) != []
    ensures StepsFor(routes)[|StepsFor(routes)| - 1] == routes[|routes| - 1].steps[|routes[|routes| - 1].steps| - 1]
  {
  }

  /** The step list after the arrival text `eta` is appended to its last line. */
  function WithEta(steps: seq<string>, eta: string): (r: seq<string>)
    requires |steps| > 0
    ensures |r| == |steps|
    ensures r[..|r| - 1] == steps[..|steps| - 1]
    ensures r[|r| - 1] == steps[|steps| - 1] + EtaSeparator + eta
  {
    steps[|steps| - 1 := steps[|steps| - 1] + EtaSeparator + eta]
  }

  /** A two-step list whose arrival is at 14:30:00 gets " at 02:30:00 PM" on its last step only. */
  lemma EtaExample()
    ensures WithEta(["Turn left", "Arrive"], EtaFormat.FormatTime(14, 30, 0)) ==
            ["Turn left", "Arrive at 02:30:00 PM"]
  {
    assert EtaFormat.FormatTime(14, 30, 0) == "02:30:00 PM";
    assert "Arrive" + EtaSeparator + "02:30:00 PM" == "Arrive at 02:30:00 PM";
  }

  // ---------------------------------------------------------------------------
  // The helper object

  /**
   * The helper holds the step list shown in the table and the map view's
   * overlays, annotations and map type. `pending` is the callback the current
   * load waits for.
   */
  class MapKitHelper {
    var routeSteps: seq<string>
    var annotations: seq<Annotation>
    var overlays: seq<Polyline>
    var mapType: MapType
    var initLocation: Option<Coordinate>
    var mapPreferences: Option<MapPreferences>
    var pending: Stage

    /** Between clearing and the directions reply nothing writes the step list or the overlays. */
    ghost predicate Valid()
      reads this
    {
      && (pending.Geocoding? || pending.Routing? ==> routeSteps == [] && overlays == [])
      && (!pending.Idle? ==> initLocation.Some?)
    }

    /** The state of a newly created helper, before any load. */
    ghost predicate IsNew()
      reads this
    {
      && routeSteps == [""]
      && annotations == [] && overlays == [] && mapType == Standard
      && initLocation == None && mapPreferences == None && pending == Idle
    }

    constructor ()
      ensures Valid() && IsNew()
    {
      routeSteps := [""];
      annotations := [];
      overlays := [];
      mapType := Standard;
      initLocation := None;
      mapPreferences := None;
      pending := Idle;
    }

    /** Drops a pin with the given title at the given coordinate. */
    method CreatePin(title: string, coordinate: Coordinate)
      modifies this`annotations
      ensures annotations == old(annotations) + [Annotation(title, coordinate)]
    {
      annotations := annotations + [Annotation(title, coordinate)];
    }

    /**
     * The synchronous part of loading the routes to `destination`: clear the
     * step list, the overlays and the pins, pin the current location and
     * start geocoding the campus address. Returns that address.
     */
    method BeginLoad(destination: string) returns (address: string)
      requires initLocation.Some?
      requires VerboseDestination(destination).Some?
      modifies this`routeSteps, this`overlays, this`annotations, this`pending
      ensures Valid()
      ensures routeSteps == [] && overlays == []
      ensures annotations == [Annotation(CurrentLocationTitle, initLocation.value)]
      ensures address == VerboseDestination(destination).value
      ensures pending == Geocoding(address)
    {
      routeSteps := [];
      overlays := [];
      annotations := [];
      CreatePin(CurrentLocationTitle, initLocation.value);
      address := VerboseDestination(destination).value;
      pending := Geocoding(address);
    }

    /**
     * The geocoder's reply. Without a placemark the load stops, with the
     * step list still empty. Otherwise the destination is pinned and the
     * directions request is issued; it is returned.
     */
    method OnGeocoded(placemarks: seq<Placemark>) returns (request: Option<DirectionsRequest>)
      requires Valid() && pending.Geocoding?
      requires |placemarks| > 0 ==>
                 placemarks[0].name.Some? && placemarks[0].location.Some? && mapPreferences.Some?
      modifies this`annotations, this`pending
      ensures Valid()
      ensures |placemarks| == 0 ==> request == None && pending == Idle && annotations == old(annotations)
      ensures |placemarks| > 0 ==>
                && request == Some(DirectionsRequest(
                                     initLocation.value,
                                     placemarks[0].location.value,
                                     false,
                                     RequestTransport(Some(mapPreferences.value.transportType))))
                && pending == Routing(request.value)
                && annotations == old(annotations) + [Annotation(placemarks[0].name.value, placemarks[0].location.value)]
    {
      if |placemarks| == 0 {
        request := None;
        pending := Idle;
        return;
      }
      var placemark := placemarks[0];
      var coordinates := placemark.location.value;
      CreatePin(placemark.name.value, coordinates);
      var transport := RequestTransport(Some(mapPreferences.value.transportType));
      var r := DirectionsRequest(initLocation.value, coordinates, false, transport);
      request := Some(r);
      pending := Routing(r);
    }

    /**
     * The directions reply: for each route in order, draw its polyline, add
     * one advisory line per toll notice and then its step instructions.
     */
    method OnDirections(routes: seq<Route>)
      requires Valid() && pending.Routing?
      modifies this`routeSteps, this`overlays, this`pending
      ensures Valid()
      ensures routeSteps == StepsFor(routes)
      ensures overlays == Polylines(routes)
      ensures pending == AwaitingEta(old(pending).request)
    {
      var request := pending.request;
      var i := 0;
      while i < |routes|
        invariant 0 <= i <= |routes|
        invariant routeSteps == StepsFor(routes[..i])
        invariant overlays == Polylines(routes[..i])
      {
        var route := routes[i];
        assert routes[..i + 1][..i] == routes[..i];
        overlays := overlays + [route.polyline];
        AddTollAdvisories(route.advisoryNotices);
        AddSteps(route.steps);
        i := i + 1;
      }
      assert routes[..i] == routes;
      pending := AwaitingEta(request);
    }

    /** The inner loop over one route's advisory notices. */
    method AddTollAdvisories(notices: seq<string>)
      modifies this`routeSteps
      ensures routeSteps == old(routeSteps) + TollAdvisories(notices)
    {
      var j := 0;
      while j < |notices|
        invariant 0 <= j <= |notices|
        invariant routeSteps == old(routeSteps) + TollAdvisories(notices[..j])
      {
        assert notices[..j + 1][..j] == notices[..j];
        if notices[j] == TollNotice {
          routeSteps := routeSteps + [TollMessage];
        }
        j := j + 1;
      }
      assert notices[..j] == notices;
    }

    /** The inner loop over one route's steps: each instruction is added in order. */
    method AddSteps(steps: seq<string>)
      modifies this`routeSteps
      ensures routeSteps == old(routeSteps) + steps
    {
      var k := 0;
      while k < |steps|
        invariant 0 <= k <= |steps|
        invariant routeSteps == old(routeSteps) + steps[..k]
      {
        assert steps[..k + 1] == steps[..k] + [steps[k]];
        routeSteps := routeSteps + [steps[k]];
        k := k + 1;
      }
      assert steps[..k] == steps;
    }

    /**
     * The ETA reply, given as the clock fields of the arrival date: the last
     * step gets " at " and the formatted time appended; nothing else changes.
     */
    method OnETA(hour: nat, minute: nat, second: nat)
      requires Valid() && pending.AwaitingEta?
      requires EtaFormat.ValidTime(hour, minute, second)
      requires |routeSteps| > 0
      modifies this`routeSteps, this`pending
      ensures Valid()
      ensures routeSteps == WithEta(old(routeSteps), EtaFormat.FormatTime(hour, minute, second))
      ensures pending == Idle
    {
      var expectedArrival := EtaFormat.FormatTime(hour, minute, second);
      var last := |routeSteps| - 1;
      var lastRouteStep := routeSteps[last];
      routeSteps := routeSteps[last := lastRouteStep + EtaSeparator + expectedArrival];
      pending := Idle;
    }

    /** Applies the preferred map type; an unrecognised one leaves the map type as it is. */
    method SetMapType()
      requires mapPreferences.Some?
      modifies this`mapType
      ensures mapType == MapTypeFor(Some(mapPreferences.value.mapType), old(mapType))
    {
      mapType := MapTypeFor(Some(mapPreferences.value.mapType), mapType);
    }
  }
}
