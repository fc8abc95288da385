# Campus directions: a Dafny model of the route-loading workflow

The application shows the way from the user's current location to one of
three Sheridan College campuses. It draws the route on an MKMapView and lists
the turn-by-turn steps in a table. The user picks the map type, the
route-line colour and the transport type on a settings screen. Geocoding,
routing and ETA all happen in Apple frameworks. This model covers the logic
the application owns:

- **`MapKit.MapKitHelper`** (`MapKitHelper.swift`). This is the step list
  `routeSteps`, together with the map's annotations, overlays and map type.
  Each stage of `loadRoutes` is a method:
  - `BeginLoad` is the synchronous part: clear the map, pin the current
    location and start geocoding.
  - `OnGeocoded`, `OnDirections` and `OnETA` are the three completion
    handlers. Each takes the framework's reply as its input.
  - The field `pending` records which handler the load is waiting for. Each
    handler requires its own stage, so handlers run one at a time in the
    source's order.
- **Pure tables of the helper.** These are the campus-to-address lookup, the
  transport and map-type switches, and the step list a directions reply
  produces (`StepsFor`, `TollAdvisories`, `Polylines`).
- **`EtaFormat`.** This is the `"hh:mm:ss a"` date pattern (en_US_POSIX
  locale, symbols "AM"/"PM"), read under Unicode Technical Standard #35,
  Part 4 (Dates), section 8. It comes with an inverse parser and round-trip
  lemmas in both directions.
- **`MapScreen.MapViewController`** (`MapViewController.swift`). This is the
  picker data `["davis", "trafalgar", "hmc"]` and `currentSelection`. A pick
  reloads only when the selection changes. It also holds the table and
  picker data-source reads.
- **`SettingsScreen`** (`ViewController.swift`). This holds:
  - the segue decision over (location services enabled, authorization
    status);
  - the segment arrays and the colour switch;
  - `prepare`, which writes the receiver's preferences and a new helper.
- **`Preferences.MapPreferences`** (`MapPreferences.swift`) is a plain
  record. The colours are an enum.

Inputs that stand in for the platform:
- The geocoder's placemarks, a directions reply's routes (polyline,
  advisory notices, step instructions) and the arrival time's clock fields
  (hour, minute, second) are method parameters.
- Whether location services are enabled, the authorization status and the
  location manager's coordinate are parameters too.
- For a segmented control, the selected segment index is a parameter.

Every trap the source can hit on the inputs the model keeps is a
precondition. This covers:
- an unknown campus key: `verboseDestination` stays nil and the geocoder
  call traps (MapKitHelper.swift:46-68);
- a nil `initLocation` or nil `mapPreferences`;
- a placemark without a name or location;
- an ETA callback when `routeSteps` is empty;
- a picker row or a segment index out of range.

Other traps concern values the model does not keep: the framework's error
replies, the map view reference, the storyboard outlets and the image
loading. They are listed under "## Left out".

Behaviour of the source worth stating, because it is easy to assume
otherwise:
- `loadRoutes` clears the steps, the overlays and the pins before it
  geocodes (MapKitHelper.swift:35-43). So a geocode with no placemark
  leaves an empty step list; the previous route is not kept (`OnGeocoded`
  with no placemark).
- The directions handler appends every route of the reply, in reply order
  (MapKitHelper.swift:110).
- An unknown campus key is not a no-op: the nil address traps at
  MapKitHelper.swift:68. So a known key is a precondition of `BeginLoad`.

## Model

| member | source | states |
|---|---|---|
| `EtaFormat.FormatTime` | ios-project/Classes/MapKit/MapKitHelper.swift:135-142 | The arrival text has 11 characters "hh:mm:ss a": digits at the six digit places, ':' at 2 and 5, a space at 8, and it ends in "AM" exactly when the hour is below 12 (otherwise "PM") |
| `EtaFormat.TwoDigits` | ios-project/Classes/MapKit/MapKitHelper.swift:137 | The zero-padded "hh", "mm" and "ss" field: two decimal digits whose value is the number; TwoDigitsRoundTrip and ParseTwoDigitsCanonical make it the exact inverse of reading two digits back |
| `EtaFormat.ClockHour` | ios-project/Classes/MapKit/MapKitHelper.swift:137 | The "hh" hour is in 1..12 and agrees with the 24-hour hour modulo 12 (midnight and noon show 12) |
| `EtaFormat.DayPeriod` | ios-project/Classes/MapKit/MapKitHelper.swift:138-139 | The day period is the AM symbol exactly when the hour is below 12, and the PM symbol exactly when it is 12 or more |
| `EtaFormat.FormatParseRoundTrip` | ios-project/Classes/MapKit/MapKitHelper.swift:135-142 | Parsing the formatted arrival text gives back the hour, minute and second |
| `EtaFormat.ParseFormatRoundTrip` | ios-project/Classes/MapKit/MapKitHelper.swift:135-142 | Every text the parser accepts is exactly the formatter's output for the fields it reads, so the pattern has one spelling per time |
| `EtaFormat.FormatTimeInjective` | ios-project/Classes/MapKit/MapKitHelper.swift:135-142 | Two arrival times with the same text are the same time |
| `MapKit.VerboseDestination` | ios-project/Classes/MapKit/MapKitHelper.swift:45-61 | An address exists exactly for "davis", "trafalgar" and "hmc", and it starts with "Sheridan College "; any other key gets none |
| `MapKit.VerboseDestinationInjective` | ios-project/Classes/MapKit/MapKitHelper.swift:49-58 | Different campus keys give different addresses |
| `MapKit.RequestTransport` | ios-project/Classes/MapKit/MapKitHelper.swift:92-104 | "car" and "walk" select the transport type with that name; any other string or nil leaves the request's default (any) |
| `MapKit.RequestTransportRoundTrip` | ios-project/Classes/MapKit/MapKitHelper.swift:92-104 | The switch inverts TransportName for every transport type, the default included |
| `MapKit.MapTypeFor` | ios-project/Classes/MapKit/MapKitHelper.swift:179-194 | "standard", "satellite" and "hybrid" select the map type with that name; any other string or nil leaves the current map type |
| `MapKit.MapTypeForRoundTrip` | ios-project/Classes/MapKit/MapKitHelper.swift:179-194 | Applying a map type's own name selects that map type, whatever the map showed before |
| `MapKit.TollAdvisories` | ios-project/Classes/MapKit/MapKitHelper.swift:114-119 | Every advisory line a route contributes is "Requires taking a tolled highway." |
| `MapKit.TollAdvisoriesCount` | ios-project/Classes/MapKit/MapKitHelper.swift:114-119 | There is exactly one advisory line per notice that equals "Toll required." |
| `MapKit.Polylines` | ios-project/Classes/MapKit/MapKitHelper.swift:110-112 | One overlay per route, the i-th being route i's polyline |
| `MapKit.StepsForAppend` | ios-project/Classes/MapKit/MapKitHelper.swift:110-127 | StepsFor, the list the nested loops build, distributes over consecutive groups of routes: the first group's list followed by the second's |
| `MapKit.RouteBlock` | ios-project/Classes/MapKit/MapKitHelper.swift:110-127 | In StepsFor, route k's lines (RouteLines) are one block after the earlier routes' lines: its toll advisories first, then its steps in their order, then the later routes' lines |
| `MapKit.StepsForLines` | ios-project/Classes/MapKit/MapKitHelper.swift:115-126 | Every line of StepsFor is a toll advisory or a step instruction of one of the routes |
| `MapKit.EveryStepListed` | ios-project/Classes/MapKit/MapKitHelper.swift:122-126 | Every step instruction of every route is in the step list |
| `MapKit.StepsForNonEmpty` | ios-project/Classes/MapKit/MapKitHelper.swift:110-127 | When some route has a step, the step list is not empty, so the ETA handler's index is in range |
| `MapKit.LastLineIsLastStep` | ios-project/Classes/MapKit/MapKitHelper.swift:122-126 | When the last route has steps, the last line of the list, which gets the ETA, is that route's last step |
| `MapKit.WithEta` | ios-project/Classes/MapKit/MapKitHelper.swift:144-146 | The rewritten list has the same length and the same lines except the last, which becomes the old last line + " at " + the arrival text |
| `MapKit.EtaExample` | ios-project/Classes/MapKit/MapKitHelper.swift:135-146 | ["Turn left", "Arrive"] with arrival at 14:30:00 becomes ["Turn left", "Arrive at 02:30:00 PM"] |
| `MapKit.MapKitHelper.constructor` | ios-project/Classes/MapKit/MapKitHelper.swift:12-29 | Before any load the step list is [""], there are no pins or overlays, the map is standard, no location or preferences are set and nothing is pending |
| `MapKit.MapKitHelper.CreatePin` | ios-project/Classes/MapKit/MapKitHelper.swift:162-174 | Exactly one annotation with the given title and coordinate is appended; nothing else changes |
| `MapKit.MapKitHelper.BeginLoad` | ios-project/Classes/MapKit/MapKitHelper.swift:32-68 | The step list and the overlays are empty, the only pin is "Current location" at the current location, and geocoding of the campus's address is pending; a known key and a set location are required |
| `MapKit.MapKitHelper.OnGeocoded` | ios-project/Classes/MapKit/MapKitHelper.swift:68-106 | Without a placemark the load stops with the step list still empty; otherwise the destination is pinned and the request is current location to placemark, alternates off, the preferred transport type |
| `MapKit.MapKitHelper.OnDirections` | ios-project/Classes/MapKit/MapKitHelper.swift:109-129 | The step list is StepsFor(routes), the overlays are one polyline per route, and the ETA for the same request is pending |
| `MapKit.MapKitHelper.AddTollAdvisories` | ios-project/Classes/MapKit/MapKitHelper.swift:115-119 | The route's toll advisory lines are appended to the step list |
| `MapKit.MapKitHelper.AddSteps` | ios-project/Classes/MapKit/MapKitHelper.swift:122-126 | The route's step instructions are appended in order |
| `MapKit.MapKitHelper.OnETA` | ios-project/Classes/MapKit/MapKitHelper.swift:132-148 | The step list becomes WithEta(old list, FormatTime(h, m, s)), with count and all earlier steps unchanged; a non-empty list is required |
| `MapKit.MapKitHelper.SetMapType` | ios-project/Classes/MapKit/MapKitHelper.swift:177-195 | The map type becomes MapTypeFor(preferred map type, old map type) |
| `MapScreen.CampusesResolve` | ios-project/Classes/MapKit/ViewControllers/MapViewController.swift:44-45 | Every picker key has an address, and no two keys share one |
| `MapScreen.MapViewController.constructor` | ios-project/Classes/MapKit/ViewControllers/MapViewController.swift:13-23 | A new screen has no preferences, no selection, no data and a new, unused helper |
| `MapScreen.MapViewController.ViewDidLoad` | ios-project/Classes/MapKit/ViewControllers/MapViewController.swift:41-80 | data is the three campuses and the selection is "davis". Only with location services on: the helper gets the location and preferences, has exactly one "Current location" pin and an empty step list, is geocoding Davis, and has the preferred map type; with them off the helper is untouched |
| `MapScreen.MapViewController.PickerDidSelectRow` | ios-project/Classes/MapKit/ViewControllers/MapViewController.swift:121-128 | The selection becomes the picked key, and the selection always stays one of the keys. Picking the current key leaves the helper untouched; any other key clears it and starts geocoding that campus |
| `MapScreen.TableRows` | ios-project/Classes/MapKit/ViewControllers/MapViewController.swift:130-146 | Before any load the table shows the helper's single empty row (MapKitHelper.swift:20). While a load waits for the geocoder or for directions it is empty, because loadRoutes cleared the list |
| `MapScreen.TableShowsRoutes` | ios-project/Classes/MapKit/ViewControllers/MapViewController.swift:140-146 | Once the step list is the one a directions reply builds, every step instruction of every route is the text of some row |
| `MapScreen.PickerShape` | ios-project/Classes/MapKit/ViewControllers/MapViewController.swift:148-161 | Once the screen has loaded, the picker has one component and three rows, and row r's title is the r-th campus key, which the helper can load |
| `MapScreen.MapViewController.PickerRowCount` | ios-project/Classes/MapKit/ViewControllers/MapViewController.swift:148-151 | Once the screen has loaded, the picker has 3 rows |
| `MapScreen.MapViewController.PickerTitle` | ios-project/Classes/MapKit/ViewControllers/MapViewController.swift:153-156 | Row r's title is the r-th campus key, which the helper can load |
| `SettingsScreen.ShouldPerformSegue` | ios-project/Classes/MapKit/ViewControllers/ViewController.swift:68-94 | The segue goes ahead exactly when location services are enabled and the status is authorizedAlways or authorizedWhenInUse |
| `SettingsScreen.ColourNamed` | ios-project/Classes/MapKit/ViewControllers/ViewController.swift:101-120 | A colour is selected exactly for the five labels of the colour array, and it is the colour with that label |
| `SettingsScreen.ColoursDistinct` | ios-project/Classes/MapKit/ViewControllers/ViewController.swift:50 | Different colour segments select different colours |
| `SettingsScreen.PreferencesFor` | ios-project/Classes/MapKit/ViewControllers/ViewController.swift:122-125 | The record holds the selected segment's colour, map type and transport type. The map type is always standard, satellite or hybrid, and the transport always car or walk |
| `SettingsScreen.PreferencesAlwaysRecognized` | ios-project/Classes/MapKit/ViewControllers/ViewController.swift:47-53 | Preferences from this screen always select their named transport type and map type in the helper, so the helper's default branches are never reached from here |
| `SettingsScreen.ViewController.constructor` | ios-project/Classes/MapKit/ViewControllers/ViewController.swift:31-35 | No preview image is set before the screen loads |
| `SettingsScreen.ViewController.ViewDidLoad` | ios-project/Classes/MapKit/ViewControllers/ViewController.swift:132-136 | Both previews show index 0 of their arrays |
| `SettingsScreen.ViewController.ColourSegmentOnChange` | ios-project/Classes/MapKit/ViewControllers/ViewController.swift:58-61 | The colour preview is the selected segment's label |
| `SettingsScreen.ViewController.MapTypeSegmentOnChange` | ios-project/Classes/MapKit/ViewControllers/ViewController.swift:63-66 | The map-type preview is the selected segment's label |
| `SettingsScreen.ViewController.Prepare` | ios-project/Classes/MapKit/ViewControllers/ViewController.swift:96-129 | The receiver gets PreferencesFor(the selected indices) and a new, unused helper; its data and selection are unchanged; every index must be in range |

## Left out

- Concurrency:
  - Each completion handler runs as one atomic step, and only the stage the
    current load waits for can run.
  - So a stale directions or ETA callback from a superseded load, which the
    source allows, is not modelled.
- Framework services. CLGeocoder, `MKDirections.calculate`,
  `calculateETA` and CLLocationManager are not modelled; their replies are
  inputs.
  - A nil placemark list and an empty one behave the same, so both are the
    empty sequence.
  - The geocoder's error is only printed, which is not modelled.
- Failed replies. A directions or ETA reply with an error traps on
  `(response?.routes)!` (MapKitHelper.swift:110) or
  `(response?.expectedArrivalDate)!` (MapKitHelper.swift:142). The handlers'
  input types hold only successful replies, so these traps are not modelled.
- Date conversion. Turning the arrival `Date` into clock fields needs a time
  zone and a calendar, so it is not modelled; the clock fields are inputs.
- Geometry:
  - `centerMapOnLocation` and the `radius` field (floating-point region
    math);
  - `setVisibleMapRect` with the polyline's bounding rectangle;
  - coordinates are opaque values.
- Presentation:
  - `reloadData` and `selectAnnotation`;
  - the renderer colours and line widths in `mapView(_:rendererFor:)`;
  - the map view's delegate, scale and points-of-interest settings;
  - `setupViews` borders and the attributed header text;
  - the alert in `shouldPerformSegue`;
  - loading the preview images (only their names are modelled);
  - the location-authorization requests in the settings screen's
    `viewDidLoad`;
  - the unwind action and the memory-warning handlers.
- View references. The helper's `mapView` and `tableView` references are
  folded into the helper's own fields, so the trap on a nil `mapView`
  (MapKitHelper.swift:36) is not modelled.
- Storyboard traps. These depend on objects the model does not keep, so
  they are not modelled:
  - the `segue.destination as! MapViewController` cast
    (ViewController.swift:98);
  - the `colourSegment!`, `mapTypeSegment!` and
    `(transportSegment?.selectedSegmentIndex)!` unwraps
    (ViewController.swift:102, 124-125); the selected indices are
    parameters;
  - the `colourImage!` and `mapTypeImage!` outlets and the
    `UIImage(named:)!` loads (ViewController.swift:135-136).
- Colour values. Colours are an enum, not UIColor values.
