/**
 * The settings screen: three segmented controls choose the route colour,
 * the map type and the transport type; the screen lets the user continue to
 * the map only when location access is granted, and hands the choices to the
 * map screen as one preferences record.
 */
module SettingsScreen {
  import opened Wrappers
  import opened Preferences
  import MapKit
  import MapScreen

  /** The location authorization states the operating system reports. */
  datatype AuthorizationStatus = NotDetermined | Restricted | Denied | AuthorizedAlways | AuthorizedWhenInUse

  /** Segment labels, in segment order. */
  const MapTypeArr: seq<string> := ["standard", "satellite", "hybrid"]
  const ColourArr: seq<string> := ["red", "blue", "green", "yellow", "orange"]
  const TransportArr: seq<string> := ["car", "walk"]

  /** Whether the segue to the map screen goes ahead. */
  function ShouldPerformSegue(locationServicesEnabled: bool, status: AuthorizationStatus): (proceed: bool)
    ensures proceed <==> locationServicesEnabled && (status == AuthorizedAlways || status == AuthorizedWhenInUse)
  {
    if locationServicesEnabled then
      match status
      case NotDetermined | Restricted | Denied => false
      case AuthorizedAlways | AuthorizedWhenInUse => true
    else false
  }

  /** The label of each colour. */
  function ColourName(c: Colour): string
  {
    match c
    case Red => "red"
    case Blue => "blue"
    case Green => "green"
    case Yellow => "yellow"
    case Orange => "orange"
  }

  /** The colour switch of the segue preparation; a label without a case selects nothing. */
  function ColourNamed(name: string): (c: Option<Colour>)
    ensures c.Some? <==> name in ColourArr
    ensures c.Some? ==> ColourName(c.value) == name
  {
    match name
    case "red" => Some(Red)
    case "blue" => Some(Blue)
    case "green" => Some(Green)
    case "yellow" => Some(Yellow)
    case "orange" => Some(Orange)
    case _ => None
  }

  /** The five colour segments select five different colours. */
  lemma ColoursDistinct(i: nat, j: nat)
    requires i < j < |ColourArr|
    ensures ColourNamed(ColourArr[i]).Some? && ColourNamed(ColourArr[j]).Some?
    ensures ColourNamed(ColourArr[i]).value != ColourNamed(ColourArr[j]).value
  {
    assert ColourName(ColourNamed(ColourArr[i]).value) == ColourArr[i];
    assert ColourName(ColourNamed(ColourArr[j]).value) == ColourArr[j];
  }

  /** The preferences record built from the three selected segment indices. */
  function PreferencesFor(colourIndex: int, mapTypeIndex: int, transportIndex: int): (p: MapPreferences)
    requires 0 <= colourIndex < |ColourArr|
    requires 0 <= mapTypeIndex < |MapTypeArr|
    requires 0 <= transportIndex < |TransportArr|
    ensures ColourName(p.polylineColour) == ColourArr[colourIndex]
    ensures p.mapType == MapTypeArr[mapTypeIndex] && p.mapType in {"standard", "satellite", "hybrid"}
    ensures p.transportType == TransportArr[transportIndex] && p.transportType in {"car", "walk"}
  {
    MapPreferences(ColourNamed(ColourArr[colourIndex]).value, MapTypeArr[mapTypeIndex], TransportArr[transportIndex])
  }

  /**
   * Preferences from this screen always pick a transport type and a map type
   * in the helper: the no-op branches of its two switches are never taken.
   */
  lemma PreferencesAlwaysRecognized(colourIndex: int, mapTypeIndex: int, transportIndex: int, current: MapKit.MapType)
    requires 0 <= colourIndex < |ColourArr|
    requires 0 <= mapTypeIndex < |MapTypeArr|
    requires 0 <= transportIndex < |TransportArr|
    ensures var p := PreferencesFor(colourIndex, mapTypeIndex, transportIndex);
            && MapKit.TransportName(MapKit.RequestTransport(Some(p.transportType))) == Some(TransportArr[transportIndex])
            && MapKit.MapTypeName(MapKit.MapTypeFor(Some(p.mapType), current)) == MapTypeArr[mapTypeIndex]
  {
    var p := PreferencesFor(colourIndex, mapTypeIndex, transportIndex);
    assert MapKit.RequestTransport(Some(p.transportType)) != MapKit.AnyTransport;
  }

  class ViewController {
    /** The names of the preview images; None until the screen loads. */
    var colourImage: Option<string>
    var mapTypeImage: Option<string>

    constructor ()
      ensures colourImage == None && mapTypeImage == None
    {
      colourImage := None;
      mapTypeImage := None;
    }

    /** On load both previews show the first segment's image. */
    method ViewDidLoad()
      modifies this
      ensures colourImage == Some(ColourArr[0]) && mapTypeImage == Some(MapTypeArr[0])
    {
      colourImage := Some(ColourArr[0]);
      mapTypeImage := Some(MapTypeArr[0]);
    }

    /** A new colour segment shows that colour's preview. */
    method ColourSegmentOnChange(selectedSegmentIndex: int)
      requires 0 <= selectedSegmentIndex < |ColourArr|
      modifies this`colourImage
      ensures colourImage == Some(ColourArr[selectedSegmentIndex])
    {
      colourImage := Some(ColourArr[selectedSegmentIndex]);
    }

    /** A new map-type segment shows that map type's preview. */
    method MapTypeSegmentOnChange(selectedSegmentIndex: int)
      requires 0 <= selectedSegmentIndex < |MapTypeArr|
      modifies this`mapTypeImage
      ensures mapTypeImage == Some(MapTypeArr[selectedSegmentIndex])
    {
      mapTypeImage := Some(MapTypeArr[selectedSegmentIndex]);
    }

    /**
     * Before the segue: the map screen receives the preferences built from the
     * selected segments and a new helper.
     */
    method Prepare(receiver: MapScreen.MapViewController, colourIndex: int, mapTypeIndex: int, transportIndex: int)
      requires 0 <= colourIndex < |ColourArr|
      requires 0 <= mapTypeIndex < |MapTypeArr|
      requires 0 <= transportIndex < |TransportArr|
      modifies receiver
      ensures receiver.mapPreferences == Some(PreferencesFor(colourIndex, mapTypeIndex, transportIndex))
      ensures fresh(receiver.mapKitHelper) && receiver.mapKitHelper.Valid() && receiver.mapKitHelper.IsNew()
      ensures receiver.data == old(receiver.data) && receiver.currentSelection == old(receiver.currentSelection)
    {
      receiver.mapPreferences := Some(PreferencesFor(colourIndex, mapTypeIndex, transportIndex));
      receiver.mapKitHelper := new MapKit.MapKitHelper();
    }
  }
}
