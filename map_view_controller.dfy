/**
 * The map screen: a picker of three campuses, the map and a table of route
 * steps. It keeps the selected campus and asks the helper to reload only when
 * the selection changes.
 */
module MapScreen {
  import opened Wrappers
  import opened Preferences
  import opened MapKit

  /** The campus keys shown in the picker, in row order. */
  const CampusData: seq<string> := ["davis", "trafalgar", "hmc"]

  /** The campus loaded when the screen appears. */
  const DefaultSelection: string := "davis"

  /** Every picker row names a campus the helper can look up, and no two rows name the same address. */
  lemma CampusesResolve()
    ensures forall i :: 0 <= i < |CampusData| ==> VerboseDestination(CampusData[i]).Some?
    ensures forall i, j :: 0 <= i < j < |CampusData| ==>
              VerboseDestination(CampusData[i]) != VerboseDestination(CampusData[j])
  {
    forall i, j | 0 <= i < j < |CampusData|
      ensures VerboseDestination(CampusData[i]) != VerboseDestination(CampusData[j])
    {
      if VerboseDestination(CampusData[i]) == VerboseDestination(CampusData[j]) {
        VerboseDestinationInjective(CampusData[i], CampusData[j]);
      }
    }
  }

  class MapViewController {
    var mapPreferences: Option<MapPreferences>
    var mapKitHelper: MapKitHelper
    var currentSelection: Option<string>
    var data: seq<string>

    /** After the screen has loaded: the picker holds the campuses and one of them is selected. */
    ghost predicate Valid()
      reads this, mapKitHelper
    {
      && data == CampusData
      && currentSelection.Some? && currentSelection.value in data
      && mapKitHelper.Valid()
    }

    constructor ()
      ensures mapPreferences == None && currentSelection == None && data == []
      ensures fresh(mapKitHelper) && mapKitHelper.Valid() && mapKitHelper.IsNew()
    {
      mapPreferences := None;
      mapKitHelper := new MapKitHelper();
      currentSelection := None;
      data := [];
    }

    /**
     * Sets up the picker and the default selection. Only when location
     * services are enabled is the helper configured with the current location
     * and the preferences, the current location pinned, the default campus
     * loaded and the map type applied.
     */
    method ViewDidLoad(locationServicesEnabled: bool, location: Option<Coordinate>)
      requires mapKitHelper.Valid()
      requires locationServicesEnabled ==> location.Some? && mapPreferences.Some?
      modifies this`data, this`currentSelection, mapKitHelper
      ensures Valid()
      ensures data == CampusData && currentSelection == Some(DefaultSelection)
      ensures !locationServicesEnabled ==> unchanged(mapKitHelper)
      ensures locationServicesEnabled ==>
                && mapKitHelper.initLocation == location
                && mapKitHelper.mapPreferences == mapPreferences
                && mapKitHelper.annotations == [Annotation(CurrentLocationTitle, location.value)]
                && mapKitHelper.routeSteps == [] && mapKitHelper.overlays == []
                && mapKitHelper.pending == Geocoding(VerboseDestination(DefaultSelection).value)
                && mapKitHelper.mapType == MapTypeFor(Some(mapPreferences.value.mapType), old(mapKitHelper.mapType))
    {
      data := CampusData;
      currentSelection := Some(DefaultSelection);
      if locationServicesEnabled {
        mapKitHelper.initLocation := location;
        mapKitHelper.mapPreferences := mapPreferences;
        mapKitHelper.CreatePin(CurrentLocationTitle, location.value);
        var _ := mapKitHelper.BeginLoad(DefaultSelection);
        mapKitHelper.SetMapType();
      }
    }

    /**
     * The user picked `row`. The routes are reloaded only when that campus is
     * not the current selection, which it then becomes.
     */
    method PickerDidSelectRow(row: int)
      requires Valid()
      requires 0 <= row < |data|
      requires data[row] != currentSelection.value ==> mapKitHelper.initLocation.Some?
      modifies this`currentSelection, mapKitHelper
      ensures Valid()
      ensures currentSelection == Some(data[row])
      ensures old(currentSelection) == Some(data[row]) ==> unchanged(mapKitHelper)
      ensures old(currentSelection) != Some(data[row]) ==>
                && mapKitHelper.initLocation == old(mapKitHelper.initLocation) && mapKitHelper.initLocation.Some?
                && mapKitHelper.routeSteps == [] && mapKitHelper.overlays == []
                && mapKitHelper.annotations == [Annotation(CurrentLocationTitle, mapKitHelper.initLocation.value)]
                && mapKitHelper.pending == Geocoding(VerboseDestination(data[row]).value)
                && mapKitHelper.mapPreferences == old(mapKitHelper.mapPreferences)
                && mapKitHelper.mapType == old(mapKitHelper.mapType)
    {
      var selected := data[row];
      if Some(selected) != currentSelection {
        currentSelection := Some(selected);
        var _ := mapKitHelper.BeginLoad(selected);
      }
    }

    /** The table has one row per route step. */
    function NumberOfRowsInSection(): nat
      reads this, mapKitHelper
    {
      |mapKitHelper.routeSteps|
    }

    /** Row `row` of the table shows the step at that position. */
    function CellText(row: int): string
      reads this, mapKitHelper
      requires 0 <= row < NumberOfRowsInSection()
    {
      mapKitHelper.routeSteps[row]
    }

    /** The picker has a single component. */
    function NumberOfComponents(): nat
    {
      1
    }

    /** Once loaded, the picker offers exactly the three campuses. */
    function PickerRowCount(): (n: nat)
      reads this, mapKitHelper
      requires Valid()
      ensures n == |CampusData| == 3
    {
      |data|
    }

    /** Once loaded, each picker title is a campus key the helper can load. */
    function PickerTitle(row: int): (title: string)
      reads this, mapKitHelper
      requires Valid()
      requires 0 <= row < PickerRowCount()
      ensures title == CampusData[row]
      ensures VerboseDestination(title).Some?
    {
      data[row]
    }
  }
  /**
   * What the table shows between loads: a screen whose helper was never
   * loaded has the helper's initial single empty row, and while a load waits
   * for the geocoder or for directions the table is empty.
   */
  lemma TableRows(screen: MapViewController)
    requires screen.Valid()
    ensures screen.mapKitHelper.IsNew() ==> screen.NumberOfRowsInSection() == 1 && screen.CellText(0) == ""
    ensures screen.mapKitHelper.pending.Geocoding? || screen.mapKitHelper.pending.Routing? ==>
              screen.NumberOfRowsInSection() == 0
  {
  }

  /**
   * Once the helper's step list is the one a directions reply builds, every
   * step instruction of every route of the reply is shown in some row.
   */
  lemma TableShowsRoutes(screen: MapViewController, routes: seq<Route>, k: nat, j: nat)
    requires screen.mapKitHelper.routeSteps == StepsFor(routes)
    requires k < |routes| && j < |routes[k].steps|
    ensures exists row :: 0 <= row < screen.NumberOfRowsInSection() && screen.CellText(row) == routes[k].steps[j]
  {
    EveryStepListed(routes, k, j);
    var row :| 0 <= row < |StepsFor(routes)| && StepsFor(routes)[row] == routes[k].steps[j];
    assert screen.CellText(row) == routes[k].steps[j];
  }

  /** Once loaded, the picker has one component with one loadable campus key per row. */
  lemma PickerShape(screen: MapViewController)
    requires screen.Valid()
    ensures screen.NumberOfComponents() == 1
    ensures screen.PickerRowCount() == 3
    ensures forall row :: 0 <= row < 3 ==>
              screen.PickerTitle(row) == CampusData[row] && VerboseDestination(screen.PickerTitle(row)).Some?
  {
    CampusesResolve();
  }
}
