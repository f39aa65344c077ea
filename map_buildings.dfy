/** The building markers of the campus map and the detail modal they open.

    Tapping a marker selects its building and shows the modal; "View
    Parking" hides the modal and navigates to the building's route; "Close"
    and the platform's back request hide it without navigating. */
module MapBuildings {
  import opened Nullable

  /** The part of a building's record that the model keeps: its title in the
      modal and the route of its parking screen. */
  datatype Building = Building(name: string, route: string)

  /** The static building table, keyed by the identifiers the markers pass. */
  const Buildings: map<string, Building> := map[
    "brown" := Building("Brown Hall", "/brown"),
    "witherspoon" := Building("Witherspoon Hall", "/witherspoon")
  ]

  /** The route of a known building: the root path followed by its key. */
  function RouteOf(id: string): (route: string)
    requires id in Buildings
    ensures route == "/" + id
  {
    Buildings[id].route
  }

  /** Every key of the table is a non-empty string, so a selected key is
      always truthy. */
  lemma KeysAreTruthy(id: string)
    requires id in Buildings
    ensures TruthyString(Some(id))
  {
  }

  /** The marker/modal state of the map screen. */
  class BuildingModal {
    var modalVisible: bool
    var currentBuilding: Option<string>

    /** Only keys of the table are ever selected. */
    ghost predicate Valid()
      reads this
    {
      currentBuilding.Some? ==> currentBuilding.value in Buildings
    }

    constructor ()
      ensures Valid() && !modalVisible && currentBuilding == None
    {
      modalVisible := false;
      currentBuilding := None;
    }

    /** The building the modal displays: present exactly when the modal is
        visible and a building is selected. */
    function Shown(): (b: Option<Building>)
      reads this
      requires Valid()
      ensures b.Some? <==> modalVisible && TruthyString(currentBuilding)
      ensures b.Some? ==> b.value == Buildings[currentBuilding.value]
    {
      if modalVisible && TruthyString(currentBuilding) then Some(Buildings[currentBuilding.value]) else None
    }

    /** A marker tap selects the building and opens the modal. */
    method ShowBuildingInfo(id: string)
      requires Valid() && id in Buildings
      modifies this
      ensures Valid()
      ensures currentBuilding == Some(id) && modalVisible
      ensures Shown() == Some(Buildings[id])
    {
      currentBuilding := Some(id);
      modalVisible := true;
    }

    /** "View Parking": hides the modal and, when a building is selected,
        returns the route pushed onto the navigation stack. */
    method NavigateToBuilding() returns (pushed: Option<string>)
      requires Valid()
      modifies this
      ensures Valid()
      ensures !modalVisible && currentBuilding == old(currentBuilding)
      ensures pushed.Some? <==> currentBuilding.Some?
      ensures pushed.Some? ==> pushed.value == RouteOf(currentBuilding.value)
    {
      modalVisible := false;
      if TruthyString(currentBuilding) {
        pushed := Some(Buildings[currentBuilding.value].route);
      } else {
        pushed := None;
      }
    }

    /** The "Close" button: hides the modal, keeps the selection. */
    method Close()
      requires Valid()
      modifies this
      ensures Valid()
      ensures !modalVisible && currentBuilding == old(currentBuilding)
      ensures Shown() == None
    {
      modalVisible := false;
    }

    /** The platform's close request (the Android back button) does what
        "Close" does. */
    method RequestClose()
      requires Valid()
      modifies this
      ensures Valid()
      ensures !modalVisible && currentBuilding == old(currentBuilding)
      ensures Shown() == None
    {
      Close();
    }
  }

  /** Selecting a second marker before dismissing the first replaces the
      selection: the modal shows the last building tapped. */
  method LastSelectionWins(modal: BuildingModal, first: string, second: string)
    requires modal.Valid() && first in Buildings && second in Buildings
    modifies modal
    ensures modal.Valid()
    ensures modal.currentBuilding == Some(second)
    ensures modal.Shown() == Some(Buildings[second])
  {
    modal.ShowBuildingInfo(first);
    modal.ShowBuildingInfo(second);
  }
}
