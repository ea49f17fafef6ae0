/**
 * The interactive map page: category filter chips, the "saved" bookmark on each location,
 * the list of locations the active filters let through, and the category colours.
 */
module InteractiveMap {
  import opened Seqs

  const Categories: seq<string> := ["attraction", "hotel", "restaurant", "safety"]

  /** A point on the map; coordinates only feed the map widget and are not kept. */
  datatype Location = Location(id: string, name: string, category: string, rating: real, saved: bool)

  /** The five Paris locations the page starts with. */
  const InitialLocations: seq<Location> := [
    Location("1", "Eiffel Tower", "attraction", 4.8, false),
    Location("2", "Hotel Le Marais", "hotel", 4.5, true),
    Location("3", "Le Comptoir du Relais", "restaurant", 4.6, false),
    Location("4", "Police Station - 6th Arr.", "safety", 0.0, false),
    Location("5", "Louvre Museum", "attraction", 4.9, true)
  ]

  function IsNot(value: string): string -> bool {
    (f: string) => f != value
  }

  /** A present chip is switched off (every copy of it), an absent one is switched on at the end. */
  function ToggleFilter(active: seq<string>, value: string): (r: seq<string>)
    ensures value in active ==> value !in r && (forall f :: f != value ==> (f in r <==> f in active))
    ensures value !in active ==> r == active + [value]
  {
    if value in active then Filter(active, IsNot(value)) else active + [value]
  }

  /** Toggling the same chip twice gives back the same set of active categories. */
  lemma ToggleFilterTwice(active: seq<string>, value: string)
    ensures forall f :: f in ToggleFilter(ToggleFilter(active, value), value) <==> f in active
  {
    if value !in active {
      var once := active + [value];
      assert Filter(once, IsNot(value)) == active by {
        FilterDropsAppended(active, value, IsNot(value));
      }
    }
  }

  /** `saved` is flipped on the locations with that id, and on no other. */
  function ToggleSaved(locations: seq<Location>, id: string): (r: seq<Location>)
    ensures |r| == |locations|
    ensures forall i :: 0 <= i < |r| && locations[i].id == id ==> r[i] == locations[i].(saved := !locations[i].saved)
    ensures forall i :: 0 <= i < |r| && locations[i].id != id ==> r[i] == locations[i]
  {
    seq(|locations|, i requires 0 <= i < |locations| =>
      if locations[i].id == id then locations[i].(saved := !locations[i].saved) else locations[i])
  }

  /** Saving and unsaving the same location leaves every bookmark as it was. */
  lemma ToggleSavedTwice(locations: seq<Location>, id: string)
    ensures ToggleSaved(ToggleSaved(locations, id), id) == locations
  {
    var twice := ToggleSaved(ToggleSaved(locations, id), id);
    assert forall i :: 0 <= i < |locations| ==> twice[i] == locations[i];
  }

  function InCategory(active: seq<string>): Location -> bool {
    (l: Location) => l.category in active
  }

  /** The locations shown: those whose category is active, in their original order. */
  function Shown(locations: seq<Location>, active: seq<string>): (r: seq<Location>)
    ensures forall l :: l in r <==> l in locations && l.category in active
    ensures IsSubsequence(r, locations)
  {
    Filter(locations, InCategory(active))
  }

  /** With every category active, every location of a known category is shown. */
  lemma AllShownInitially(locations: seq<Location>)
    requires forall l :: l in locations ==> l.category in Categories
    ensures Shown(locations, Categories) == locations
  {
    FilterAll(locations, InCategory(Categories));
  }

  lemma InitialLocationsAllShown()
    ensures Shown(InitialLocations, Categories) == InitialLocations
  {
    AllShownInitially(InitialLocations);
  }

  /** `filters.find(...)`'s colour class, with the gray class for anything else. */
  function CategoryClass(category: string): (c: string)
    ensures category !in Categories ==> c == "bg-gray-500"
    ensures category in Categories ==> c != "bg-gray-500"
  {
    if category == "attraction" then "bg-blue-500"
    else if category == "hotel" then "bg-purple-500"
    else if category == "restaurant" then "bg-orange-500"
    else if category == "safety" then "bg-green-500"
    else "bg-gray-500"
  }

  /** The marker colour, gray for anything else. */
  function MarkerColor(category: string): (c: string)
    ensures category !in Categories ==> c == "#6b7280"
    ensures category in Categories ==> c != "#6b7280"
  {
    if category == "attraction" then "#3b82f6"
    else if category == "hotel" then "#a855f7"
    else if category == "restaurant" then "#f97316"
    else if category == "safety" then "#22c55e"
    else "#6b7280"
  }

  class MapPage {
    var activeFilters: seq<string>
    var locations: seq<Location>

    constructor()
      ensures activeFilters == Categories && locations == InitialLocations
    {
      activeFilters := Categories;
      locations := InitialLocations;
    }

    method ToggleFilterChip(value: string)
      modifies this
      ensures activeFilters == ToggleFilter(old(activeFilters), value)
      ensures locations == old(locations)
    {
      activeFilters := ToggleFilter(activeFilters, value);
    }

    /** Flips the bookmark; the toast title says what the press did, read from the state before it. */
    method ToggleSave(id: string) returns (title: string)
      modifies this
      ensures locations == ToggleSaved(old(locations), id)
      ensures activeFilters == old(activeFilters)
      ensures title == "Removed from saved" || title == "Saved location"
      ensures title == "Removed from saved" <==>
                exists i :: 0 <= i < |old(locations)| && old(locations)[i].id == id && old(locations)[i].saved &&
                            forall j :: 0 <= j < i ==> old(locations)[j].id != id
    {
      var k := FirstId(locations, id);
      title := if k < |locations| && locations[k].saved then "Removed from saved" else "Saved location";
      locations := ToggleSaved(locations, id);
    }
  }

  /** The index `find` stops at, or the length when no location has the id. */
  function FirstId(locations: seq<Location>, id: string): (k: nat)
    ensures k <= |locations|
    ensures k < |locations| ==> locations[k].id == id
    ensures forall j :: 0 <= j < k ==> locations[j].id != id
  {
    if locations == [] then 0
    else if locations[0].id == id then 0
    else 1 + FirstId(locations[1..], id)
  }
}
