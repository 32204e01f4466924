/** The location picker (src/components/MapSelector.tsx): a search box that
    filters four fixed locations by address, case-insensitively, and a
    dialog that closes once a location is chosen. The browser's geolocation
    call is left to its caller: the position it reports is a parameter. */
module MapSelector {
  import opened Collections
  import opened Strings

  datatype Location = Location(lat: real, lng: real, address: string)

  const MockLocations: seq<Location> := [
    Location(-12.0464, -77.0428, "Lima, Perú"),
    Location(-33.4489, -70.6693, "Santiago, Chile"),
    Location(-34.6037, -58.3816, "Buenos Aires, Argentina"),
    Location(4.7110, -74.0721, "Bogotá, Colombia")
  ]

  const CurrentLocationAddress := "Mi ubicación actual"

  /** The address contains the query, both lower-cased. */
  predicate Matches(query: string, location: Location)
  {
    Contains(ToLower(location.address), ToLower(query))
  }

  /** `filteredLocations`: the locations whose address matches the query, in
      their original order. */
  function FilteredLocations(query: string): (r: seq<Location>)
    ensures |r| <= |MockLocations|
    ensures forall i :: 0 <= i < |r| ==> r[i] in MockLocations && Matches(query, r[i])
    ensures forall i :: 0 <= i < |MockLocations| && Matches(query, MockLocations[i]) ==> MockLocations[i] in r
    ensures exists idx :: (PicksAt(idx, MockLocations, r) &&
      forall k :: 0 <= k < |MockLocations| ==> (k in idx <==> Matches(query, MockLocations[k])))
  {
    FilterInOrder(MockLocations, l => Matches(query, l));
    Filter(MockLocations, l => Matches(query, l))
  }

  /** An empty search lists all four locations. */
  lemma EmptyQueryListsAll()
    ensures FilteredLocations("") == MockLocations
  {
    forall l | l in MockLocations ensures Matches("", l) {
      ContainsEmpty(ToLower(l.address));
    }
    FilterKeepsAll(MockLocations, l => Matches("", l));
  }

  /** Queries that differ only in letter case list the same locations. */
  lemma CaseInsensitive(q1: string, q2: string)
    requires ToLower(q1) == ToLower(q2)
    ensures FilteredLocations(q1) == FilteredLocations(q2)
  {
    FilterAgree(MockLocations, l => Matches(q1, l), l => Matches(q2, l));
  }

  /** An address without the letter á cannot match a search for "Bogotá". */
  lemma AccentAbsentNoMatch(l: Location)
    requires 'á' !in l.address
    ensures !Matches("Bogotá", l)
  {
    NonLetterSource(l.address, 'á');
    assert ToLower("Bogotá")[5] == 'á';
    ContainsNeedsChar(ToLower(l.address), ToLower("Bogotá"), 5);
  }

  lemma BogotaMatches()
    ensures Matches("Bogotá", MockLocations[3])
  {
    var low := ToLower("Bogotá, Colombia");
    assert low[..6] == "bogotá";
    assert ToLower("Bogotá") == "bogotá";
    assert OccursAt(low, ToLower("Bogotá"), 0);
  }

  lemma OtherAddressesLackAccent()
    ensures 'á' !in "Lima, Perú"
    ensures 'á' !in "Santiago, Chile"
    ensures 'á' !in "Buenos Aires, Argentina"
  {
  }

  /** Of four elements, only the last passes `p`. */
  lemma FilterOnlyLast<T>(s: seq<T>, p: T -> bool)
    requires |s| == 4
    requires !p(s[0]) && !p(s[1]) && !p(s[2]) && p(s[3])
    ensures Filter(s, p) == [s[3]]
  {
    var s1, s2, s3 := s[1..], s[2..], s[3..];
    assert s1[1..] == s2 && s2[1..] == s3 && s3[1..] == [];
    FilterDrop(s, p);
    FilterDrop(s1, p);
    FilterDrop(s2, p);
    FilterKeep(s3, p);
  }

  /** Searching "Bogotá" finds only Bogotá: the accented letter occurs in no
      other address. */
  lemma AccentedSearch()
    ensures FilteredLocations("Bogotá") == [MockLocations[3]]
  {
    OtherAddressesLackAccent();
    AccentAbsentNoMatch(MockLocations[0]);
    AccentAbsentNoMatch(MockLocations[1]);
    AccentAbsentNoMatch(MockLocations[2]);
    BogotaMatches();
    FilterOnlyLast(MockLocations, l => Matches("Bogotá", l));
  }

  /** The picker's state: the search text and whether the dialog is open. */
  class MapSelectorState {
    var searchQuery: string
    var isOpen: bool

    constructor()
      ensures searchQuery == "" && !isOpen
    {
      searchQuery := "";
      isOpen := false;
    }

    /** The input's `onChange`. */
    method SetSearchQuery(query: string)
      modifies this
      ensures searchQuery == query && isOpen == old(isOpen)
    {
      searchQuery := query;
    }

    /** The dialog's `onOpenChange`. */
    method SetOpen(open: bool)
      modifies this
      ensures isOpen == open && searchQuery == old(searchQuery)
    {
      isOpen := open;
    }

    /** `handleLocationClick`: hands exactly the clicked location to
        `onLocationSelect` (the returned value) and closes the dialog. */
    method HandleLocationClick(location: Location) returns (selected: Location)
      modifies this
      ensures selected == location
      ensures !isOpen && searchQuery == old(searchQuery)
    {
      selected := location;
      isOpen := false;
    }

    /** The success callback of `handleCurrentLocation`: the reported position,
        under the address "Mi ubicación actual", selected as if clicked. */
    method HandleCurrentLocation(latitude: real, longitude: real) returns (selected: Location)
      modifies this
      ensures selected == Location(latitude, longitude, CurrentLocationAddress)
      ensures !isOpen && searchQuery == old(searchQuery)
    {
      selected := HandleLocationClick(Location(latitude, longitude, CurrentLocationAddress));
    }
  }
}
