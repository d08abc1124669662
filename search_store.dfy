/** The search state of src/store/searchStore.ts: the query text, whether it
    searches medicines or pharmacies, and the user's location if known. */
module SearchStore {
  import opened Common

  datatype SearchType = Medicine | Pharmacy

  datatype Location = Location(latitude: real, longitude: real)

  datatype State = State(query: string, searchType: SearchType, userLocation: Option<Location>)

  const Initial: State := State("", Medicine, None)

  /** `clearSearch` resets the query and the type but keeps the location. */
  function ClearNext(s: State): (r: State)
    ensures r.query == "" && r.searchType == Medicine && r.userLocation == s.userLocation
  {
    s.(query := "", searchType := Medicine)
  }

  class SearchStore {
    var query: string
    var searchType: SearchType
    var userLocation: Option<Location>

    function Snapshot(): State reads this { State(query, searchType, userLocation) }

    constructor ()
      ensures Snapshot() == Initial
    {
      query, searchType, userLocation := "", Medicine, None;
    }

    method SetQuery(q: string)
      modifies this
      ensures Snapshot() == old(Snapshot()).(query := q)
    {
      query := q;
    }

    method SetSearchType(t: SearchType)
      modifies this
      ensures Snapshot() == old(Snapshot()).(searchType := t)
    {
      searchType := t;
    }

    method SetUserLocation(location: Option<Location>)
      modifies this
      ensures Snapshot() == old(Snapshot()).(userLocation := location)
    {
      userLocation := location;
    }

    method ClearSearch()
      modifies this
      ensures Snapshot() == ClearNext(old(Snapshot()))
    {
      query, searchType := "", Medicine;
    }
  }

  /** Clearing twice is clearing once, and clearing a fresh store gives the
      initial state. */
  lemma ClearIdempotent(s: State)
    ensures ClearNext(ClearNext(s)) == ClearNext(s)
    ensures s.userLocation.None? ==> ClearNext(s) == Initial
  {
  }
}
