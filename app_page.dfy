/** The home page's tab state: the tab index and the URL hash kept in step
    by the tab-change handler and the hash effect. */
module AppPage {
  import opened Wrappers

  /** The hash a tab change writes: only the three known tabs have one. */
  function HashForTab(index: int): (h: Option<string>)
    ensures h.Some? <==> 0 <= index <= 2
  {
    if index == 0 then Some("lineage")
    else if index == 1 then Some("query")
    else if index == 2 then Some("checks")
    else None
  }

  /** The tab the effect selects for a hash; an unknown hash selects the
      first tab. */
  function TabForHash(hash: string): (index: int)
    ensures 0 <= index <= 2
  {
    if hash == "lineage" then 0
    else if hash == "query" then 1
    else if hash == "checks" then 2
    else 0
  }

  /** A known tab's hash leads back to that tab. */
  lemma TabHashRoundTrip(index: int)
    requires 0 <= index <= 2
    ensures TabForHash(HashForTab(index).value) == index
  {
  }

  /** A hash leads to a tab whose hash is itself exactly when it is one of
      the three known hashes. */
  lemma HashTabRoundTrip(hash: string)
    ensures HashForTab(TabForHash(hash)) == Some(hash) <==> hash in {"lineage", "query", "checks"}
  {
  }

  /** The page state: the selected tab, the last hash the effect stored,
      and the browser's location hash. */
  datatype PageState = PageState(tabIndex: int, urlHash: string, locationHash: string)

  /** `handleTabsChange(index)` */
  function TabsChanged(s: PageState, index: int): (t: PageState)
    ensures t.tabIndex == index && t.urlHash == s.urlHash
    ensures t.locationHash == if HashForTab(index).Some? then HashForTab(index).value else s.locationHash
  {
    var h := HashForTab(index);
    PageState(index, s.urlHash, if h.Some? then h.value else s.locationHash)
  }

  /** One run of the hash effect: it stores the location hash and selects
      the hash's tab only when the hash equals the one stored before. */
  function EffectRan(s: PageState): (t: PageState)
    ensures t.urlHash == s.locationHash && t.locationHash == s.locationHash
    ensures t.tabIndex == if s.locationHash == s.urlHash then TabForHash(s.locationHash) else s.tabIndex
  {
    var hash := s.locationHash;
    if hash != s.urlHash then PageState(s.tabIndex, hash, s.locationHash)
    else PageState(TabForHash(hash), hash, s.locationHash)
  }

  /** After a change to a known tab, if the effect then runs twice (the
      first run stores the new hash, the second sees it unchanged), that
      tab stays selected and the page is at rest. The tab handler itself
      sets neither of the effect's dependencies, so whether the effect
      runs is up to the router. */
  lemma TabChangeSettles(s: PageState, index: int)
    requires 0 <= index <= 2
    ensures var t := EffectRan(EffectRan(TabsChanged(s, index)));
            && t.tabIndex == index
            && t.urlHash == HashForTab(index).value == t.locationHash
            && EffectRan(t) == t
  {
  }

  class Home {
    var tabIndex: int
    var urlHash: string
    var locationHash: string

    function State(): PageState
      reads this
    {
      PageState(tabIndex, urlHash, locationHash)
    }

    /** The first render: the hash state starts from the location hash and
        the first tab is selected. */
    constructor (initialHash: string)
      ensures State() == PageState(0, initialHash, initialHash)
    {
      tabIndex := 0;
      urlHash := initialHash;
      locationHash := initialHash;
    }

    method HandleTabsChange(index: int)
      modifies this
      ensures State() == TabsChanged(old(State()), index)
    {
      if index == 0 {
        locationHash := "lineage";
      } else if index == 1 {
        locationHash := "query";
      } else if index == 2 {
        locationHash := "checks";
      }
      tabIndex := index;
    }

    method SyncFromLocation()
      modifies this
      ensures State() == EffectRan(old(State()))
    {
      var hash := locationHash;
      var previous := urlHash;
      urlHash := hash;
      if hash != previous {
        return;
      }
      if hash == "lineage" {
        tabIndex := 0;
      } else if hash == "query" {
        tabIndex := 1;
      } else if hash == "checks" {
        tabIndex := 2;
      } else {
        tabIndex := 0;
      }
    }
  }
}
