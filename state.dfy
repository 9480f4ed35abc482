/**
 * Tab registry: tabs by id, the active tab, a monotone id counter and a
 * settings map (apps/desktop/src/state.rs).
 */
module State {
  import opened Wrappers
  import Text

  type TabId = nat

  /** What the shell knows about one open tab. */
  datatype TabState = TabState(
    id: TabId,
    url: string,
    title: string,
    canGoBack: bool,
    canGoForward: bool,
    isLoading: bool)
  {
    /** Replaces the url; the title is recomputed from it. Nothing else changes. */
    function SetUrl(newUrl: string): (t: TabState)
      ensures t.url == newUrl && t.title == ExtractTitle(newUrl)
      ensures t.id == id && t.canGoBack == canGoBack && t.canGoForward == canGoForward
      ensures t.isLoading == isLoading
    {
      this.(title := ExtractTitle(newUrl), url := newUrl)
    }

    /** Replaces the title. Nothing else changes. */
    function SetTitle(newTitle: string): (t: TabState)
      ensures t.title == newTitle
      ensures t.id == id && t.url == url && t.canGoBack == canGoBack
      ensures t.canGoForward == canGoForward && t.isLoading == isLoading
    {
      this.(title := newTitle)
    }
  }

  /** A fresh tab: title taken from the url, no navigation possible, not loading. */
  function NewTab(id: TabId, url: string): (t: TabState)
    ensures t.id == id && t.url == url && t.title == ExtractTitle(url)
    ensures !t.canGoBack && !t.canGoForward && !t.isLoading
  {
    TabState(id, url, ExtractTitle(url), false, false, false)
  }

  /**
   * The third '/'-separated piece of the url (the host of "scheme://host/..."),
   * or "New Tab" when the url has fewer than two '/'.
   */
  function ExtractTitle(url: string): string
  {
    var pieces := Text.Split(url, '/');
    if |pieces| > 2 then pieces[2] else "New Tab"
  }

  /** Fewer than two '/' in the url: the default title. */
  lemma ExtractTitleDefault(url: string)
    requires Text.Count(url, '/') < 2
    ensures ExtractTitle(url) == "New Tab"
  {
    Text.SplitShape(url, '/');
  }

  /**
   * A url made of '/'-free pieces joined by '/', with at least three pieces,
   * has its third piece as title; conversely any url with at least two '/'
   * is such a join and its title is a '/'-free piece of it.
   */
  lemma ExtractTitleThirdPiece(pieces: seq<string>)
    requires |pieces| >= 3 && Text.SeparatorFree(pieces, '/')
    ensures ExtractTitle(Text.Join(pieces, "/")) == pieces[2]
  {
    Text.SplitJoin(pieces, '/');
  }

  lemma ExtractTitleIsPiece(url: string)
    requires Text.Count(url, '/') >= 2
    ensures var pieces := Text.Split(url, '/');
      |pieces| >= 3 && Text.Join(pieces, "/") == url &&
      ExtractTitle(url) == pieces[2] && '/' !in ExtractTitle(url)
  {
    Text.SplitShape(url, '/');
    Text.JoinSplit(url, '/');
  }

  /** A url of the form scheme://host or scheme://host/path has its host as title. */
  lemma ExtractTitleOfHost(scheme: string, host: string, path: string)
    requires '/' !in scheme && '/' !in host
    requires path == [] || path[0] == '/'
    ensures ExtractTitle(scheme + "//" + host + path) == host
  {
    var url := scheme + "//" + host + path;
    assert url == scheme + ['/'] + ("" + ['/'] + (host + path));
    Text.SplitAfterPiece(scheme, '/', "" + ['/'] + (host + path));
    Text.SplitAfterPiece("", '/', host + path);
    if path == [] {
      assert host + path == host;
      Text.SplitOfFreePiece(host, '/');
    } else {
      assert host + path == host + ['/'] + path[1..];
      Text.SplitAfterPiece(host, '/', path[1..]);
    }
  }

  /*
   * The example urls below are parameters pinned by a `requires` written as
   * a concatenation of literal parts. Applying the recursive `Split` to one
   * literal string makes the solver unfold it character by character; the
   * literal parts instead match `ExtractTitleOfHost` directly.
   */

  /** "https://github.com" has title "github.com". */
  lemma ExtractTitleGithub(url: string)
    requires url == "https:" + "//" + "github.com"
    ensures ExtractTitle(url) == "github.com"
  {
    ExtractTitleOfHost("https:", "github.com", "");
    assert "https:" + "//" + "github.com" + "" == url;
  }

  /** "https://www.github.com/user/repo" has title "www.github.com". */
  lemma ExtractTitleWithPath(url: string)
    requires url == "https:" + "//" + "www.github.com" + "/user/repo"
    ensures ExtractTitle(url) == "www.github.com"
  {
    ExtractTitleOfHost("https:", "www.github.com", "/user/repo");
  }

  /** "http://localhost:3000" has title "localhost:3000". */
  lemma ExtractTitleWithPort(url: string)
    requires url == "http:" + "//" + "localhost:3000"
    ensures ExtractTitle(url) == "localhost:3000"
  {
    ExtractTitleOfHost("http:", "localhost:3000", "");
    assert "http:" + "//" + "localhost:3000" + "" == url;
  }

  /** The "Tab {id} not found" error of close_tab and switch_tab. */
  function NotFound(id: TabId): string
  {
    "Tab " + Text.NatToString(id) + " not found"
  }

  /** The error names the id: its middle part reads back as that id, so different ids give different errors. */
  lemma NotFoundNamesId(id: TabId)
    ensures var m := NotFound(id);
      |m| >= 15 && Text.IsDecimal(m[4..|m| - 10]) && Text.DecimalValue(m[4..|m| - 10]) == id
    ensures forall other: TabId :: NotFound(other) == NotFound(id) ==> other == id
  {
    var digits := Text.NatToString(id);
    var m := NotFound(id);
    assert m[4..|m| - 10] == digits;
    Text.DecimalOfNatToString(id);
    forall other: TabId | NotFound(other) == NotFound(id)
      ensures other == id
    {
      var d := Text.NatToString(other);
      assert NotFound(other)[4..|NotFound(other)| - 10] == d;
      Text.DecimalOfNatToString(other);
    }
  }

  class StateManager {
    var tabs: map<TabId, TabState>
    var activeTabId: Option<TabId>
    var nextTabId: TabId
    var settings: map<string, string>

    /**
     * The active id names an open tab, and there is one whenever a tab is
     * open; every tab is stored under its own id, below the next id.
     */
    ghost predicate Valid()
      reads this
    {
      && (activeTabId.Some? ==> activeTabId.value in tabs)
      && (activeTabId.None? ==> |tabs| == 0)
      && (forall id :: id in tabs ==> id < nextTabId && tabs[id].id == id)
    }

    constructor ()
      ensures Valid()
      ensures tabs == map[] && activeTabId == None && nextTabId == 0 && settings == map[]
    {
      tabs := map[];
      activeTabId := None;
      nextTabId := 0;
      settings := map[];
    }

    /**
     * Opens a tab under the next id and returns that id; the first tab
     * opened while none is active becomes active.
     */
    method CreateTab(url: string) returns (id: TabId)
      requires Valid()
      modifies this`tabs, this`activeTabId, this`nextTabId
      ensures Valid()
      ensures id == old(nextTabId) && nextTabId == id + 1
      ensures id !in old(tabs) && tabs == old(tabs)[id := NewTab(id, url)]
      ensures |tabs| == |old(tabs)| + 1
      ensures activeTabId == if old(activeTabId).None? then Some(id) else old(activeTabId)
    {
      id := nextTabId;
      nextTabId := nextTabId + 1;
      tabs := tabs[id := NewTab(id, url)];
      if activeTabId.None? {
        activeTabId := Some(id);
      }
    }

    /**
     * Closes a tab. Closing the active tab makes some remaining tab active
     * (which one is unspecified), or none when no tab remains.
     */
    method CloseTab(id: TabId) returns (r: Result<(), string>)
      requires Valid()
      modifies this`tabs, this`activeTabId
      ensures Valid()
      ensures id !in old(tabs) ==>
        r == Err(NotFound(id)) && tabs == old(tabs) && activeTabId == old(activeTabId)
      ensures id in old(tabs) ==> r == Ok(()) && tabs == old(tabs) - {id}
      ensures id in old(tabs) && old(activeTabId) == Some(id) ==>
        if |tabs| == 0 then activeTabId == None
        else activeTabId.Some? && activeTabId.value in tabs
      ensures old(activeTabId) != Some(id) ==> activeTabId == old(activeTabId)
    {
      if id !in tabs {
        return Err(NotFound(id));
      }
      tabs := tabs - {id};
      if activeTabId == Some(id) {
        if |tabs| == 0 {
          activeTabId := None;
        } else {
          var next :| next in tabs;
          activeTabId := Some(next);
        }
      }
      r := Ok(());
    }

    /** Makes an open tab active. */
    method SwitchTab(id: TabId) returns (r: Result<(), string>)
      requires Valid()
      modifies this`activeTabId
      ensures Valid()
      ensures id !in tabs ==> r == Err(NotFound(id)) && activeTabId == old(activeTabId)
      ensures id in tabs ==> r == Ok(()) && activeTabId == Some(id)
    {
      if id !in tabs {
        return Err(NotFound(id));
      }
      activeTabId := Some(id);
      r := Ok(());
    }

    function GetActiveTab(): (t: Option<TabState>)
      reads this
      ensures Valid() ==> (t.Some? <==> |tabs| > 0)
      ensures t.Some? ==>
        activeTabId.Some? && activeTabId.value in tabs && t.value == tabs[activeTabId.value]
    {
      match activeTabId
      case None => None
      case Some(id) => if id in tabs then Some(tabs[id]) else None
    }

    function GetTab(id: TabId): (t: Option<TabState>)
      reads this
      ensures t.Some? <==> id in tabs
      ensures t.Some? ==> t.value == tabs[id]
      ensures Valid() && t.Some? ==> t.value.id == id && id < nextTabId
    {
      if id in tabs then Some(tabs[id]) else None
    }

    function TabCount(): (n: nat)
      reads this
      ensures n == |tabs|
      ensures Valid() ==> (n == 0 <==> activeTabId.None?)
    {
      |tabs|
    }

    function ActiveTabId(): (id: Option<TabId>)
      reads this
      ensures Valid() && id.Some? ==> id.value in tabs
    {
      activeTabId
    }

    /** Retitles a tab; a missing id is silently ignored. */
    method UpdateTabTitle(id: TabId, title: string)
      requires Valid()
      modifies this`tabs
      ensures Valid()
      ensures tabs == if id in old(tabs) then old(tabs)[id := old(tabs)[id].SetTitle(title)]
                      else old(tabs)
    {
      if id in tabs {
        tabs := tabs[id := tabs[id].SetTitle(title)];
      }
    }

    /** Changes a tab's url (and with it its title); a missing id is silently ignored. */
    method UpdateTabUrl(id: TabId, url: string)
      requires Valid()
      modifies this`tabs
      ensures Valid()
      ensures tabs == if id in old(tabs) then old(tabs)[id := old(tabs)[id].SetUrl(url)]
                      else old(tabs)
    {
      if id in tabs {
        tabs := tabs[id := tabs[id].SetUrl(url)];
      }
    }

    /** Sets a tab's loading flag; a missing id is silently ignored. */
    method SetTabLoading(id: TabId, loading: bool)
      requires Valid()
      modifies this`tabs
      ensures Valid()
      ensures tabs == if id in old(tabs) then old(tabs)[id := old(tabs)[id].(isLoading := loading)]
                      else old(tabs)
    {
      if id in tabs {
        tabs := tabs[id := tabs[id].(isLoading := loading)];
      }
    }

    /** Sets a tab's back/forward flags; a missing id is silently ignored. */
    method SetTabNavState(id: TabId, canGoBack: bool, canGoForward: bool)
      requires Valid()
      modifies this`tabs
      ensures Valid()
      ensures tabs == if id in old(tabs)
                      then old(tabs)[id := old(tabs)[id].(canGoBack := canGoBack, canGoForward := canGoForward)]
                      else old(tabs)
    {
      if id in tabs {
        tabs := tabs[id := tabs[id].(canGoBack := canGoBack, canGoForward := canGoForward)];
      }
    }

    function GetSetting(key: string): (value: Option<string>)
      reads this
      ensures value.Some? <==> key in settings
      ensures value.Some? ==> value.value == settings[key]
    {
      if key in settings then Some(settings[key]) else None
    }

    /** Stores a setting; reading it back yields the last value written. */
    method SetSetting(key: string, value: string)
      requires Valid()
      modifies this`settings
      ensures Valid()
      ensures settings == old(settings)[key := value]
      ensures GetSetting(key) == Some(value)
      ensures forall k :: k != key ==> GetSetting(k) == old(GetSetting(k))
    {
      settings := settings[key := value];
    }
  }

  /** A setting reads back as the last value written to its key; an unset key reads as absent. */
  method SettingsRoundTrip(key: string, first: string, second: string, other: string)
    returns (s: StateManager, afterFirst: Option<string>, afterSecond: Option<string>, unset: Option<string>)
    requires other != key
    ensures afterFirst == Some(first) && afterSecond == Some(second) && unset == None
  {
    s := new StateManager();
    s.SetSetting(key, first);
    afterFirst := s.GetSetting(key);
    s.SetSetting(key, second);
    afterSecond := s.GetSetting(key);
    unset := s.GetSetting(other);
  }

  /** Ids come out as 0, 1, 2 and the first tab stays active. */
  method CreateThreeTabs(url1: string, url2: string, url3: string)
    returns (s: StateManager, a: TabId, b: TabId, c: TabId)
    ensures s.Valid()
    ensures a == 0 && b == 1 && c == 2 && s.TabCount() == 3
    ensures s.ActiveTabId() == Some(0)
  {
    s := new StateManager();
    a := s.CreateTab(url1);
    b := s.CreateTab(url2);
    c := s.CreateTab(url3);
  }

  /** With two tabs, closing the active one makes the other active. */
  method CloseActiveOfTwo(url1: string, url2: string) returns (s: StateManager, a: TabId, b: TabId)
    ensures s.Valid()
    ensures s.TabCount() == 1 && s.GetTab(a).None? && s.GetTab(b).Some?
    ensures s.ActiveTabId() == Some(b)
  {
    s := new StateManager();
    a := s.CreateTab(url1);
    b := s.CreateTab(url2);
    assert a == 0 && b == 1 && s.tabs.Keys == {0, 1};
    var r := s.SwitchTab(a);
    assert s.activeTabId == Some(0);
    r := s.CloseTab(a);
    assert s.tabs.Keys == {1};
    assert |s.tabs| == 1;
  }

  /** Changing a tab's url retitles it from the new url. */
  method UpdateUrlRetitles(firstUrl: string, url: string) returns (s: StateManager, id: TabId)
    requires url == "https:" + "//" + "github.com"
    ensures s.Valid()
    ensures s.GetTab(id) == Some(TabState(id, url, "github.com", false, false, false))
  {
    s := new StateManager();
    id := s.CreateTab(firstUrl);
    s.UpdateTabUrl(id, url);
    ExtractTitleGithub(url);
  }
}
