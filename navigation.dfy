/** Single-page navigation: which page sections a page id shows, the
    placeholder title, the nav-link highlight and the history entries pushed,
    with the initial hash and `popstate` handling of the three scripts. */
module Navigation {
  import opened Wrappers
  import Renderer

  const KnownPages: set<string> := {"home", "services", "work", "contact", "architect", "open_source", "blog"}

  const AllSections: set<string> :=
    {"section-hero", "section-services", "section-work", "section-contact", "section-architect", "section-placeholder"}

  /** The `sectionMap` object literal of the two `custom.js` scripts. */
  const SectionTable: map<string, seq<string>> := map[
    "home" := ["section-hero", "section-services", "section-work"],
    "services" := ["section-services"],
    "work" := ["section-work"],
    "contact" := ["section-contact"],
    "architect" := ["section-architect"],
    "open_source" := ["section-placeholder"],
    "blog" := ["section-placeholder"]
  ]

  /** Names every plain JavaScript object inherits from `Object.prototype`. */
  const PrototypeNames: set<string> := {
    "constructor", "hasOwnProperty", "isPrototypeOf", "propertyIsEnumerable",
    "toLocaleString", "toString", "valueOf", "__proto__",
    "__defineGetter__", "__defineSetter__", "__lookupGetter__", "__lookupSetter__"
  }

  /** `sectionMap[pageId] || []` followed by `.forEach`, as written: an
      inherited member is a truthy function or object without `forEach`, so
      the call throws (`None`). */
  function SectionLookupAsWritten(page: string): (r: Option<seq<string>>)
    ensures r.None? <==> page in PrototypeNames
    ensures page in KnownPages ==> r == Some(SectionTable[page])
  {
    if page in SectionTable then Some(SectionTable[page])
    else if page in PrototypeNames then None
    else Some([])
  }

  /** A URL such as `#toString` makes the initial navigation throw. */
  lemma PrototypeHashThrows()
    ensures SectionLookupAsWritten("toString") == None
    ensures SectionLookupAsWritten("constructor") == None
  {}

  /** The lookup evidently intended, and used by the rest of this model:
      only the table's own entries show sections; any other id shows none. */
  function SectionMap(page: string): (s: seq<string>)
    ensures page in KnownPages ==> s == SectionTable[page]
    ensures page !in KnownPages ==> s == []
  {
    if page in SectionTable then SectionTable[page] else []
  }

  /** Outside the inherited names the as-written lookup is the intended one. */
  lemma AsWrittenAgreesElsewhere(page: string)
    requires page !in PrototypeNames
    ensures SectionLookupAsWritten(page) == Some(SectionMap(page))
  {}

  /** The if-chain of `navigateToImpl` in `main.js`. */
  function MainSections(page: string): seq<string> {
    if page == "home" then ["section-hero", "section-services", "section-work"]
    else if page == "services" then ["section-services"]
    else if page == "work" then ["section-work"]
    else if page == "contact" then ["section-contact"]
    else if page == "architect" then ["section-architect"]
    else if page == "open_source" then ["section-placeholder"]
    else if page == "blog" then ["section-placeholder"]
    else []
  }

  /** `main.js`'s if-chain and the corrected table show the same sections
      for every page id, known or not. */
  lemma MainAgreesWithTable(page: string)
    ensures MainSections(page) == SectionMap(page)
  {
    if page !in KnownPages {
      assert page !in SectionTable;
    }
  }

  /** A page shows something exactly when it is known, and only real sections. */
  lemma SectionsShown(page: string)
    ensures SectionMap(page) != [] <==> page in KnownPages
    ensures forall i :: 0 <= i < |SectionMap(page)| ==> SectionMap(page)[i] in AllSections
  {
    if page !in KnownPages {
      assert page !in SectionTable;
    }
  }

  /** The home page shows the hero, services and work sections, and every
      section but the placeholder belongs to home or to a page of its own. */
  lemma HomeShowsThree()
    ensures SectionMap("home") == ["section-hero", "section-services", "section-work"]
    ensures SectionMap("services") == ["section-services"] && SectionMap("work") == ["section-work"]
  {}

  /** The placeholder title written for a page, if any. */
  function PlaceholderTitle(page: string): (t: Option<string>)
    ensures t.Some? <==> page == "open_source" || page == "blog"
  {
    if page == "open_source" then Some("Open Source Initiatives")
    else if page == "blog" then Some("Engineering Blog")
    else None
  }

  /** The title is written exactly for the pages that show the placeholder. */
  lemma TitleIffPlaceholder(page: string)
    ensures PlaceholderTitle(page).Some? <==> "section-placeholder" in SectionMap(page)
  {
    if page !in KnownPages {
      assert page !in SectionTable;
    }
  }

  function SetOf(s: seq<string>): (r: set<string>)
    ensures forall x :: x in r <==> x in s
  {
    set x | x in s
  }

  /** The page state: `state.currentPage`, the URL fragment (without its
      `#`), the pushed history entries, the sections marked `active`, the
      highlighted nav link and the placeholder title. `links` are the page
      ids that have a `.nav-link`. */
  class Site {
    const links: set<string>
    var currentPage: string
    var location: string
    var history: seq<string>
    var active: set<string>
    var highlighted: Option<string>
    var placeholderTitle: Option<string>

    /** A fresh page load at the URL whose fragment is `initialHash`. */
    constructor (navLinks: set<string>, initialHash: string)
      ensures links == navLinks && currentPage == "home" && location == initialHash
      ensures history == [] && active == {} && highlighted == None && placeholderTitle == None
    {
      links := navLinks;
      currentPage := "home";
      location := initialHash;
      history := [];
      active := {};
      highlighted := None;
      placeholderTitle := None;
    }

    /** `navigateTo(pageId, pushState)`: record the page, push `#pageId`
        when asked (which also makes it the URL fragment), show exactly the
        page's sections, highlight its link if it has one, and write the
        placeholder title for the placeholder pages. */
    method Navigate(page: string, pushState: bool)
      modifies this
      ensures currentPage == page
      ensures location == (if pushState then page else old(location))
      ensures history == old(history) + (if pushState then ["#" + page] else [])
      ensures active == SetOf(SectionMap(page))
      ensures highlighted == (if page in links then Some(page) else None)
      ensures placeholderTitle == (if PlaceholderTitle(page).Some? then PlaceholderTitle(page) else old(placeholderTitle))
    {
      currentPage := page;
      if pushState {
        history := history + ["#" + page];
        location := page;
      }
      var sections := SectionMap(page);
      var shown: set<string> := {};
      var i := 0;
      while i < |sections|
        invariant 0 <= i <= |sections|
        invariant shown == SetOf(sections[..i])
      {
        assert sections[..i + 1] == sections[..i] + [sections[i]];
        shown := shown + {sections[i]};
        i := i + 1;
      }
      assert sections[..|sections|] == sections;
      active := shown;
      highlighted := if page in links then Some(page) else None;
      var title := PlaceholderTitle(page);
      if title.Some? {
        placeholderTitle := title;
      }
    }

    /** `navigateTo` of the `custom.js` script under `source/`: the same,
        then the guarded wave set-up when it lands on home. */
    method NavigateWithWave(page: string, pushState: bool, setup: Renderer.WaveSetup, canvasFound: bool)
      returns (started: bool)
      requires setup.Valid()
      modifies this, setup
      ensures currentPage == page && active == SetOf(SectionMap(page))
      ensures location == (if pushState then page else old(location))
      ensures history == old(history) + (if pushState then ["#" + page] else [])
      ensures highlighted == (if page in links then Some(page) else None)
      ensures placeholderTitle == (if PlaceholderTitle(page).Some? then PlaceholderTitle(page) else old(placeholderTitle))
      ensures setup.Valid()
      ensures page != "home" ==>
        (!started && setup.initialized == old(setup.initialized) && setup.loopsStarted == old(setup.loopsStarted))
      ensures page == "home" ==>
        (setup.initialized && (started <==> !old(setup.initialized) && canvasFound)
         && setup.loopsStarted == old(setup.loopsStarted) + (if started then 1 else 0))
    {
      Navigate(page, pushState);
      started := false;
      if page == "home" {
        started := setup.Setup(canvasFound);
      }
    }

    /** Initial load in the reduced `custom.js`: the fragment, or home when
        it is empty, without a history entry. */
    method LoadFromHash()
      modifies this
      ensures var page := if old(location) == "" then "home" else old(location);
        currentPage == page && active == SetOf(SectionMap(page))
        && highlighted == (if page in links then Some(page) else None)
        && placeholderTitle == (if PlaceholderTitle(page).Some? then PlaceholderTitle(page) else old(placeholderTitle))
      ensures location == old(location) && history == old(history)
    {
      Navigate(if location == "" then "home" else location, false);
    }

    /** Initial load in the `custom.js` under `source/`: the same through
        its `navigateTo`, so a load that lands on home is the one that runs
        the guarded wave set-up for the first time. */
    method LoadFromHashWithWave(setup: Renderer.WaveSetup, canvasFound: bool) returns (started: bool)
      requires setup.Valid()
      modifies this, setup
      ensures var page := if old(location) == "" then "home" else old(location);
        currentPage == page && active == SetOf(SectionMap(page))
        && highlighted == (if page in links then Some(page) else None)
        && placeholderTitle == (if PlaceholderTitle(page).Some? then PlaceholderTitle(page) else old(placeholderTitle))
        && (page != "home" ==>
              !started && setup.initialized == old(setup.initialized) && setup.loopsStarted == old(setup.loopsStarted))
        && (page == "home" ==>
              setup.initialized && (started <==> !old(setup.initialized) && canvasFound)
              && setup.loopsStarted == old(setup.loopsStarted) + (if started then 1 else 0))
      ensures location == old(location) && history == old(history)
      ensures setup.Valid()
    {
      started := NavigateWithWave(if location == "" then "home" else location, false, setup, canvasFound);
    }

    /** Initial load in `main.js`, as written: `navigateTo('home')` pushes
        `#home`, which replaces the fragment, so the hash read afterwards is
        always `home` and the page the URL named is lost. */
    method LoadMain()
      modifies this
      ensures currentPage == "home" && location == "home"
      ensures history == old(history) + ["#home"]
      ensures active == SetOf(SectionMap("home"))
      ensures highlighted == (if "home" in links then Some("home") else None)
      ensures placeholderTitle == old(placeholderTitle)
    {
      Navigate("home", true);
      assert "#" + "home" == "#home";
      var hash := location;
      if hash != "" {
        Navigate(hash, false);
      }
    }

    /** The initial load evidently intended in `main.js`: the fragment is
        read first and the page it names (`home` when there is none) is
        shown and pushed once, so a deep link shows its page and the
        history gains one entry for it. */
    method LoadMainIntended()
      modifies this
      ensures var page := if old(location) == "" then "home" else old(location);
        currentPage == page && active == SetOf(SectionMap(page))
        && highlighted == (if page in links then Some(page) else None)
        && placeholderTitle == (if PlaceholderTitle(page).Some? then PlaceholderTitle(page) else old(placeholderTitle))
        && location == page && history == old(history) + ["#" + page]
    {
      var page := if location == "" then "home" else location;
      Navigate(page, true);
    }

    /** The `popstate` handler of `main.js` and the reduced `custom.js`: an
        entry carrying a non-empty page is shown without pushing; anything
        else is ignored. */
    method Popstate(entryPage: Option<string>)
      modifies this
      ensures history == old(history) && location == old(location)
      ensures entryPage.Some? && entryPage.value != "" ==>
        var page := entryPage.value;
        currentPage == page && active == SetOf(SectionMap(page))
        && highlighted == (if page in links then Some(page) else None)
        && placeholderTitle == (if PlaceholderTitle(page).Some? then PlaceholderTitle(page) else old(placeholderTitle))
      ensures !(entryPage.Some? && entryPage.value != "") ==>
        currentPage == old(currentPage) && active == old(active)
        && highlighted == old(highlighted) && placeholderTitle == old(placeholderTitle)
    {
      if entryPage.Some? && entryPage.value != "" {
        Navigate(entryPage.value, false);
      }
    }

    /** The `popstate` handler of the `custom.js` under `source/`, whose
        `navigateTo` also runs the guarded wave set-up on home. */
    method PopstateWithWave(entryPage: Option<string>, setup: Renderer.WaveSetup, canvasFound: bool)
      returns (started: bool)
      requires setup.Valid()
      modifies this, setup
      ensures history == old(history) && location == old(location) && setup.Valid()
      ensures entryPage.Some? && entryPage.value != "" ==>
        var page := entryPage.value;
        currentPage == page && active == SetOf(SectionMap(page))
        && highlighted == (if page in links then Some(page) else None)
        && placeholderTitle == (if PlaceholderTitle(page).Some? then PlaceholderTitle(page) else old(placeholderTitle))
        && (started <==> page == "home" && !old(setup.initialized) && canvasFound)
        && setup.initialized == (old(setup.initialized) || page == "home")
      ensures !(entryPage.Some? && entryPage.value != "") ==>
        !started && currentPage == old(currentPage) && active == old(active)
        && highlighted == old(highlighted) && placeholderTitle == old(placeholderTitle)
        && setup.initialized == old(setup.initialized)
      ensures setup.loopsStarted == old(setup.loopsStarted) + (if started then 1 else 0)
    {
      started := false;
      if entryPage.Some? && entryPage.value != "" {
        started := NavigateWithWave(entryPage.value, false, setup, canvasFound);
      }
    }
  }

  /** A visit to `#contact` on `main.js` ends on home as written, and on the
      contact page as intended. */
  method MainDeepLink(navLinks: set<string>) returns (asWritten: string, intended: string)
    ensures asWritten == "home" && intended == "contact"
  {
    var site := new Site(navLinks, "contact");
    site.LoadMain();
    asWritten := site.currentPage;
    var other := new Site(navLinks, "contact");
    other.LoadMainIntended();
    intended := other.currentPage;
  }
}
