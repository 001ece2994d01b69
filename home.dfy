/** The home page: the welcome / release-notes modal decision, the wallpaper load
    and its fallback chain, the `wallpaperChanged` and `openWidgetsSettings`
    handlers, the page toggle, the CSS direction rewrite of a gradient wallpaper
    and the widget row of the content section. */
module Home {
  import opened Js
  import ClockDisplay

  const WelcomeKey := "showWelcomeModal"
  const LastVersionKey := "lastVersion"
  const WallpaperKey := "wallpaper"

  /** The wallpaper used when nothing is stored and no random wallpaper is available. */
  const DefaultGradient: JsValue := Obj(map[
    "id" := Str("gradient-a1c4fd-c2e9fb"),
    "type" := Str("GRADIENT"),
    "src" := Str(""),
    "isRetouchEnabled" := Bool(false),
    "gradient" := Obj(map["from" := Str("#a1c4fd"), "to" := Str("#c2e9fb"), "direction" := Str("to-r")])])

  /** The stored form of a random wallpaper: its id, type, source and gradient, with retouching off. */
  function FromRandom(random: JsValue): (w: JsValue)
    ensures Truthy(w) && Field(w, "isRetouchEnabled") == Bool(false)
    ensures forall k :: k in {"id", "type", "src", "gradient"} ==> Field(w, k) == Field(random, k)
  {
    Obj(map[
      "id" := Field(random, "id"),
      "type" := Field(random, "type"),
      "src" := Field(random, "src"),
      "isRetouchEnabled" := Bool(false),
      "gradient" := Field(random, "gradient")])
  }

  datatype Page = HomePageView | WigiPageView

  /** The page's state. `lastApplied` is the wallpaper last handed to
      `changeWallpaper` (Null before any); `Paint` says what the body then shows. */
  datatype HomeState = HomeState(
    showWelcomeModal: bool,
    showReleaseNotes: bool,
    page: Page,
    showWidgetSettings: bool,
    tab: JsValue,
    lastApplied: JsValue,
    store: Store,
    mounted: bool)

  function Mount(store: Store): HomeState
  {
    HomeState(false, false, HomePageView, false, Null, Null, store, true)
  }

  /** Completion of `displayModalIfNeeded`: the welcome modal when the stored flag is
      truthy or exactly null, otherwise the release notes when the stored version is
      not the running one. State updates after unmount are dropped. */
  function ModalsDecided(h: HomeState, version: string): HomeState
  {
    var shouldShowWelcome := Read(h.store, WelcomeKey);
    if !h.mounted then h
    else if Truthy(shouldShowWelcome) || shouldShowWelcome == Null then h.(showWelcomeModal := true)
    else if Read(h.store, LastVersionKey) != Str(version) then h.(showReleaseNotes := true)
    else h
  }

  /** `handleGetStarted` */
  function GotStarted(h: HomeState): HomeState
  {
    h.(store := h.store[WelcomeKey := Bool(false)], showWelcomeModal := false)
  }

  /** `onCloseReleaseNotes` */
  function ReleaseNotesClosed(h: HomeState, version: string): HomeState
  {
    h.(store := h.store[LastVersionKey := Str(version)], showReleaseNotes := false)
  }

  /** Completion of `loadWallpaper`, given what the random-wallpaper lookup returns.
      Neither the document change nor the store write depends on being mounted. */
  function WallpaperLoaded(h: HomeState, random: JsValue): HomeState
  {
    var stored := Read(h.store, WallpaperKey);
    if Truthy(stored) then h.(lastApplied := stored)
    else if Truthy(random) then
      var w := FromRandom(random);
      h.(lastApplied := w, store := h.store[WallpaperKey := w])
    else h.(lastApplied := DefaultGradient, store := h.store[WallpaperKey := DefaultGradient])
  }

  /** Delivery of `wallpaperChanged` (to a live subscription only). */
  function WallpaperChanged(h: HomeState, w: JsValue): HomeState
  {
    if !h.mounted || !Truthy(w) then h
    else h.(lastApplied := w, store := h.store[WallpaperKey := w])
  }

  /** Delivery of `openWidgetsSettings` (to a live subscription only). */
  function SettingsOpened(h: HomeState, data: map<string, JsValue>): HomeState
  {
    if !h.mounted then h
    else
      var tab := Get(data, "tab");
      h.(showWidgetSettings := true, tab := if Truthy(tab) then tab else h.tab)
  }

  /** The settings modal's `onClose` */
  function SettingsClosed(h: HomeState): HomeState
  {
    h.(showWidgetSettings := false, tab := Null)
  }

  /** The page toggle in the corner */
  function PageToggled(h: HomeState): HomeState
  {
    h.(page := if h.page == HomePageView then WigiPageView else HomePageView)
  }

  function Unmounted(h: HomeState): HomeState
  {
    h.(mounted := false)
  }

  class HomePage {
    var showWelcomeModal: bool
    var showReleaseNotes: bool
    var page: Page
    var showWidgetSettings: bool
    var tab: JsValue
    var lastApplied: JsValue
    var store: Store
    var mounted: bool
    /** `ConfigKey.VERSION_NAME` */
    const versionName: string

    function State(): HomeState
      reads this
    {
      HomeState(showWelcomeModal, showReleaseNotes, page, showWidgetSettings, tab, lastApplied, store, mounted)
    }

    constructor (store: Store, versionName: string)
      ensures State() == Mount(store) && this.versionName == versionName
    {
      showWelcomeModal := false;
      showReleaseNotes := false;
      page := HomePageView;
      showWidgetSettings := false;
      tab := Null;
      lastApplied := Null;
      this.store := store;
      mounted := true;
      this.versionName := versionName;
    }

    method DisplayModalIfNeeded()
      modifies this
      ensures State() == ModalsDecided(old(State()), versionName)
    {
      var shouldShowWelcome := Read(store, WelcomeKey);
      if Truthy(shouldShowWelcome) || shouldShowWelcome == Null {
        if mounted {
          showWelcomeModal := true;
        }
        return;
      }
      var lastVersion := Read(store, LastVersionKey);
      if lastVersion != Str(versionName) && mounted {
        showReleaseNotes := true;
      }
    }

    method HandleGetStarted()
      modifies this
      ensures State() == GotStarted(old(State()))
    {
      store := store[WelcomeKey := Bool(false)];
      showWelcomeModal := false;
    }

    method OnCloseReleaseNotes()
      modifies this
      ensures State() == ReleaseNotesClosed(old(State()), versionName)
    {
      store := store[LastVersionKey := Str(versionName)];
      showReleaseNotes := false;
    }

    /** The welcome modal's `onClose` builds `handleGetStarted` and drops it uncalled. */
    method WelcomeModalOnClose()
      ensures State() == old(State())
    {
    }

    /** `changeWallpaper`, reduced to the wallpaper it was handed; what it draws is `Paint`. */
    method ChangeWallpaper(w: JsValue)
      modifies this
      ensures State() == old(State()).(lastApplied := w)
    {
      lastApplied := w;
    }

    method LoadWallpaper(random: JsValue)
      modifies this
      ensures State() == WallpaperLoaded(old(State()), random)
    {
      var wallpaper := Read(store, WallpaperKey);
      if Truthy(wallpaper) {
        ChangeWallpaper(wallpaper);
      } else if Truthy(random) {
        var defWallpaper := FromRandom(random);
        ChangeWallpaper(defWallpaper);
        store := store[WallpaperKey := defWallpaper];
      } else {
        ChangeWallpaper(DefaultGradient);
        store := store[WallpaperKey := DefaultGradient];
      }
    }

    method OnWallpaperChanged(w: JsValue)
      modifies this
      ensures State() == WallpaperChanged(old(State()), w)
    {
      if mounted && Truthy(w) {
        ChangeWallpaper(w);
        store := store[WallpaperKey := w];
      }
    }

    method OnOpenWidgetsSettings(data: map<string, JsValue>)
      modifies this
      ensures State() == SettingsOpened(old(State()), data)
    {
      if mounted {
        showWidgetSettings := true;
        if Truthy(Get(data, "tab")) {
          tab := Get(data, "tab");
        }
      }
    }

    method CloseWidgetSettings()
      modifies this
      ensures State() == SettingsClosed(old(State()))
    {
      showWidgetSettings := false;
      tab := Null;
    }

    method TogglePage()
      modifies this
      ensures State() == PageToggled(old(State()))
    {
      page := if page == HomePageView then WigiPageView else HomePageView;
    }

    method Unmount()
      modifies this
      ensures State() == Unmounted(old(State()))
    {
      mounted := false;
    }
  }

  // ---------------------------------------------------------------------------
  // The CSS direction of a gradient wallpaper

  /** The eight `replace` calls of `changeWallpaper`, in the order they are applied. */
  const DirectionRules: seq<(string, string)> := [
    ("to-r", "to right"),
    ("to-l", "to left"),
    ("to-t", "to top"),
    ("to-b", "to bottom"),
    ("to-tr", "to top right"),
    ("to-tl", "to top left"),
    ("to-br", "to bottom right"),
    ("to-bl", "to bottom left")]

  /** Apply each rule to the result of the previous one, first occurrence only. */
  function ApplyRules(s: string, rules: seq<(string, string)>): string
    decreases |rules|
  {
    if rules == [] then s else ApplyRules(ReplaceFirst(s, rules[0].0, rules[0].1), rules[1..])
  }

  function CssDirection(direction: string): string
  {
    ApplyRules(direction, DirectionRules)
  }

  /** Rules whose patterns all contain '-' leave a string without '-' unchanged. */
  lemma {:induction false} ApplyRulesWithoutDash(s: string, rules: seq<(string, string)>)
    requires '-' !in s
    requires forall i :: 0 <= i < |rules| ==> '-' in rules[i].0
    ensures ApplyRules(s, rules) == s
    decreases |rules|
  {
    if rules != [] {
      ReplaceFirstMissingChar(s, rules[0].0, rules[0].1, '-');
      ApplyRulesWithoutDash(s, rules[1..]);
    }
  }

  /** A direction with no '-' in it is passed through as it is. */
  lemma DirectionWithoutDash(direction: string)
    requires '-' !in direction
    ensures CssDirection(direction) == direction
  {
    ApplyRulesWithoutDash(direction, DirectionRules);
  }

  /** When the rules before the k-th change nothing and the k-th leaves no '-', the
      chain ends with what the k-th rule produced. */
  lemma {:induction false} FiresAt(s: string, rules: seq<(string, string)>, k: nat, out: string)
    requires k < |rules|
    requires forall i :: 0 <= i < k ==> ReplaceFirst(s, rules[i].0, rules[i].1) == s
    requires ReplaceFirst(s, rules[k].0, rules[k].1) == out && '-' !in out
    requires forall i :: k < i < |rules| ==> '-' in rules[i].0
    ensures ApplyRules(s, rules) == out
    decreases k
  {
    if k == 0 {
      ApplyRulesWithoutDash(out, rules[1..]);
    } else {
      FiresAt(s, rules[1..], k - 1, out);
    }
  }

  /** Every pattern of the chain contains '-'. */
  lemma RulePatternsHaveDash()
    ensures forall i :: 0 <= i < |DirectionRules| ==> '-' in DirectionRules[i].0
  {
  }

  /** The chain on `d` ends with what the k-th of the first four rules produces,
      when the rules before it change nothing and it leaves no '-'. */
  lemma RewrittenBy(d: string, k: nat, out: string)
    requires k < 4
    requires forall i :: 0 <= i < k ==> ReplaceFirst(d, DirectionRules[i].0, DirectionRules[i].1) == d
    requires ReplaceFirst(d, DirectionRules[k].0, DirectionRules[k].1) == out && '-' !in out
    ensures CssDirection(d) == out
  {
    RulePatternsHaveDash();
    FiresAt(d, DirectionRules, k, out);
  }

  lemma DirectionToRight(d: string)
    requires d == "to-r"
    ensures CssDirection(d) == "to right"
  {
    ReplaceFirstAt(d, "to-r", "to right", 0);
    RewrittenBy(d, 0, "to right");
  }

  lemma DirectionToLeft(d: string)
    requires d == "to-l"
    ensures CssDirection(d) == "to left"
  {
    NoMatchNear(d, "to-r", "to right", 3, 0);
    ReplaceFirstAt(d, "to-l", "to left", 0);
    RewrittenBy(d, 1, "to left");
  }

  lemma DirectionToTop(d: string)
    requires d == "to-t"
    ensures CssDirection(d) == "to top"
  {
    NoMatchNear(d, "to-r", "to right", 3, 0);
    NoMatchNear(d, "to-l", "to left", 3, 0);
    ReplaceFirstAt(d, "to-t", "to top", 0);
    RewrittenBy(d, 2, "to top");
  }

  lemma DirectionToBottom(d: string)
    requires d == "to-b"
    ensures CssDirection(d) == "to bottom"
  {
    NoMatchNear(d, "to-r", "to right", 3, 0);
    NoMatchNear(d, "to-l", "to left", 3, 0);
    NoMatchNear(d, "to-t", "to top", 3, 0);
    ReplaceFirstAt(d, "to-b", "to bottom", 0);
    RewrittenBy(d, 3, "to bottom");
  }

  /** The corner directions never reach their own rules: the `to-t` or `to-b` rule
      fires first and leaves the corner letter glued on. */
  lemma DirectionToTopRight(d: string)
    requires d == "to-tr"
    ensures CssDirection(d) == "to topr"
  {
    NoMatchNear(d, "to-r", "to right", 3, 0);
    NoMatchNear(d, "to-l", "to left", 3, 0);
    ReplaceFirstAt(d, "to-t", "to top", 0);
    RewrittenBy(d, 2, "to topr");
  }

  lemma DirectionToTopLeft(d: string)
    requires d == "to-tl"
    ensures CssDirection(d) == "to topl"
  {
    NoMatchNear(d, "to-r", "to right", 3, 0);
    NoMatchNear(d, "to-l", "to left", 3, 0);
    ReplaceFirstAt(d, "to-t", "to top", 0);
    RewrittenBy(d, 2, "to topl");
  }

  lemma DirectionToBottomRight(d: string)
    requires d == "to-br"
    ensures CssDirection(d) == "to bottomr"
  {
    NoMatchNear(d, "to-r", "to right", 3, 0);
    NoMatchNear(d, "to-l", "to left", 3, 0);
    NoMatchNear(d, "to-t", "to top", 3, 0);
    ReplaceFirstAt(d, "to-b", "to bottom", 0);
    RewrittenBy(d, 3, "to bottomr");
  }

  lemma DirectionToBottomLeft(d: string)
    requires d == "to-bl"
    ensures CssDirection(d) == "to bottoml"
  {
    NoMatchNear(d, "to-r", "to right", 3, 0);
    NoMatchNear(d, "to-l", "to left", 3, 0);
    NoMatchNear(d, "to-t", "to top", 3, 0);
    ReplaceFirstAt(d, "to-b", "to bottom", 0);
    RewrittenBy(d, 3, "to bottoml");
  }

  // ---------------------------------------------------------------------------
  // What `changeWallpaper` draws

  /** The body's background after `changeWallpaper`. Any earlier video is removed
      first. `Kept` is a wallpaper of none of the three types, or a GRADIENT without
      its `gradient`: nothing is drawn and the body's previous background stays.
      `Throws` is a gradient whose `direction` is not a string, on which `replace`
      fails. */
  datatype Backdrop =
    | ImageBackdrop(src: JsValue, retouched: bool)
    | GradientBackdrop(direction: string, from: JsValue, to: JsValue)
    | VideoBackdrop(src: JsValue, retouched: bool)
    | Kept
    | Throws

  function Paint(w: JsValue): Backdrop
  {
    var kind := Field(w, "type");
    var gradient := Field(w, "gradient");
    if kind == Str("IMAGE") then ImageBackdrop(Field(w, "src"), Truthy(Field(w, "isRetouchEnabled")))
    else if kind == Str("GRADIENT") && Truthy(gradient) then
      match Field(gradient, "direction")
      case Str(d) => GradientBackdrop(CssDirection(d), Field(gradient, "from"), Field(gradient, "to"))
      case _ => Throws
    else if kind == Str("VIDEO") then VideoBackdrop(Field(w, "src"), Truthy(Field(w, "isRetouchEnabled")))
    else Kept
  }

  /** A GRADIENT wallpaper with a string direction is drawn from its two colours in
      the direction the `replace` chain produces. */
  lemma PaintGradient(w: JsValue, d: string)
    requires Field(w, "type") == Str("GRADIENT")
    requires Field(Field(w, "gradient"), "direction") == Str(d)
    ensures Paint(w) == GradientBackdrop(CssDirection(d),
      Field(Field(w, "gradient"), "from"), Field(Field(w, "gradient"), "to"))
  {
  }

  /** The default gradient is drawn left to right from `#a1c4fd` to `#c2e9fb`. */
  lemma PaintDefaultGradient()
    ensures Paint(DefaultGradient) == GradientBackdrop("to right", Str("#a1c4fd"), Str("#c2e9fb"))
  {
    var g := Field(DefaultGradient, "gradient");
    assert Field(g, "direction") == Str("to-r");
    PaintGradient(DefaultGradient, "to-r");
    DirectionToRight("to-r");
  }

  /** The previous background stays exactly when the type is none of the three, or
      a GRADIENT comes without its `gradient`. */
  lemma PaintKeepsPrevious(w: JsValue)
    ensures Paint(w) == Kept <==>
      (Field(w, "type") !in {Str("IMAGE"), Str("GRADIENT"), Str("VIDEO")} ||
       (Field(w, "type") == Str("GRADIENT") && !Truthy(Field(w, "gradient"))))
  {
  }

  /** A random wallpaper is drawn as the random record is, with retouching off. */
  lemma PaintFromRandom(random: JsValue)
    ensures Paint(FromRandom(random)) ==
      if Paint(random).ImageBackdrop? || Paint(random).VideoBackdrop? then Paint(random).(retouched := false)
      else Paint(random)
  {
  }

  // ---------------------------------------------------------------------------
  // The widget row of the content section

  /** `getSortedWidgets().slice(0, 4)` */
  function HomeWidgets<W>(sorted: seq<W>): (shown: seq<W>)
    ensures |shown| == if |sorted| < 4 then |sorted| else 4
    ensures shown == sorted[..|shown|]
  {
    if |sorted| <= 4 then sorted else sorted[..4]
  }

  /** The row uses the flex layout iff exactly two widgets are shown, the grid otherwise. */
  predicate FlexLayout<W>(shown: seq<W>)
  {
    |shown| == 2
  }

  lemma LayoutChoice<W>(sorted: seq<W>)
    ensures FlexLayout(HomeWidgets(sorted)) <==> |sorted| == 2
  {
  }

  // ---------------------------------------------------------------------------
  // Properties of the page

  /** The welcome modal is shown iff the stored flag is truthy or exactly null, and
      then the stored version is not consulted. */
  lemma WelcomeRule(store: Store, version: string)
    ensures var w := Read(store, WelcomeKey);
      ModalsDecided(Mount(store), version).showWelcomeModal <==> Truthy(w) || w == Null
    ensures var w := Read(store, WelcomeKey);
      Truthy(w) || w == Null ==> ModalsDecided(Mount(store), version) == Mount(store).(showWelcomeModal := true)
  {
  }

  /** Otherwise the release notes are shown iff the stored version differs from the running one. */
  lemma ReleaseNotesRule(store: Store, version: string)
    requires var w := Read(store, WelcomeKey); !Truthy(w) && w != Null
    ensures !ModalsDecided(Mount(store), version).showWelcomeModal
    ensures ModalsDecided(Mount(store), version).showReleaseNotes <==> Read(store, LastVersionKey) != Str(version)
  {
  }

  /** After "get started", the next visit shows no welcome modal; after closing the
      release notes, the next visit shows neither modal. */
  lemma ModalsAreRemembered(h: HomeState, version: string)
    ensures !ModalsDecided(Mount(GotStarted(h).store), version).showWelcomeModal
    ensures var s := ReleaseNotesClosed(GotStarted(h), version).store;
      !ModalsDecided(Mount(s), version).showWelcomeModal && !ModalsDecided(Mount(s), version).showReleaseNotes
  {
  }

  /** The wallpaper chain: a stored wallpaper is shown and the store is untouched;
      otherwise the random one is shown and stored with retouching off; otherwise the
      default gradient is shown and stored. */
  lemma WallpaperChain(h: HomeState, random: JsValue)
    ensures var stored := Read(h.store, WallpaperKey);
      Truthy(stored) ==> WallpaperLoaded(h, random) == h.(lastApplied := stored)
    ensures var stored := Read(h.store, WallpaperKey);
      !Truthy(stored) && Truthy(random) ==>
        WallpaperLoaded(h, random).lastApplied == FromRandom(random) &&
        WallpaperLoaded(h, random).store == h.store[WallpaperKey := FromRandom(random)]
    ensures var stored := Read(h.store, WallpaperKey);
      !Truthy(stored) && !Truthy(random) ==>
        WallpaperLoaded(h, random).lastApplied == DefaultGradient &&
        WallpaperLoaded(h, random).store == h.store[WallpaperKey := DefaultGradient]
    ensures Truthy(WallpaperLoaded(h, random).lastApplied)
    ensures Read(WallpaperLoaded(h, random).store, WallpaperKey) == WallpaperLoaded(h, random).lastApplied
  {
  }

  /** The default gradient runs from #a1c4fd to #c2e9fb, towards `to-r` (drawn "to right"). */
  lemma DefaultGradientShown()
    ensures var g := Field(DefaultGradient, "gradient");
      Field(g, "from") == Str("#a1c4fd") && Field(g, "to") == Str("#c2e9fb") &&
      Field(g, "direction") == Str("to-r")
  {
  }

  /** A truthy `wallpaperChanged` payload is shown and stored; a falsy one is ignored. */
  lemma WallpaperEvent(h: HomeState, w: JsValue)
    requires h.mounted
    ensures Truthy(w) ==> WallpaperChanged(h, w) == h.(lastApplied := w, store := h.store[WallpaperKey := w])
    ensures !Truthy(w) ==> WallpaperChanged(h, w) == h
  {
  }

  /** `openWidgetsSettings` always opens the modal and changes the tab only to a truthy
      one; closing resets both. */
  lemma SettingsModal(h: HomeState, data: map<string, JsValue>)
    requires h.mounted
    ensures SettingsOpened(h, data).showWidgetSettings
    ensures SettingsOpened(h, data).tab == if Truthy(Get(data, "tab")) then Get(data, "tab") else h.tab
    ensures SettingsOpened(h, data).(showWidgetSettings := h.showWidgetSettings, tab := h.tab) == h
    ensures !SettingsClosed(SettingsOpened(h, data)).showWidgetSettings
    ensures SettingsClosed(SettingsOpened(h, data)).tab == Null
  {
  }

  /** The clock's settings button opens the settings modal on the WigiPad tab. */
  lemma ClockButtonOpensWigiPadTab(h: HomeState)
    requires h.mounted
    ensures SettingsOpened(h, ClockDisplay.SettingsRequest.payload).showWidgetSettings
    ensures SettingsOpened(h, ClockDisplay.SettingsRequest.payload).tab == Str("wigiPad")
  {
  }

  /** The toggle alternates between the two pages. */
  lemma PageToggleAlternates(h: HomeState)
    ensures PageToggled(h).page != h.page
    ensures PageToggled(PageToggled(h)) == h
  {
  }

  /** After unmount, events and a late modal decision change nothing; a late
      wallpaper load still changes the document and the store. */
  lemma UnmountedHandlers(h: HomeState, w: JsValue, data: map<string, JsValue>, version: string)
    ensures WallpaperChanged(Unmounted(h), w) == Unmounted(h)
    ensures SettingsOpened(Unmounted(h), data) == Unmounted(h)
    ensures ModalsDecided(Unmounted(h), version) == Unmounted(h)
    ensures !Truthy(Read(h.store, WallpaperKey)) ==> WallpaperLoaded(Unmounted(h), w).store != h.store
  {
  }
}
