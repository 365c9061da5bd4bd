/**
 * The application shell: one mounted panel at a time, whose cleanup runs
 * before the next panel is initialised, the mode navigation and the
 * keyboard shortcuts.
 */
module App {
  import opened Wrappers
  import Ui
  import Images
  import Audio
  import Poses

  /** The three panel initialisers. */
  datatype PanelKind = ImagesKind | AudioKind | PosesKind

  /** The mode string that names a panel. */
  function ModeName(kind: PanelKind): string {
    match kind
    case ImagesKind => "images"
    case AudioKind => "audio"
    case PosesKind => "poses"
  }

  /** `mount`'s dispatch: 'images' and 'audio' have their own panel, every other mode gets the poses panel. */
  function PanelFor(mode: string): (kind: PanelKind)
    ensures kind == ImagesKind <==> mode == ModeName(ImagesKind)
    ensures kind == AudioKind <==> mode == ModeName(AudioKind)
    ensures kind == PosesKind <==> mode != ModeName(ImagesKind) && mode != ModeName(AudioKind)
  {
    if mode == "images" then ImagesKind
    else if mode == "audio" then AudioKind
    else PosesKind
  }

  /** Each panel's own mode dispatches back to it; a mode string maps back to itself exactly when it is one of the three. */
  lemma {:induction false} DispatchIsInverse(kind: PanelKind, mode: string)
    ensures PanelFor(ModeName(kind)) == kind
    ensures ModeName(PanelFor(mode)) == mode <==> mode in {"images", "audio", "poses"}
  {
    match kind
    case ImagesKind =>
    case AudioKind =>
      assert ModeName(kind) != "images";
    case PosesKind =>
      assert ModeName(kind) != "images" && ModeName(kind) != "audio";
  }

  /** What a key press asks for. */
  datatype Command = Nothing | MountMode(mode: string) | FlipTheme | FlipAbout

  /** The theme key: the key lower-cases to 'd', which only 'd' and 'D' do. */
  predicate IsKeyD(key: string) {
    key == "d" || key == "D"
  }

  /**
   * The keydown handler's decision: nothing for a target inside an input or
   * a textarea; '1', '2' and '3' mount the three panels; 'd' or 'D' flips
   * the theme; '?' clicks the about button, which flips the about section.
   */
  function KeyCommand(key: string, inEditable: bool): (c: Command)
    ensures inEditable ==> c == Nothing
    ensures c.MountMode? ==> c.mode in {"images", "audio", "poses"}
  {
    if inEditable then Nothing
    else if key == "1" then MountMode("images")
    else if key == "2" then MountMode("audio")
    else if key == "3" then MountMode("poses")
    else if IsKeyD(key) then FlipTheme
    else if key == "?" then FlipAbout
    else Nothing
  }

  /** The key map in both directions: which keys give which command. */
  lemma KeyMap(key: string)
    ensures KeyCommand(key, false) == MountMode("images") <==> key == "1"
    ensures KeyCommand(key, false) == MountMode("audio") <==> key == "2"
    ensures KeyCommand(key, false) == MountMode("poses") <==> key == "3"
    ensures KeyCommand(key, false) == FlipTheme <==> key == "d" || key == "D"
    ensures KeyCommand(key, false) == FlipAbout <==> key == "?"
    ensures KeyCommand(key, false) == Nothing <==> key !in {"1", "2", "3", "d", "D", "?"}
  {
  }

  /** The number keys mount exactly the panel they name, in navigation order. */
  lemma NumberKeysMountTheirPanel(kind: PanelKind)
    ensures var key := match kind case ImagesKind => "1" case AudioKind => "2" case PosesKind => "3";
      KeyCommand(key, false).MountMode? && PanelFor(KeyCommand(key, false).mode) == kind
  {
  }

  /** A mounted panel: the state of the closure its `init` function set up. */
  datatype Mounted =
    | MountedImages(images: Images.ImagesPanel)
    | MountedAudio(audio: Audio.AudioPanel)
    | MountedPoses(poses: Poses.PosesPanel)

  function KindOf(m: Mounted): PanelKind {
    match m
    case MountedImages(_) => ImagesKind
    case MountedAudio(_) => AudioKind
    case MountedPoses(_) => PosesKind
  }

  /** The panel object behind a mounted panel. */
  function PanelObject(m: Mounted): object {
    match m
    case MountedImages(p) => p
    case MountedAudio(p) => p
    case MountedPoses(p) => p
  }

  /** The objects the cleanup handle reaches. */
  function Footprint(cleanup: Option<Mounted>): set<object> {
    if cleanup.Some? then {PanelObject(cleanup.value)} else {}
  }

  ghost predicate PanelValid(m: Mounted)
    reads PanelObject(m)
  {
    match m
    case MountedImages(p) => p.Valid()
    case MountedAudio(p) => p.Valid()
    case MountedPoses(p) => p.Valid()
  }

  /** What a panel's cleanup leaves behind: no loop, no recorder, no live track. */
  ghost predicate PanelReleased(m: Mounted)
    reads PanelObject(m)
  {
    match m
    case MountedImages(p) => p.Released()
    case MountedAudio(p) => p.Released()
    case MountedPoses(p) => !p.running && p.live == {}
  }

  /** A panel as its `init` function leaves it: consistent, released, and loading its model. */
  ghost predicate JustInitialised(m: Mounted)
    reads PanelObject(m)
  {
    match m
    case MountedImages(p) => p.Valid() && p.Released() && p.status == Ui.Loading && p.model.None?
    case MountedAudio(p) => p.Valid() && p.Released() && p.status == Ui.Loading && p.model.None?
    case MountedPoses(p) => p.Valid() && !p.running && p.live == {} && p.status == Ui.Loading && p.model.None?
  }

  /** The state of the markup a new panel starts from. */
  datatype Markup = Markup(videoShown: bool, demoBadgeHidden: bool, poseSlider: Option<Poses.Fps>)

  /** Runs a mounted panel's cleanup. */
  method RunCleanup(m: Mounted)
    requires PanelValid(m)
    modifies PanelObject(m)
    ensures PanelValid(m) && PanelReleased(m)
  {
    match m
    case MountedImages(p) => p.Teardown();
    case MountedAudio(p) => p.Teardown();
    case MountedPoses(p) => p.Teardown();
  }

  /** Calls the panel's `init` function. */
  method Initialise(kind: PanelKind, markup: Markup) returns (m: Mounted)
    ensures KindOf(m) == kind && fresh(PanelObject(m)) && JustInitialised(m)
  {
    match kind
    case ImagesKind =>
      var p := new Images.ImagesPanel(markup.videoShown, markup.demoBadgeHidden);
      m := MountedImages(p);
    case AudioKind =>
      var p := new Audio.AudioPanel();
      m := MountedAudio(p);
    case PosesKind =>
      var p := new Poses.PosesPanel(markup.poseSlider);
      m := MountedPoses(p);
  }

  /** The page and the module-level `cleanup` handle. */
  class Shell {
    const page: Ui.Page
    var cleanup: Option<Mounted>
    ghost var torn: seq<Mounted>     // every panel whose cleanup has run, in order

    ghost predicate Valid()
      reads this, Footprint(cleanup)
    {
      cleanup.Some? ==> PanelValid(cleanup.value)
    }

    /**
     * What `mount(mode)` did, `prior` being the cleanup handle it found: that
     * cleanup ran once and left its panel released; the page shows only the
     * first `panel-<mode>`. When the page has that panel, the buttons mark
     * the mode, the body records it, exactly that panel is visible, and a new
     * panel of the dispatched kind, just initialised, holds the handle. When
     * it has none, `setActiveMode` throws: nothing is mounted and the buttons
     * and the body are as they were.
     */
    twostate predicate DidMount(mode: string, prior: Option<Mounted>)
      reads this, page, page.panels, page.buttons, Footprint(cleanup), Footprint(prior)
    {
      var k := Ui.FindPanel(old(page.panels[..]), Ui.PanelId(mode));
      && torn == old(torn) + (if prior.Some? then [prior.value] else [])
      && (prior.Some? ==> PanelReleased(prior.value))
      && Ui.ShowsOnly(old(page.panels[..]), page.panels[..], mode)
      && (k.Some? ==>
            && page.bodyMode == Some(mode)
            && Ui.MarksActive(old(page.buttons[..]), page.buttons[..], mode)
            && Ui.OneVisible(page.panels[..], Ui.PanelId(mode))
            && cleanup.Some? && KindOf(cleanup.value) == PanelFor(mode)
            && fresh(PanelObject(cleanup.value)) && JustInitialised(cleanup.value))
      && (k.None? ==>
            && cleanup == None && page.bodyMode == old(page.bodyMode)
            && page.buttons[..] == old(page.buttons[..]))
    }

    /** The page script's start: nothing mounted, then `mount('images')`. */
    constructor (page: Ui.Page, markup: Markup)
      modifies page.panels, page.buttons, page`bodyMode
      ensures Valid() && this.page == page
      ensures torn == [] && Ui.ShowsOnly(old(page.panels[..]), page.panels[..], "images")
      ensures var k := Ui.FindPanel(old(page.panels[..]), Ui.PanelId("images"));
        && (k.Some? ==> && cleanup.Some? && KindOf(cleanup.value) == ImagesKind && JustInitialised(cleanup.value)
                        && page.bodyMode == Some("images") && Ui.OneVisible(page.panels[..], Ui.PanelId("images")))
        && (k.None? ==> cleanup == None)
    {
      this.page := page;
      cleanup := None;
      torn := [];
      new;
      var shown := Mount("images", markup);
    }

    /**
     * `mount(mode)`: the current cleanup, if any, runs once and the handle is
     * cleared; then the mode is activated on the page and, when the page has
     * a panel for it, the dispatched panel is initialised and its cleanup
     * becomes the handle.
     */
    method Mount(mode: string, markup: Markup) returns (shown: bool)
      requires Valid()
      modifies this`cleanup, this`torn, page.panels, page.buttons, page`bodyMode, Footprint(cleanup)
      ensures Valid()
      ensures shown == Ui.FindPanel(old(page.panels[..]), Ui.PanelId(mode)).Some?
      ensures DidMount(mode, old(cleanup))
    {
      Unmount();
      shown := Activate(mode);
      if !shown {
        return;
      }
      Attach(PanelFor(mode), markup);
    }

    /** `cleanup = init<Kind>()`: a new panel is initialised and its cleanup kept. */
    method Attach(kind: PanelKind, markup: Markup)
      modifies this`cleanup
      ensures Valid() && cleanup.Some? && KindOf(cleanup.value) == kind
      ensures fresh(PanelObject(cleanup.value)) && JustInitialised(cleanup.value)
    {
      var m := Initialise(kind, markup);
      cleanup := Some(m);
    }

    /** The first step of `mount`: an existing cleanup runs once and the handle becomes null. */
    method Unmount()
      requires Valid()
      modifies this`cleanup, this`torn, Footprint(cleanup)
      ensures Valid() && cleanup == None
      ensures torn == old(torn) + (if old(cleanup).Some? then [old(cleanup).value] else [])
      ensures old(cleanup).Some? ==> PanelReleased(old(cleanup).value)
    {
      if cleanup.Some? {
        RunCleanup(cleanup.value);
        torn := torn + [cleanup.value];
        cleanup := None;
      }
    }

    /** `setActiveMode(mode)`, which throws when the page has no panel for the mode. */
    method Activate(mode: string) returns (shown: bool)
      modifies page.panels, page.buttons, page`bodyMode
      ensures shown == Ui.FindPanel(old(page.panels[..]), Ui.PanelId(mode)).Some?
      ensures Ui.ShowsOnly(old(page.panels[..]), page.panels[..], mode)
      ensures shown ==> && page.bodyMode == Some(mode)
                        && Ui.MarksActive(old(page.buttons[..]), page.buttons[..], mode)
                        && Ui.OneVisible(page.panels[..], Ui.PanelId(mode))
      ensures !shown ==> page.bodyMode == old(page.bodyMode) && page.buttons[..] == old(page.buttons[..])
    {
      shown := page.SetActiveMode(mode);
      if shown {
        Ui.ExactlyOneVisible(old(page.panels[..]), page.panels[..], mode);
      }
    }

    /** A click in the mode navigation: on a mode button (`mode` is its `data-mode`), that mode is mounted. */
    method NavClick(button: Option<string>, markup: Markup)
      requires Valid()
      modifies this`cleanup, this`torn, page.panels, page.buttons, page`bodyMode, Footprint(cleanup)
      ensures Valid()
      ensures button.None? ==> unchanged(this, page, page.panels, page.buttons) && unchanged(Footprint(old(cleanup)))
      ensures button.Some? ==> DidMount(button.value, old(cleanup))
    {
      if button.None? {
        return;
      }
      var shown := Mount(button.value, markup);
    }

    /** A key press (`inEditable`: its target is inside an input or a textarea). */
    method HandleKey(key: string, inEditable: bool, markup: Markup)
      requires Valid()
      modifies this`cleanup, this`torn, page.panels, page.buttons, page`bodyMode, Footprint(cleanup),
               page`dark, page`themeLabel, page`aboutHidden
      ensures Valid()
      ensures KeyCommand(key, inEditable) == Nothing ==>
        unchanged(this, page, page.panels, page.buttons) && unchanged(Footprint(old(cleanup)))
      ensures KeyCommand(key, inEditable).MountMode? ==>
        DidMount(KeyCommand(key, inEditable).mode, old(cleanup)) && unchanged(page`dark, page`themeLabel, page`aboutHidden)
      ensures KeyCommand(key, inEditable) == FlipTheme ==>
        && page.dark == !old(page.dark) && page.themeLabel == Ui.ThemeLabel(page.dark)
        && unchanged(this, page`aboutHidden, page`bodyMode, page.panels, page.buttons) && unchanged(Footprint(old(cleanup)))
      ensures KeyCommand(key, inEditable) == FlipAbout ==>
        && page.aboutHidden == !old(page.aboutHidden)
        && unchanged(this, page`dark, page`themeLabel, page`bodyMode, page.panels, page.buttons)
        && unchanged(Footprint(old(cleanup)))
    {
      match KeyCommand(key, inEditable)
      case Nothing =>
      case MountMode(mode) =>
        var shown := Mount(mode, markup);
      case FlipTheme =>
        page.ToggleTheme();
      case FlipAbout =>
        page.ToggleAbout();
    }
  }
}
