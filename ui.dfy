/**
 * The page-level helpers: the status badge's text and colour, which panel
 * and which mode button are active, and the theme and about toggles.
 */
module Ui {
  import opened Wrappers

  /** The texts of the six statuses the badge knows. */
  const StatusTexts: map<string, string> := map[
    "loading" := "Cargando…",
    "ready" := "OK",
    "denied" := "Permisos denegados",
    "error" := "Error",
    "idle" := "En espera",
    "demo" := "Modo demo"
  ]

  /** `map[status] || status`: a looked-up text, or the status itself when the lookup gives nothing. */
  function StatusText(status: string): (text: string)
    ensures status in StatusTexts ==> text == StatusTexts[status]
    ensures status !in StatusTexts ==> text == status
  {
    var found := if status in StatusTexts then StatusTexts[status] else "";
    if found != "" then found else status
  }

  /** The colour families of the badge; only which family is chosen is modelled. */
  datatype Tone = Amber | Emerald | Rose | IdleSlate | DefaultSlate

  const StatusTones: map<string, Tone> := map[
    "loading" := Amber,
    "ready" := Emerald,
    "denied" := Rose,
    "error" := Rose,
    "idle" := IdleSlate
  ]

  /** The badge's colour: a looked-up one, or the default slate classes, which no listed status has. */
  function StatusTone(status: string): (tone: Tone)
    ensures tone == DefaultSlate <==> status !in StatusTones
    ensures tone != DefaultSlate ==> tone == StatusTones[status]
  {
    if status in StatusTones then StatusTones[status] else DefaultSlate
  }

  /** No known status is shown as its own key, so the verbatim fallback is visible as such. */
  lemma StatusTextLookup(status: string)
    ensures status in StatusTexts <==> StatusText(status) != status
    ensures StatusText("ready") == "OK" && StatusText("recording") == "recording"
      && StatusText("processing") == "processing"
  {
  }

  /** Only the five statuses with their own classes leave the default slate: 'demo' does not have one. */
  lemma StatusToneFallback(status: string)
    ensures StatusTone(status) == DefaultSlate <==>
      status !in {"loading", "ready", "denied", "error", "idle"}
    ensures StatusTone("demo") == DefaultSlate && StatusTone("recording") == DefaultSlate
      && StatusTone("processing") == DefaultSlate
  {
  }

  /** The statuses the panels pass to `setStatus`. */
  datatype Status = Loading | Ready | Denied | Error | Idle | Demo | Recording | Processing

  /** The key string each status is passed as. */
  function Key(status: Status): string {
    match status
    case Loading => "loading"
    case Ready => "ready"
    case Denied => "denied"
    case Error => "error"
    case Idle => "idle"
    case Demo => "demo"
    case Recording => "recording"
    case Processing => "processing"
  }

  /**
   * What the badge shows for each status a panel sets: 'recording' and
   * 'processing' have no entry in either table, so the badge shows the key
   * itself on the default slate; 'demo' has a text but no colour.
   */
  lemma BadgeOfEachStatus(status: Status)
    ensures status in {Recording, Processing} <==> StatusText(Key(status)) == Key(status)
    ensures status in {Recording, Processing, Demo} <==> StatusTone(Key(status)) == DefaultSlate
    ensures status == Denied || status == Error ==> StatusTone(Key(status)) == Rose
    ensures status == Demo ==> StatusText(Key(status)) == "Modo demo"
  {
  }

  /** An element with class `panel`. */
  datatype PanelNode = PanelNode(id: string, hidden: bool)

  /** An element with class `mode-btn`; `active` says which of the two class lists it carries. */
  datatype ModeButton = ModeButton(mode: string, active: bool)

  /** `document.getElementById(id)` among the panels: the first panel carrying that id. */
  function FindPanel(panels: seq<PanelNode>, id: string): (k: Option<nat>)
    ensures k.Some? ==> (k.value < |panels| && panels[k.value].id == id &&
      forall j :: 0 <= j < k.value ==> panels[j].id != id)
    ensures k.None? ==> forall j :: 0 <= j < |panels| ==> panels[j].id != id
  {
    if panels == [] then None
    else if panels[0].id == id then Some(0)
    else match FindPanel(panels[1..], id)
      case None => None
      case Some(k) => Some(k + 1)
  }

  function PanelId(mode: string): string {
    "panel-" + mode
  }

  /** The theme button's text: it offers the theme a click switches to. */
  function ThemeLabel(dark: bool): (caption: string)
    ensures dark ==> caption == "☀️ Claro"
    ensures !dark ==> caption == "🌙 Oscuro"
  {
    if dark then "☀️ Claro" else "🌙 Oscuro"
  }

  /** The page: its panels and mode buttons, `body.dataset.mode`, the theme and the about section. */
  class Page {
    const panels: array<PanelNode>
    const buttons: array<ModeButton>
    var bodyMode: Option<string>
    var dark: bool
    var themeLabel: string
    var aboutHidden: bool

    constructor (panelNodes: seq<PanelNode>, modeButtons: seq<ModeButton>, dark: bool, themeLabel: string, aboutHidden: bool)
      ensures panels[..] == panelNodes && buttons[..] == modeButtons && bodyMode == None
      ensures this.dark == dark && this.themeLabel == themeLabel && this.aboutHidden == aboutHidden
      ensures fresh(panels) && fresh(buttons)
    {
      panels := new PanelNode[|panelNodes|](i requires 0 <= i < |panelNodes| => panelNodes[i]);
      buttons := new ModeButton[|modeButtons|](i requires 0 <= i < |modeButtons| => modeButtons[i]);
      bodyMode := None;
      this.dark := dark;
      this.themeLabel := themeLabel;
      this.aboutHidden := aboutHidden;
    }

    /**
     * `setActiveMode(mode)`: hides every panel, shows `panel-<mode>`, styles
     * exactly the buttons whose `data-mode` is `mode` as active and records
     * the mode on the body. When no panel has that id, `classList` is read
     * from `null` and the call throws after the panels were hidden: `ok` is
     * false and the buttons and body are untouched.
     */
    method SetActiveMode(mode: string) returns (ok: bool)
      modifies panels, buttons, this`bodyMode
      ensures ok == FindPanel(old(panels[..]), PanelId(mode)).Some?
      ensures ShowsOnly(old(panels[..]), panels[..], mode)
      ensures ok ==> bodyMode == Some(mode) && MarksActive(old(buttons[..]), buttons[..], mode)
      ensures !ok ==> bodyMode == old(bodyMode) && buttons[..] == old(buttons[..])
    {
      var i := 0;
      while i < panels.Length
        invariant 0 <= i <= panels.Length
        invariant forall j :: 0 <= j < i ==> panels[j] == old(panels[j]).(hidden := true)
        invariant forall j :: i <= j < panels.Length ==> panels[j] == old(panels[j])
        invariant buttons[..] == old(buttons[..]) && bodyMode == old(bodyMode)
      {
        panels[i] := panels[i].(hidden := true);
        i := i + 1;
      }
      assert forall j :: 0 <= j < panels.Length ==> panels[j].id == old(panels[j]).id;
      assert forall j :: 0 <= j < panels.Length ==> panels[..][j].id == old(panels[..])[j].id;
      var k := FindPanel(panels[..], PanelId(mode));
      assert k == FindPanel(old(panels[..]), PanelId(mode)) by {
        SameIds(panels[..], old(panels[..]), PanelId(mode));
      }
      if k.None? {
        assert ShowsOnly(old(panels[..]), panels[..], mode);
        return false;
      }
      panels[k.value] := panels[k.value].(hidden := false);
      ghost var shown := panels[..];
      i := 0;
      while i < buttons.Length
        invariant 0 <= i <= buttons.Length
        invariant forall j :: 0 <= j < i ==> buttons[j] == old(buttons[j]).(active := old(buttons[j]).mode == mode)
        invariant forall j :: i <= j < buttons.Length ==> buttons[j] == old(buttons[j])
        invariant panels[..] == shown
      {
        buttons[i] := buttons[i].(active := buttons[i].mode == mode);
        i := i + 1;
      }
      bodyMode := Some(mode);
      ok := true;
      assert ShowsOnly(old(panels[..]), panels[..], mode);
      assert MarksActive(old(buttons[..]), buttons[..], mode);
    }

    /** `toggleTheme()`: flips dark mode and labels the button after the new value. */
    method ToggleTheme()
      modifies this`dark, this`themeLabel
      ensures dark == !old(dark) && themeLabel == ThemeLabel(dark)
    {
      dark := !dark;
      themeLabel := ThemeLabel(dark);
    }

    /** `toggleAbout()`: flips whether the about section is hidden. */
    method ToggleAbout()
      modifies this`aboutHidden
      ensures aboutHidden == !old(aboutHidden)
    {
      aboutHidden := !aboutHidden;
    }
  }

  /** Hiding panels does not change their ids, so the panel `getElementById` finds stays the same. */
  lemma {:induction false} SameIds(a: seq<PanelNode>, b: seq<PanelNode>, id: string)
    requires |a| == |b| && forall j :: 0 <= j < |a| ==> a[j].id == b[j].id
    ensures FindPanel(a, id) == FindPanel(b, id)
  {
    if a != [] {
      SameIds(a[1..], b[1..], id);
    }
  }

  /**
   * The panels after `setActiveMode(mode)`: every one hidden except the
   * first `panel-<mode>`, which is shown when there is one.
   */
  ghost predicate ShowsOnly(before: seq<PanelNode>, after: seq<PanelNode>, mode: string) {
    var k := FindPanel(before, PanelId(mode));
    && |after| == |before|
    && forall i :: 0 <= i < |after| ==> after[i] == before[i].(hidden := !(k.Some? && i == k.value))
  }

  /** The mode buttons after `setActiveMode(mode)`: active exactly where `data-mode` is `mode`. */
  ghost predicate MarksActive(before: seq<ModeButton>, after: seq<ModeButton>, mode: string) {
    && |after| == |before|
    && forall i :: 0 <= i < |after| ==> after[i] == before[i].(active := before[i].mode == mode)
  }

  /** Exactly one panel is visible, and it carries `id`. */
  ghost predicate OneVisible(panels: seq<PanelNode>, id: string) {
    exists k :: 0 <= k < |panels| && !panels[k].hidden && panels[k].id == id &&
      forall j :: 0 <= j < |panels| && j != k ==> panels[j].hidden
  }

  /**
   * After a successful `setActiveMode`, exactly one panel is visible: the
   * first whose id is `panel-<mode>`.
   */
  lemma ExactlyOneVisible(before: seq<PanelNode>, after: seq<PanelNode>, mode: string)
    requires FindPanel(before, PanelId(mode)).Some?
    requires ShowsOnly(before, after, mode)
    ensures OneVisible(after, PanelId(mode))
  {
    var k := FindPanel(before, PanelId(mode)).value;
    assert !after[k].hidden && after[k].id == PanelId(mode);
  }
}
