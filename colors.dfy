/**
 * The foreground/background color selector. It keeps a normal color pair
 * and a separate grayscale pair used while a layer mask is edited; the
 * getters and setters act on whichever pair the mode makes active. Every
 * set shows the new color on its button and appends it to the matching
 * color history.
 */
module Colors {
  import opened Wrappers

  datatype Color = Color(red: int, green: int, blue: int, alpha: int)

  const Black: Color := Color(0, 0, 0, 255)
  const White: Color := Color(255, 255, 255, 255)

  /** Conversion of a color to its gray equivalent (a color utility outside this model). */
  type ToGray = Color -> Color

  /**
   * The selector's state: both pairs, the mode, the two histories the
   * setters append to, and the backgrounds of the two big buttons.
   */
  datatype Selector = Selector(
    fg: Color, bg: Color,
    maskFg: Color, maskBg: Color,
    layerMaskEditing: bool,
    fgHistory: seq<Color>, bgHistory: seq<Color>,
    fgButton: Color, bgButton: Color)

  /** The field values before the constructor's two setter calls (buttons still unset, shown black/white). */
  const Fresh: Selector := Selector(Black, White, Black, White, false, [], [], Black, White)

  function GetFg(s: Selector): Color { if s.layerMaskEditing then s.maskFg else s.fg }
  function GetBg(s: Selector): Color { if s.layerMaskEditing then s.maskBg else s.bg }

  /** The buttons show the active pair: the invariant every public operation keeps. */
  predicate ButtonsShowActive(s: Selector)
  {
    s.fgButton == GetFg(s) && s.bgButton == GetBg(s)
  }

  function SetFg(s: Selector, c: Color, toGray: ToGray): (r: Selector)
    ensures GetFg(r) == (if s.layerMaskEditing then toGray(c) else c)
    ensures r.fgHistory == s.fgHistory + [GetFg(r)] && r.fgButton == GetFg(r)
  {
    if s.layerMaskEditing then
      var n := toGray(c);
      s.(maskFg := n, fgButton := n, fgHistory := s.fgHistory + [n])
    else
      s.(fg := c, fgButton := c, fgHistory := s.fgHistory + [c])
  }

  function SetBg(s: Selector, c: Color, toGray: ToGray): (r: Selector)
    ensures GetBg(r) == (if s.layerMaskEditing then toGray(c) else c)
    ensures r.bgHistory == s.bgHistory + [GetBg(r)] && r.bgButton == GetBg(r)
  {
    if s.layerMaskEditing then
      var n := toGray(c);
      s.(maskBg := n, bgButton := n, bgHistory := s.bgHistory + [n])
    else
      s.(bg := c, bgButton := c, bgHistory := s.bgHistory + [c])
  }

  /** The state right after construction, given the two colors loaded from the preferences. */
  function Initial(loadedFg: Color, loadedBg: Color, toGray: ToGray): (r: Selector)
    ensures !r.layerMaskEditing && GetFg(r) == loadedFg && GetBg(r) == loadedBg
  {
    SetBg(SetFg(Fresh, loadedFg, toGray), loadedBg, toGray)
  }

  /** The swap action: the active background becomes the foreground and vice versa. */
  function Swap(s: Selector, toGray: ToGray): (r: Selector)
    ensures r.layerMaskEditing == s.layerMaskEditing && ButtonsShowActive(r)
    ensures r.fgHistory == s.fgHistory + [GetFg(r)] && r.bgHistory == s.bgHistory + [GetBg(r)]
  {
    if s.layerMaskEditing then
      SetBg(SetFg(s, s.maskBg, toGray), s.maskFg, toGray)
    else
      SetBg(SetFg(s, s.bg, toGray), s.fg, toGray)
  }

  /** The reset action: black foreground, white background. */
  function Reset(s: Selector, toGray: ToGray): (r: Selector)
    ensures r.layerMaskEditing == s.layerMaskEditing && ButtonsShowActive(r)
    ensures GetFg(r) == (if s.layerMaskEditing then toGray(Black) else Black)
    ensures GetBg(r) == (if s.layerMaskEditing then toGray(White) else White)
  {
    SetBg(SetFg(s, Black, toGray), White, toGray)
  }

  /** The randomize action, given the two colors the random generator produced. */
  function Randomize(s: Selector, randomFg: Color, randomBg: Color, toGray: ToGray): (r: Selector)
    ensures r.layerMaskEditing == s.layerMaskEditing && ButtonsShowActive(r)
    ensures GetFg(r) == (if s.layerMaskEditing then toGray(randomFg) else randomFg)
    ensures GetBg(r) == (if s.layerMaskEditing then toGray(randomBg) else randomBg)
  {
    SetBg(SetFg(s, randomFg, toGray), randomBg, toGray)
  }

  /**
   * Switches the mask mode. When the mode really changes, the newly active
   * pair is set again through the setters, so that the buttons and the
   * histories show it.
   */
  function WithMaskEditing(s: Selector, editing: bool, toGray: ToGray): (r: Selector)
    ensures r.layerMaskEditing == editing
    ensures s.layerMaskEditing != editing ==> ButtonsShowActive(r)
    ensures ButtonsShowActive(s) ==> ButtonsShowActive(r)
  {
    var t := s.(layerMaskEditing := editing);
    if s.layerMaskEditing == editing then t
    else if editing then SetBg(SetFg(t, t.maskFg, toGray), t.maskBg, toGray)
    else SetBg(SetFg(t, t.fg, toGray), t.bg, toGray)
  }

  /**
   * The foreground button's handler: nothing while the random GUI test runs,
   * otherwise the color dialog's result (None when it was cancelled) is set.
   */
  function AfterFgDialog(s: Selector, guiTestRunning: bool, chosen: Option<Color>, toGray: ToGray): (r: Selector)
    ensures r.bg == s.bg && r.maskBg == s.maskBg && r.bgHistory == s.bgHistory && r.bgButton == s.bgButton
    ensures r.layerMaskEditing == s.layerMaskEditing
    ensures ButtonsShowActive(s) ==> ButtonsShowActive(r)
  {
    if guiTestRunning then s
    else if chosen.Some? then SetFg(s, chosen.value, toGray)
    else s
  }

  /** The background button's handler, symmetric to the foreground one. */
  function AfterBgDialog(s: Selector, guiTestRunning: bool, chosen: Option<Color>, toGray: ToGray): (r: Selector)
    ensures r.fg == s.fg && r.maskFg == s.maskFg && r.fgHistory == s.fgHistory && r.fgButton == s.fgButton
    ensures r.layerMaskEditing == s.layerMaskEditing
    ensures ButtonsShowActive(s) ==> ButtonsShowActive(r)
  {
    if guiTestRunning then s
    else if chosen.Some? then SetBg(s, chosen.value, toGray)
    else s
  }

  // ---------------------------------------------------------------------
  // Properties of the operations
  // ---------------------------------------------------------------------

  /** The getters read the mask pair in mask mode and the normal pair otherwise. */
  lemma GettersFollowMode(s: Selector)
    ensures s.layerMaskEditing ==> GetFg(s) == s.maskFg && GetBg(s) == s.maskBg
    ensures !s.layerMaskEditing ==> GetFg(s) == s.fg && GetBg(s) == s.bg
  {
  }

  /**
   * Setting the foreground stores the gray of the color into the mask
   * foreground in mask mode and the color itself into the foreground
   * otherwise; the other three colors, the mode and the background side
   * are unchanged.
   */
  lemma SetFgTouchesOnlyActiveFg(s: Selector, c: Color, toGray: ToGray)
    ensures var r := SetFg(s, c, toGray);
      && r.bg == s.bg && r.maskBg == s.maskBg && r.layerMaskEditing == s.layerMaskEditing
      && r.bgHistory == s.bgHistory && r.bgButton == s.bgButton
      && (if s.layerMaskEditing then r.maskFg == toGray(c) && r.fg == s.fg
          else r.fg == c && r.maskFg == s.maskFg)
  {
  }

  lemma SetBgTouchesOnlyActiveBg(s: Selector, c: Color, toGray: ToGray)
    ensures var r := SetBg(s, c, toGray);
      && r.fg == s.fg && r.maskFg == s.maskFg && r.layerMaskEditing == s.layerMaskEditing
      && r.fgHistory == s.fgHistory && r.fgButton == s.fgButton
      && (if s.layerMaskEditing then r.maskBg == toGray(c) && r.bg == s.bg
          else r.bg == c && r.maskBg == s.maskBg)
  {
  }

  /**
   * Swap exchanges the active pair (through the setters, so in mask mode
   * each color passes through the gray conversion again) and leaves the
   * inactive pair and the mode alone.
   */
  lemma SwapExchangesActivePair(s: Selector, toGray: ToGray)
    ensures var r := Swap(s, toGray);
      && r.layerMaskEditing == s.layerMaskEditing
      && (if s.layerMaskEditing
          then GetFg(r) == toGray(GetBg(s)) && GetBg(r) == toGray(GetFg(s)) && r.fg == s.fg && r.bg == s.bg
          else GetFg(r) == GetBg(s) && GetBg(r) == GetFg(s) && r.maskFg == s.maskFg && r.maskBg == s.maskBg)
      && r.fgHistory == s.fgHistory + [GetFg(r)] && r.bgHistory == s.bgHistory + [GetBg(r)]
  {
  }

  /** In normal mode, swapping twice restores all four colors. */
  lemma SwapTwiceRestoresNormalPair(s: Selector, toGray: ToGray)
    requires !s.layerMaskEditing
    ensures var r := Swap(Swap(s, toGray), toGray);
      && r.fg == s.fg && r.bg == s.bg && r.maskFg == s.maskFg && r.maskBg == s.maskBg
      && r.layerMaskEditing == s.layerMaskEditing
      && r.fgHistory == s.fgHistory + [s.bg, s.fg] && r.bgHistory == s.bgHistory + [s.fg, s.bg]
  {
  }

  /**
   * In mask mode, swapping twice restores the mask pair only when the gray
   * conversion leaves both mask colors as they are.
   */
  lemma SwapTwiceInMaskMode(s: Selector, toGray: ToGray)
    requires s.layerMaskEditing
    ensures var r := Swap(Swap(s, toGray), toGray);
      r.maskFg == toGray(toGray(s.maskFg)) && r.maskBg == toGray(toGray(s.maskBg))
    ensures toGray(s.maskFg) == s.maskFg && toGray(s.maskBg) == s.maskBg ==>
      var r := Swap(Swap(s, toGray), toGray); r.maskFg == s.maskFg && r.maskBg == s.maskBg
  {
  }

  /** Reset makes the active pair black/white (their grays in mask mode). */
  lemma ResetGivesDefaults(s: Selector, toGray: ToGray)
    ensures var r := Reset(s, toGray);
      && r.layerMaskEditing == s.layerMaskEditing
      && (!s.layerMaskEditing ==> r.fg == Black && r.bg == White && r.maskFg == s.maskFg && r.maskBg == s.maskBg)
      && (s.layerMaskEditing ==> r.maskFg == toGray(Black) && r.maskBg == toGray(White) && r.fg == s.fg && r.bg == s.bg)
  {
  }

  /** Switching to the mode already in force changes nothing, histories included. */
  lemma SameModeIsNoOp(s: Selector, toGray: ToGray)
    ensures WithMaskEditing(s, s.layerMaskEditing, toGray) == s
  {
  }

  /**
   * Switching to the other mode flips the mode and re-applies the newly
   * active pair through the setters: entering mask mode replaces each mask
   * color by its gray and keeps the normal pair, leaving it keeps every
   * color; each history gets the newly active color.
   */
  lemma ModeChangeReappliesPair(s: Selector, toGray: ToGray)
    ensures var r := WithMaskEditing(s, !s.layerMaskEditing, toGray);
      && r.layerMaskEditing == !s.layerMaskEditing
      && (r.layerMaskEditing ==> r.maskFg == toGray(s.maskFg) && r.maskBg == toGray(s.maskBg)
                                 && r.fg == s.fg && r.bg == s.bg)
      && (!r.layerMaskEditing ==> r.fg == s.fg && r.bg == s.bg && r.maskFg == s.maskFg && r.maskBg == s.maskBg)
      && r.fgHistory == s.fgHistory + [GetFg(r)] && r.bgHistory == s.bgHistory + [GetBg(r)]
      && ButtonsShowActive(r)
  {
  }

  /**
   * A cancelled dialog (or a running GUI test) leaves everything as it is;
   * a chosen color is set as the active foreground and nothing on the
   * background side changes.
   */
  lemma FgDialogSetsOnlyFg(s: Selector, running: bool, chosen: Option<Color>, toGray: ToGray)
    ensures running || chosen.None? ==> AfterFgDialog(s, running, chosen, toGray) == s
    ensures !running && chosen.Some? ==>
      var r := AfterFgDialog(s, running, chosen, toGray);
      && GetFg(r) == (if s.layerMaskEditing then toGray(chosen.value) else chosen.value)
      && (s.layerMaskEditing ==> r.fg == s.fg) && (!s.layerMaskEditing ==> r.maskFg == s.maskFg)
      && r.bg == s.bg && r.maskBg == s.maskBg && r.bgHistory == s.bgHistory && r.bgButton == s.bgButton
      && r.layerMaskEditing == s.layerMaskEditing
  {
  }

  lemma BgDialogSetsOnlyBg(s: Selector, running: bool, chosen: Option<Color>, toGray: ToGray)
    ensures running || chosen.None? ==> AfterBgDialog(s, running, chosen, toGray) == s
    ensures !running && chosen.Some? ==>
      var r := AfterBgDialog(s, running, chosen, toGray);
      && GetBg(r) == (if s.layerMaskEditing then toGray(chosen.value) else chosen.value)
      && (s.layerMaskEditing ==> r.bg == s.bg) && (!s.layerMaskEditing ==> r.maskBg == s.maskBg)
      && r.fg == s.fg && r.maskFg == s.maskFg && r.fgHistory == s.fgHistory && r.fgButton == s.fgButton
      && r.layerMaskEditing == s.layerMaskEditing
  {
  }

  // ---------------------------------------------------------------------
  // Sequences of user actions
  // ---------------------------------------------------------------------

  /** The public operations, each one user action. */
  datatype Action =
    | SetFgColor(c: Color)
    | SetBgColor(c: Color)
    | SwapColors
    | ResetColors
    | RandomizeColors(randomFg: Color, randomBg: Color)
    | MaskEditing(editing: bool)
    | FgDialog(guiTestRunning: bool, chosen: Option<Color>)
    | BgDialog(guiTestRunning: bool, chosen: Option<Color>)

  function Apply(s: Selector, a: Action, toGray: ToGray): Selector
  {
    match a
    case SetFgColor(c) => SetFg(s, c, toGray)
    case SetBgColor(c) => SetBg(s, c, toGray)
    case SwapColors => Swap(s, toGray)
    case ResetColors => Reset(s, toGray)
    case RandomizeColors(f, b) => Randomize(s, f, b, toGray)
    case MaskEditing(e) => WithMaskEditing(s, e, toGray)
    case FgDialog(r, c) => AfterFgDialog(s, r, c, toGray)
    case BgDialog(r, c) => AfterBgDialog(s, r, c, toGray)
  }

  function Run(s: Selector, actions: seq<Action>, toGray: ToGray): Selector
    decreases |actions|
  {
    if actions == [] then s else Run(Apply(s, actions[0], toGray), actions[1..], toGray)
  }

  /** Each action keeps the buttons showing the active pair and only appends to the histories. */
  lemma ApplyKeepsInvariant(s: Selector, a: Action, toGray: ToGray)
    requires ButtonsShowActive(s)
    ensures var r := Apply(s, a, toGray);
      && ButtonsShowActive(r)
      && s.fgHistory <= r.fgHistory && s.bgHistory <= r.bgHistory
  {
  }

  /**
   * From construction on, whatever actions the user takes, the buttons show
   * the active pair and the histories only ever grow at their end.
   */
  lemma {:induction false} RunKeepsInvariant(s: Selector, actions: seq<Action>, toGray: ToGray)
    requires ButtonsShowActive(s)
    ensures var r := Run(s, actions, toGray);
      && ButtonsShowActive(r)
      && s.fgHistory <= r.fgHistory && s.bgHistory <= r.bgHistory
    decreases |actions|
  {
    if actions != [] {
      var next := Apply(s, actions[0], toGray);
      ApplyKeepsInvariant(s, actions[0], toGray);
      RunKeepsInvariant(next, actions[1..], toGray);
    }
  }

  lemma InitialShowsActive(loadedFg: Color, loadedBg: Color, toGray: ToGray)
    ensures var s := Initial(loadedFg, loadedBg, toGray);
      && ButtonsShowActive(s) && !s.layerMaskEditing
      && s.fg == loadedFg && s.bg == loadedBg && s.maskFg == Black && s.maskBg == White
      && s.fgHistory == [loadedFg] && s.bgHistory == [loadedBg]
  {
  }

  // ---------------------------------------------------------------------
  // The selector object
  // ---------------------------------------------------------------------

  class FgBgColorSelector {
    const toGray: ToGray
    var fgColor: Color
    var bgColor: Color
    var maskFgColor: Color
    var maskBgColor: Color
    var layerMaskEditing: bool
    /** What this selector appended to the foreground and background color histories. */
    var fgHistory: seq<Color>
    var bgHistory: seq<Color>
    /** The backgrounds of the two big color buttons. */
    var fgButtonColor: Color
    var bgButtonColor: Color

    function Snapshot(): Selector
      reads this
    {
      Selector(fgColor, bgColor, maskFgColor, maskBgColor, layerMaskEditing,
               fgHistory, bgHistory, fgButtonColor, bgButtonColor)
    }

    ghost predicate Valid()
      reads this
    {
      ButtonsShowActive(Snapshot())
    }

    /** Starts with black/white pairs in normal mode, then sets the loaded preferences. */
    constructor (toGray: ToGray, loadedFg: Color, loadedBg: Color)
      ensures this.toGray == toGray
      ensures Snapshot() == Initial(loadedFg, loadedBg, toGray) && Valid()
    {
      this.toGray := toGray;
      fgColor, bgColor := Black, White;
      maskFgColor, maskBgColor := Black, White;
      layerMaskEditing := false;
      fgHistory, bgHistory := [], [];
      fgButtonColor, bgButtonColor := Black, White;
      new;
      SetFgColor(loadedFg);
      SetBgColor(loadedBg);
      InitialShowsActive(loadedFg, loadedBg, toGray);
    }

    function GetFgColor(): (c: Color)
      reads this
      ensures c == GetFg(Snapshot())
    {
      if layerMaskEditing then maskFgColor else fgColor
    }

    function GetBgColor(): (c: Color)
      reads this
      ensures c == GetBg(Snapshot())
    {
      if layerMaskEditing then maskBgColor else bgColor
    }

    method SetFgColor(c: Color)
      modifies this
      ensures Snapshot() == SetFg(old(Snapshot()), c, toGray)
    {
      var newColor: Color;
      if layerMaskEditing {
        maskFgColor := toGray(c);
        newColor := maskFgColor;
      } else {
        fgColor := c;
        newColor := fgColor;
      }
      fgButtonColor := newColor;
      fgHistory := fgHistory + [newColor];
    }

    method SetBgColor(c: Color)
      modifies this
      ensures Snapshot() == SetBg(old(Snapshot()), c, toGray)
    {
      var newColor: Color;
      if layerMaskEditing {
        maskBgColor := toGray(c);
        newColor := maskBgColor;
      } else {
        bgColor := c;
        newColor := bgColor;
      }
      bgButtonColor := newColor;
      bgHistory := bgHistory + [newColor];
    }

    method SwapColors()
      requires Valid()
      modifies this
      ensures Snapshot() == Swap(old(Snapshot()), toGray) && Valid()
    {
      ApplyKeepsInvariant(Snapshot(), Action.SwapColors, toGray);
      if layerMaskEditing {
        var tmpFgColor := maskFgColor;
        SetFgColor(maskBgColor);
        SetBgColor(tmpFgColor);
      } else {
        var tmpFgColor := fgColor;
        SetFgColor(bgColor);
        SetBgColor(tmpFgColor);
      }
    }

    method ResetToDefault()
      requires Valid()
      modifies this
      ensures Snapshot() == Reset(old(Snapshot()), toGray) && Valid()
    {
      ApplyKeepsInvariant(Snapshot(), Action.ResetColors, toGray);
      SetFgColor(Black);
      SetBgColor(White);
    }

    method RandomizeColors(randomFg: Color, randomBg: Color)
      requires Valid()
      modifies this
      ensures Snapshot() == Randomize(old(Snapshot()), randomFg, randomBg, toGray) && Valid()
    {
      ApplyKeepsInvariant(Snapshot(), Action.RandomizeColors(randomFg, randomBg), toGray);
      SetFgColor(randomFg);
      SetBgColor(randomBg);
    }

    method SetLayerMaskEditing(editing: bool)
      requires Valid()
      modifies this
      ensures Snapshot() == WithMaskEditing(old(Snapshot()), editing, toGray) && Valid()
    {
      ApplyKeepsInvariant(Snapshot(), MaskEditing(editing), toGray);
      var oldValue := layerMaskEditing;
      layerMaskEditing := editing;
      if oldValue != editing {
        if editing {
          SetFgColor(maskFgColor);
          SetBgColor(maskBgColor);
        } else {
          SetFgColor(fgColor);
          SetBgColor(bgColor);
        }
      }
    }

    method FgButtonPressed(guiTestRunning: bool, chosen: Option<Color>)
      requires Valid()
      modifies this
      ensures Snapshot() == AfterFgDialog(old(Snapshot()), guiTestRunning, chosen, toGray) && Valid()
    {
      ApplyKeepsInvariant(Snapshot(), FgDialog(guiTestRunning, chosen), toGray);
      if guiTestRunning {
        return;
      }
      if chosen.Some? {
        SetFgColor(chosen.value);
      }
    }

    method BgButtonPressed(guiTestRunning: bool, chosen: Option<Color>)
      requires Valid()
      modifies this
      ensures Snapshot() == AfterBgDialog(old(Snapshot()), guiTestRunning, chosen, toGray) && Valid()
    {
      ApplyKeepsInvariant(Snapshot(), BgDialog(guiTestRunning, chosen), toGray);
      if guiTestRunning {
        return;
      }
      if chosen.Some? {
        SetBgColor(chosen.value);
      }
    }
  }
}
