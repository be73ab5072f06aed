/**
 * The shapes tool: a drag draws a new shape (INITIAL_DRAG); releasing a real
 * drag either opens a transform box around the shape (TRANSFORM) or, for a
 * selection-producing action, records a selection edit (NO_INTERACTION).
 * Pressing outside the transform box finalizes the pending shape into the
 * layer and starts a new one.
 *
 * Geometry, painting, the transform box's hit tests and the history are
 * collaborators: their answers arrive with the events as parameters, and
 * what the tool hands to the history is recorded in the `history` log.
 */
module Shapes {
  import opened Wrappers

  // ---------------------------------------------------------------------
  // Values
  // ---------------------------------------------------------------------

  /** An integer rectangle: corner, width and height. */
  datatype Rect = Rect(x: int, y: int, width: int, height: int)

  /** Grows a rectangle by h on the left and right and by v on the top and bottom. */
  function Grow(r: Rect, h: int, v: int): (g: Rect)
    ensures g.x == r.x - h && g.x + g.width == r.x + r.width + h
    ensures g.y == r.y - v && g.y + g.height == r.y + r.height + v
  {
    Rect(r.x - h, r.y - v, r.width + 2 * h, r.height + 2 * v)
  }

  /** A rectangle is empty when it has no positive width or no positive height. */
  predicate IsEmpty(r: Rect)
  {
    r.width <= 0 || r.height <= 0
  }

  /** The geometry family chosen in the tool's "Shape" combo box. */
  type ShapeType(==)
  /** The current user drag, converted to image space. */
  type ImDrag(==)
  /** An affine transform produced by dragging a transform-box handle. */
  type Affine(==)
  /** A selection outline. */
  type Outline(==)

  datatype ToolState = NoInteraction | InitialDrag | Transform

  /** What the chosen action does, as far as this tool asks. */
  datatype ShapesAction = ShapesAction(createSelection: bool, hasStrokePaint: bool, hasStrokeSettings: bool)

  /**
   * The stroke settings: the width and the extra thickness that the chosen
   * stroke type adds at that width.
   */
  datatype StrokeParam = StrokeParam(width: int, extraThickness: int)

  /** The tool's settings, as the settings panel holds them. */
  datatype Settings = Settings(
    shapeType: ShapeType,
    action: ShapesAction,
    strokeParam: StrokeParam,
    /** The effects panel's maximum effect thickness; None until the panel exists. */
    effectsPanel: Option<int>)

  /** The pending shape: its type and action, its drag, and the transforms applied to it so far. */
  datatype StyledShape = StyledShape(shapeType: ShapeType, action: ShapesAction,
                                     imDrag: Option<ImDrag>, transforms: seq<Affine>)

  /** The transform box, built around the drag rectangle in component space. */
  datatype TransformBox = TransformBox(coRect: Rect)

  /** An edit handed to the history. */
  datatype Edit =
    | ToolArea(area: Rect)
    | SelectionChange(backup: Outline)
    | NewSelection(shape: Outline)

  /** How a handler ended; anything but Handled is an exception or a failed assertion. */
  datatype Outcome = Handled | IllegalState | AssertionFailed | NoActiveDrawable

  /** The tool's fields, plus the log of what it handed to the history and to the layer. */
  datatype Tool = Tool(
    state: ToolState,
    transformBox: Option<TransformBox>,
    styledShape: Option<StyledShape>,
    backupSelection: Option<Outline>,
    /** The cached stroke, as the stroke parameters it was created from; None once invalidated. */
    stroke: Option<StrokeParam>,
    history: seq<Edit>,
    /** The pending shapes painted into the layer, in order. */
    finalized: seq<StyledShape>)

  datatype Step = Step(tool: Tool, outcome: Outcome)

  /** A mouse press: the box's answer, the current selection, and what finalizing needs. */
  datatype Press = Press(
    boxConsumes: bool,
    selection: Option<Outline>,
    /** The bounds of the shape the selected type builds from the current drag. */
    shapeBounds: Rect,
    hasActiveDrawable: bool,
    /** Whether the tool's current user drag is a click when the shape is finalized. */
    dragIsClick: bool)

  /** The transform box's answer to a drag: not consumed, or consumed after applying some transforms. */
  datatype BoxAnswer = NotConsumed | Consumed(applied: seq<Affine>)

  datatype Drag = Drag(box: BoxAnswer, imDrag: ImDrag)

  /** A mouse release: the box's answer, whether the gesture was a click, the drag rectangle and the selection. */
  datatype Release = Release(boxConsumes: bool, isClick: bool, coRect: Rect, selection: Option<Outline>)

  const Initial: Tool := Tool(NoInteraction, None, None, None, None, [], [])

  // ---------------------------------------------------------------------
  // The invariant
  // ---------------------------------------------------------------------

  /**
   * A transform box exists exactly in TRANSFORM, and a styled shape exists in
   * every state but NO_INTERACTION. (In NO_INTERACTION a shape may still be
   * present: a selection release does not clear it.)
   */
  predicate Inv(t: Tool)
  {
    && (t.transformBox.Some? <==> t.state == Transform)
    && (t.state != NoInteraction ==> t.styledShape.Some?)
  }

  // ---------------------------------------------------------------------
  // Pure rules
  // ---------------------------------------------------------------------

  /**
   * How far the area touched by a finalized shape reaches beyond the shape's
   * bounds: the stroke width plus its extra thickness when the action has a
   * stroke paint, or the effects' thickness plus the same extra when effects
   * exist (0 otherwise), whichever is larger; 0 when there is neither.
   */
  function CalcThickness(action: ShapesAction, stroke: StrokeParam, effectsPanel: Option<int>): (t: int)
    ensures var extra := if action.hasStrokePaint then stroke.extraThickness else 0;
      var strokeTerm := if action.hasStrokePaint then stroke.width + extra else 0;
      var effectTerm := if effectsPanel.Some? then effectsPanel.value + extra else 0;
      t >= strokeTerm && t >= effectTerm && (t == strokeTerm || t == effectTerm)
    ensures !action.hasStrokePaint && effectsPanel.None? ==> t == 0
  {
    var extra := if action.hasStrokePaint then stroke.extraThickness else 0;
    var thickness := if action.hasStrokePaint then stroke.width + extra else 0;
    var effectThickness := if effectsPanel.Some? then effectsPanel.value + extra else 0;
    if effectThickness > thickness then effectThickness else thickness
  }

  /** A change edit when a selection existed before the drag, a new-selection edit otherwise. */
  function SelectionEditFor(backup: Option<Outline>, current: Outline): (e: Edit)
    ensures e.SelectionChange? <==> backup.Some?
    ensures e.SelectionChange? ==> e.backup == backup.value
    ensures e.NewSelection? ==> e.shape == current
    ensures !e.ToolArea?
  {
    if backup.Some? then SelectionChange(backup.value) else NewSelection(current)
  }

  /** The tool paints over the layer while a shape is being drawn or transformed. */
  function DrawsOverLayer(s: ToolState): (b: bool)
    ensures b <==> s != NoInteraction
  {
    s == InitialDrag || s == Transform
  }

  function NewShape(cfg: Settings): StyledShape
  {
    StyledShape(cfg.shapeType, cfg.action, None, [])
  }

  /**
   * Paints into the layer. Nothing is painted while the current drag is a
   * click. With a selection action the composition's selection is set from
   * the shape instead (the composition is outside this model); building the
   * stroked outline then creates the stroke cache if the action has stroke
   * settings. Otherwise the pending styled shape is painted.
   */
  function PaintStep(t: Tool, cfg: Settings, isClick: bool): (r: Tool)
    requires t.styledShape.Some?
    ensures r.(finalized := t.finalized, stroke := t.stroke) == t
    ensures r.finalized == t.finalized || r.finalized == t.finalized + [t.styledShape.value]
    ensures t.stroke.Some? ==> r.stroke == t.stroke
  {
    if isClick then t
    else if cfg.action.createSelection then
      if cfg.action.hasStrokeSettings then StrokeStep(t, cfg).0 else t
    else t.(finalized := t.finalized + [t.styledShape.value])
  }

  /**
   * Finalizes the pending shape into the layer: the shape bounds grown by the
   * thickness on all four sides become a history area unless empty, and then
   * the layer is painted. Without an active drawable the operation fails
   * before anything changes.
   */
  function FinalizeStep(t: Tool, cfg: Settings, p: Press): (r: Step)
    requires t.styledShape.Some?
    ensures r.outcome != Handled ==> r.tool == t
    ensures r.outcome == Handled <==> p.hasActiveDrawable
    ensures r.tool.state == t.state && r.tool.transformBox == t.transformBox
    ensures r.tool.styledShape == t.styledShape && r.tool.backupSelection == t.backupSelection
    ensures t.history <= r.tool.history && |r.tool.history| <= |t.history| + 1
    ensures t.finalized <= r.tool.finalized && |r.tool.finalized| <= |t.finalized| + 1
  {
    var thickness := CalcThickness(cfg.action, cfg.strokeParam, cfg.effectsPanel);
    var grown := Grow(p.shapeBounds, thickness, thickness);
    if !p.hasActiveDrawable then Step(t, NoActiveDrawable)
    else
      var area := if IsEmpty(grown) then [] else [ToolArea(grown)];
      Step(PaintStep(t.(history := t.history + area), cfg, p.dragIsClick), Handled)
  }

  // ---------------------------------------------------------------------
  // The handlers
  // ---------------------------------------------------------------------

  /**
   * Mouse press. In TRANSFORM a press the box consumes changes nothing here;
   * any other press in TRANSFORM first finalizes the pending shape and drops
   * the box. Then a new shape is started and the selection backed up.
   */
  function PressStep(t: Tool, cfg: Settings, p: Press): (r: Step)
    requires Inv(t)
    ensures r.outcome != Handled ==> r.tool == t
    ensures t.history <= r.tool.history && t.finalized <= r.tool.finalized
    ensures r.outcome == Handled && !(t.state == Transform && p.boxConsumes) ==>
      r.tool.state == InitialDrag && r.tool.transformBox.None?
  {
    if t.state == Transform && p.boxConsumes then Step(t, Handled)
    else
      var f := if t.state == Transform then FinalizeStep(t, cfg, p) else Step(t, Handled);
      if f.outcome != Handled then f
      else
        var t1 := if t.state == Transform then f.tool.(transformBox := None) else f.tool;
        Step(t1.(state := InitialDrag, styledShape := Some(NewShape(cfg)), backupSelection := p.selection), Handled)
  }

  /**
   * Mouse drag. In TRANSFORM the box must consume it (and may transform the
   * shape); otherwise the pending shape follows the drag.
   */
  function DragStep(t: Tool, d: Drag): (r: Step)
    requires Inv(t)
    ensures r.outcome != Handled ==> r.tool == t
    ensures r.tool == t.(styledShape := r.tool.styledShape)
    ensures r.tool.styledShape.Some? <==> t.styledShape.Some?
  {
    if t.state == Transform then
      match d.box
      case Consumed(applied) =>
        var s := t.styledShape.value;
        Step(t.(styledShape := Some(s.(transforms := s.transforms + applied))), Handled)
      case NotConsumed => Step(t, IllegalState)
    else if t.state != InitialDrag then Step(t, AssertionFailed)
    else Step(t.(styledShape := Some(t.styledShape.value.(imDrag := Some(d.imDrag)))), Handled)
  }

  /**
   * Mouse release. In TRANSFORM the box must consume it. A click in
   * INITIAL_DRAG returns at once. A real drag opens a transform box, or,
   * for a selection action, records a selection edit when a selection
   * exists and ends the interaction; either way the stroke cache is dropped.
   */
  function ReleaseStep(t: Tool, cfg: Settings, r: Release): (s: Step)
    requires Inv(t)
    ensures s.outcome != Handled ==> s.tool == t
    ensures s.tool.styledShape == t.styledShape && s.tool.backupSelection == t.backupSelection
    ensures s.tool.finalized == t.finalized
    ensures t.history <= s.tool.history && |s.tool.history| <= |t.history| + 1
  {
    if t.state == Transform then
      if r.boxConsumes then Step(t, Handled) else Step(t, IllegalState)
    else if t.state != InitialDrag then Step(t, AssertionFailed)
    else if r.isClick then Step(t, Handled)
    else
      var t1 :=
        if !cfg.action.createSelection then
          t.(transformBox := Some(TransformBox(r.coRect)), state := Transform)
        else
          var edits := if r.selection.Some? then [SelectionEditFor(t.backupSelection, r.selection.value)] else [];
          t.(history := t.history + edits, state := NoInteraction);
      Step(t1.(stroke := None), Handled)
  }

  /** Dropping the pending shape and the box without finalizing anything. */
  function ResetStep(t: Tool): (r: Tool)
    ensures Inv(r) && !DrawsOverLayer(r.state)
    ensures r.history == t.history && r.finalized == t.finalized
    ensures r.backupSelection == t.backupSelection && r.stroke == t.stroke
  {
    t.(state := NoInteraction, transformBox := None, styledShape := None)
  }

  /** The stroke used during a gesture: the cached one, created from the current parameters when absent. */
  function StrokeStep(t: Tool, cfg: Settings): (r: (Tool, StrokeParam))
    ensures r.0 == t.(stroke := Some(r.1))
    ensures t.stroke.Some? ==> r.1 == t.stroke.value
    ensures t.stroke.None? ==> r.1 == cfg.strokeParam
  {
    if t.stroke.Some? then (t, t.stroke.value)
    else (t.(stroke := Some(cfg.strokeParam)), cfg.strokeParam)
  }

  // ---------------------------------------------------------------------
  // Properties of single handlers
  // ---------------------------------------------------------------------

  /** Every handler keeps the invariant, whether it succeeds or fails. */
  lemma HandlersKeepInv(t: Tool, cfg: Settings, p: Press, d: Drag, r: Release)
    requires Inv(t)
    ensures Inv(PressStep(t, cfg, p).tool)
    ensures Inv(DragStep(t, d).tool)
    ensures Inv(ReleaseStep(t, cfg, r).tool)
    ensures Inv(ResetStep(t))
  {
  }

  /**
   * What a successful drag does to the pending shape: in INITIAL_DRAG the
   * shape takes the new drag; in TRANSFORM a drag the box consumes appends
   * the transforms the box applied. Everything else about the shape stays.
   */
  lemma DragUpdatesShape(t: Tool, d: Drag)
    requires Inv(t)
    ensures t.state == InitialDrag ==>
      var s := DragStep(t, d);
      && s.outcome == Handled
      && s.tool.styledShape == Some(t.styledShape.value.(imDrag := Some(d.imDrag)))
    ensures t.state == Transform && d.box.Consumed? ==>
      var s := DragStep(t, d);
      && s.outcome == Handled
      && s.tool.styledShape.Some?
      && s.tool.styledShape.value.transforms == t.styledShape.value.transforms + d.box.applied
      && s.tool.styledShape.value.(transforms := t.styledShape.value.transforms) == t.styledShape.value
    ensures t.state == NoInteraction ==> DragStep(t, d) == Step(t, AssertionFailed)
  {
  }

  /** In TRANSFORM, a press the box consumes leaves the tool as it is. */
  lemma PressConsumedByBox(t: Tool, cfg: Settings, p: Press)
    requires Inv(t) && t.state == Transform && p.boxConsumes
    ensures PressStep(t, cfg, p) == Step(t, Handled)
  {
  }

  /**
   * Any other press (that can finalize) starts a fresh shape in INITIAL_DRAG
   * with the selection backed up and no box. Coming from TRANSFORM, the grown
   * area is recorded when non-empty and the layer is painted once: the old
   * shape unless the drag is a click or a selection action is chosen.
   * Otherwise nothing is painted and the history is untouched.
   */
  lemma PressStartsNewShape(t: Tool, cfg: Settings, p: Press)
    requires Inv(t) && !(t.state == Transform && p.boxConsumes)
    requires t.state == Transform ==> p.hasActiveDrawable
    ensures var s := PressStep(t, cfg, p);
      && s.outcome == Handled
      && s.tool.state == InitialDrag
      && s.tool.styledShape == Some(NewShape(cfg))
      && s.tool.backupSelection == p.selection
      && s.tool.transformBox.None?
    ensures var s := PressStep(t, cfg, p);
      var th := CalcThickness(cfg.action, cfg.strokeParam, cfg.effectsPanel);
      var grown := Grow(p.shapeBounds, th, th);
      if t.state == Transform then
        && s.tool.finalized == t.finalized
             + (if !p.dragIsClick && !cfg.action.createSelection then [t.styledShape.value] else [])
        && s.tool.history == t.history + (if IsEmpty(grown) then [] else [ToolArea(grown)])
        && s.tool.stroke == PaintStep(t, cfg, p.dragIsClick).stroke
      else
        s.tool.finalized == t.finalized && s.tool.history == t.history && s.tool.stroke == t.stroke
  {
  }

  /**
   * Painting follows the three branches of `paintShape`: the pending shape is
   * painted exactly when the drag is not a click and the action does not
   * create a selection, and the stroke cache changes exactly when a selection
   * is built from a stroked outline while the cache is empty.
   */
  lemma PaintShapeCases(t: Tool, cfg: Settings, isClick: bool)
    requires t.styledShape.Some?
    ensures var r := PaintStep(t, cfg, isClick);
      && (r.finalized == t.finalized + [t.styledShape.value] <==> !isClick && !cfg.action.createSelection)
      && (r.finalized == t.finalized <==> isClick || cfg.action.createSelection)
      && (r.stroke != t.stroke <==>
            !isClick && cfg.action.createSelection && cfg.action.hasStrokeSettings && t.stroke.None?)
  {
  }

  /** A press outside the box without an active drawable fails and changes nothing. */
  lemma PressWithoutDrawable(t: Tool, cfg: Settings, p: Press)
    requires Inv(t) && t.state == Transform && !p.boxConsumes && !p.hasActiveDrawable
    ensures PressStep(t, cfg, p) == Step(t, NoActiveDrawable)
  {
  }

  /**
   * Releasing a click in INITIAL_DRAG returns early: the tool stays in
   * INITIAL_DRAG, no box, no edit, and the stroke cache is kept.
   */
  lemma ClickReleaseKeepsInitialDrag(t: Tool, cfg: Settings, r: Release)
    requires Inv(t) && t.state == InitialDrag && r.isClick
    ensures ReleaseStep(t, cfg, r) == Step(t, Handled)
    ensures ReleaseStep(t, cfg, r).tool.state == InitialDrag
  {
  }

  /**
   * Releasing a real drag: a non-selection action enters TRANSFORM with a box
   * around the drag rectangle; a selection action ends the interaction,
   * adding one selection edit when a selection exists and keeping the styled
   * shape. The stroke cache is dropped in both cases.
   */
  lemma RealDragRelease(t: Tool, cfg: Settings, r: Release)
    requires Inv(t) && t.state == InitialDrag && !r.isClick
    ensures var s := ReleaseStep(t, cfg, r);
      && s.outcome == Handled
      && s.tool.stroke.None?
      && s.tool.styledShape == t.styledShape
      && s.tool.finalized == t.finalized
    ensures var s := ReleaseStep(t, cfg, r);
      !cfg.action.createSelection ==>
        s.tool.state == Transform && s.tool.transformBox == Some(TransformBox(r.coRect))
        && s.tool.history == t.history
    ensures var s := ReleaseStep(t, cfg, r);
      cfg.action.createSelection ==>
        && s.tool.state == NoInteraction && s.tool.transformBox.None?
        && s.tool.history == t.history
             + (if r.selection.Some? then [SelectionEditFor(t.backupSelection, r.selection.value)] else [])
  {
  }

  /** In TRANSFORM, a drag or release the box does not consume is an illegal state, and nothing changes. */
  lemma UnconsumedInTransformIsIllegal(t: Tool, cfg: Settings, d: Drag, r: Release)
    requires Inv(t) && t.state == Transform
    ensures d.box.NotConsumed? ==> DragStep(t, d) == Step(t, IllegalState)
    ensures !r.boxConsumes ==> ReleaseStep(t, cfg, r) == Step(t, IllegalState)
    ensures r.boxConsumes ==> ReleaseStep(t, cfg, r) == Step(t, Handled)
  {
  }

  /** Reset ends in NO_INTERACTION without a box or a shape, and finalizes nothing. */
  lemma ResetClearsPending(t: Tool)
    ensures var r := ResetStep(t);
      && r.state == NoInteraction && r.transformBox.None? && r.styledShape.None?
      && r.history == t.history && r.finalized == t.finalized
      && !DrawsOverLayer(r.state)
  {
  }

  /** The cached stroke stays the same until invalidated, whatever the parameters become. */
  lemma StrokeStableWithinGesture(t: Tool, cfg1: Settings, cfg2: Settings)
    ensures var (t1, s1) := StrokeStep(t, cfg1);
      var (t2, s2) := StrokeStep(t1, cfg2);
      s2 == s1 && t2 == t1
    ensures t.stroke.None? ==> StrokeStep(t, cfg1).1 == cfg1.strokeParam
  {
  }

  /**
   * The thickness never shrinks when the stroke width or the effect thickness
   * grows, provided the stroke type's extra thickness, which it computes from
   * the width, does not shrink either.
   */
  lemma ThicknessMonotonic(action: ShapesAction, w1: int, w2: int, x1: int, x2: int, e1: int, e2: int)
    requires w1 <= w2 && x1 <= x2 && e1 <= e2
    ensures CalcThickness(action, StrokeParam(w1, x1), Some(e1))
         <= CalcThickness(action, StrokeParam(w2, x2), Some(e2))
    ensures CalcThickness(action, StrokeParam(w1, x1), None)
         <= CalcThickness(action, StrokeParam(w2, x2), None)
  {
  }

  /**
   * Without that proviso a wider stroke can give a smaller thickness: an
   * extra thickness that falls as the width grows outweighs the width.
   */
  lemma ThicknessNeedsMonotoneExtra(action: ShapesAction)
    requires action.hasStrokePaint
    ensures CalcThickness(action, StrokeParam(1, 5), None) > CalcThickness(action, StrokeParam(2, 0), None)
  {
  }

  /** Growing by a non-negative amount gives a rectangle that contains the original. */
  lemma GrowContains(r: Rect, k: int)
    requires k >= 0
    ensures var g := Grow(r, k, k);
      g.x <= r.x && g.y <= r.y && r.x + r.width <= g.x + g.width && r.y + r.height <= g.y + g.height
    ensures !IsEmpty(r) ==> !IsEmpty(Grow(r, k, k))
  {
  }

  // ---------------------------------------------------------------------
  // Event sequences
  // ---------------------------------------------------------------------

  datatype Event =
    | MousePressed(p: Press)
    | MouseDragged(d: Drag)
    | MouseReleased(r: Release)
    | ToolReset
    | SettingsChanged(cfg: Settings)

  /** The tool after a sequence of events, each handled with the settings in force. */
  function Run(t: Tool, cfg: Settings, events: seq<Event>): (r: Tool)
    requires Inv(t)
    ensures Inv(r)
    decreases |events|
  {
    if events == [] then t
    else
      match events[0]
      case MousePressed(p) => Run(PressStep(t, cfg, p).tool, cfg, events[1..])
      case MouseDragged(d) => Run(DragStep(t, d).tool, cfg, events[1..])
      case MouseReleased(r) => Run(ReleaseStep(t, cfg, r).tool, cfg, events[1..])
      case ToolReset => Run(ResetStep(t), cfg, events[1..])
      case SettingsChanged(c) => Run(t, c, events[1..])
  }

  /**
   * Over any sequence of events, what the tool handed to the history and the
   * shapes it finalized are only ever extended at the end.
   */
  lemma {:induction false} RunOnlyAppends(t: Tool, cfg: Settings, events: seq<Event>)
    requires Inv(t)
    ensures t.history <= Run(t, cfg, events).history
    ensures t.finalized <= Run(t, cfg, events).finalized
    decreases |events|
  {
    if events != [] {
      match events[0]
      case MousePressed(p) =>
        RunOnlyAppends(PressStep(t, cfg, p).tool, cfg, events[1..]);
      case MouseDragged(d) =>
        RunOnlyAppends(DragStep(t, d).tool, cfg, events[1..]);
      case MouseReleased(r) =>
        RunOnlyAppends(ReleaseStep(t, cfg, r).tool, cfg, events[1..]);
      case ToolReset =>
        RunOnlyAppends(ResetStep(t), cfg, events[1..]);
      case SettingsChanged(c) =>
        RunOnlyAppends(t, c, events[1..]);
    }
  }

  /**
   * A styled shape may outlive the interaction: `dragFinished`
   * leaves its `styledShape = null` commented out, so after a press and a real
   * release with a selection action the tool is in NO_INTERACTION and still
   * holds the styled shape.
   */
  lemma SelectionReleaseKeepsShape(cfg: Settings, p: Press, r: Release)
    requires cfg.action.createSelection && !r.isClick
    ensures var t := Run(Initial, cfg, [MousePressed(p), MouseReleased(r)]);
      t.state == NoInteraction && t.styledShape == Some(NewShape(cfg))
  {
    var t1 := PressStep(Initial, cfg, p).tool;
    assert t1.state == InitialDrag && t1.styledShape == Some(NewShape(cfg));
    var t2 := ReleaseStep(t1, cfg, r).tool;
    assert t2.state == NoInteraction && t2.styledShape == Some(NewShape(cfg));
    assert Run(t2, cfg, []) == t2;
    assert [MousePressed(p), MouseReleased(r)][1..] == [MouseReleased(r)];
    assert Run(t1, cfg, [MouseReleased(r)]) == Run(t2, cfg, []);
  }

  /**
   * A shape drawn with a fill action and then held in TRANSFORM is not painted
   * when the action is switched to a selection action before the press
   * outside the box: finalizing takes the action selected at that moment.
   */
  lemma ActionSwitchedBeforeFinalizePaintsNothing(
    fill: Settings, sel: Settings, p1: Press, r: Release, p2: Press)
    requires !fill.action.createSelection && sel.action.createSelection
    requires !r.isClick && !p2.boxConsumes && p2.hasActiveDrawable
    ensures var t := Run(Initial, fill, [MousePressed(p1), MouseReleased(r), SettingsChanged(sel), MousePressed(p2)]);
      t.state == InitialDrag && t.finalized == []
  {
    var events := [MousePressed(p1), MouseReleased(r), SettingsChanged(sel), MousePressed(p2)];
    var t1 := PressStep(Initial, fill, p1).tool;
    var t2 := ReleaseStep(t1, fill, r).tool;
    assert t2.state == Transform && t2.finalized == [];
    var t3 := PressStep(t2, sel, p2).tool;
    assert t3.finalized == [] by {
      PaintShapeCases(t2, sel, p2.dragIsClick);
    }
    assert Run(t3, sel, []) == t3;
    assert events[3..] == [MousePressed(p2)] && events[3..][1..] == [];
    assert Run(t2, sel, events[3..]) == t3;
    assert events[2..] == [SettingsChanged(sel), MousePressed(p2)] && events[2..][1..] == events[3..];
    assert Run(t2, fill, events[2..]) == t3;
    assert events[1..] == [MouseReleased(r)] + events[2..] && events[1..][1..] == events[2..];
    assert Run(t1, fill, events[1..]) == t3;
  }

  // ---------------------------------------------------------------------
  // The tool object
  // ---------------------------------------------------------------------

  class ShapesTool {
    var state: ToolState
    var transformBox: Option<TransformBox>
    var styledShape: Option<StyledShape>
    var backupSelectionShape: Option<Outline>
    /** The lazily created stroke; None when it must be recreated. */
    var stroke: Option<StrokeParam>
    /** The edits this tool handed to the history. */
    var history: seq<Edit>
    /** The pending shapes this tool finalized into the layer. */
    var finalized: seq<StyledShape>

    var selectedType: ShapeType
    var selectedAction: ShapesAction
    var strokeParam: StrokeParam
    var effectsPanel: Option<int>

    function Snapshot(): Tool
      reads this
    {
      Tool(state, transformBox, styledShape, backupSelectionShape, stroke, history, finalized)
    }

    function CurrentSettings(): Settings
      reads this
    {
      Settings(selectedType, selectedAction, strokeParam, effectsPanel)
    }

    ghost predicate Valid()
      reads this
    {
      Inv(Snapshot())
    }

    constructor (shapeType: ShapeType, action: ShapesAction, strokeParam: StrokeParam)
      ensures Snapshot() == Initial && Valid()
      ensures CurrentSettings() == Settings(shapeType, action, strokeParam, None)
    {
      state := NoInteraction;
      transformBox, styledShape, backupSelectionShape := None, None, None;
      stroke := None;
      history, finalized := [], [];
      selectedType, selectedAction := shapeType, action;
      this.strokeParam := strokeParam;
      effectsPanel := None;
    }

    /** The effects panel is created the first time the effects dialog is shown. */
    method ShowEffectsDialog(initialMaxEffectThickness: int)
      modifies this`effectsPanel
      ensures effectsPanel == if old(effectsPanel).None? then Some(initialMaxEffectThickness) else old(effectsPanel)
    {
      if effectsPanel.None? {
        effectsPanel := Some(initialMaxEffectThickness);
      }
    }

    method DragStarted(p: Press) returns (o: Outcome)
      requires Valid()
      modifies this`state, this`transformBox, this`styledShape, this`backupSelectionShape,
               this`history, this`finalized, this`stroke
      ensures Step(Snapshot(), o) == PressStep(old(Snapshot()), CurrentSettings(), p) && Valid()
    {
      if state == Transform {
        if p.boxConsumes {
          return Handled;
        }
        // pressed outside the transform box: finish the existing shape
        o := FinalizeShape(p);
        if o != Handled {
          return;
        }
        transformBox := None;
      }
      state := InitialDrag;
      styledShape := Some(NewShape(CurrentSettings()));
      backupSelectionShape := p.selection;
      o := Handled;
    }

    method OngoingDrag(d: Drag) returns (o: Outcome)
      requires Valid()
      modifies this`styledShape
      ensures Step(Snapshot(), o) == DragStep(old(Snapshot()), d) && Valid()
    {
      if state == Transform {
        match d.box
        case Consumed(applied) =>
          var s := styledShape.value;
          styledShape := Some(s.(transforms := s.transforms + applied));
          return Handled;
        case NotConsumed =>
          return IllegalState;
      }
      if state != InitialDrag {
        return AssertionFailed;
      }
      styledShape := Some(styledShape.value.(imDrag := Some(d.imDrag)));
      o := Handled;
    }

    method DragFinished(r: Release) returns (o: Outcome)
      requires Valid()
      modifies this`state, this`transformBox, this`history, this`stroke
      ensures Step(Snapshot(), o) == ReleaseStep(old(Snapshot()), CurrentSettings(), r) && Valid()
    {
      if state == Transform {
        return if r.boxConsumes then Handled else IllegalState;
      }
      if state != InitialDrag {
        return AssertionFailed;
      }
      if r.isClick {
        return Handled;
      }
      if !selectedAction.createSelection {
        transformBox := Some(TransformBox(r.coRect));
        state := Transform;
      } else {
        if r.selection.Some? {
          AddSelectionEdit(r.selection.value);
        }
        state := NoInteraction;
      }
      stroke := None;
      o := Handled;
    }

    /**
     * Paints into the layer, first recording the area it may touch (the shape
     * bounds grown by the thickness) unless that is empty.
     */
    method FinalizeShape(p: Press) returns (o: Outcome)
      requires styledShape.Some?
      modifies this`history, this`finalized, this`stroke
      ensures Step(Snapshot(), o) == FinalizeStep(old(Snapshot()), CurrentSettings(), p)
    {
      var thickness := CalcThickness(selectedAction, strokeParam, effectsPanel);
      var shapeBounds := Grow(p.shapeBounds, thickness, thickness);
      if !p.hasActiveDrawable {
        return NoActiveDrawable;
      }
      if !IsEmpty(shapeBounds) {
        history := history + [ToolArea(shapeBounds)];
      }
      PaintShape(p.dragIsClick);
      o := Handled;
    }

    /**
     * Nothing for a click; for a selection action only the stroked outline
     * is built (the selection it sets belongs to the composition); otherwise
     * the pending shape is painted.
     */
    method PaintShape(isClick: bool)
      requires styledShape.Some?
      modifies this`finalized, this`stroke
      ensures Snapshot() == PaintStep(old(Snapshot()), CurrentSettings(), isClick)
    {
      if isClick {
        return;
      }
      if selectedAction.createSelection {
        if selectedAction.hasStrokeSettings {
          var _ := GetStroke();
        }
      } else {
        finalized := finalized + [styledShape.value];
      }
    }

    method AddSelectionEdit(selection: Outline)
      modifies this`history
      ensures history == old(history) + [SelectionEditFor(backupSelectionShape, selection)]
    {
      var edit: Edit;
      if backupSelectionShape.Some? {
        edit := SelectionChange(backupSelectionShape.value);
      } else {
        edit := NewSelection(selection);
      }
      history := history + [edit];
    }

    function ShouldDrawOverLayer(): (b: bool)
      reads this
      ensures b <==> state != NoInteraction
    {
      state == InitialDrag || state == Transform
    }

    method ResetStateToInitial()
      modifies this`state, this`transformBox, this`styledShape
      ensures Snapshot() == ResetStep(old(Snapshot())) && Valid()
    {
      state := NoInteraction;
      transformBox := None;
      styledShape := None;
    }

    method GetStroke() returns (s: StrokeParam)
      modifies this`stroke
      ensures (Snapshot(), s) == StrokeStep(old(Snapshot()), CurrentSettings())
    {
      if stroke.None? {
        stroke := Some(strokeParam);
      }
      s := stroke.value;
    }
  }
}
