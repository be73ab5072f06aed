# Pixelitor: shapes tool, color selector and gradient points in Dafny

This project models three pieces of state logic from the Pixelitor image editor:

- **The shapes tool** (`shapes.dfy`, module `Shapes`). This is the interaction state machine NO_INTERACTION → INITIAL_DRAG → TRANSFORM. It is driven by mouse press, drag and release and by an explicit reset. It also covers:
  - the thickness rule that decides how far a finalized shape may reach beyond its bounds;
  - the grown "tool area" recorded in the history when the pending shape is finalized;
  - the choice between a selection-change edit and a new-selection edit.

  The tool is a `class ShapesTool` whose fields are the ones in the source: `state`, `transformBox`, `styledShape`, `backupSelectionShape` and the lazily created `stroke`. Each handler is specified by a pure step function on a `Tool` snapshot (`PressStep`, `DragStep`, `ReleaseStep`, `ResetStep`, `FinalizeStep`, `PaintStep`, `StrokeStep`). The properties are lemmas about those functions. `Run` folds a sequence of events, and the invariant and the append-only logs are proved over any event sequence.
- **The foreground/background color selector** (`colors.dfy`, module `Colors`). It has four colors (a normal pair and a layer-mask pair), the mask-mode flag, the two color histories and the two button backgrounds. The operations are set, swap, reset, randomize, mode toggle and the color-dialog handlers. `class FgBgColorSelector` is specified by pure functions on a `Selector` snapshot. `Run` over any sequence of user actions keeps the buttons showing the active pair and only appends to the histories.
- **The gradient defining points** (`gradient.dfy`, module `Gradient`). When an end point moves, the shared center moves to the Java integer midpoint of the two end points. Java's 32-bit wrap-around and truncating division are written out in `java_int.dfy` (module `JavaInt`).

Collaborators are parameters:

- the transform box's hit tests, as "consumed / not consumed" answers;
- geometry: shape bounds, drag rectangles, affine transforms, selection outlines (opaque types);
- the presence of an active drawable;
- the gray conversion of a color;
- the color dialog's result;
- the random colors;
- the end-point constraint function;
- the component-to-image conversion.

What the tool hands to the undo history is recorded as a log (`history`). Java `assert` failures, `IllegalStateException` and the missing-drawable exception become an `Outcome` other than `Handled`, and the state is left unchanged on those paths.

Four behaviours of the code are easy to miss, and the model keeps them:

- `dragFinished` returns at once when the user drag is a click (ShapesTool.java:219-221). A click release therefore leaves the tool in INITIAL_DRAG with nothing else changed.
- `dragFinished` leaves `styledShape = null` commented out (ShapesTool.java:241). After a release with a selection action, the tool is in NO_INTERACTION and still holds the shape; `Shapes.SelectionReleaseKeepsShape` exhibits this. So the presence of a styled shape does not tell whether the tool is in NO_INTERACTION. The invariant that does hold is `Shapes.Inv`: a box exists exactly in TRANSFORM, and a shape exists in every state but NO_INTERACTION.
- A selection edit is added through the composition's `onSelection` callback (ShapesTool.java:236), so only when the composition has a selection at release time.
- Finalizing paints through `paintShape` (ShapesTool.java:406-435), which looks at the action selected at that moment. It paints nothing for a click. With a selection action it sets the composition's selection instead of painting the pending shape. `Shapes.ActionSwitchedBeforeFinalizePaintsNothing` exhibits the case where a shape drawn with a fill action is never painted.

## Model

| member | source | states |
|---|---|---|
| `Shapes.CalcThickness` | src/main/java/pixelitor/tools/shapes/ShapesTool.java:287-311 | The result is the larger of two terms. The stroke term is width plus the stroke type's extra thickness with a stroke paint, else 0. The effect term is the effects' thickness plus the same extra when the effects panel exists, else 0. The result is at least each term and equals one of them; it is 0 with no stroke paint and no panel. |
| `Shapes.ThicknessMonotonic` | src/main/java/pixelitor/tools/shapes/ShapesTool.java:287-311 | The thickness never decreases when the stroke width, the stroke type's extra thickness and the effect thickness all grow, with or without an effects panel. Monotonicity in the width alone thus rests on `getExtraThickness` being monotone. |
| `Shapes.ThicknessNeedsMonotoneExtra` | src/main/java/pixelitor/tools/shapes/ShapesTool.java:291-295 | With a stroke paint, width 1 with extra 5 gives a larger thickness than width 2 with extra 0, so a width increase alone does not guarantee a larger thickness. |
| `Shapes.Grow` | src/main/java/pixelitor/tools/shapes/ShapesTool.java:260-261 | Growing moves the left and top edges out by h and v, and the right and bottom edges out by the same amounts. |
| `Shapes.GrowContains` | src/main/java/pixelitor/tools/shapes/ShapesTool.java:259-264 | Grown by a non-negative thickness, the bounds contain the original shape bounds, and a non-empty rectangle stays non-empty. |
| `Shapes.SelectionEditFor` | src/main/java/pixelitor/tools/shapes/ShapesTool.java:275-285 | The edit is a selection-change edit carrying the backup iff a backup selection existed; otherwise it is a new-selection edit carrying the current selection. Never a tool-area edit. |
| `Shapes.DrawsOverLayer` | src/main/java/pixelitor/tools/shapes/ShapesTool.java:438-441 | True exactly when the state is not NO_INTERACTION, that is in INITIAL_DRAG or TRANSFORM. |
| `Shapes.ShapesTool.ShouldDrawOverLayer` | src/main/java/pixelitor/tools/shapes/ShapesTool.java:438-441 | The tool object's query: true exactly when its state is not NO_INTERACTION. |
| `Shapes.HandlersKeepInv` | src/main/java/pixelitor/tools/shapes/ShapesTool.java:159-242 | Press, drag, release and reset all keep the invariant, on success and on every error path: a box exists exactly in TRANSFORM, and a styled shape exists outside NO_INTERACTION. |
| `Shapes.Run` | src/main/java/pixelitor/tools/shapes/ShapesTool.java:159-242 | Starting from a state that satisfies the invariant, any sequence of presses, drags, releases, resets and settings changes ends in a state that satisfies it. |
| `Shapes.PressConsumedByBox` | src/main/java/pixelitor/tools/shapes/ShapesTool.java:160-165 | In TRANSFORM, a press the transform box consumes leaves every field unchanged. |
| `Shapes.PressStartsNewShape` | src/main/java/pixelitor/tools/shapes/ShapesTool.java:166-176 | Any other press ends in INITIAL_DRAG with a fresh styled shape from the selected type and action, the current selection as backup and no box. From TRANSFORM the grown bounds are recorded when non-empty. The old shape is painted once unless the drag is a click or a selection action is selected, and the stroke cache changes only as painting changes it. From any other state nothing is painted or recorded and the stroke cache is untouched. |
| `Shapes.PressWithoutDrawable` | src/main/java/pixelitor/tools/shapes/ShapesTool.java:255-263 | A press outside the box with no active drawable fails and changes nothing; the box is not dropped. |
| `Shapes.ClickReleaseKeepsInitialDrag` | src/main/java/pixelitor/tools/shapes/ShapesTool.java:217-221 | Releasing a click in INITIAL_DRAG changes nothing. The state stays INITIAL_DRAG, no box is built, no edit is added and the stroke cache is kept. |
| `Shapes.RealDragRelease` | src/main/java/pixelitor/tools/shapes/ShapesTool.java:223-241 | A real release with a non-selection action enters TRANSFORM with a box around the drag rectangle. With a selection action it enters NO_INTERACTION and adds exactly one selection edit when a selection exists. Both invalidate the stroke cache, keep the styled shape and finalize nothing. |
| `Shapes.UnconsumedInTransformIsIllegal` | src/main/java/pixelitor/tools/shapes/ShapesTool.java:180-186 | In TRANSFORM, a drag or release the box does not consume is an illegal-state error that changes nothing. A consumed release changes nothing either. |
| `Shapes.ResetClearsPending` | src/main/java/pixelitor/tools/shapes/ShapesTool.java:459-464 | Reset yields NO_INTERACTION with neither box nor shape. It finalizes nothing and records nothing, and the tool then stops drawing over the layer. |
| `Shapes.StrokeStableWithinGesture` | src/main/java/pixelitor/tools/shapes/ShapesTool.java:81-83 | Once created, the cached stroke is returned again unchanged even if the stroke parameters change. An invalidated cache is rebuilt from the current parameters. |
| `Shapes.Inv` | src/main/java/pixelitor/tools/shapes/ShapesTool.java:159-242 | The invariant the handlers keep: a transform box exists exactly in TRANSFORM, and a styled shape exists in every state but NO_INTERACTION. |
| `Shapes.IsEmpty` | src/main/java/pixelitor/tools/shapes/ShapesTool.java:264 | `Rectangle.isEmpty`: a rectangle without positive width or positive height. A tool area is recorded only when the grown bounds are not empty. |
| `Shapes.NewShape` | src/main/java/pixelitor/tools/shapes/ShapesTool.java:174 | The styled shape a press starts: the selected type and action, no drag yet and no transforms. |
| `Shapes.DragUpdatesShape` | src/main/java/pixelitor/tools/shapes/ShapesTool.java:179-197 | In INITIAL_DRAG a drag succeeds and the shape takes the new image-space drag. In TRANSFORM a consumed drag succeeds and the shape's transforms grow by exactly those the box applied, all else about it kept. In NO_INTERACTION the drag is a failed assertion that changes nothing. |
| `Shapes.PressStep` | src/main/java/pixelitor/tools/shapes/ShapesTool.java:159-176 | A failed press changes nothing, and the logs only grow. A handled press that the box did not consume ends in INITIAL_DRAG without a box. |
| `Shapes.DragStep` | src/main/java/pixelitor/tools/shapes/ShapesTool.java:179-204 | A drag changes at most the styled shape, and only on success; a shape is present afterwards exactly when it was before. |
| `Shapes.ReleaseStep` | src/main/java/pixelitor/tools/shapes/ShapesTool.java:207-242 | A failed release changes nothing. A release keeps the styled shape, the backup and the painted shapes, and adds at most one edit to the history. |
| `Shapes.ResetStep` | src/main/java/pixelitor/tools/shapes/ShapesTool.java:459-464 | Reset satisfies the invariant and stops drawing over the layer; it keeps the logs, the backup and the stroke cache. |
| `Shapes.FinalizeStep` | src/main/java/pixelitor/tools/shapes/ShapesTool.java:255-273 | Without an active drawable it fails and changes nothing. Otherwise it adds at most one area edit and paints at most one shape; state, box, shape and backup stay. |
| `Shapes.PaintStep` | src/main/java/pixelitor/tools/shapes/ShapesTool.java:406-435 | Painting changes only the painted shapes and the stroke cache. It adds at most the pending shape, and a created stroke cache is kept. |
| `Shapes.PaintShapeCases` | src/main/java/pixelitor/tools/shapes/ShapesTool.java:406-435 | The pending shape is painted exactly when the drag is not a click and the action does not create a selection. The stroke cache changes exactly when a selection is built from a stroked outline while the cache is empty. |
| `Shapes.ActionSwitchedBeforeFinalizePaintsNothing` | src/main/java/pixelitor/tools/shapes/ShapesTool.java:413-434 | Draw a shape with a fill action into TRANSFORM, switch to a selection action, and press outside the box: the tool starts a new shape and has painted nothing. |
| `Shapes.StrokeStep` | src/main/java/pixelitor/tools/shapes/ShapesTool.java:81-83 | Only the stroke cache changes, and it then holds the returned stroke. That stroke is the cached one when present and is built from the current parameters otherwise. |
| `Shapes.RunOnlyAppends` | src/main/java/pixelitor/tools/shapes/ShapesTool.java:255-285 | Over any event sequence, the edits handed to the history and the finalized shapes only grow at the end. |
| `Shapes.SelectionReleaseKeepsShape` | src/main/java/pixelitor/tools/shapes/ShapesTool.java:235-241 | After a press and a real release with a selection action, the tool is in NO_INTERACTION yet still holds the styled shape. |
| `Shapes.ShapesTool.constructor` | src/main/java/pixelitor/tools/shapes/ShapesTool.java:94-117 | A new tool is in NO_INTERACTION with no box, shape, backup or cached stroke, and with no effects panel. |
| `Shapes.ShapesTool.ShowEffectsDialog` | src/main/java/pixelitor/tools/shapes/ShapesTool.java:143-156 | The effects panel is created only the first time; later calls keep it. |
| `Shapes.ShapesTool.DragStarted` | src/main/java/pixelitor/tools/shapes/ShapesTool.java:159-176 | The new fields and the outcome are those of `PressStep`, and the invariant is kept. |
| `Shapes.ShapesTool.OngoingDrag` | src/main/java/pixelitor/tools/shapes/ShapesTool.java:179-204 | The shape follows the drag in INITIAL_DRAG and takes the box's transforms in TRANSFORM. An unconsumed drag in TRANSFORM is an illegal state; in NO_INTERACTION it is a failed assertion. |
| `Shapes.ShapesTool.DragFinished` | src/main/java/pixelitor/tools/shapes/ShapesTool.java:207-242 | The new fields and the outcome are those of `ReleaseStep`, and the invariant is kept. |
| `Shapes.ShapesTool.FinalizeShape` | src/main/java/pixelitor/tools/shapes/ShapesTool.java:255-273 | The new fields and the outcome are those of `FinalizeStep`: the grown area is recorded unless empty, then the layer is painted. Without an active drawable nothing changes. |
| `Shapes.ShapesTool.PaintShape` | src/main/java/pixelitor/tools/shapes/ShapesTool.java:406-435 | The new fields are those of `PaintStep`. |
| `Shapes.ShapesTool.AddSelectionEdit` | src/main/java/pixelitor/tools/shapes/ShapesTool.java:275-285 | The history grows by exactly `SelectionEditFor(backup, selection)`. |
| `Shapes.ShapesTool.ResetStateToInitial` | src/main/java/pixelitor/tools/shapes/ShapesTool.java:460-464 | The state becomes NO_INTERACTION and both the box and the shape are cleared; nothing else changes. |
| `Shapes.ShapesTool.GetStroke` | src/main/java/pixelitor/tools/shapes/ShapesTool.java:490-492 | Returns the cached stroke, creating it from the current parameters when it is absent. |
| `Colors.SetFg` | src/main/java/pixelitor/colors/FgBgColorSelector.java:266-278 | The active foreground becomes the gray of the color in mask mode and the color itself otherwise. It is shown on the button and appended to the foreground history. |
| `Colors.SetBg` | src/main/java/pixelitor/colors/FgBgColorSelector.java:280-292 | The same for the background and the background history. |
| `Colors.GetFg` | src/main/java/pixelitor/colors/FgBgColorSelector.java:258-260 | The active foreground of a selector state: the mask foreground in mask mode, the foreground otherwise. |
| `Colors.GetBg` | src/main/java/pixelitor/colors/FgBgColorSelector.java:262-264 | The active background of a selector state: the mask background in mask mode, the background otherwise. |
| `Colors.ButtonsShowActive` | src/main/java/pixelitor/colors/FgBgColorSelector.java:266-292 | The selector's invariant: the foreground button shows the active foreground and the background button the active background, as the setters' `setBackground` calls keep them. |
| `Colors.Initial` | src/main/java/pixelitor/colors/FgBgColorSelector.java:63-79 | After construction the mode is normal and the active pair is the loaded pair. |
| `Colors.Swap` | src/main/java/pixelitor/colors/FgBgColorSelector.java:182-195 | Swap keeps the mode, the buttons show the new active pair, and each history gains the new active color. |
| `Colors.Reset` | src/main/java/pixelitor/colors/FgBgColorSelector.java:168-174 | Reset keeps the mode and makes the active pair black and white, or their grays in mask mode; the buttons show it. |
| `Colors.Randomize` | src/main/java/pixelitor/colors/FgBgColorSelector.java:203-210 | The active pair becomes the two generated colors, or their grays in mask mode; the mode is kept and the buttons show the pair. |
| `Colors.WithMaskEditing` | src/main/java/pixelitor/colors/FgBgColorSelector.java:300-314 | The mode becomes the requested one. A real mode change leaves the buttons showing the newly active pair, and the invariant is kept either way. |
| `Colors.AfterFgDialog` | src/main/java/pixelitor/colors/FgBgColorSelector.java:245-256 | The background side and the mode are untouched, and the invariant is kept. |
| `Colors.AfterBgDialog` | src/main/java/pixelitor/colors/FgBgColorSelector.java:232-243 | The foreground side and the mode are untouched, and the invariant is kept. |
| `Colors.SetFgTouchesOnlyActiveFg` | src/main/java/pixelitor/colors/FgBgColorSelector.java:266-278 | In mask mode only the mask foreground changes, to the gray of the color; otherwise only the foreground changes, to the color. The other three colors, the mode and the background history and button are unchanged. |
| `Colors.SetBgTouchesOnlyActiveBg` | src/main/java/pixelitor/colors/FgBgColorSelector.java:280-292 | The symmetric statement for the background setter. |
| `Colors.GettersFollowMode` | src/main/java/pixelitor/colors/FgBgColorSelector.java:258-264 | The getters return the mask pair in mask mode and the normal pair otherwise. |
| `Colors.SwapExchangesActivePair` | src/main/java/pixelitor/colors/FgBgColorSelector.java:185-193 | Swap exchanges the active foreground and background; in mask mode each passes through the gray conversion. The inactive pair and the mode are unchanged, and each history gets the new active color. |
| `Colors.SwapTwiceRestoresNormalPair` | src/main/java/pixelitor/colors/FgBgColorSelector.java:189-193 | In normal mode, two swaps restore all four colors and the mode, and each history grows by two entries. |
| `Colors.SwapTwiceInMaskMode` | src/main/java/pixelitor/colors/FgBgColorSelector.java:185-188 | In mask mode, two swaps apply the gray conversion twice to each mask color. The mask pair is restored when both colors are already gray. |
| `Colors.ResetGivesDefaults` | src/main/java/pixelitor/colors/FgBgColorSelector.java:168-174 | In normal mode reset makes the foreground black and the background white and leaves the mask pair alone. In mask mode it sets the grays of black and white and leaves the normal pair alone. |
| `Colors.SameModeIsNoOp` | src/main/java/pixelitor/colors/FgBgColorSelector.java:300-304 | Setting the mask mode to its current value changes nothing, histories included. |
| `Colors.ModeChangeReappliesPair` | src/main/java/pixelitor/colors/FgBgColorSelector.java:300-314 | Changing the mode flips it and re-applies the newly active pair through the setters. Entering mask mode replaces each mask color by its gray and keeps the normal pair; leaving it keeps every color. Each history gets the newly active color. |
| `Colors.FgDialogSetsOnlyFg` | src/main/java/pixelitor/colors/FgBgColorSelector.java:245-256 | A cancelled dialog, or a running GUI test, changes nothing. An OK result sets the active foreground. The inactive foreground, the mode and the whole background side (colors, history and button) are unchanged. |
| `Colors.BgDialogSetsOnlyBg` | src/main/java/pixelitor/colors/FgBgColorSelector.java:232-243 | The symmetric statement for the background dialog: the active background is set, and the inactive background, the mode and the whole foreground side are unchanged. |
| `Colors.ApplyKeepsInvariant` | src/main/java/pixelitor/colors/FgBgColorSelector.java:168-314 | Every user action keeps both buttons showing the active pair and only appends to the histories. |
| `Colors.RunKeepsInvariant` | src/main/java/pixelitor/colors/FgBgColorSelector.java:168-314 | The same holds over any sequence of user actions. |
| `Colors.InitialShowsActive` | src/main/java/pixelitor/colors/FgBgColorSelector.java:47-79 | After construction the selector is in normal mode, with the loaded colors as its normal pair and black/white as its mask pair. Each history holds the loaded color, and the buttons show the active pair. |
| `Colors.FgBgColorSelector.constructor` | src/main/java/pixelitor/colors/FgBgColorSelector.java:63-79 | The object's fields equal `Initial` for the loaded preference colors. |
| `Colors.FgBgColorSelector.GetFgColor` | src/main/java/pixelitor/colors/FgBgColorSelector.java:258-260 | Returns the active foreground of the object's state. |
| `Colors.FgBgColorSelector.GetBgColor` | src/main/java/pixelitor/colors/FgBgColorSelector.java:262-264 | Returns the active background of the object's state. |
| `Colors.FgBgColorSelector.SetFgColor` | src/main/java/pixelitor/colors/FgBgColorSelector.java:266-278 | The object's new state is `SetFg` of its old state. |
| `Colors.FgBgColorSelector.SetBgColor` | src/main/java/pixelitor/colors/FgBgColorSelector.java:280-292 | The object's new state is `SetBg` of its old state. |
| `Colors.FgBgColorSelector.SwapColors` | src/main/java/pixelitor/colors/FgBgColorSelector.java:182-195 | The new state is `Swap` of the old one, and the buttons still show the active pair. |
| `Colors.FgBgColorSelector.ResetToDefault` | src/main/java/pixelitor/colors/FgBgColorSelector.java:168-174 | The new state is `Reset` of the old one, and the invariant is kept. |
| `Colors.FgBgColorSelector.RandomizeColors` | src/main/java/pixelitor/colors/FgBgColorSelector.java:203-210 | With the two generated colors as inputs, the new state is `Randomize` of the old one. |
| `Colors.FgBgColorSelector.SetLayerMaskEditing` | src/main/java/pixelitor/colors/FgBgColorSelector.java:300-314 | The new state is `WithMaskEditing` of the old one, and the invariant is kept. |
| `Colors.FgBgColorSelector.FgButtonPressed` | src/main/java/pixelitor/colors/FgBgColorSelector.java:245-256 | The new state is `AfterFgDialog` for the dialog's result. |
| `Colors.FgBgColorSelector.BgButtonPressed` | src/main/java/pixelitor/colors/FgBgColorSelector.java:232-243 | The new state is `AfterBgDialog` for the dialog's result. |
| `JavaInt.Wrap` | src/main/java/pixelitor/tools/gradient/GradientDefiningPoint.java:51-52 | The result is the Java `int` with the same low 32 bits. It is the input itself when that is in range. |
| `JavaInt.Add` | src/main/java/pixelitor/tools/gradient/GradientDefiningPoint.java:51-52 | Java `int` addition: the exact sum in range, the sum minus 2^32 above it and plus 2^32 below it. |
| `JavaInt.Div` | src/main/java/pixelitor/tools/gradient/GradientDefiningPoint.java:51-52 | Java division by a positive divisor rounds toward zero. The remainder has the sign of the dividend and is smaller than the divisor. |
| `JavaInt.Midpoint` | src/main/java/pixelitor/tools/gradient/GradientDefiningPoint.java:51-52 | Java `(a + b) / 2`: the wrapped sum halved and rounded toward zero. |
| `JavaInt.MidpointSymmetric` | src/main/java/pixelitor/tools/gradient/GradientDefiningPoint.java:51-52 | The center computed from either end point is the same. |
| `JavaInt.MidpointBetween` | src/main/java/pixelitor/tools/gradient/GradientDefiningPoint.java:51-52 | Without overflow the center lies between the two coordinates and is their average rounded toward zero. |
| `JavaInt.MidpointTruncatesTowardZero` | src/main/java/pixelitor/tools/gradient/GradientDefiningPoint.java:51-52 | For every negative sum without overflow, the midpoint is minus half the sum's magnitude. On an odd sum it is one above Euclidean division, and on an even sum it equals it. |
| `JavaInt.MidpointWrapsOnOverflow` | src/main/java/pixelitor/tools/gradient/GradientDefiningPoint.java:51-52 | Two coordinates whose sum overflows give a negative center, and two whose sum underflows give a non-negative one. Both coordinates at the largest `int` give -1. |
| `Gradient.GradientDefiningPoint.SetLocation` | src/main/java/pixelitor/tools/gradient/GradientDefiningPoint.java:47-54 | This point moves to (x, y) and the center moves to the Java midpoint with the other point. The other point is only read and stays put. Only the center's location moves, not its image coordinates. For a linked pair, the other point's view of the center is a midpoint too. |
| `Gradient.GradientDefiningPoint.SetConstrainedLocation` | src/main/java/pixelitor/tools/gradient/GradientDefiningPoint.java:57-62 | This point moves to the constraint of the mouse location relative to the other point. The other point stays put, and the center is again the midpoint. |
| `Gradient.GradientDefiningPoint.AfterMouseReleasedActions` | src/main/java/pixelitor/tools/gradient/GradientDefiningPoint.java:65-68 | Both this point and the center recompute their image coordinates from their current locations. |
| `Gradient.GradientDefiningPoint.constructor` | src/main/java/pixelitor/tools/gradient/GradientDefiningPoint.java:34-36 | A new point is at the given location with its image coordinates computed, and is not yet linked to another point or a center. |
| `Gradient.GradientDefiningPoint.CenterIsMidpoint` | src/main/java/pixelitor/tools/gradient/GradientDefiningPoint.java:51-53 | The relation `setLocation` establishes: the center's coordinates are the Java midpoints of this point's and the other point's coordinates. |
| `Gradient.GradientDefiningPoint.SetOther` | src/main/java/pixelitor/tools/gradient/GradientDefiningPoint.java:38-40 | Links the other end point. |
| `Gradient.GradientDefiningPoint.SetCenter` | src/main/java/pixelitor/tools/gradient/GradientDefiningPoint.java:42-44 | Links the center point. |
| `Gradient.GradientCenterPoint.SetLocationWithoutMovingChildren` | src/main/java/pixelitor/tools/gradient/GradientDefiningPoint.java:53 | Only the center's own location changes; the end points are not moved. |
| `Gradient.GradientCenterPoint.constructor` | src/main/java/pixelitor/tools/gradient/GradientDefiningPoint.java:34-35 | The center's own source is not part of this model; the row cites the shared `DraggablePoint` construction that line 35 calls, which the center uses too. A center starts at the given location with its image coordinates computed. |
| `Gradient.GradientCenterPoint.CalcImCoords` | src/main/java/pixelitor/tools/gradient/GradientDefiningPoint.java:67 | The center's image coordinates become the conversion of its current location. |

## Left out

- Painting and rendering are left out: `paintOverLayer`, `paintOverImage`, `paintShape`, `StyledShape.paint`, and the selection shapes built from strokes while dragging. Finalizing records the pending shape as painted when `paintShape` would paint it, without modelling pixels, the selection clip or the thumbnail update.
- Shape geometry is not computed. The bounds of the shape that `finalizeShape` builds from the selected type and the current drag arrive with the press event. So does the drag rectangle of the transform box. Affine transforms and outlines are opaque.
- The transform box's internals are left out: hit tests, handle dragging, `mouseMoved` and painting. Its answers arrive with the events.
- `Shapes.ShapesTool.OngoingDrag` does not model `setStartFromCenter` (Alt key) or the repaint request; the image-space drag arrives with the event.
- Java `assert` statements are modelled as failing (as when assertions are enabled); the code that would run past a disabled assertion is not modelled.
- With a selection action, `paintShape` replaces the composition's selection with the stroked or plain outline of the current shape, or creates one. The composition is not part of this model; only the stroke cache this may create is modelled. Whether the current user drag is a click arrives with the press, because `DragTool`, which keeps the drag, is not part of this model.
- `DragTool`, `History`, `Selection` and `Composition` are not part of this model, and neither are the internals of the Java `StrokeParam` class (its dialog and stroke construction). The Dafny `StrokeParam` value holds the stroke width and the extra thickness `getExtraThickness` gives for it. The selection's clipping to the canvas is not modelled.
- `Shapes.CalcThickness`, `Shapes.Grow`: do not model 32-bit overflow of the thickness sums or `Rectangle.grow`'s clamping of huge rectangles, because widths and thicknesses are small.
- The settings panel (combo boxes, enable/disable of controls, the stroke and effects dialogs' contents) is GUI wiring. The selected type, action, stroke parameters and effect thickness are plain fields. Only the first-time creation of the effects panel is modelled.
- Color-selector widgets are left out: buttons and their layout, popup menus (variations, mixes, history dialogs, copy), keyboard shortcut registration and `Tools.fgBgColorsChanged` notifications. Pasting a color goes through the setters, which are modelled.
- Randomness and preferences are left out. The random colors of the randomize action and the colors loaded from the preferences are parameters. `ColorUtils.toGray` is an arbitrary function supplied at construction.
- The global color histories are modelled as what this selector appended, two append-only sequences. Any de-duplication or size limit inside the history class is not part of this model.
- The button backgrounds before the constructor's first two setter calls are shown as black/white. They are overwritten at once.
- The source of the `DraggablePoint` superclass and of `GradientCenterPoint` is not part of this model. Their location fields and `calcImCoords` are modelled as plain fields and a conversion function given at construction. The constructor is taken to compute the image coordinates. `Utils.constrainEndPoint` is a function parameter.
- `Gradient.GradientDefiningPoint.SetLocation` requires the other point and the center to be linked; the source dereferences both and would throw otherwise.
- Styled shapes, transform boxes and the cached stroke are values. The transform box's callback writes to the tool's current styled shape, which matches how the source routes it through the tool.
