# limn event and layout glue, modelled in Dafny

This project models three small pieces of the limn GUI toolkit and proves properties of them:

- **Input routing and handler matching** (`src/ui/mod.rs`). The Ui turns each backend input
  event into a fixed run of `(EventAddress, event)` entries on the FIFO event queue. It reacts
  to a layout change by refreshing one widget and queueing a redraw. It installs the root
  widget and then resizes the window. Handlers are wrapped with the type tag of the one event
  type they accept, and the default list holds ten global handlers.
- **The slider's drag protocol** (`src/widgets/slider.rs`). The handle's drag handler
  remembers where the drag grabbed the handle. On each later drag phase it pins the handle's
  left edge as a strong edit variable of the solver (adding it only once), suggests a new
  value for it, and tells the container where the handle is. The container's slider handler
  turns the handle's bounds, as read when the drag handler was entered (before its new
  suggestion), into a value. The value lies in [0, 1] while the handle is narrower than
  the container and lies inside it. The handler calls the value-changed callback once and marks the event handled.
- **Text layout arithmetic** (`text_layout/src/lib.rs`). Text size and height come from the
  wrapped lines. The line iterator slices text by ranges. Glyphs are placed along each line
  from advance widths and pair kerning, with the scan restarting on every line. Font sizes
  convert between points and pixels.

Files and modules:

| file | module | contents |
|---|---|---|
| `wrappers.dfy` | `Wrappers` | `Option`, `Outcome` |
| `geometry.dfy` | `Geometry` | `Point`, `Rect`, `Dimensions`, `Size` |
| `glutin.dfy` | `Glutin` | the backend's input event shapes |
| `layout.dfy` | `Layout` | solver variables, a widget's layout, `LimnSolver` (edit variables and suggestions) |
| `events.dfy` | `Events` | widget ids, addresses, the event sum type with its type tags, `EventQueue`, `EventState` |
| `ui.dfy` | `Ui` | handler wrappers, the default handlers, input routing, `Ui` |
| `slider.dfy` | `Slider` | `SliderValue`, `SliderHandler`, `DragHandler`, `SliderBuilder` |
| `text_layout.dfy` | `TextLayout` | text size and height, `Lines`, glyph placement, unit conversion |

Modelling choices:

- The event queue holds `Box<Any + Send>` values. Here it holds one sum type, `Events.Event`,
  and `Events.TypeOf` gives the tag `TypeId::of` would give. A handler's `Box<Any>` becomes
  `Ui.HandlerKind`. Its ten global handlers are named, and a widget's own handler is an
  `object`.
- State the source changes in place is a class: `EventQueue.entries`, `LimnSolver`,
  `Ui.graph`/`Ui.rootId`, `DragHandler.startPos`, `EventState.handled`,
  `SliderBuilder.widget`, `Lines.ranges`. The widget graph is a map from ids to widgets.
- The solver is only a map from edit variables to their strengths plus a map from edit
  variables to suggested values.
- The value-changed callback of the slider is the log `SliderHandler.calls`.
- Font metrics are uninterpreted functions in `TextLayout.Font`. Line breaking
  (`LineInfos::new`) and line placement (`LineRects::new`) are function parameters.
- Scalars are `real`.

The `_` arm of `DragHandler::handle` (src/widgets/slider.rs:91-100) also catches `DragEnd`:
it suggests a value and notifies the container as for any other non-start phase. Nothing
removes the handle's `left` edit variable, so it stays an edit variable after the drag ends.
`Slider.DragHandler.Handle` states this.

## Model

| member | source | states |
|---|---|---|
| `Ui.InputEntries` | src/ui/mod.rs:45-68 | a mouse wheel, button or move input yields two entries: the event to `SubTree(root)`, then the same event to `Ui`. A move carries exactly the incoming x and y as reals. A keyboard input yields one `Ui` entry with the same state, scan code and key code. Any other input yields nothing |
| `Ui.InputReachesUiOnceAndLast` | src/ui/mod.rs:46-66 | of the entries for one input, exactly the last goes to `Ui`. Every other entry is a subtree delivery from the root, and only a mouse input has one |
| `Ui.Ui.constructor` | src/ui/mod.rs:31-38 | a new Ui has an empty widget graph, no root, and a fresh solver with no edit variables and no suggestions |
| `Ui.Ui.HandleInput` | src/ui/mod.rs:45-68 | the queue becomes the old queue followed by `InputEntries(root, input)`. Old entries keep their places. The graph, root and solver are unchanged |
| `Ui.LayoutChangedGraph` | src/ui/mod.rs:71-74 | the graph keeps its ids. Only the named widget, and only when it is present, gets its layout replaced by the updated one. Every other widget is unchanged |
| `Ui.Ui.LayoutChanged` | src/ui/mod.rs:70-78 | the graph becomes `LayoutChangedGraph(old graph, id, update)`. Exactly one `RedrawEvent` to `Ui` is appended, whether or not the widget is present |
| `Ui.Ui.SetRoot` | src/ui/mod.rs:40-43 | the root is installed first, then the window is resized. The one resize request carries the size of the installed root's bounds |
| `Ui.Ui.GraphSetRoot` | src/ui/mod.rs:41 | with no root present, the widget becomes the root and is entered in the graph |
| `Ui.Ui.ResizeWindowToFit` | src/ui/mod.rs:42 | the window receives one resize request with the root widget's width and height |
| `Ui.NewHandlerWrapper` | src/ui/mod.rs:96-110 | the wrapper holds the handler and handles a type tag `t` exactly when `t` is the tag of `E` |
| `Ui.HandlerWrapper.Handles` | src/ui/mod.rs:111-113 | when the wrapper handles tag `t`, the downcast `handle` performs succeeds on every event tagged `t` and yields that event. When it does not, the downcast fails on all of them |
| `Ui.HandlerWrapper.Handle` | src/ui/mod.rs:100-104 | on an event of the wrapper's type, the downcast succeeds and the wrapped handler is invoked with that same event |
| `Ui.DefaultEventHandlers` | src/ui/mod.rs:143-156 | exactly ten wrappers, whose handlers come in the fixed order: redraw, layout change, input, mouse controller, mouse layout change, mouse move, mouse button, mouse wheel, keyboard forwarder, focus |
| `Ui.DefaultHandlersForUiEvents` | src/ui/mod.rs:124-156 | among the default handlers, only the redraw handler takes a redraw and only the input handler takes an input event. A layout change goes to the layout-change handler and the mouse layout-change handler |
| `Events.TypeOf` | src/ui/mod.rs:106 | each event variant has its own tag, and a variant's tag is never the tag of another variant. No event carries the tags of the mouse controller's or the focus handler's event types |
| `Events.EventQueue.Push` | src/ui/mod.rs:50-76 | the entry is appended after every entry already queued |
| `Events.Downcast` | src/ui/mod.rs:101 | the downcast succeeds iff the event's tag is the requested type, and then yields the event itself |
| `Layout.LimnSolver.HasEditVariable` | src/widgets/slider.rs:93 | in a solver whose suggestions all go to edit variables (the invariant every solver operation keeps), a variable with a suggested value tests as an edit variable |
| `Layout.LimnSolver.AddEditVariable` | src/widgets/slider.rs:93-94 | adding a variable that is already an edit variable fails with `DuplicateEditVariable` and changes nothing. Otherwise the variable is recorded with its strength. Suggestions are untouched |
| `Layout.LimnSolver.SuggestValue` | src/widgets/slider.rs:96 | suggesting for an edit variable records the value. Suggesting for any other variable fails with `UnknownEditVariable` and changes nothing |
| `Slider.SliderValue` | src/widgets/slider.rs:60-61 | the value times the travel `bounds.width - (slider_right - slider_left)` is the handle's offset `slider_left - bounds.left` from the container's left edge |
| `Slider.SliderValueZeroAtLeftEdge` | src/widgets/slider.rs:59-61 | the slider value is 0 iff the handle's left edge is at the container's left edge |
| `Slider.SliderValueOneAtRightEdge` | src/widgets/slider.rs:59-61 | the slider value is 1 iff the handle's right edge meets the container's right edge |
| `Slider.SliderValueInUnitRange` | src/widgets/slider.rs:59-61 | a handle narrower than the container and lying inside it gives a value in [0, 1] |
| `Slider.SliderValueMidway` | src/widgets/slider.rs:59-61 | a 200-wide container at 0 with a 30-wide handle whose left edge is at 85 gives 0.5 |
| `Slider.SliderHandler.constructor` | src/widgets/slider.rs:52-54 | a new slider handler has not called its callback yet |
| `Slider.SliderHandler.Handle` | src/widgets/slider.rs:58-64 | the callback log gains exactly one entry, `(slider_left - bounds.left) / (bounds.width - (slider_right - slider_left))`, and the event is marked handled |
| `Slider.DragHandler.constructor` | src/widgets/slider.rs:76-78 | the handler targets the given container and starts with `start_pos = 0` |
| `Slider.DragHandler.Handle` | src/widgets/slider.rs:81-102 | on DragStart, `start_pos` becomes `drag_x - handle.left` and the solver and queue are unchanged. On any other phase, `start_pos` is kept. `left` becomes a STRONG edit variable only if it is not one already, so the add never fails. `left` is suggested `drag_x - start_pos`. Exactly one `MovedSliderWidgetEvent` goes to `Widget(container)`, carrying the handle's left and right bounds as read at entry |
| `Slider.DragFromTo` | src/widgets/slider.rs:88-100 | a drag start at `from` followed by a drag to `to` suggests the handle's old left edge shifted by `to - from`, and appends exactly one entry to the queue: the moved-slider event to `Widget(container)`, carrying the handle's left and right bounds. Pushes made by `update_solver` are not modelled |
| `Slider.SliderBuilder.constructor` | src/widgets/slider.rs:15-39 | a 200×30 container with no handlers and one child: a 30×30 draggable handle whose handler is a fresh drag handler for the container's id, with `start_pos = 0`. It is the only handler in this model, because what `make_draggable` installs is not modelled |
| `Slider.SliderBuilder.OnValChanged` | src/widgets/slider.rs:40-45 | the container gains one more handler, a fresh slider handler for `MovedSliderWidgetEvent` with an empty callback log. Nothing else in the builder changes |
| `TextLayout.MaxLineWidth` | text_layout/src/lib.rs:42 | the fold of `max` from 0 is at least 0 and at least every line's width. It is 0 or the width of some line |
| `TextLayout.GetTextSize` | text_layout/src/lib.rs:35-44 | for the lines laid out at width `f32::MAX`, the width is at least 0, at least every line's width, and 0 or some line's width. The height is the line count times the line height |
| `TextLayout.GetTextHeight` | text_layout/src/lib.rs:46-55 | the height is not negative for a non-negative line height and is 0 when there are no lines |
| `TextLayout.TextSizeHeightIsUnboundedTextHeight` | text_layout/src/lib.rs:41-54 | the height `get_text_size` reports is the line count times the line height at width `f32::MAX`, which is what `get_text_height` gives for that width |
| `TextLayout.Slices` | text_layout/src/lib.rs:113-142 | one substring per range, in range order, each the text in that range |
| `TextLayout.Lines.constructor` | text_layout/src/lib.rs:125-132 | the iterator holds the text and all the ranges |
| `TextLayout.Lines.Next` | text_layout/src/lib.rs:138-141 | with ranges left, it yields the text in the first range and consumes that range. With none left, it yields nothing and stays ended |
| `TextLayout.CollectLines` | text_layout/src/lib.rs:134-142 | running the iterator to its end yields exactly `Slices(text, ranges)` and uses up the ranges |
| `TextLayout.GlyphIds` | text_layout/src/lib.rs:97 | one glyph per character, the font's glyph for that character |
| `TextLayout.ScanGlyphs` | text_layout/src/lib.rs:98-108 | the scan yields one glyph per input glyph |
| `TextLayout.ScanLine` | text_layout/src/lib.rs:97-108 | the loop with state `(last, x)`, starting at `(None, 0.0)`, yields exactly `LineGlyphs` of the line |
| `TextLayout.RunWidthStep` | text_layout/src/lib.rs:102-106 | one more glyph adds its advance, plus the kerning with the glyph before it unless it is the first |
| `TextLayout.ScanFrom` | text_layout/src/lib.rs:98-106 | scanning on from glyph `j`, in the state the scan has there, puts each later glyph `i` at the advances of glyphs `0..i-1` plus the kerning of the pairs `(0,1)..(i-2,i-1)` |
| `TextLayout.LineGlyphAt` | text_layout/src/lib.rs:90-108 | a line has one glyph per character. Glyph `i` is the glyph of character `i` on the line's baseline, at the advances of glyphs `0..i-1` plus the kerning of the pairs among them. The first glyph sits exactly at the line's start |
| `TextLayout.KerningMovesGlyphAfterPair` | text_layout/src/lib.rs:102-106 | the gap from glyph `i` to glyph `i+1` is glyph `i`'s advance plus the kerning of the pair `(i-1, i)`. So a pair's kerning shifts the glyph after the pair, not the pair's second glyph |
| `TextLayout.LineJobs` | text_layout/src/lib.rs:85-95 | lines and rects are paired up to the shorter of the two. Each line's text is the text in its range, and its glyphs start at `(line_rect.left, line_rect.top + font_size)` |
| `TextLayout.LineGlyphs` | text_layout/src/lib.rs:97-108 | a line gets one glyph per character, and the first glyph is the font's glyph for the first character, at the given scale, exactly at the line's start point |
| `TextLayout.PlaceLines` | text_layout/src/lib.rs:89-110 | the output has exactly one glyph per character of the lines |
| `TextLayout.PlaceLinesAt` | text_layout/src/lib.rs:89-110 | character `i` of line `k` gives the glyph right after all glyphs of the earlier lines. It sits where a fresh scan of line `k` puts it, offset from that line's start point |
| `TextLayout.GetPositionedGlyphs` | text_layout/src/lib.rs:73-111 | the result is `PlaceLines` of the lines from `LineInfos` at the box's width, each paired with its rect from `LineRects`: the lines' glyphs concatenated in line order |
| `TextLayout.PtToPx` | text_layout/src/lib.rs:146-148 | `3·px = 4·pt` |
| `TextLayout.PxToPt` | text_layout/src/lib.rs:150-152 | `4·pt = 3·px` |
| `TextLayout.PxToPtUndoesPtToPx` | text_layout/src/lib.rs:146-152 | `px_to_pt(pt_to_px(x)) == x` |
| `TextLayout.PtToPxUndoesPxToPt` | text_layout/src/lib.rs:146-152 | `pt_to_px(px_to_pt(x)) == x` |

## Left out

- The windowing backend (`Window`), beyond the resize requests it receives. `graph.redraw()`
  (src/ui/mod.rs:77, 134) only affects rendering and is not modelled.
- Ui.Ui.constructor: the window that `Ui::new` hands to `WidgetGraph::new` and the clone of
  the event queue it hands to `LimnSolver::new` (src/ui/mod.rs:32-33) are not modelled.
- The three forwarding handlers `InputHandler`, `RedrawHandler` and `LayoutChangeHandler`
  (src/ui/mod.rs:124-142). Each only calls `handle_input`, `graph.redraw` or
  `layout_changed`, which are modelled directly. `EventArgs` is not modelled either: the
  modelled handlers take the Ui, the solver and the queue as parameters.
- The event queue's drain loop and address resolution live in `src/ui/queue.rs`, which is not
  part of this model. Only the queue's append (`push`) is modelled.
- `std::any` boxing and downcasting. The sum type `Events.Event` with `Events.TypeOf` takes
  its place. A mismatched downcast, which panics in the source, is excluded by
  `HandlerWrapper.Handle`'s precondition.
- The handler modules of the mouse controller and the keyboard/focus handlers are not part of
  this model. The event types of their wrappers in `DefaultEventHandlers` follow from their
  names and from the events `handle_input` routes to `Ui`. `MouseController` and
  `FocusHandler` get tags of their own.
- Ui.HandleInput: `get_root` lives in `src/ui/graph.rs`, which is not part of this model. The
  method requires that a root has been set.
- Ui.SetRoot: the graph's `set_root` and `resize_window_to_fit` live in `src/ui/graph.rs`,
  which is not part of this model. Only the order (install the root, then resize to its
  bounds) is modelled. The root's resolved bounds are a parameter, because solving is not
  modelled. At most one root may be set, and the root's children and their solver
  registration are not entered.
- Ui.LayoutChanged: `widget.layout.update(&mut solver)` is the parameter `update`. Whatever
  it does to the solver is not modelled.
- The cassowary solver's solving, its constraints, and the `LayoutChanged` events that
  `update_solver` emits after a solve. Only edit variables and suggested values are modelled.
- Drawables, colours and styles of the slider (src/widgets/slider.rs:16-19, 25-31), and what
  `make_draggable` installs beyond a flag. `WidgetBuilder::new` draws fresh widget ids and
  layout variables, which the slider builder takes as parameters.
- Slider.DragHandler.Handle: the queue clause says the only entry appended is the moved-slider
  event. `update_solver` (src/widgets/slider.rs:92-96) runs on a solver holding a clone of the
  shared queue (src/ui/mod.rs:33), and may push `LayoutChanged` events before it. Those pushes
  are not modelled.
- Slider.DragFromTo: for the same reason, the one appended entry it states (the moved-slider
  event) leaves out any `LayoutChanged` events that `update_solver` pushes.
- Drag gesture recognition (`widgets::drag`). Drag events arrive already formed.
- Slider.SliderHandler.Handle: requires a nonzero travel `bounds.width - (slider_right - slider_left)`.
  Under `f64` a zero travel would give an infinite or NaN value, which real arithmetic cannot
  express.
- The callback's type parameter `F`. Its calls are the log `SliderHandler.calls`.
- Line breaking and wrapping (`LineInfos`), line placement (`LineRects`) and `get_line_rects`.
  Their modules are not part of this model, so they are parameters. `pt_to_scale` only
  builds a rusttype scale, and is not modelled.
- rusttype internals (`glyphs_for`, `pair_kerning`, `h_metrics`, `positioned`, `standalone`).
  They are the uninterpreted functions of `TextLayout.Font`.
- Text ranges index characters, not UTF-8 bytes. A slice that does not fall on a character
  boundary panics in the source, and that case is not modelled. A range outside the text,
  which also panics, is excluded by preconditions.
- `f32`/`f64` rounding, `as f32` casts and `f32::max`'s NaN handling. The model uses `real`.
