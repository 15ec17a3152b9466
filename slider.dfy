/** The slider widget: a 200×30 container with a 30×30 draggable handle. Dragging the handle
    pins its left edge in the solver and tells the container where the handle is; the
    container turns that into a value, in [0, 1] while the handle is narrower than the
    container and lies inside it, and calls the value-changed callback. */
module Slider {
  import opened Wrappers
  import opened Geometry
  import opened Layout
  import opened Events
  import opened Ui

  /** The value the slider reports for a handle spanning `sliderLeft .. sliderRight` inside a
      container with `bounds`: the handle's distance from the container's left edge, over the
      distance the handle can travel. */
  function SliderValue(bounds: Rect, sliderLeft: real, sliderRight: real): (v: real)
    requires bounds.width - (sliderRight - sliderLeft) != 0.0
    ensures v * (bounds.width - (sliderRight - sliderLeft)) == sliderLeft - bounds.left
  {
    (sliderLeft - bounds.left) / (bounds.width - (sliderRight - sliderLeft))
  }

  /** The value is 0 exactly when the handle's left edge is at the container's left edge. */
  lemma SliderValueZeroAtLeftEdge(bounds: Rect, sliderLeft: real, sliderRight: real)
    requires bounds.width - (sliderRight - sliderLeft) != 0.0
    ensures SliderValue(bounds, sliderLeft, sliderRight) == 0.0 <==> sliderLeft == bounds.left
  {
  }

  /** The value is 1 exactly when the handle's right edge meets the container's right edge. */
  lemma SliderValueOneAtRightEdge(bounds: Rect, sliderLeft: real, sliderRight: real)
    requires bounds.width - (sliderRight - sliderLeft) != 0.0
    ensures SliderValue(bounds, sliderLeft, sliderRight) == 1.0 <==> sliderRight == bounds.Right()
  {
    var travel := bounds.width - (sliderRight - sliderLeft);
    assert SliderValue(bounds, sliderLeft, sliderRight) * travel == sliderLeft - bounds.left;
    if sliderRight == bounds.Right() {
      assert sliderLeft - bounds.left == travel;
      QuotientOfSelf(travel);
    }
  }

  /** While a handle narrower than the container lies inside it, the value is in [0, 1]. */
  lemma SliderValueInUnitRange(bounds: Rect, sliderLeft: real, sliderRight: real)
    requires sliderRight - sliderLeft < bounds.width
    requires bounds.left <= sliderLeft && sliderRight <= bounds.Right()
    ensures 0.0 <= SliderValue(bounds, sliderLeft, sliderRight) <= 1.0
  {
    var travel := bounds.width - (sliderRight - sliderLeft);
    QuotientInUnitRange(sliderLeft - bounds.left, travel);
  }

  lemma QuotientOfSelf(d: real)
    requires d != 0.0
    ensures d / d == 1.0
  {
  }

  lemma QuotientInUnitRange(n: real, d: real)
    requires 0.0 < d && 0.0 <= n <= d
    ensures 0.0 <= n / d <= 1.0
  {
    assert (n / d) * d == n;
  }

  /** The 200-wide container at x = 0 with its 30-wide handle at x = 85 reports one half. */
  lemma SliderValueMidway()
    ensures SliderValue(Rect(0.0, 0.0, 200.0, 30.0), 85.0, 115.0) == 0.5
  {
  }

  /** Handles the container's `MovedSliderWidgetEvent`; `calls` logs the values the
      value-changed callback has been called with. */
  class SliderHandler {
    var calls: seq<real>

    constructor ()
      ensures calls == []
    {
      calls := [];
    }

    /** Computes the slider value from the container's bounds and the handle's extent, calls
        the callback once with it and marks the event handled. */
    method Handle(event: MovedSliderWidgetEvent, widget: Widget, state: EventState)
      requires widget.layout.bounds.width - (event.sliderRight - event.sliderLeft) != 0.0
      modifies this, state
      ensures calls == old(calls) + [SliderValue(widget.layout.bounds, event.sliderLeft, event.sliderRight)]
      ensures state.handled
    {
      var bounds := widget.layout.bounds;
      var range := bounds.width - (event.sliderRight - event.sliderLeft);
      var val := (event.sliderLeft - bounds.left) / range;
      calls := calls + [val];
      state.handled := true;
    }
  }

  /** Handles drags of the slider's handle on behalf of the `container` widget. */
  class DragHandler {
    const container: WidgetId
    /** Where on the handle the drag grabbed it, relative to the handle's left edge. */
    var startPos: real

    constructor (container: WidgetId)
      ensures this.container == container && startPos == 0.0
    {
      this.container := container;
      startPos := 0.0;
    }

    /** On a drag start, remembers the grab offset. On any other drag phase, makes the handle's
        left edge a strong edit variable if it is not one yet, suggests the pointer position
        minus the grab offset for it, and tells the container where the handle was when the
        handler was entered. */
    method Handle(event: WidgetDrag, widget: Widget, solver: LimnSolver, queue: EventQueue)
      requires solver.Valid()
      modifies this`startPos, solver, queue
      ensures solver.Valid()
      ensures event.dragType.DragStart? ==>
        && startPos == event.position.x - widget.layout.bounds.left
        && unchanged(solver, queue)
      ensures !event.dragType.DragStart? ==>
        && startPos == old(startPos)
        && solver.editVariables == (if widget.layout.vars.left in old(solver.editVariables)
                                    then old(solver.editVariables)
                                    else old(solver.editVariables)[widget.layout.vars.left := STRONG])
        && solver.suggestions == old(solver.suggestions)[widget.layout.vars.left := event.position.x - startPos]
        && queue.entries == old(queue.entries) + [(EventAddress.Widget(container),
             MovedSlider(MovedSliderWidgetEvent(widget.layout.bounds.left, widget.layout.bounds.Right())))]
    {
      var layout := widget.layout;
      var bounds := layout.bounds;
      var dragPos := event.position.x;
      match event.dragType
      case DragStart =>
        startPos := dragPos - bounds.left;
      case _ =>
        if !solver.HasEditVariable(layout.vars.left) {
          var added := solver.AddEditVariable(layout.vars.left, STRONG);
          assert added.Pass?;
        }
        var suggested := solver.SuggestValue(layout.vars.left, dragPos - startPos);
        assert suggested.Pass?;
        var moved := MovedSliderWidgetEvent(bounds.left, bounds.Right());
        queue.Push(EventAddress.Widget(container), MovedSlider(moved));
    }
  }

  /** Two drag events on a handle whose bounds have not been re-solved in between: a start
      at `from`, then a move to `to`. The handle's left edge is suggested at its old place
      shifted by how far the pointer moved. */
  method DragFromTo(handler: DragHandler, widget: Widget, solver: LimnSolver, queue: EventQueue, from: real, to: real)
    requires solver.Valid()
    modifies handler, solver, queue
    ensures widget.layout.vars.left in solver.editVariables && widget.layout.vars.left in solver.suggestions
    ensures solver.suggestions[widget.layout.vars.left] == widget.layout.bounds.left + (to - from)
    ensures queue.entries == old(queue.entries) + [(EventAddress.Widget(handler.container),
      MovedSlider(MovedSliderWidgetEvent(widget.layout.bounds.left, widget.layout.bounds.Right())))]
  {
    handler.Handle(WidgetDrag(DragStart, Point(from, 0.0)), widget, solver, queue);
    handler.Handle(WidgetDrag(Drag, Point(to, 0.0)), widget, solver, queue);
  }

  /** `SliderBuilder`: the slider's container widget, being built. */
  class SliderBuilder {
    var widget: WidgetBuilder

    /** Builds the 200×30 container with one 30×30 draggable handle whose drag handler targets
        the container. The two widgets' identities and layout variables are those the builder
        allocates. */
    constructor (containerId: WidgetId, containerVars: LayoutVars, handleId: WidgetId, handleVars: LayoutVars)
      ensures widget.id == containerId && widget.layout == containerVars
      ensures widget.dimensions == Some(Dimensions(200.0, 30.0))
      ensures widget.handlers == [] && !widget.draggable
      ensures |widget.children| == 1
      ensures var handle := widget.children[0];
        && handle.id == handleId && handle.layout == handleVars
        && handle.dimensions == Some(Dimensions(30.0, 30.0))
        && handle.children == [] && handle.draggable
        && |handle.handlers| == 1 && handle.handlers[0].typeId == WidgetDragType
        && handle.handlers[0].handler.WidgetHandler?
        && handle.handlers[0].handler.obj is DragHandler
        && var drag := handle.handlers[0].handler.obj as DragHandler;
           fresh(drag) && drag.container == containerId && drag.startPos == 0.0
    {
      var drag := new DragHandler(containerId);
      var handle := WidgetBuilder(handleId, handleVars, Some(Dimensions(30.0, 30.0)),
        [NewHandlerWrapper(WidgetHandler(drag), WidgetDragType)], [], true);
      widget := WidgetBuilder(containerId, containerVars, Some(Dimensions(200.0, 30.0)), [], [handle], false);
    }

    /** Adds a slider handler to the container; the returned handler's `calls` is the log of
        the callback's invocations. */
    method OnValChanged() returns (handler: SliderHandler)
      modifies this
      ensures fresh(handler) && handler.calls == []
      ensures widget == old(widget).(handlers := old(widget).handlers
        + [NewHandlerWrapper(WidgetHandler(handler), MovedSliderWidgetType)])
    {
      handler := new SliderHandler();
      widget := widget.(handlers := widget.handlers + [NewHandlerWrapper(WidgetHandler(handler), MovedSliderWidgetType)]);
    }
  }
}
