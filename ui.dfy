/** The Ui: input routing onto the event queue, the reaction to a layout change, setting the
    root widget, and the type-tagged handler wrappers with the default global handler list. */
module Ui {
  import opened Wrappers
  import opened Geometry
  import opened Layout
  import opened Events
  import Glutin

  /** A widget as the graph stores it (only its identity and layout matter here). */
  datatype Widget = Widget(id: WidgetId, layout: Layout)

  /** A detached widget under construction (`widget::WidgetBuilder`): its identity and layout
      variables, an optional fixed size, its handlers, its children and whether it can be
      dragged. Drawables and styles are not modelled. */
  datatype WidgetBuilder = WidgetBuilder(
    id: WidgetId,
    layout: LayoutVars,
    dimensions: Option<Dimensions>,
    handlers: seq<HandlerWrapper>,
    children: seq<WidgetBuilder>,
    draggable: bool)

  /** The boxed handler a wrapper holds (`Box<Any>`). The ten global handlers are named;
      a widget's own handler is an object of some class. */
  datatype HandlerKind =
    | RedrawHandler
    | LayoutChangeHandler
    | InputHandler
    | MouseController
    | MouseLayoutChangeHandler
    | MouseMoveHandler
    | MouseButtonHandler
    | MouseWheelHandler
    | KeyboardForwarder
    | FocusHandler
    | WidgetHandler(obj: object)

  /** One call of a handler with an event, as `HandlerWrapper::handle` makes it. */
  datatype Invocation = Invocation(handler: HandlerKind, event: Event)

  /** A handler bound to the one event type it accepts. */
  datatype HandlerWrapper = HandlerWrapper(typeId: TypeId, handler: HandlerKind)
  {
    /** Whether the wrapper takes events tagged `t`: exactly when the downcast `Handle`
        performs succeeds on every such event, and otherwise it fails on all of them. */
    predicate Handles(t: TypeId): (b: bool)
      ensures b ==> forall e :: TypeOf(e) == t ==> Downcast(e, typeId) == Some(e)
      ensures !b ==> forall e :: TypeOf(e) == t ==> Downcast(e, typeId) == None
    {
      typeId == t
    }

    /** Downcasts the event to the wrapper's type and calls the handler with it. The dispatcher
        only calls `handle` on a wrapper that `handles` the event's type; on any other event
        the downcast's `unwrap` would panic. */
    function Handle(event: Event): (call: Invocation)
      requires Handles(TypeOf(event))
      ensures call.handler == handler
      ensures call.event == event && TypeOf(call.event) == typeId
    {
      var typed := Downcast(event, typeId);
      Invocation(handler, typed.value)
    }
  }

  /** `HandlerWrapper::new::<H, E>(handler)`: the type parameter `E` becomes the tag. */
  function NewHandlerWrapper(handler: HandlerKind, eventType: TypeId): (w: HandlerWrapper)
    ensures w.handler == handler
    ensures forall t :: w.Handles(t) <==> t == eventType
  {
    HandlerWrapper(eventType, handler)
  }

  /** The order of the global handlers. */
  const DefaultHandlerOrder: seq<HandlerKind> := [RedrawHandler, LayoutChangeHandler, InputHandler,
    MouseController, MouseLayoutChangeHandler, MouseMoveHandler, MouseButtonHandler, MouseWheelHandler,
    KeyboardForwarder, FocusHandler]

  /** The global handlers every Ui starts with, in order. The event types of the mouse and
      keyboard handlers are those their names and the routed input events indicate. */
  function DefaultEventHandlers(): (ws: seq<HandlerWrapper>)
    ensures |ws| == |DefaultHandlerOrder| == 10
    ensures forall i :: 0 <= i < |ws| ==> ws[i].handler == DefaultHandlerOrder[i]
  {
    [ NewHandlerWrapper(RedrawHandler, RedrawEventType),
      NewHandlerWrapper(LayoutChangeHandler, LayoutChangedType),
      NewHandlerWrapper(InputHandler, InputEventType),
      NewHandlerWrapper(MouseController, MouseInputEventType),
      NewHandlerWrapper(MouseLayoutChangeHandler, LayoutChangedType),
      NewHandlerWrapper(MouseMoveHandler, MouseMovedType),
      NewHandlerWrapper(MouseButtonHandler, MouseButtonType),
      NewHandlerWrapper(MouseWheelHandler, MouseWheelType),
      NewHandlerWrapper(KeyboardForwarder, KeyboardInputType),
      NewHandlerWrapper(FocusHandler, FocusEventType) ]
  }

  /** Among the default handlers, a redraw reaches only the redraw handler, a raw input event
      only the input handler, and a layout change the layout-change handler and then the
      mouse's layout-change handler. */
  lemma DefaultHandlersForUiEvents(i: nat)
    requires i < |DefaultEventHandlers()|
    ensures DefaultEventHandlers()[i].Handles(RedrawEventType) <==> i == 0
    ensures DefaultEventHandlers()[i].Handles(InputEventType) <==> i == 2
    ensures DefaultEventHandlers()[i].Handles(LayoutChangedType) <==> i == 1 || i == 4
  {
  }

  /** A mouse input: one that is routed to every widget as well as to the Ui. */
  predicate IsMouseInput(input: Glutin.Event)
  {
    input.MouseWheel? || input.MouseInput? || input.MouseMoved?
  }

  /** The queue entries `handle_input` appends for one backend input. */
  function InputEntries(root: WidgetId, input: Glutin.Event): (r: seq<(EventAddress, Event)>)
    ensures IsMouseInput(input) ==>
      |r| == 2 && r[0].0 == SubTree(root) && r[1] == (EventAddress.Ui, r[0].1)
    ensures input.MouseWheel? ==> r[0].1 == MouseWheel(input.delta)
    ensures input.MouseInput? ==> r[0].1 == MouseButton(input.state, input.button)
    ensures input.MouseMoved? ==> r[0].1 == MouseMoved(Point(input.x as real, input.y as real))
    ensures input.KeyboardInput? ==>
      r == [(EventAddress.Ui, KeyboardInput(input.state, input.scanCode, input.keyCode))]
    ensures !IsMouseInput(input) && !input.KeyboardInput? ==> r == []
  {
    var allWidgets := SubTree(root);
    match input
    case MouseWheel(delta, _) =>
      [(allWidgets, MouseWheel(delta)), (EventAddress.Ui, MouseWheel(delta))]
    case MouseInput(state, button) =>
      [(allWidgets, MouseButton(state, button)), (EventAddress.Ui, MouseButton(state, button))]
    case MouseMoved(x, y) =>
      var point := Point(x as real, y as real);
      [(allWidgets, MouseMoved(point)), (EventAddress.Ui, MouseMoved(point))]
    case KeyboardInput(state, scanCode, keyCode) =>
      [(EventAddress.Ui, KeyboardInput(state, scanCode, keyCode))]
    case _ => []
  }

  /** Every input that produces entries reaches the Ui exactly once, as the last entry; any
      other entry is a subtree delivery from the root of a mouse event. */
  lemma InputReachesUiOnceAndLast(root: WidgetId, input: Glutin.Event, i: nat)
    requires i < |InputEntries(root, input)|
    ensures InputEntries(root, input)[i].0 == EventAddress.Ui <==> i == |InputEntries(root, input)| - 1
    ensures InputEntries(root, input)[i].0 != EventAddress.Ui ==>
      IsMouseInput(input) && InputEntries(root, input)[i].0 == SubTree(root)
  {
  }

  /** The graph after `layout_changed` for `id`: the widget's layout is refreshed when the
      widget is in the graph; nothing else changes. */
  function LayoutChangedGraph(graph: map<WidgetId, Widget>, id: WidgetId, update: Layout -> Layout)
    : (r: map<WidgetId, Widget>)
    ensures r.Keys == graph.Keys
    ensures forall j :: j in graph && j != id ==> r[j] == graph[j]
    ensures id in graph ==> r[id] == graph[id].(layout := update(graph[id].layout))
  {
    if id in graph then graph[id := graph[id].(layout := update(graph[id].layout))] else graph
  }

  /** The backend window, seen only through the resize requests it receives. */
  class Window {
    var resizes: seq<Size>

    constructor ()
      ensures resizes == []
    {
      resizes := [];
    }
  }

  class Ui {
    var graph: map<WidgetId, Widget>
    var rootId: Option<WidgetId>
    const solver: LimnSolver

    constructor ()
      ensures graph == map[] && rootId == None
      ensures fresh(solver) && solver.Valid() && solver.editVariables == map[] && solver.suggestions == map[]
    {
      graph := map[];
      rootId := None;
      solver := new LimnSolver();
    }

    /** Installs the root widget, then resizes the window to the root's resolved bounds. The
        solution the solver finds for the root is given as `resolved`. */
    method SetRoot(root: WidgetBuilder, window: Window, resolved: Rect)
      requires rootId.None?
      modifies this`graph, this`rootId, window
      ensures rootId == Some(root.id)
      ensures graph == old(graph)[root.id := Widget.Widget(root.id, Layout(root.layout, resolved))]
      ensures window.resizes == old(window.resizes) + [Size(resolved.width, resolved.height)]
    {
      GraphSetRoot(root, resolved);
      ResizeWindowToFit(window);
    }

    /** The graph takes the detached root widget; there can be at most one root. */
    method GraphSetRoot(root: WidgetBuilder, resolved: Rect)
      requires rootId.None?
      modifies this`graph, this`rootId
      ensures rootId == Some(root.id)
      ensures graph == old(graph)[root.id := Widget.Widget(root.id, Layout(root.layout, resolved))]
    {
      graph := graph[root.id := Widget.Widget(root.id, Layout(root.layout, resolved))];
      rootId := Some(root.id);
    }

    /** Asks the window to take the size of the root widget's bounds. */
    method ResizeWindowToFit(window: Window)
      requires rootId.Some? && rootId.value in graph
      modifies window
      ensures window.resizes == old(window.resizes)
        + [Size(graph[rootId.value].layout.bounds.width, graph[rootId.value].layout.bounds.height)]
    {
      var bounds := graph[rootId.value].layout.bounds;
      window.resizes := window.resizes + [Size(bounds.width, bounds.height)];
    }

    /** Routes one backend input onto the queue; only appends, and changes nothing else. */
    method HandleInput(input: Glutin.Event, queue: EventQueue)
      requires rootId.Some?
      modifies queue
      ensures queue.entries == old(queue.entries) + InputEntries(rootId.value, input)
      // Spells out what the clause above implies: entries already queued keep their places.
      ensures queue.entries[..|old(queue.entries)|] == old(queue.entries)
      ensures unchanged(this, solver)
    {
      var allWidgets := SubTree(rootId.value);
      match input
      case MouseWheel(delta, _) =>
        queue.Push(allWidgets, MouseWheel(delta));
        queue.Push(EventAddress.Ui, MouseWheel(delta));
      case MouseInput(state, button) =>
        queue.Push(allWidgets, MouseButton(state, button));
        queue.Push(EventAddress.Ui, MouseButton(state, button));
      case MouseMoved(x, y) =>
        var point := Point(x as real, y as real);
        queue.Push(allWidgets, MouseMoved(point));
        queue.Push(EventAddress.Ui, MouseMoved(point));
      case KeyboardInput(state, scanCode, keyCode) =>
        var keyInput := KeyboardInput(state, scanCode, keyCode);
        queue.Push(EventAddress.Ui, keyInput);
      case _ =>
    }

    /** Reacts to `LayoutChanged(id)`: refreshes that widget's layout from the solver (the
        refresh is `update`) if the widget is in the graph, and always queues one redraw. */
    method LayoutChanged(id: WidgetId, queue: EventQueue, update: Layout -> Layout)
      modifies this`graph, queue
      ensures graph == LayoutChangedGraph(old(graph), id, update)
      ensures queue.entries == old(queue.entries) + [(EventAddress.Ui, RedrawEvent)]
    {
      if id in graph {
        var widget := graph[id];
        graph := graph[id := widget.(layout := update(widget.layout))];
      }
      queue.Push(EventAddress.Ui, RedrawEvent);
    }
  }
}
