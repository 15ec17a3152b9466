/** The typed, address-routed event queue's vocabulary.

    The source queues events as `Box<Any + Send>` and recovers their type at delivery through
    `TypeId`. Here the events of this model form one sum type, and `TypeOf` gives the runtime
    type tag that `TypeId::of` would give. */
module Events {
  import opened Wrappers
  import opened Geometry
  import Glutin

  /** `resources::WidgetId`: an opaque widget identity. */
  type WidgetId = nat

  /** Where a queued event is delivered: one widget, the subtree rooted at a widget
      (inclusive), or the global Ui handlers. */
  datatype EventAddress = Widget(id: WidgetId) | SubTree(id: WidgetId) | Ui

  /** The phase of a drag gesture (`widgets::drag::DragEvent`). */
  datatype DragEvent = DragStart | Drag | DragEnd

  /** `widgets::drag::WidgetDrag`: the drag phase and the pointer position. */
  datatype WidgetDrag = WidgetDrag(dragType: DragEvent, position: Point)

  /** `MovedSliderWidgetEvent`: the slider handle's horizontal extent. */
  datatype MovedSliderWidgetEvent = MovedSliderWidgetEvent(sliderLeft: real, sliderRight: real)

  /** Every event type of this model, as the payload of a queue entry. */
  datatype Event =
    | RedrawEvent
    | LayoutChanged(widget: WidgetId)
    | InputEvent(input: Glutin.Event)
    | MouseMoved(point: Point)
    | MouseButton(state: Glutin.ElementState, button: Glutin.MouseButton)
    | MouseWheel(delta: Glutin.MouseScrollDelta)
    | KeyboardInput(state: Glutin.ElementState, scanCode: Glutin.ScanCode, keyCode: Option<Glutin.VirtualKeyCode>)
    | Dragged(drag: WidgetDrag)
    | MovedSlider(moved: MovedSliderWidgetEvent)

  /** Runtime type tags (`std::any::TypeId`). The last two tag the event types of the
      mouse controller and the focus handler, whose modules are not part of this model. */
  datatype TypeId =
    | RedrawEventType
    | LayoutChangedType
    | InputEventType
    | MouseMovedType
    | MouseButtonType
    | MouseWheelType
    | KeyboardInputType
    | WidgetDragType
    | MovedSliderWidgetType
    | MouseInputEventType
    | FocusEventType

  /** The type tag an event carries once boxed. */
  function TypeOf(e: Event): (t: TypeId)
    ensures t == RedrawEventType <==> e.RedrawEvent?
    ensures t == LayoutChangedType <==> e.LayoutChanged?
    ensures t == InputEventType <==> e.InputEvent?
    ensures t == MouseMovedType <==> e.MouseMoved?
    ensures t == MouseButtonType <==> e.MouseButton?
    ensures t == MouseWheelType <==> e.MouseWheel?
    ensures t == KeyboardInputType <==> e.KeyboardInput?
    ensures t == WidgetDragType <==> e.Dragged?
    ensures t == MovedSliderWidgetType <==> e.MovedSlider?
    ensures t != MouseInputEventType && t != FocusEventType
  {
    match e
    case RedrawEvent => RedrawEventType
    case LayoutChanged(_) => LayoutChangedType
    case InputEvent(_) => InputEventType
    case MouseMoved(_) => MouseMovedType
    case MouseButton(_, _) => MouseButtonType
    case MouseWheel(_) => MouseWheelType
    case KeyboardInput(_, _, _) => KeyboardInputType
    case Dragged(_) => WidgetDragType
    case MovedSlider(_) => MovedSliderWidgetType
  }

  /** `downcast_ref::<E>()`: the event itself when its tag is that of `E`, nothing otherwise. */
  function Downcast(e: Event, t: TypeId): (r: Option<Event>)
    ensures r.Some? <==> TypeOf(e) == t
    ensures r.Some? ==> r.value == e
  {
    if TypeOf(e) == t then Some(e) else None
  }

  /** The FIFO event queue: entries are only ever appended at the back. */
  class EventQueue {
    var entries: seq<(EventAddress, Event)>

    constructor ()
      ensures entries == []
    {
      entries := [];
    }

    method Push(address: EventAddress, event: Event)
      modifies this
      ensures entries == old(entries) + [(address, event)]
    {
      entries := entries + [(address, event)];
    }
  }

  /** The per-delivery state a widget handler receives; `handled` stops further delivery. */
  class EventState {
    var handled: bool

    constructor ()
      ensures !handled
    {
      handled := false;
    }
  }
}
