/**
 * The navigation state of a `Router` as a value, and each of the router's
 * operations as a transition from one state to the next. The class
 * `Voyager.Router` is proved to perform exactly these transitions; the
 * properties of the transitions are proved in `RouterProperties`.
 */
module RouterState {
  import opened Wrappers

  /** How `present` shows a route and what `dismiss` removes. */
  datatype PresentationOption = Navigation | Sheet | FullscreenCover | Popover

  /**
   * Identity of a dismiss closure. The router only stores the closure and
   * never calls it, so which closure is stored is all there is to observe.
   */
  type CallbackId = nat

  /** Everything a router's operations can change. */
  datatype NavState<T> = NavState(
    root: T,
    routes: seq<T>,
    sheet: Option<T>,
    fullscreenCover: Option<T>,
    popover: Option<T>,
    onDismiss: Option<CallbackId>)

  /** The state right after `init(root:)`: no history, no overlay, no callback. */
  function Init<T>(root: T): NavState<T>
  {
    NavState(root, [], None, None, None, None)
  }

  function UpdateRoot<T>(s: NavState<T>, route: T): NavState<T>
  {
    s.(root := route, routes := [])
  }

  function Push<T>(s: NavState<T>, route: T): NavState<T>
  {
    s.(routes := s.routes + [route])
  }

  /** `removeLast` traps on an empty array, so popping needs a pushed route. */
  function Pop<T>(s: NavState<T>): NavState<T>
    requires |s.routes| > 0
  {
    s.(routes := s.routes[..|s.routes| - 1])
  }

  function PresentSheet<T>(s: NavState<T>, route: T, onDismiss: Option<CallbackId>): NavState<T>
  {
    s.(sheet := Some(route), onDismiss := onDismiss)
  }

  function PresentFullscreenCover<T>(s: NavState<T>, route: T, onDismiss: Option<CallbackId>): NavState<T>
  {
    s.(fullscreenCover := Some(route), onDismiss := onDismiss)
  }

  /** A popover takes no dismiss callback. */
  function PresentPopover<T>(s: NavState<T>, route: T): NavState<T>
  {
    s.(popover := Some(route))
  }

  function Present<T>(s: NavState<T>, route: T, option: PresentationOption, onDismiss: Option<CallbackId>): NavState<T>
  {
    match option
    case FullscreenCover => PresentFullscreenCover(s, route, onDismiss)
    case Popover => PresentPopover(s, route)
    case Navigation => Push(s, route)
    case Sheet => PresentSheet(s, route, onDismiss)
  }

  /** True when no overlay slot holds a route. */
  predicate NoOverlay<T>(s: NavState<T>)
  {
    s.sheet.None? && s.fullscreenCover.None? && s.popover.None?
  }

  /**
   * `dismiss` reaches `pop` for `.navigation`, and for `nil` when no overlay
   * is shown; both trap on an empty navigation stack.
   */
  predicate CanDismiss<T>(s: NavState<T>, option: Option<PresentationOption>)
  {
    match option
    case Some(Navigation) => |s.routes| > 0
    case Some(_) => true
    case None => !NoOverlay(s) || |s.routes| > 0
  }

  /**
   * An explicit option clears that one slot (or pops); `nil` clears the first
   * shown overlay in the order sheet, fullscreen cover, popover, and pops when
   * none is shown. The stored callback is neither called nor cleared.
   */
  function Dismiss<T>(s: NavState<T>, option: Option<PresentationOption>): NavState<T>
    requires CanDismiss(s, option)
  {
    match option
    case Some(FullscreenCover) => s.(fullscreenCover := None)
    case Some(Navigation) => Pop(s)
    case Some(Popover) => s.(popover := None)
    case Some(Sheet) => s.(sheet := None)
    case None =>
      if s.sheet.Some? then s.(sheet := None)
      else if s.fullscreenCover.Some? then s.(fullscreenCover := None)
      else if s.popover.Some? then s.(popover := None)
      else Pop(s)
  }

  /**
   * `resolved` is what the deeplink handler made of the URL (`None` also when
   * no handler is installed). A resolved route is presented with no callback.
   */
  function HandleDeeplink<T>(s: NavState<T>, resolved: Option<(T, PresentationOption)>): NavState<T>
  {
    match resolved
    case None => s
    case Some((route, option)) => Present(s, route, option, None)
  }

  /** One thing `dismiss(nil)` can remove: a pushed route or a shown overlay. */
  datatype Layer<T> = Pushed(route: T) | Shown(slot: PresentationOption, route: T)

  /** The navigation stack as layers, the first pushed route lowest. */
  function PushedLayers<T>(routes: seq<T>): (ls: seq<Layer<T>>)
    ensures |ls| == |routes|
    ensures forall i :: 0 <= i < |routes| ==> ls[i] == Pushed(routes[i])
  {
    if routes == [] then []
    else PushedLayers(routes[..|routes| - 1]) + [Pushed(routes[|routes| - 1])]
  }

  /** The layer an occupied overlay slot adds, if any. */
  function SlotLayer<T>(slot: PresentationOption, content: Option<T>): seq<Layer<T>>
  {
    if content.Some? then [Shown(slot, content.value)] else []
  }

  /**
   * Everything `dismiss(nil)` can remove, in the order it removes them, last
   * first: the pushed routes, then the popover, the fullscreen cover and the
   * sheet. The order follows the priority chain of `dismiss(nil)`; how the
   * overlays stack on screen is not part of this model.
   */
  function Layers<T>(s: NavState<T>): seq<Layer<T>>
  {
    PushedLayers(s.routes)
    + SlotLayer(Popover, s.popover)
    + SlotLayer(FullscreenCover, s.fullscreenCover)
    + SlotLayer(Sheet, s.sheet)
  }
}
