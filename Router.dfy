/**
 * The router of Sources/Voyager/Router.swift: a root route, a navigation
 * stack and three overlay slots, all updated in place. Each method is proved
 * to perform the transition of the same name in `RouterState`, and states
 * field by field what it changes.
 */
module Voyager {
  import opened Wrappers
  import Nav = RouterState

  /** Identity of an installed deeplink handler. */
  type DeeplinkHandlerId = nat

  class Router<T> {
    var root: T
    var routes: seq<T>
    var sheet: Option<T>
    var fullscreenCover: Option<T>
    var popover: Option<T>
    var onDismiss: Option<Nav.CallbackId>
    var deeplinkHandler: Option<DeeplinkHandlerId>

    /** The router's navigation state as a value. */
    function State(): Nav.NavState<T>
      reads this
    {
      Nav.NavState(root, routes, sheet, fullscreenCover, popover, onDismiss)
    }

    constructor (root: T, deeplinkHandler: Option<DeeplinkHandlerId> := None)
      ensures this.root == root && routes == []
      ensures sheet == None && fullscreenCover == None && popover == None && onDismiss == None
      ensures this.deeplinkHandler == deeplinkHandler
      ensures State() == Nav.Init(root)
    {
      this.root := root;
      routes := [];
      sheet, fullscreenCover, popover, onDismiss := None, None, None, None;
      this.deeplinkHandler := deeplinkHandler;
    }

    /** Replaces the root and drops the whole navigation history. */
    method UpdateRoot(route: T)
      modifies this`root, this`routes
      ensures root == route && routes == []
      ensures State() == Nav.UpdateRoot(old(State()), route)
    {
      root := route;
      routes := [];
    }

    method Present(route: T, option: Nav.PresentationOption := Nav.Navigation, onDismiss: Option<Nav.CallbackId> := None)
      modifies this`routes, this`sheet, this`fullscreenCover, this`popover, this`onDismiss
      ensures option == Nav.Navigation ==>
        routes == old(routes) + [route] && unchanged(this`sheet, this`fullscreenCover, this`popover, this`onDismiss)
      ensures option == Nav.Sheet ==>
        sheet == Some(route) && this.onDismiss == onDismiss && unchanged(this`routes, this`fullscreenCover, this`popover)
      ensures option == Nav.FullscreenCover ==>
        fullscreenCover == Some(route) && this.onDismiss == onDismiss && unchanged(this`routes, this`sheet, this`popover)
      ensures option == Nav.Popover ==>
        popover == Some(route) && unchanged(this`routes, this`sheet, this`fullscreenCover, this`onDismiss)
      ensures State() == Nav.Present(old(State()), route, option, onDismiss)
    {
      match option
      case FullscreenCover => PresentFullscreenCover(route, onDismiss);
      case Popover => PresentPopover(route);
      case Navigation => Push(route);
      case Sheet => PresentSheet(route, onDismiss);
    }

    /**
     * Clears the named slot, or pops for `.navigation`; with no option, clears
     * the first shown overlay in the order sheet, fullscreen cover, popover,
     * and pops when none is shown. Popping needs a pushed route.
     */
    method Dismiss(option: Option<Nav.PresentationOption> := None)
      requires Nav.CanDismiss(State(), option)
      modifies this`routes, this`sheet, this`fullscreenCover, this`popover
      ensures option == Some(Nav.Sheet) ==> sheet == None && unchanged(this`routes, this`fullscreenCover, this`popover)
      ensures option == Some(Nav.FullscreenCover) ==> fullscreenCover == None && unchanged(this`routes, this`sheet, this`popover)
      ensures option == Some(Nav.Popover) ==> popover == None && unchanged(this`routes, this`sheet, this`fullscreenCover)
      ensures option == Some(Nav.Navigation) ==>
        routes == old(routes)[..|old(routes)| - 1] && unchanged(this`sheet, this`fullscreenCover, this`popover)
      ensures option == None ==>
        if old(sheet).Some? then sheet == None && unchanged(this`routes, this`fullscreenCover, this`popover)
        else if old(fullscreenCover).Some? then fullscreenCover == None && unchanged(this`routes, this`sheet, this`popover)
        else if old(popover).Some? then popover == None && unchanged(this`routes, this`sheet, this`fullscreenCover)
        else routes == old(routes)[..|old(routes)| - 1] && unchanged(this`sheet, this`fullscreenCover, this`popover)
      ensures State() == Nav.Dismiss(old(State()), option)
    {
      match option
      case Some(FullscreenCover) => fullscreenCover := None;
      case Some(Navigation) => Pop();
      case Some(Popover) => popover := None;
      case Some(Sheet) => sheet := None;
      case None =>
        if sheet.Some? {
          sheet := None;
        } else if fullscreenCover.Some? {
          fullscreenCover := None;
        } else if popover.Some? {
          popover := None;
        } else {
          Pop();
        }
    }

    /**
     * `handlerAnswer` is what the installed handler returns for the URL. With
     * no handler installed, or no answer, nothing changes; otherwise the route
     * is presented with the default (absent) dismiss callback.
     */
    method HandleDeeplink(handlerAnswer: Option<(T, Nav.PresentationOption)>)
      modifies this`routes, this`sheet, this`fullscreenCover, this`popover, this`onDismiss
      ensures deeplinkHandler.None? || handlerAnswer.None? ==> State() == old(State())
      ensures deeplinkHandler.Some? && handlerAnswer.Some? ==>
        State() == Nav.Present(old(State()), handlerAnswer.value.0, handlerAnswer.value.1, None)
      ensures State() == Nav.HandleDeeplink(old(State()), if deeplinkHandler.Some? then handlerAnswer else None)
    {
      var resolved := if deeplinkHandler.Some? then handlerAnswer else None;
      match resolved
      case Some((route, option)) => Present(route, option);
      case None =>
    }

    // Private helpers of the Swift class.

    method Push(route: T)
      modifies this`routes
      ensures routes == old(routes) + [route]
      ensures State() == Nav.Push(old(State()), route)
    {
      routes := routes + [route];
    }

    method Pop()
      requires |routes| > 0
      modifies this`routes
      ensures routes == old(routes)[..|old(routes)| - 1]
      ensures State() == Nav.Pop(old(State()))
    {
      routes := routes[..|routes| - 1];
    }

    method PresentSheet(route: T, onDismiss: Option<Nav.CallbackId> := None)
      modifies this`sheet, this`onDismiss
      ensures sheet == Some(route) && this.onDismiss == onDismiss
      ensures State() == Nav.PresentSheet(old(State()), route, onDismiss)
    {
      sheet := Some(route);
      this.onDismiss := onDismiss;
    }

    method PresentFullscreenCover(route: T, onDismiss: Option<Nav.CallbackId> := None)
      modifies this`fullscreenCover, this`onDismiss
      ensures fullscreenCover == Some(route) && this.onDismiss == onDismiss
      ensures State() == Nav.PresentFullscreenCover(old(State()), route, onDismiss)
    {
      fullscreenCover := Some(route);
      this.onDismiss := onDismiss;
    }

    method PresentPopover(route: T)
      modifies this`popover
      ensures popover == Some(route)
      ensures State() == Nav.PresentPopover(old(State()), route)
    {
      popover := Some(route);
    }
  }
}
