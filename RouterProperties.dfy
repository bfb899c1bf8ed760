/**
 * What a router promises across calls: the navigation stack is LIFO and is
 * reset by `updateRoot`, `dismiss(nil)` always removes the last layer,
 * overlay slots are independent and clearing one is idempotent, and the
 * dismiss callback is overwritten rather than accumulated.
 */
module RouterProperties {
  import opened Wrappers
  import opened RouterState

  // ----- Initial state -----

  lemma InitShowsOnlyRoot<T>(root: T)
    ensures Init(root).root == root
    ensures Layers(Init(root)) == [] && Init(root).onDismiss == None
    ensures !CanDismiss(Init(root), None) && !CanDismiss(Init(root), Some(Navigation))
  {
  }

  // ----- The navigation stack -----

  /** Pushes `rs` one after the other, as `present(r, .navigation)` does. */
  function PushAll<T>(s: NavState<T>, rs: seq<T>): NavState<T>
    decreases |rs|
  {
    if rs == [] then s else PushAll(Present(s, rs[0], Navigation, None), rs[1..])
  }

  /** Calls `dismiss(.navigation)` `k` times. */
  function PopTimes<T>(s: NavState<T>, k: nat): NavState<T>
    requires k <= |s.routes|
    decreases k
  {
    if k == 0 then s else PopTimes(Dismiss(s, Some(Navigation)), k - 1)
  }

  /** Pushing appends the routes in order and changes nothing else. */
  lemma {:induction false} PushAllAppends<T>(s: NavState<T>, rs: seq<T>)
    ensures PushAll(s, rs) == s.(routes := s.routes + rs)
    decreases |rs|
  {
    if rs != [] {
      var s' := Present(s, rs[0], Navigation, None);
      PushAllAppends(s', rs[1..]);
      assert s.routes + [rs[0]] + rs[1..] == s.routes + rs;
    }
  }

  /** Popping `k` times drops the last `k` routes and changes nothing else. */
  lemma {:induction false} PopTimesTruncates<T>(s: NavState<T>, k: nat)
    requires k <= |s.routes|
    ensures PopTimes(s, k) == s.(routes := s.routes[..|s.routes| - k])
    decreases k
  {
    if k > 0 {
      var s' := Dismiss(s, Some(Navigation));
      PopTimesTruncates(s', k - 1);
      assert s'.routes[..|s'.routes| - (k - 1)] == s.routes[..|s.routes| - k];
    }
  }

  /** The stack is LIFO: popping as many routes as were pushed restores the state. */
  lemma NavigationIsLifo<T>(s: NavState<T>, rs: seq<T>)
    ensures |PushAll(s, rs).routes| == |s.routes| + |rs|
    ensures PopTimes(PushAll(s, rs), |rs|) == s
  {
    PushAllAppends(s, rs);
    var t := PushAll(s, rs);
    PopTimesTruncates(t, |rs|);
    assert t.routes[..|t.routes| - |rs|] == s.routes;
  }

  /** Pushing one route and dismissing `.navigation` is the identity. */
  lemma PushThenPop<T>(s: NavState<T>, route: T, cb: Option<CallbackId>)
    ensures CanDismiss(Present(s, route, Navigation, cb), Some(Navigation))
    ensures Dismiss(Present(s, route, Navigation, cb), Some(Navigation)) == s
  {
  }

  /** `updateRoot` forgets all history, however many routes were pushed. */
  lemma UpdateRootForgetsHistory<T>(s: NavState<T>, rs: seq<T>, route: T)
    ensures UpdateRoot(PushAll(s, rs), route) == UpdateRoot(s, route)
    ensures UpdateRoot(PushAll(s, rs), route).routes == []
    ensures UpdateRoot(PushAll(s, rs), route).root == route
  {
    PushAllAppends(s, rs);
  }

  // ----- dismiss(nil): the last layer goes first -----

  /** `dismiss(nil)` is possible exactly when some overlay or pushed route is there to remove. */
  lemma CanDismissIffLayers<T>(s: NavState<T>)
    ensures CanDismiss(s, None) <==> |Layers(s)| > 0
  {
  }

  /**
   * `dismiss(nil)` removes exactly the last layer: the sheet before the
   * fullscreen cover before the popover before the last pushed route. Root
   * and stored callback stay.
   */
  lemma DismissRemovesLastLayer<T>(s: NavState<T>)
    requires CanDismiss(s, None)
    ensures |Layers(s)| > 0
    ensures Layers(Dismiss(s, None)) == Layers(s)[..|Layers(s)| - 1]
    ensures Dismiss(s, None).root == s.root && Dismiss(s, None).onDismiss == s.onDismiss
  {
  }

  /** Calls `dismiss(nil)` `k` times; each call needs a layer to remove. */
  function DismissTimes<T>(s: NavState<T>, k: nat): NavState<T>
    requires k <= |Layers(s)|
    decreases k
  {
    if k == 0 then s
    else
      CanDismissIffLayers(s);
      DismissRemovesLastLayer(s);
      DismissTimes(Dismiss(s, None), k - 1)
  }

  /** Repeated `dismiss(nil)` peels the layers last to first, one per call. */
  lemma {:induction false} DismissTimesPeelsLayers<T>(s: NavState<T>, k: nat)
    requires k <= |Layers(s)|
    ensures Layers(DismissTimes(s, k)) == Layers(s)[..|Layers(s)| - k]
    ensures DismissTimes(s, k).root == s.root
    ensures DismissTimes(s, k).onDismiss == s.onDismiss
    decreases k
  {
    if k > 0 {
      CanDismissIffLayers(s);
      DismissRemovesLastLayer(s);
      var s' := Dismiss(s, None);
      DismissTimesPeelsLayers(s', k - 1);
    }
  }

  /** Enough `dismiss(nil)` calls clear every overlay and the whole stack. */
  lemma DismissAllReachesRoot<T>(s: NavState<T>)
    ensures |Layers(s)| == |s.routes| + |SlotLayer(Sheet, s.sheet)|
      + |SlotLayer(FullscreenCover, s.fullscreenCover)| + |SlotLayer(Popover, s.popover)|
    ensures NoOverlay(DismissTimes(s, |Layers(s)|))
    ensures DismissTimes(s, |Layers(s)|).routes == []
  {
    DismissTimesPeelsLayers(s, |Layers(s)|);
    var t := DismissTimes(s, |Layers(s)|);
    assert |Layers(t)| == 0;
  }

  /**
   * With all three overlays shown and a route pushed, four `dismiss(nil)`
   * calls clear the sheet, the fullscreen cover, the popover and then pop.
   */
  lemma DismissPriorityOrder<T>(s: NavState<T>)
    requires s.sheet.Some? && s.fullscreenCover.Some? && s.popover.Some? && |s.routes| > 0
    ensures Dismiss(s, None) == s.(sheet := None)
    ensures Dismiss(s.(sheet := None), None) == s.(sheet := None, fullscreenCover := None)
    ensures Dismiss(s.(sheet := None, fullscreenCover := None), None)
         == s.(sheet := None, fullscreenCover := None, popover := None)
    ensures Dismiss(s.(sheet := None, fullscreenCover := None, popover := None), None)
         == s.(sheet := None, fullscreenCover := None, popover := None, routes := s.routes[..|s.routes| - 1])
  {
  }

  /** When no overlay is shown, a pushed route is the next thing `dismiss(nil)` removes. */
  lemma PushIsLastLayerWithoutOverlay<T>(s: NavState<T>, route: T, cb: Option<CallbackId>)
    requires NoOverlay(s)
    ensures Layers(Present(s, route, Navigation, cb)) == Layers(s) + [Pushed(route)]
  {
  }

  /** A presented sheet is always the last layer, so `dismiss(nil)` clears it next. */
  lemma SheetIsLastLayer<T>(s: NavState<T>, route: T, cb: Option<CallbackId>)
    ensures |Layers(Present(s, route, Sheet, cb))| > 0
    ensures Layers(Present(s, route, Sheet, cb))[|Layers(Present(s, route, Sheet, cb))| - 1] == Shown(Sheet, route)
  {
  }

  // ----- Overlay slots -----

  /** Dismissing one overlay kind twice is the same as dismissing it once. */
  lemma DismissOverlayIdempotent<T>(s: NavState<T>, o: PresentationOption)
    requires o != Navigation
    ensures Dismiss(Dismiss(s, Some(o)), Some(o)) == Dismiss(s, Some(o))
  {
  }

  /**
   * Presenting an overlay and dismissing the same kind leaves the state as
   * dismissing alone would, except for the callback the presentation stored.
   */
  lemma PresentThenDismissOverlay<T>(s: NavState<T>, route: T, o: PresentationOption, cb: Option<CallbackId>)
    requires o != Navigation
    ensures Dismiss(Present(s, route, o, cb), Some(o)) == Dismiss(s, Some(o)).(onDismiss := Present(s, route, o, cb).onDismiss)
  {
  }

  /** The three overlay slots are independent: work on one commutes with clearing another. */
  lemma OverlaySlotsIndependent<T>(s: NavState<T>, route: T, o: PresentationOption, d: PresentationOption, cb: Option<CallbackId>)
    requires o != Navigation && d != Navigation && o != d
    ensures Dismiss(Present(s, route, o, cb), Some(d)) == Present(Dismiss(s, Some(d)), route, o, cb)
  {
  }

  /**
   * Nothing in `present` keeps two overlays from being shown at once: a sheet
   * and then a popover leaves both slots occupied.
   */
  lemma OverlaysCanCoexist<T>(root: T, a: T, b: T)
    ensures Present(Present(Init(root), a, Sheet, None), b, Popover, None).sheet == Some(a)
    ensures Present(Present(Init(root), a, Sheet, None), b, Popover, None).popover == Some(b)
  {
  }

  // ----- The dismiss callback -----

  /**
   * A sheet or fullscreen cover presentation overwrites the stored callback
   * with its own, whatever was stored before; the earlier one is gone.
   */
  lemma CallbackOverwritten<T>(s: NavState<T>, x: T, y: T, o1: PresentationOption, o2: PresentationOption,
                               f: Option<CallbackId>, g: Option<CallbackId>)
    requires o1 in {Sheet, FullscreenCover} && o2 in {Sheet, FullscreenCover}
    ensures Present(Present(s, x, o1, f), y, o2, g).onDismiss == g
  {
  }

  /** Popovers and pushes never touch the stored callback. */
  lemma CallbackKeptByPopoverAndPush<T>(s: NavState<T>, route: T, o: PresentationOption, cb: Option<CallbackId>)
    requires o in {Navigation, Popover}
    ensures Present(s, route, o, cb).onDismiss == s.onDismiss
  {
  }

  /** No dismissal clears or replaces the stored callback. */
  lemma CallbackKeptByDismiss<T>(s: NavState<T>, option: Option<PresentationOption>)
    requires CanDismiss(s, option)
    ensures Dismiss(s, option).onDismiss == s.onDismiss
  {
  }

  // ----- Deeplinks -----

  /**
   * A deeplink that resolves to a sheet or fullscreen cover presents it and
   * clears any stored callback; an unresolved one changes nothing.
   */
  lemma DeeplinkOverlayClearsCallback<T>(s: NavState<T>, route: T, o: PresentationOption)
    requires o in {Sheet, FullscreenCover}
    ensures HandleDeeplink(s, Some((route, o))).onDismiss == None
    ensures HandleDeeplink(s, Some((route, o))) == Present(s, route, o, None)
    ensures HandleDeeplink(s, None) == s
  {
  }
}
