# Voyager router, modelled in Dafny

Voyager's `Router<T>` is the navigation state machine of a SwiftUI app. It
holds a root route and a navigation stack of pushed routes. It also has three
independent overlay slots (sheet, fullscreen cover, popover) and one stored
dismiss callback. `present` pushes a route or fills an overlay slot.
`dismiss` clears a slot or pops the stack. `handleDeeplink` presents whatever
an installed deeplink handler makes of a URL.

The project has four files:

- `Wrappers.dfy`: `Option`, standing for Swift's `T?`.
- `RouterState.dfy`: the router's state as a value, `NavState<T>`, and each
  operation as a pure transition function (`Init`, `UpdateRoot`, `Present`,
  `Dismiss`, `HandleDeeplink`, and the private helpers `Push`, `Pop`,
  `PresentSheet`, `PresentFullscreenCover`, `PresentPopover`). It also
  defines `Layers`: everything `dismiss(nil)` can remove, in the order it
  removes them, last first. These are the pushed routes, then the popover,
  then the fullscreen cover, then the sheet.
- `Router.dfy`: `class Router<T>`. Its fields are updated in place, as in the
  Swift class. Each method's frame names only the fields it may change. Each
  method states, field by field, what it sets and what it leaves alone. It
  also proves that its new `State()` equals the matching transition function
  applied to the old state.
- `RouterProperties.dfy`: properties that span several calls. Pushes and pops
  behave as a stack (last in, first out). `updateRoot` forgets all history.
  `dismiss(nil)` always removes the last layer, and `k` calls remove
  the last `k` layers. Clearing a slot is idempotent. The overlay slots
  are independent. The callback is overwritten, not accumulated.

Popping an empty stack traps in the code: `removeLast` on an empty array.
An empty pop is not turned into a no-op. `Pop`, `dismiss(.navigation)` and
the fall-through branch of `dismiss(nil)` require a pushed route (predicate
`RouterState.CanDismiss`).

Nothing in the code stops two overlays from being shown at once.
`OverlaysCanCoexist` shows a sheet and a popover both shown after two
`present` calls.

## Model

| member | source | states |
|---|---|---|
| `Voyager.Router.constructor` | Sources/Voyager/Router.swift:21-25 | the given root, an empty stack, all three overlay slots and the callback nil, the given deeplink handler |
| `Voyager.Router.UpdateRoot` | Sources/Voyager/Router.swift:29-32 | root becomes the route and the stack is emptied whatever its depth; overlays and callback are outside the frame, so they are unchanged |
| `Voyager.Router.Present` | Sources/Voyager/Router.swift:34-45 | `.navigation` appends to the stack only; `.sheet` / `.fullscreenCover` fill their own slot and overwrite the callback; `.popover` fills only its slot and keeps the callback; root never changes |
| `Voyager.Router.Dismiss` | Sources/Voyager/Router.swift:47-68 | an explicit overlay option clears only that slot; `.navigation` drops the last route; nil clears the first shown overlay in the order sheet, fullscreen cover, popover, else drops the last route; popping needs a pushed route; the callback is never touched |
| `Voyager.Router.HandleDeeplink` | Sources/Voyager/Router.swift:70-74 | with no handler or no answer nothing changes; otherwise the state is exactly that of presenting the answered route and option with no callback |
| `Voyager.Router.Push` | Sources/Voyager/Router.swift:78-80 | the route is appended to the end of the stack |
| `Voyager.Router.Pop` | Sources/Voyager/Router.swift:82-84 | requires a non-empty stack; the last route is removed and the rest kept in order |
| `Voyager.Router.PresentSheet` | Sources/Voyager/Router.swift:86-89 | the sheet slot holds the route and the stored callback is the new one |
| `Voyager.Router.PresentFullscreenCover` | Sources/Voyager/Router.swift:91-94 | the fullscreen cover slot holds the route and the stored callback is the new one |
| `Voyager.Router.PresentPopover` | Sources/Voyager/Router.swift:96-98 | the popover slot holds the route; nothing else, the callback included, may change |
| `RouterProperties.InitShowsOnlyRoot` | Sources/Voyager/Router.swift:21-25 | a new router has no layers and stores no callback; it cannot be popped, since `dismiss(nil)` and `dismiss(.navigation)` would trap |
| `RouterProperties.PushAllAppends` | Sources/Voyager/Router.swift:78-80 | pushing a sequence of routes appends them in order and changes nothing else |
| `RouterProperties.PopTimesTruncates` | Sources/Voyager/Router.swift:82-84 | `k` navigation dismissals drop exactly the last `k` routes and change nothing else |
| `RouterProperties.NavigationIsLifo` | Sources/Voyager/Router.swift:78-84 | popping as many routes as were pushed gives back the state before the pushes |
| `RouterProperties.PushThenPop` | Sources/Voyager/Router.swift:40-41 | `present(r, .navigation)` followed by `dismiss(.navigation)` is always allowed and is the identity |
| `RouterProperties.UpdateRootForgetsHistory` | Sources/Voyager/Router.swift:29-32 | after any number of pushes, `updateRoot` gives the same state as without them: new root, empty stack |
| `RouterProperties.CanDismissIffLayers` | Sources/Voyager/Router.swift:57-66 | `dismiss(nil)` can proceed exactly when some overlay or pushed route is there to remove |
| `RouterProperties.DismissRemovesLastLayer` | Sources/Voyager/Router.swift:57-66 | `dismiss(nil)` removes exactly the last layer (sheet, then fullscreen cover, then popover, then the last route) and keeps root and callback |
| `RouterProperties.DismissTimesPeelsLayers` | Sources/Voyager/Router.swift:57-66 | `k` calls of `dismiss(nil)` remove exactly the last `k` layers, in priority order |
| `RouterProperties.DismissAllReachesRoot` | Sources/Voyager/Router.swift:57-66 | one `dismiss(nil)` per shown overlay and pushed route clears every overlay and empties the stack |
| `RouterProperties.DismissPriorityOrder` | Sources/Voyager/Router.swift:57-66 | with all three overlays shown, successive `dismiss(nil)` calls clear sheet, fullscreen cover, popover, then pop |
| `RouterProperties.PushIsLastLayerWithoutOverlay` | Sources/Voyager/Router.swift:78-80 | with no overlay shown, a pushed route becomes the last layer, after the previous ones, so `dismiss(nil)` removes it next |
| `RouterProperties.SheetIsLastLayer` | Sources/Voyager/Router.swift:86-89 | a presented sheet is always the last layer, so the next `dismiss(nil)` clears it |
| `RouterProperties.DismissOverlayIdempotent` | Sources/Voyager/Router.swift:49-56 | dismissing the same overlay kind twice equals dismissing it once |
| `RouterProperties.PresentThenDismissOverlay` | Sources/Voyager/Router.swift:34-56 | presenting an overlay then dismissing that kind leaves the slot empty, with only the callback set by the presentation |
| `RouterProperties.OverlaySlotsIndependent` | Sources/Voyager/Router.swift:34-56 | presenting one overlay kind commutes with dismissing another |
| `RouterProperties.OverlaysCanCoexist` | Sources/Voyager/Router.swift:36-43 | a sheet followed by a popover leaves both slots shown |
| `RouterProperties.CallbackOverwritten` | Sources/Voyager/Router.swift:86-94 | after two sheet or fullscreen cover presentations only the second callback is stored |
| `RouterProperties.CallbackKeptByPopoverAndPush` | Sources/Voyager/Router.swift:38-41 | presenting a popover or pushing never changes the stored callback |
| `RouterProperties.CallbackKeptByDismiss` | Sources/Voyager/Router.swift:47-68 | no form of `dismiss` clears or replaces the stored callback |
| `RouterProperties.DeeplinkOverlayClearsCallback` | Sources/Voyager/Router.swift:70-74 | a deeplink to a sheet or fullscreen cover presents it with no callback, clearing any stored one; an unresolved deeplink changes nothing |

## Left out

- Change notifications: `ObservableObject` and `@Published` are left out; the fields are plain mutable state.
- The dismiss closure is never called by the router, so it is modelled as an opaque token (`CallbackId`).
- `URL` and `DeeplinkHandler.handleDeeplink` are not part of this model: the handler is an opaque token, and its answer for the URL is a parameter of `HandleDeeplink`.
- The `Route` protocol is not part of this model; `T` is an unconstrained type parameter.
- The convenience initializer taking a `() -> T` closure only evaluates the closure and delegates to the modelled initializer.
- How the overlays stack on screen is not modelled: `Layers` orders them only as `dismiss(nil)` removes them.
- `push` never compares its route with `root`, so no invariant says the stack never holds the root.
