# SheetUI swipe-to-dismiss sheet, modelled in Dafny

SheetUI is a bottom-sheet component for SwiftUI on UIKit. This project models its logic:

- **The sheet controller** (`SheetViewController`). On the first layout pass it records the sheet's origin. During a pan the sheet follows the finger downwards. When the pan ends, an ordered rule dismisses the sheet or sends it back to the origin: modal lock first, then velocity, then a quarter of the container's height. A tap outside the hosted content dismisses the sheet unless it is modal. When the view disappears, the `isPresented` binding is set to false.
  - Module `SheetMachine` holds these steps as functions on values, with lemmas about whole event runs.
  - Class `SheetController.SheetViewController` holds the same state as fields. Its handlers are proved to perform those steps.
- **Presenter selection** (`UIApplication.getRootViewController` and `presentingViewController`), module `Presenter`. It takes the first connected scene in an allowed activation state, then the root of that scene's first key window. It then picks the root's presented controller, unless there is none or it is being dismissed.
- **Presentation sessions** (`updatePresentation` in the view modifiers). Module `Sessions` is the shared core: the binding, the stored controller, and a log of the present and dismiss calls issued to UIKit. It proves an invariant over any sequence of binding changes, and from it that no controller is dismissed twice. Classes `SheetModifiers.ItemSheetViewModifier` and `SheetModifiers.SheetViewModifier` model the two modifiers of `SheetViewModifier.swift`. Class `SheetItemModifiers.ItemSheetViewModifier` models the later item modifier of `ItemSheetViewModifier.swift`.

The files come from diverging versions of the package and are modelled each as written:

- `style.targetVelocity` is not a member of `SheetViewStyle`, so the velocity threshold is a constructor parameter of the controller.
- `ItemSheetViewModifier` exists twice. Both versions are modelled, in two modules.

Where the design description and the code differ, the model follows the code:

- Opening a new item while a controller is stored replaces the stored controller without dismissing it. The session log shows two presents in a row.
- The swipe distance is a quarter of the container view's height.
- The velocity and distance comparisons are strict (`>`).
- A pan event with upward net translation is ignored entirely, not clamped at zero. A pan that ends that way therefore sends nothing back to the origin, even on a modal sheet. `SheetMachine.UpwardEndLeavesModalSheetAway` shows a modal sheet left off its origin this way.

Inputs from outside the program become parameters:

- the connected scenes (a sequence, in the order `first(where:)` visits them);
- the gesture's translation and velocity (y only);
- the view's frame at a layout pass;
- whether a touch lies inside the hosted content;
- the device idiom.

## Model

| member | source | states |
|---|---|---|
| `Presenter.FirstIndex` | Sources/SheetUI/UIApplication+Extensions.swift:18-20 | the result is the position of an element satisfying the predicate with none before it; None exactly when no element satisfies it |
| `Presenter.SceneRoot` | Sources/SheetUI/UIApplication+Extensions.swift:20-30 | nil for a scene that is not a window scene or that has no key window; otherwise the root controller of its first key window |
| `Presenter.RootViewController` | Sources/SheetUI/UIApplication+Extensions.swift:15-31 | nil when no scene is in an allowed state; otherwise what the first allowed scene yields, and a result always comes from such a scene |
| `Presenter.LaterScenesIgnored` | Sources/SheetUI/UIApplication+Extensions.swift:18-20 | scenes after an allowed one never change the root found |
| `Presenter.NoForegroundSceneNoPresenter` | Sources/SheetUI/UIApplication+Extensions.swift:16-22 | with the default states (foreground active or inactive), background and unattached scenes give no presenter |
| `Presenter.PresentingViewController` | Sources/SheetUI/UIApplication+Extensions.swift:37-48 | nil exactly when there is no root; the root's presented controller when it exists and is not being dismissed, else the root; never a controller being dismissed other than the root |
| `SheetStyle.Default` | Sources/SheetUI/SheetViewStyle.swift:16-22 | the default style is not modal |
| `SheetMachine.TargetSwipeDistance` | Sources/SheetUI/SheetViewController.swift:33-36 | the dismiss distance is a quarter of the container height |
| `SheetMachine.EndDecision` | Sources/SheetUI/SheetViewController.swift:139-156 | a modal sheet always returns; otherwise dismiss exactly when velocity exceeds the threshold or translation exceeds a quarter of the height |
| `SheetMachine.AfterLayout` | Sources/SheetUI/SheetViewController.swift:102-111 | the origin is captured from the frame only if none was captured before; the flags are untouched |
| `SheetMachine.AfterReturn` | Sources/SheetUI/SheetViewController.swift:159-171 | the frame goes to the captured origin and the origin is unchanged; a no-op without an origin |
| `SheetMachine.AfterPan` | Sources/SheetUI/SheetViewController.swift:128-157 | upward translation changes nothing, even at the end of the pan; otherwise the frame is origin plus translation (untouched without an origin); an unended pan never dismisses; an ended one dismisses or returns as the end rule decides |
| `SheetMachine.ShouldReceiveTouch` | Sources/SheetUI/SheetViewController.swift:185-190 | a touch reaches the tap recognizer exactly when it is outside the hosted content |
| `SheetMachine.AfterTap` | Sources/SheetUI/SheetViewController.swift:116-122 | a tap dismisses exactly when it is outside the content and the sheet is not modal; frame and origin unchanged |
| `SheetMachine.AfterDisappear` | Sources/SheetUI/SheetViewController.swift:89-93 | disappearing always sets `isPresented` to false and changes nothing else |
| `SheetMachine.Initial` | Sources/SheetUI/SheetViewController.swift:31-53 | a new controller has no origin, no dismissal and the given binding value |
| `SheetMachine.OriginCapturedOnce` | Sources/SheetUI/SheetViewController.swift:108-110 | once captured, the origin is the same after any run of events |
| `SheetMachine.FirstLayoutFixesOrigin` | Sources/SheetUI/SheetViewController.swift:102-111 | the first layout pass of a new controller fixes the origin at that frame's y for the rest of any run |
| `SheetMachine.ModalNeverDismissed` | Sources/SheetUI/SheetViewController.swift:116-144 | a modal sheet is never dismissed, whatever sequence of pans, taps, layouts and disappearances occurs |
| `SheetMachine.NeverAboveOrigin` | Sources/SheetUI/SheetViewController.swift:129-170 | without layout passes, a sheet at or below its origin is never moved above it |
| `SheetMachine.DismissalSticks` | Sources/SheetUI/SheetViewController.swift:139-156 | no event withdraws a dismissal once requested |
| `SheetMachine.UnendedPansNeverDismiss` | Sources/SheetUI/SheetViewController.swift:139-156 | any run of pans that have not ended leaves the dismissal state as it was |
| `SheetMachine.DisappearClosesBinding` | Sources/SheetUI/SheetViewController.swift:89-93 | after any run that ends with the view disappearing, the binding is false |
| `SheetMachine.UpwardEndLeavesModalSheetAway` | Sources/SheetUI/SheetViewController.swift:129-144 | a modal sheet away from its origin whose pan ends with upward translation stays away, while the same end at zero translation returns it |
| `SheetMachine.SlowShortDragReturns` | Sources/SheetUI/SheetViewController.swift:146-170 | a non-modal release below both thresholds puts the frame back exactly at the origin and changes nothing else |
| `SheetController.SheetViewController.constructor` | Sources/SheetUI/SheetViewController.swift:38-53 | the new controller takes its modal lock from the style, has no origin and has not been dismissed |
| `SheetController.SheetViewController.Layout` | Sources/SheetUI/SheetViewController.swift:102-111 | records the origin only on the first pass; performs the layout step of the machine |
| `SheetController.SheetViewController.AnimateToOrigin` | Sources/SheetUI/SheetViewController.swift:159-171 | moves the frame to the origin when there is one; performs the return step |
| `SheetController.SheetViewController.Pan` | Sources/SheetUI/SheetViewController.swift:128-157 | upward drags change nothing; unended pans never dismiss; a modal sheet is never dismissed and ends at its origin; performs the pan step |
| `SheetController.SheetViewController.Tap` | Sources/SheetUI/SheetViewController.swift:116-122 | dismisses exactly when the touch is outside the content and the sheet is not modal; performs the tap step |
| `SheetController.SheetViewController.Disappear` | Sources/SheetUI/SheetViewController.swift:89-93 | sets `isPresented` to false; performs the disappear step |
| `Sessions.Sync` | Sources/SheetUI/SheetViewModifier.swift:116-135 | no presenter: only the binding changes, to its closed value; open: a new controller with a fresh identity is stored and presented; close: the stored controller, if any, is dismissed with `onDismiss` and forgotten |
| `Sessions.AfterSheetDisappeared` | Sources/SheetUI/SheetItemSheetViewController.swift:25-29 | a constant binding absorbs the write and nothing changes; any other binding ends closed, the write going through `onChange` like any binding write |
| `Sessions.DisappearClosesSession` | Sources/SheetUI/ItemSheetViewModifier.swift:30-63 | for every session with an open binding, a sheet that disappears on the custom route with a presenter available gets the stored controller dismissed with `onDismiss` and cleared, and nothing new is presented |
| `Sessions.DisappearPreservesValid` | Sources/SheetUI/SheetViewModifier.swift:102-135 | a disappearance keeps the session invariant |
| `Sessions.PhoneRoute` | Sources/SheetUI/SheetViewModifier.swift:102-111 | the custom controller exactly on phones; otherwise SwiftUI's `.sheet` with the modifier's `onDismiss`; the later item modifier (ItemSheetViewModifier.swift:30-40) routes the same way |
| `Sessions.AfterBindingWrite` | Sources/SheetUI/SheetViewModifier.swift:102-105 | a write reaches `updatePresentation` only when the value changed and the route is custom; otherwise only the binding changes |
| `Sessions.SyncPreservesValid` | Sources/SheetUI/SheetViewModifier.swift:116-135 | one `updatePresentation` keeps the session invariant: identities in build order, each dismissal right after the present of the same controller, the stored controller the last presented |
| `Sessions.SyncRunPreservesValid` | Sources/SheetUI/SheetViewModifier.swift:116-135 | the session invariant holds after any sequence of binding changes |
| `Sessions.DismissedAtMostOnce` | Sources/SheetUI/SheetViewModifier.swift:131-134 | no controller is dismissed twice, so `onDismiss` is handed over at most once per presented controller |
| `Sessions.DismissedWerePresented` | Sources/SheetUI/SheetViewModifier.swift:128-133 | every dismissed controller was presented earlier |
| `SheetModifiers.EarlyItemRequest` | Sources/SheetUI/SheetViewModifier.swift:47-55 | a selection builds a controller with the default style and a constant `true` binding, not the modifier's style; no selection means close |
| `SheetModifiers.BoolRequest` | Sources/SheetUI/SheetViewModifier.swift:122-127 | `true` builds a controller with the modifier's own style and its `isPresented` binding; `false` means close |
| `SheetModifiers.ItemSheetViewModifier.constructor` | Sources/SheetUI/SheetViewModifier.swift:18-30 | starts with no stored controller, no calls issued, and the session invariant |
| `SheetModifiers.ItemSheetViewModifier.UpdatePresentation` | Sources/SheetUI/SheetViewModifier.swift:41-60 | no presenter: `selectedItem` becomes nil and nothing is presented; an item: a default-style controller bound to a constant is stored and presented; nil: the stored controller is dismissed with `onDismiss` and cleared; keeps the invariant |
| `SheetModifiers.ItemSheetViewModifier.BindingChanged` | Sources/SheetUI/SheetViewModifier.swift:32-37 | every change of `selectedItem` runs `updatePresentation`, since this modifier has no device routing |
| `SheetModifiers.ItemSheetViewModifier.SheetDidDisappear` | Sources/SheetUI/SheetViewModifier.swift:48-52 | the sheet's disappearance leaves `selectedItem` as it was |
| `SheetModifiers.SheetViewModifier.constructor` | Sources/SheetUI/SheetViewModifier.swift:88-100 | starts with no stored controller, no calls issued, and the session invariant |
| `SheetModifiers.SheetViewModifier.UpdatePresentation` | Sources/SheetUI/SheetViewModifier.swift:116-135 | no presenter: `isPresented` becomes false and nothing is presented; true: a controller with the modifier's style bound to `isPresented` is stored and presented; false: the stored controller is dismissed with `onDismiss` and cleared; keeps the invariant |
| `SheetModifiers.SheetViewModifier.BindingChanged` | Sources/SheetUI/SheetViewModifier.swift:102-111 | off phones a change only sets the binding and `updatePresentation` never runs; on phones a change runs it |
| `SheetModifiers.SheetViewModifier.SheetDidDisappear` | Sources/SheetUI/SheetViewController.swift:89-93 | the sheet's disappearance writes false to `isPresented`, which then stays false; on a phone that write dismisses the stored controller with `onDismiss` |
| `SheetModifiers.BoolRoundTrip` | Sources/SheetUI/SheetViewModifier.swift:116-135 | on a phone, opening and then closing by a swipe or tap (the sheet disappearing) leaves `isPresented` false and nothing stored, after exactly one present and one dismissal carrying `onDismiss` |
| `SheetModifiers.EarlyItemSwipeKeepsSelection` | Sources/SheetUI/SheetViewModifier.swift:47-55 | a swipe-closed sheet leaves `selectedItem` set and its controller stored, with no dismissal issued; selecting the same item again presents nothing |
| `SheetItemModifiers.ItemRequest` | Sources/SheetUI/ItemSheetViewModifier.swift:50-55 | an item builds a controller with the default style, bound to `selectedItem`; nil means close |
| `SheetItemModifiers.ItemSheetViewModifier.constructor` | Sources/SheetUI/ItemSheetViewModifier.swift:18-28 | starts with no stored controller, no calls issued, and the session invariant |
| `SheetItemModifiers.ItemSheetViewModifier.UpdatePresentation` | Sources/SheetUI/ItemSheetViewModifier.swift:44-63 | no presenter: `selectedItem` becomes nil and nothing is presented; an item: a default-style controller bound to `selectedItem` is stored and presented; nil: the stored controller is dismissed with `onDismiss` and cleared; keeps the invariant |
| `SheetItemModifiers.ItemSheetViewModifier.BindingChanged` | Sources/SheetUI/ItemSheetViewModifier.swift:30-40 | off phones a change only sets the binding; on phones a change runs `updatePresentation` |
| `SheetItemModifiers.ItemSheetViewModifier.SheetDidDisappear` | Sources/SheetUI/SheetItemSheetViewController.swift:25-29 | the sheet's disappearance writes nil to `selectedItem`, which then stays nil; on a phone that write dismisses the stored controller with `onDismiss` |
| `SheetItemModifiers.ItemSwipeClosesSession` | Sources/SheetUI/ItemSheetViewModifier.swift:44-63 | a sheet closed by swipe or tap clears `selectedItem` and leads to exactly one dismissal carrying `onDismiss`; selecting the same item again presents a new controller |

## Left out

- Sources/SheetUI/SheetPresentationController.swift is not part of this model. It sets the backdrop colour, the 0.95 scale and the corner radius of the presenting view through UIKit's transition coordinator. This is rendering only.
- The rounded-corner mask (Sources/SheetUI/UIView+Extensions.swift) and its tests are left out because they are Core Graphics geometry. A layout pass re-applies the mask, and the model records nothing for that.
- Sources/SheetUI/HostingController.swift, the Auto Layout constraints, `topSpacing` and the background colour are left out because they are layout and rendering.
- Gesture-recognizer registration and the `fatalError` coder initialisers are left out as framework plumbing.
- `containerHeight` is fixed when the controller is built. `targetSwipeDistance` reads the container view's current height when a pan ends, and that height can change with the content or a rotation. The model treats it as constant.
- Only the y coordinate of the frame and of the origin is modelled. `animateViewToOriginPoint` also restores x, which no handler changes.
- The 0.3 s return animation is modelled as its end state. A pan that arrives during the animation is therefore not modelled.
- A dismissal is recorded as a request (`dismissed`, or a `DismissSheet` entry in the log). When UIKit calls `viewDidDisappear` after that request is up to UIKit, so it is a separate event.
- `UIApplication.connectedScenes` is a `Set` in UIKit. It is modelled as a sequence in iteration order.
- SwiftUI's native `.sheet` presentation, used off phones, is not modelled. The model only shows that `updatePresentation` is not reached on that route.
- The no-presenter branch writes the closed value to the binding, which fires `onChange` a second time. That second run meets the same missing presenter and changes nothing more, so it is not modelled.
- Sources/SheetUI/IsPresentedSheetViewController.swift is not modelled separately. Its `viewDidDisappear` makes the same write as the base controller's, which `SheetModifiers.SheetViewModifier.SheetDidDisappear` models. Its `super.init(style:content:)` call does not match any initialiser of the controller shown, and neither does the one in SheetItemSheetViewController.swift.
- The controller itself does not promise one dismissal notification per sheet. Its `viewDidDisappear` writes `isPresented` every time the view disappears. The per-controller guarantee is stated at the session level instead, by `Sessions.DismissedAtMostOnce`.

## Findings

| source | as written | input that shows it | evidently intended | confidence | as-written member | corrected member |
|---|---|---|---|---|---|---|
| Sources/SheetUI/SheetViewModifier.swift:47-55 | The earlier item modifier gives the new controller `.constant(true)` as its binding. When a swipe or tap dismisses the sheet, the write in `viewDidDisappear` is lost. | Select an item, then swipe the sheet down. `selectedItem` stays set. No dismissal carries `onDismiss`. The controller stays stored. Selecting the same item again presents nothing. | The disappearing sheet clears `selectedItem`. The later modifier in ItemSheetViewModifier.swift does this through SheetItemSheetViewController. | medium; not executed | `SheetModifiers.EarlyItemSwipeKeepsSelection` | `SheetItemModifiers.ItemSwipeClosesSession` |
