# First-responder wound app: screen state machines in Dafny

The app walks a first responder through a bleeding wound: take a photo, answer
a quick assessment, then follow four treatment cards; a separate screen tracks
the med-kit supplies. Under the React Native rendering, four components keep
small pieces of state that change only through button handlers. This project
models those four as Dafny classes whose fields are the component's `useState`
values. Each handler is a method whose postcondition ties the new state to a
pure transition function. The properties are proved about those functions,
including lemmas over arbitrary sequences of handler calls.

- `treatment_steps.dfy` (module `Treatment`): the four-card wizard
  (`components/TreatmentSteps.tsx`). It has a cursor moved by Next and
  Previous, a Finish action on the last card and a Read Aloud flag.
- `inventory_screen.dfy` (module `Inventory`): the med-kit list
  (`screens/InventoryScreen.tsx`). Quantities are raised or lowered by one and
  floored at zero. A low-stock warning shows at or below each record's threshold.
- `context_input.dfy` (module `Assessment`): the quick-assessment form
  (`components/ContextInput.tsx`). It holds a minutes counter floored at zero
  and a bleeding-speed choice.
- `home_screen.dfy` (module `Home`): the camera / assessment / treatment switch
  (`screens/HomeScreen.tsx`), gated on camera permission.
- `optional.dfy` (module `Optional`): `Option<T>` for the source's `T | null`.

Each handler is one atomic, sequential transition. A callback to a parent
(`onComplete`, `onRestart`) is modelled as a returned flag or as the parent's
own transition. The camera permission is an input: `None` while loading,
`Some(Permission(granted))` once known.

Continue is enabled, and `onComplete` is called, whenever a bleeding speed is
chosen, whatever the minutes counter shows (`components/ContextInput.tsx:11-15`,
`:64-66`). `handleComplete` tests `bleeding` for truthiness. Every speed is a
non-empty string, so that test is the same as "not null".

## Model

| member | source | states |
|---|---|---|
| Treatment.NextIndex | components/TreatmentSteps.tsx:33-37 | The cursor moves forward by exactly one iff it is below the last index, otherwise it stays. An in-bounds index stays in bounds. |
| Treatment.ForwardButtonAt | components/TreatmentSteps.tsx:84 | On a valid index, Finish is offered exactly where `handleNext` would be a no-op, and Next everywhere else. |
| Treatment.PreviousDisabled | components/TreatmentSteps.tsx:76-78 | On a valid index, Previous is disabled exactly where `handlePrevious` would be a no-op (index 0). |
| Treatment.PreviousIndex | components/TreatmentSteps.tsx:39-43 | The cursor moves back by exactly one iff it is above 0, otherwise it stays. An in-bounds index stays in bounds. |
| Treatment.ButtonsMatchGuards | components/TreatmentSteps.tsx:75-100 | Finish is offered iff the index is the last one, which is exactly where `handleNext` is a no-op. Previous is disabled iff the index is 0, which is exactly where `handlePrevious` is a no-op. Where Next is offered it advances, and where Previous is enabled it retreats. |
| Treatment.Apply | components/TreatmentSteps.tsx:31-52 | One handler call changes the index by -1, 0 or +1 and keeps it in bounds. The Read Aloud switch sets only the flag, and navigation leaves the flag alone. |
| Treatment.RunStaysInBounds | components/TreatmentSteps.tsx:33-43 | After any sequence of calls the index is still a valid position in the four-card list, so `TREATMENT_STEPS[currentStep]` is always defined. |
| Treatment.AudioNeverMovesCursor | components/TreatmentSteps.tsx:50-52 | Removing every Read Aloud toggle from a sequence of calls leaves the final index the same. |
| Treatment.ThreeNextsReachCirculation | components/TreatmentSteps.tsx:6-37 | The list has 4 cards. From index 0, three Next calls reach index 3 ("Circulation"). A fourth Next is a no-op, and Finish is offered there. |
| Treatment.TreatmentSteps.constructor | components/TreatmentSteps.tsx:30-31 | The wizard starts at card 0 with Read Aloud off. |
| Treatment.TreatmentSteps.HandleNext | components/TreatmentSteps.tsx:33-37 | The new state is `Apply(old, Next)`, and the bounds invariant is kept. |
| Treatment.TreatmentSteps.HandlePrevious | components/TreatmentSteps.tsx:39-43 | The new state is `Apply(old, Previous)`, and the bounds invariant is kept. |
| Treatment.TreatmentSteps.SetAudioEnabled | components/TreatmentSteps.tsx:50-52 | Only the flag changes, to the switch's new value. |
| Treatment.TreatmentSteps.StepNumber | components/TreatmentSteps.tsx:60-61 | The k in "Step k of 4" always lies in 1..4. |
| Treatment.TreatmentSteps.CurrentCard | components/TreatmentSteps.tsx:63-71 | The card shown is always one of the four steps. |
| Treatment.TreatmentSteps.PressForward | components/TreatmentSteps.tsx:84-100 | A restart is requested iff the index was the last one, and then the state is unchanged. Otherwise the press is `handleNext`, which advances by exactly one. |
| Treatment.TreatmentSteps.PressPrevious | components/TreatmentSteps.tsx:75-78 | A press on the disabled button at 0 does nothing. Elsewhere it retreats by one. Either way the result equals `handlePrevious`. |
| Treatment.WalkThrough | components/TreatmentSteps.tsx:22-52 | On a fresh wizard, three Next presses with a Read Aloud toggle in between reach "Circulation". A fourth Next is ignored, and the forward button then requests a restart. |
| Inventory.ClampedSum | screens/InventoryScreen.tsx:31 | `Math.max(0, q + change)` is never negative, is at least `q + change`, and is either 0 or `q + change`. |
| Inventory.UpdateItem | screens/InventoryScreen.tsx:30-32 | A record whose id matches gets the floored quantity. Any other record is returned unchanged. The id, name and threshold are always kept. |
| Inventory.UpdatedInventory | screens/InventoryScreen.tsx:27-35 | The update keeps the list's length and order. Every record keeps its id, name and threshold. Records with the id get `max(0, old + change)`, and all other records are unchanged. |
| Inventory.InitialInventoryWellFormed | screens/InventoryScreen.tsx:13-21 | The starting list has 7 records, distinct ids and no negative quantity. Only "Trauma Shears" starts at its warning threshold. |
| Inventory.UpdatePreservesInvariant | screens/InventoryScreen.tsx:27-35 | Every update keeps all quantities non-negative and the ids distinct. |
| Inventory.UnknownIdChangesNothing | screens/InventoryScreen.tsx:29-33 | An id that names no record leaves the list exactly as it was. |
| Inventory.IncrementThenDecrementRestores | screens/InventoryScreen.tsx:65-73 | On a list with no negative quantities, +1 followed by -1 on the same id gives back the original list. |
| Inventory.IsCritical | screens/InventoryScreen.tsx:57 | The warning style is applied exactly when `quantity <= critical`. |
| Inventory.DecrementDisabled | screens/InventoryScreen.tsx:66 | The minus button is disabled (`quantity === 0`). On a non-negative count this is exactly when a decrement would leave the record unchanged. |
| Inventory.DecrementDisabledIffNoEffect | screens/InventoryScreen.tsx:65-66 | The minus button is disabled (`quantity === 0`) iff a decrement would leave the record unchanged. At 0 a decrement would still leave 0. |
| Inventory.CriticalFollowsQuantity | screens/InventoryScreen.tsx:57 | The warning (`quantity <= critical`) is never cleared by a decrement and never raised by an increment. |
| Inventory.InventoryScreen.constructor | screens/InventoryScreen.tsx:24 | The screen starts with the initial list, and the invariant holds. |
| Inventory.InventoryScreen.UpdateQuantity | screens/InventoryScreen.tsx:27-35 | The list is replaced by `UpdatedInventory(old, id, change)`. Quantities stay non-negative and ids stay distinct. |
| Inventory.InventoryScreen.PressDecrement | screens/InventoryScreen.tsx:63-66 | A press on a row's minus button gives the same list as `updateQuantity(item.id, -1)`, including when the button is disabled. |
| Inventory.InventoryScreen.PressIncrement | screens/InventoryScreen.tsx:71-73 | A press on a row's plus button is `updateQuantity(item.id, 1)` and raises that row's quantity by exactly one. |
| Assessment.DecrementedMinutes | components/ContextInput.tsx:26 | The minus button lowers a positive count by one and gives 0 otherwise. The result is never negative. |
| Assessment.Apply | components/ContextInput.tsx:26-50 | Plus adds one. Choosing a speed sets the bleeding choice and leaves minutes alone. Minute presses leave the bleeding choice alone. A non-negative count stays non-negative. |
| Assessment.ContinueDisabled | components/ContextInput.tsx:64-66 | Continue is greyed out and inert exactly while no bleeding speed is chosen. |
| Assessment.CompletesOn | components/ContextInput.tsx:11-15 | `handleComplete` calls `onComplete` exactly when Continue is not disabled. |
| Assessment.ContinueGateIgnoresMinutes | components/ContextInput.tsx:11-15 | Continue is enabled iff `handleComplete` calls `onComplete`, iff a speed is chosen. The minutes value plays no part. |
| Assessment.InitialFormBlocked | components/ContextInput.tsx:8-9 | The form starts at 0 minutes with no speed, and Continue disabled. Choosing any of the three offered speeds enables completion. |
| Assessment.MinutesStayNonNegative | components/ContextInput.tsx:26-33 | After any sequence of presses the minutes counter is still non-negative. |
| Assessment.BleedingStaysSet | components/ContextInput.tsx:43-50 | Once a speed is chosen it is never cleared, so Continue stays enabled. |
| Assessment.MinutesPressesKeepBleeding | components/ContextInput.tsx:26-33 | Any number of minute presses leaves the bleeding choice as it was. |
| Assessment.ContextInput.constructor | components/ContextInput.tsx:8-9 | The form starts at `minutes = 0`, `bleeding = null`. |
| Assessment.ContextInput.PressMinus | components/ContextInput.tsx:26 | The new state is `Apply(old, MinusPressed)`, and minutes stay non-negative. |
| Assessment.ContextInput.PressPlus | components/ContextInput.tsx:33 | The new state is `Apply(old, PlusPressed)`. |
| Assessment.ContextInput.SelectBleeding | components/ContextInput.tsx:50 | The new state is `Apply(old, SpeedSelected(speed))`. |
| Assessment.ContextInput.HandleComplete | components/ContextInput.tsx:11-15 | `onComplete` is invoked iff a speed has been chosen, which is exactly when Continue is enabled. |
| Assessment.FillIn | components/ContextInput.tsx:11-66 | On a fresh form, minute presses alone do not complete it. After a speed is chosen, it completes. |
| Home.Render | screens/HomeScreen.tsx:18-66 | Nothing is shown while the permission is loading. No stage view is shown unless permission is granted. When it is granted, exactly one of the three stage views is rendered: the one matching `stage`. |
| Home.ShownPanels | screens/HomeScreen.tsx:42-64 | The three `stage === …` conditions together render exactly one view, the one for the current stage. |
| Home.Capture | screens/HomeScreen.tsx:13-16 | `handleCapture` stores the `'captured'` marker and, from the camera stage, moves to the next stage (context). |
| Home.CompleteContext | screens/HomeScreen.tsx:59 | `onComplete` moves the context stage on to treatment, and leaves `imageUri` as it was. |
| Home.Restart | screens/HomeScreen.tsx:63 | `onRestart` moves the treatment stage on to camera, and does not reset `imageUri`. |
| Home.Dispatch | screens/HomeScreen.tsx:13-63 | Without granted permission, or from a view not on screen, an action changes nothing. Any change moves the stage one step around camera → context → treatment → camera. A rendered action always makes that move. Only a capture changes `imageUri`. |
| Home.StageCycle | screens/HomeScreen.tsx:13-63 | With permission granted, from any state: capture in the camera stage moves to context with the `'captured'` marker. `onComplete` in the context stage moves to treatment, and `onRestart` in the treatment stage returns to camera. Neither of the last two changes `imageUri`. |
| Home.RunKeepsPhotoPastCamera | screens/HomeScreen.tsx:13-63 | After any sequence of actions, a stage past the camera always has the `'captured'` marker stored. |
| Home.NoPermissionNoProgress | screens/HomeScreen.tsx:18-38 | While permission is absent or denied, no sequence of actions changes the state. |
| Home.PhotoNeverCleared | screens/HomeScreen.tsx:14-63 | Once `imageUri` is set, no action clears it. |
| Home.HomeScreen.constructor | screens/HomeScreen.tsx:9-10 | The screen starts at `camera` with `imageUri` null. |
| Home.HomeScreen.HandleCapture | screens/HomeScreen.tsx:13-16 | The new state is `Capture(old)`: stage `context`, `imageUri` the `'captured'` marker. |
| Home.HomeScreen.OnContextComplete | screens/HomeScreen.tsx:58-59 | The new state is `CompleteContext(old)`: stage `treatment`, with the image kept. |
| Home.HomeScreen.OnTreatmentRestart | screens/HomeScreen.tsx:62-63 | The new state is `Restart(old)`: stage `camera`, with `imageUri` not reset. |
| Home.HomeScreen.Deliver | screens/HomeScreen.tsx:18-63 | Renders for the given permission. The action then reaches the screen only through a view that is on screen, so the new state is `Dispatch(permission, old, e)`. |

## Left out

- Styles, icons, colours and layout (`StyleSheet.create` blocks, JSX nesting): presentation only.
- Camera access (`CameraView`, `useCameraPermissions`, `requestPermission`): platform calls. The permission is an input of `Render`, `Dispatch` and `Deliver`. The captured image itself is never used; the source stores only the `'captured'` marker.
- `navigation.goBack()` on the inventory screen: host navigation.
- Speech narration and voice commands: they are not in these components. `audioEnabled` is only a flag: the switch shows it, but no handler and no narration reads it.
- React's asynchronous state batching and re-rendering: each handler is one atomic transition.
- JavaScript `number`: quantities, minutes and indices are unbounded integers. Fractions, `NaN` and the loss of precision above 2^53 are not modelled.
- Home.HomeScreen.OnContextComplete: requires the stage to be `context`. The callback is only reachable from the assessment form, which is mounted only in that stage. Under this precondition the "photo taken past camera" invariant is kept.
- Inventory.InventoryScreen.PressDecrement: requires a row index within the list, because only rendered rows have buttons.
- Leaving and re-entering a screen (which resets its state) is covered only through each constructor.
