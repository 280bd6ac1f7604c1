# Elevator request modal — Dafny model

The elevator-sim client shows a "Make a Request" modal. It edits a pending
elevator request made of three fields: the origin floor (`currentFloor`,
initially 1), the direction (`'up'` or `'down'`, initially `'up'`) and the
destination floor (unset, or a floor). Floors run from 1 to
`TOTAL_FLOORS = 10`.

- Picking an origin or a direction clears the destination.
- A destination is taken only if it differs from the origin and lies on the
  chosen side of it. The same test greys out the destination buttons that
  would be refused.
- Submit hands `{fromFloor, direction, toFloor}` to the caller's callback.
  It then resets the editor to (1, up, unset) and closes the modal. The
  submit button is greyed out while no destination is set.

The model has two modules:

- `Editor` (Editor.dfy) models the editor as values. It holds the
  `EditorState` datatype and the directional-consistency invariant
  `Consistent`. It also holds the button predicates `IsDisabled` and
  `SubmitDisabled`, and one transition function per event. `Run` replays a
  sequence of events, and the lemmas about it cover every trace.
- `Modal` (Modal.dfy) models the modal as the class `RequestModal`. It has
  the three fields plus an `open` flag. Each event is a method that updates
  the fields in place. Each method states its new fields and keeps
  `Valid()`, the invariant. Each event method except `Close` is also tied
  to its `Editor` function; `Close` only clears the `open` flag.

Deliberate representation choices:

- The direction strings `'up'` and `'down'` become the datatype
  `Direction = Up | Down`. No other value is ever assigned.
- `null` for the destination becomes `Option.None`.
- The `onSubmit` callback becomes the `emitted` out-parameter of
  `RequestModal.Submit`.
- The code never checks floor ranges. Its buttons only offer floors `1..10`
  (src/App.jsx:58-59, 122-123). So every floor argument has the
  precondition `ValidFloor`.
- `handleSubmit` (src/App.jsx:13) tests that the destination is set and
  differs from the origin. The submit button (src/App.jsx:154) only tests
  that it is set. `Editor.SubmitButtonMatchesGuard` proves that the two
  tests agree under the invariant.

## Model

| member | source | states |
|---|---|---|
| Editor.Initial | src/App.jsx:6-8 | the editor starts at origin 1, going up, with no destination; that state satisfies the invariant and has submit disabled |
| Editor.IsDisabled | src/App.jsx:125-128 | a destination button is greyed out exactly when the floor is not acceptable: equal to the origin, or not above it going up, or not below it going down |
| Editor.SubmitDisabled | src/App.jsx:154 | a greyed-out submit button never hides a submit that would emit; under the invariant an enabled button always leads to an emit |
| Editor.SubmitGuard | src/App.jsx:13 | the handler's guard only passes with a destination set; under the invariant a set destination is enough, so its second test never decides |
| Editor.PickOrigin | src/App.jsx:64-67 | the new origin is the picked floor, the direction is kept, the destination is cleared, so the invariant holds and submit is disabled |
| Editor.PickDirection | src/App.jsx:87-104 | the new direction is the picked one (up or down button), the origin is kept, the destination is cleared, so submit is disabled and the invariant holds whenever the origin is a floor |
| Editor.ClickDestination | src/App.jsx:27-35 | the three early returns amount to: the floor becomes the destination iff it differs from the origin, is above it going up and below it going down; otherwise all fields are unchanged; the invariant is preserved |
| Editor.Submit | src/App.jsx:12-25 | emits iff a destination is set and differs from the origin; the emitted request is built from the pre-submit fields and the editor is reset to (1, up, unset); otherwise nothing changes; under the invariant the request is well formed |
| Editor.ApplyPreservesConsistent | src/App.jsx:12-104 | any single event keeps the directional-consistency invariant and can only emit a well-formed request |
| Editor.RunPreservesConsistent | src/App.jsx:12-104 | for every sequence of in-range events from a consistent editor, the invariant still holds at the end and every emitted request is well formed (induction over the events) |
| Editor.SubmittedRequestsWellFormed | src/App.jsx:6-104 | from the initial editor, every request the modal ever submits has two distinct floors in range, with the target on the announced side of the origin |
| Editor.DisabledMatchesClickGuards | src/App.jsx:125-128 | a destination button is disabled exactly when the click handler would refuse that floor; a disabled floor's click changes nothing, an enabled floor's click sets it as destination |
| Editor.SubmitButtonMatchesGuard | src/App.jsx:13 | under the invariant, the submit button is enabled (src/App.jsx:154) exactly when the submit handler emits; a set destination never equals the origin, so the handler's second test never fails |
| Editor.NoDestinationAtEnds | src/App.jsx:122-128 | going up from floor 10, or down from floor 1, every destination floor 1..10 is disabled |
| Editor.StuckAtEnds | src/App.jsx:122-128 | in that situation (where the invariant leaves no destination set), any sequence of destination and submit clicks changes nothing and emits nothing |
| Editor.ScenarioThreeUpToSeven | src/App.jsx:12-67 | origin 3 going up: floor 2 is refused (the click leaves the editor unchanged), floor 7 is taken, and submit emits the request from 3 up to 7 and resets the editor |
| Modal.RequestModal.constructor | src/App.jsx:6-8 | the new modal is open, holds (1, up, unset), keeps the invariant and has submit disabled |
| Modal.RequestModal.PickOrigin | src/App.jsx:64-67 | sets the origin, keeps the direction and the open flag, clears the destination, keeps the invariant |
| Modal.RequestModal.PickDirection | src/App.jsx:87-104 | sets the direction (up or down button), keeps the origin and the open flag, clears the destination, keeps the invariant |
| Modal.RequestModal.ClickDestination | src/App.jsx:27-35 | sets the destination to the floor iff it is acceptable, otherwise changes nothing; origin, direction and open flag always kept; invariant kept |
| Modal.RequestModal.Submit | src/App.jsx:12-25 | with a destination set, returns the request from the old fields, which is well formed, resets to (1, up, unset) and closes; with none, returns nothing and changes nothing |
| Modal.RequestModal.Close | src/App.jsx:38-45 | clears the open flag, leaves the editor fields as they are and keeps the invariant |
| Modal.ScenarioThreeUpToSeven | src/App.jsx:12-67 | on the object: origin 3, a click on floor 2 that leaves the destination unset, a click on floor 7 and submit hand over the request from 3 up to 7 |

## Left out

- All JSX rendering and the Tailwind class strings. They are presentation only.
- The page layout of `App`, including the fixed elevator displays ("1 / waiting", "5 / waiting"). That is static text with no state behind it.
- `handleSubmitRequest` logs the request to the console and has a commented-out socket emit. This is I/O; the model stops at the request returned by `RequestModal.Submit`.
- The connection manager, the elevator-state reconciliation and the notification queue. The code contains none of them, so there is nothing to model.
- React mechanics are not modelled. This covers `useState` re-rendering, the `isOpen` early return and the conditional mounting of the modal. Because the modal is unmounted on close, reopening it starts again from (1, up, unset); the model does not capture this. It also covers the backdrop's `stopPropagation`. Closing is modelled only as clearing the `open` flag.
- The model does not model a click on a disabled button, which fires no handler. `Editor.DisabledMatchesClickGuards` shows that such a click would change nothing anyway.
