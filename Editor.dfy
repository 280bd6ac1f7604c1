/** Value model of the elevator-request editor held by the request modal:
    the origin floor, the chosen direction and the (possibly unset)
    destination floor, the guards that decide which destinations may be
    picked, and the effect of each user event on the editor. */
module Editor {

  /** Floors are numbered 1 .. TotalFloors. */
  const TotalFloors: int := 10

  predicate ValidFloor(floor: int) {
    1 <= floor <= TotalFloors
  }

  datatype Option<T> = None | Some(value: T)

  /** The two values the direction field ever takes ('up' and 'down'). */
  datatype Direction = Up | Down

  /** The payload handed to the submit callback. */
  datatype Request = Request(fromFloor: int, direction: Direction, toFloor: int)

  /** The three fields of the editor. */
  datatype EditorState = EditorState(currentFloor: int, direction: Direction, destinationFloor: Option<int>)

  /** Result of one event: the editor afterwards and the request emitted, if any. */
  datatype Step = Step(next: EditorState, emitted: Option<Request>)

  /** The user events the modal reacts to. */
  datatype Event =
    | OriginPicked(floor: int)
    | DirectionPicked(dir: Direction)
    | DestinationClicked(floor: int)
    | SubmitClicked

  /** Going from `origin` in direction `dir` reaches `target`. */
  predicate Toward(dir: Direction, origin: int, target: int) {
    match dir
    case Up => target > origin
    case Down => target < origin
  }

  /** The directional-consistency invariant: the origin is a floor and a set
      destination is a floor that lies on the chosen side of the origin. */
  predicate Consistent(s: EditorState) {
    && ValidFloor(s.currentFloor)
    && (s.destinationFloor.Some? ==>
          ValidFloor(s.destinationFloor.value) && Toward(s.direction, s.currentFloor, s.destinationFloor.value))
  }

  /** A request the dispatcher can serve: two distinct floors, the target on
      the announced side of the origin. */
  predicate WellFormedRequest(r: Request) {
    && ValidFloor(r.fromFloor) && ValidFloor(r.toFloor)
    && r.fromFloor != r.toFloor
    && Toward(r.direction, r.fromFloor, r.toFloor)
  }

  /** The state the editor starts in and is reset to after a submit. */
  function Initial(): (s: EditorState)
    ensures Consistent(s) && SubmitDisabled(s)
    ensures s.currentFloor == 1 && s.direction == Up
  {
    EditorState(1, Up, None)
  }

  /** The acceptance condition for a destination, stated as a conjunction:
      a different floor, above the origin going up, below it going down. */
  predicate Acceptable(s: EditorState, floor: int) {
    && floor != s.currentFloor
    && (s.direction == Up ==> floor > s.currentFloor)
    && (s.direction == Down ==> floor < s.currentFloor)
  }

  /** Whether the destination button for `floor` is greyed out: exactly
      when the floor is not an acceptable destination. */
  predicate IsDisabled(s: EditorState, floor: int)
    ensures IsDisabled(s, floor) <==> !Acceptable(s, floor)
  {
    || floor == s.currentFloor
    || (s.direction == Up && floor <= s.currentFloor)
    || (s.direction == Down && floor >= s.currentFloor)
  }

  /** Whether the submit button is greyed out. A greyed-out button never
      hides a submit that would emit, and under the invariant an enabled
      button always leads to an emit. */
  predicate SubmitDisabled(s: EditorState)
    ensures SubmitDisabled(s) ==> !SubmitGuard(s)
    ensures Consistent(s) && !SubmitDisabled(s) ==> SubmitGuard(s)
  {
    s.destinationFloor.None?
  }

  /** The condition under which the submit handler emits a request. Under
      the invariant its second half (destination differs from origin)
      never decides. */
  predicate SubmitGuard(s: EditorState)
    ensures SubmitGuard(s) ==> s.destinationFloor.Some?
    ensures Consistent(s) && s.destinationFloor.Some? ==> SubmitGuard(s)
  {
    s.destinationFloor.Some? && s.destinationFloor.value != s.currentFloor
  }

  /** Picking an origin floor. */
  function PickOrigin(s: EditorState, floor: int): (r: EditorState)
    requires ValidFloor(floor)
    ensures r.currentFloor == floor && r.direction == s.direction
    ensures Consistent(r) && SubmitDisabled(r)
  {
    s.(currentFloor := floor, destinationFloor := None)
  }

  /** Picking a direction (either the up or the down button). */
  function PickDirection(s: EditorState, dir: Direction): (r: EditorState)
    ensures r.currentFloor == s.currentFloor && r.direction == dir
    ensures SubmitDisabled(r)
    ensures ValidFloor(s.currentFloor) ==> Consistent(r)
  {
    s.(direction := dir, destinationFloor := None)
  }

  /** Clicking a destination floor: three early returns, then the floor is
      taken. The destination is taken exactly when it is acceptable, and
      nothing changes otherwise. */
  function ClickDestination(s: EditorState, floor: int): (r: EditorState)
    ensures r == if Acceptable(s, floor) then s.(destinationFloor := Some(floor)) else s
    ensures Consistent(s) && ValidFloor(floor) ==> Consistent(r)
  {
    if floor == s.currentFloor then s
    else if s.direction == Up && floor <= s.currentFloor then s
    else if s.direction == Down && floor >= s.currentFloor then s
    else s.(destinationFloor := Some(floor))
  }

  /** Clicking submit: when the guard holds, exactly one request built from
      the fields before the click is emitted and the editor is reset;
      otherwise nothing changes and nothing is emitted. */
  function Submit(s: EditorState): (r: Step)
    ensures r.emitted.Some? <==> SubmitGuard(s)
    ensures r.emitted.Some? ==>
              r.next == Initial()
              && r.emitted.value == Request(s.currentFloor, s.direction, s.destinationFloor.value)
    ensures r.emitted.None? ==> r.next == s
    ensures Consistent(s) ==> Consistent(r.next)
    ensures Consistent(s) && r.emitted.Some? ==> WellFormedRequest(r.emitted.value)
  {
    if SubmitGuard(s) then
      Step(EditorState(1, Up, None), Some(Request(s.currentFloor, s.direction, s.destinationFloor.value)))
    else
      Step(s, None)
  }

  /** Every floor an event carries is one the modal draws (1 .. TotalFloors). */
  predicate EventInRange(e: Event) {
    match e
    case OriginPicked(f) => ValidFloor(f)
    case DestinationClicked(f) => ValidFloor(f)
    case _ => true
  }

  predicate AllInRange(events: seq<Event>) {
    forall i :: 0 <= i < |events| ==> EventInRange(events[i])
  }

  /** The effect of one event. */
  function Apply(s: EditorState, e: Event): Step
    requires Consistent(s) && EventInRange(e)
  {
    match e
    case OriginPicked(f) => Step(PickOrigin(s, f), None)
    case DirectionPicked(d) => Step(PickDirection(s, d), None)
    case DestinationClicked(f) => Step(ClickDestination(s, f), None)
    case SubmitClicked => Submit(s)
  }

  /** Result of a sequence of events: the final editor and the requests
      emitted, in order. */
  datatype Outcome = Outcome(final: EditorState, requests: seq<Request>)

  function Emitted(o: Option<Request>): seq<Request> {
    match o
    case None => []
    case Some(r) => [r]
  }

  /** The editor after a sequence of events. */
  function Run(s: EditorState, events: seq<Event>): Outcome
    requires Consistent(s) && AllInRange(events)
    decreases |events|
  {
    if events == [] then Outcome(s, [])
    else
      var st := Apply(s, events[0]);
      var rest := Run(st.next, events[1..]);
      Outcome(rest.final, Emitted(st.emitted) + rest.requests)
  }

  /** One event keeps the directional-consistency invariant and can only
      emit a well-formed request. */
  lemma ApplyPreservesConsistent(s: EditorState, e: Event)
    requires Consistent(s) && EventInRange(e)
    ensures Consistent(Apply(s, e).next)
    ensures Apply(s, e).emitted.Some? ==> WellFormedRequest(Apply(s, e).emitted.value)
  {
  }

  /** Every sequence of events keeps the invariant, and every request it
      emits is well formed. */
  lemma {:induction false} RunPreservesConsistent(s: EditorState, events: seq<Event>)
    requires Consistent(s) && AllInRange(events)
    ensures Consistent(Run(s, events).final)
    ensures forall i :: 0 <= i < |Run(s, events).requests| ==> WellFormedRequest(Run(s, events).requests[i])
    decreases |events|
  {
    if events != [] {
      var st := Apply(s, events[0]);
      ApplyPreservesConsistent(s, events[0]);
      assert AllInRange(events[1..]) by {
        forall i | 0 <= i < |events[1..]| ensures EventInRange(events[1..][i]) {
          assert events[1..][i] == events[i + 1];
        }
      }
      RunPreservesConsistent(st.next, events[1..]);
    }
  }

  /** From the initial editor, whatever the user does, the modal only ever
      submits well-formed requests. */
  lemma SubmittedRequestsWellFormed(events: seq<Event>)
    requires AllInRange(events)
    ensures Consistent(Run(Initial(), events).final)
    ensures forall i :: 0 <= i < |Run(Initial(), events).requests| ==> WellFormedRequest(Run(Initial(), events).requests[i])
  {
    RunPreservesConsistent(Initial(), events);
  }

  /** A greyed-out destination button is exactly one whose click hits one of
      the handler's early returns; an enabled button's click sets the
      destination to that floor. */
  lemma DisabledMatchesClickGuards(s: EditorState, floor: int)
    ensures IsDisabled(s, floor) <==> !Acceptable(s, floor)
    ensures IsDisabled(s, floor) ==> ClickDestination(s, floor) == s
    ensures !IsDisabled(s, floor) ==> ClickDestination(s, floor).destinationFloor == Some(floor)
  {
  }

  /** Under the invariant, the submit button is enabled exactly when the
      submit handler emits: the handler's "destination differs from origin"
      test never decides. */
  lemma SubmitButtonMatchesGuard(s: EditorState)
    requires Consistent(s)
    ensures SubmitGuard(s) <==> !SubmitDisabled(s)
    ensures s.destinationFloor.Some? ==> s.destinationFloor.value != s.currentFloor
  {
  }

  /** Going up from the top floor, or down from the ground floor, every
      destination button is disabled. */
  lemma NoDestinationAtEnds(s: EditorState, floor: int)
    requires (s.direction == Up && s.currentFloor == TotalFloors) || (s.direction == Down && s.currentFloor == 1)
    requires ValidFloor(floor)
    ensures IsDisabled(s, floor)
  {
  }

  predicate DestinationOrSubmit(e: Event) {
    e.DestinationClicked? || e.SubmitClicked?
  }

  /** Going up from the top floor, or down from the ground floor (where the
      invariant leaves no destination set), clicking destinations and submit changes nothing and
      emits nothing: submit stays unreachable until origin or direction
      change. */
  lemma {:induction false} StuckAtEnds(s: EditorState, events: seq<Event>)
    requires Consistent(s) && AllInRange(events)
    requires (s.direction == Up && s.currentFloor == TotalFloors) || (s.direction == Down && s.currentFloor == 1)
    requires forall i :: 0 <= i < |events| ==> DestinationOrSubmit(events[i])
    ensures Run(s, events) == Outcome(s, [])
    decreases |events|
  {
    assert SubmitDisabled(s);
    if events != [] {
      if events[0].DestinationClicked? {
        NoDestinationAtEnds(s, events[0].floor);
      }
      assert Apply(s, events[0]) == Step(s, None);
      assert AllInRange(events[1..]) by {
        forall i | 0 <= i < |events[1..]| ensures EventInRange(events[1..][i]) {
          assert events[1..][i] == events[i + 1];
        }
      }
      forall i | 0 <= i < |events[1..]| ensures DestinationOrSubmit(events[1..][i]) {
        assert events[1..][i] == events[i + 1];
      }
      StuckAtEnds(s, events[1..]);
    }
  }

  /** Origin 3 going up: floor 2 is refused, floor 7 is taken, and submit
      emits the request from 3 up to 7 and resets the editor. */
  lemma ScenarioThreeUpToSeven()
    ensures var o := Run(Initial(), [OriginPicked(3), DestinationClicked(2), DestinationClicked(7), SubmitClicked]);
            o.requests == [Request(3, Up, 7)] && o.final == Initial()
    ensures ClickDestination(PickOrigin(Initial(), 3), 2) == PickOrigin(Initial(), 3)
  {
    var s1 := PickOrigin(Initial(), 3);
    assert s1 == EditorState(3, Up, None);
    assert ClickDestination(s1, 2) == s1;
    var s2 := ClickDestination(s1, 7);
    assert s2 == EditorState(3, Up, Some(7));
    assert Submit(s2) == Step(Initial(), Some(Request(3, Up, 7)));
  }
}
