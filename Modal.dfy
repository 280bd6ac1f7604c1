/** The request modal as an object: its three editor fields, updated in
    place by one method per user event, and the open flag that a
    successful submit or a close clears. */
module Modal {
  import opened Editor

  class RequestModal {
    var currentFloor: int
    var direction: Direction
    var destinationFloor: Option<int>
    var open: bool

    /** The editor fields as a value. */
    function State(): EditorState
      reads this
    {
      EditorState(currentFloor, direction, destinationFloor)
    }

    ghost predicate Valid()
      reads this
    {
      Consistent(State())
    }

    /** A freshly opened modal: origin 1, going up, no destination. */
    constructor ()
      ensures Valid() && open
      ensures State() == Initial()
      ensures SubmitDisabled(State())
    {
      currentFloor := 1;
      direction := Up;
      destinationFloor := None;
      open := true;
    }

    /** The origin-floor button for `floor`. */
    method PickOrigin(floor: int)
      requires Valid() && ValidFloor(floor)
      modifies this
      ensures Valid()
      ensures currentFloor == floor && direction == old(direction) && destinationFloor == None
      ensures open == old(open)
      ensures State() == Editor.PickOrigin(old(State()), floor)
    {
      currentFloor := floor;
      destinationFloor := None;
    }

    /** The up button (`dir == Up`) or the down button (`dir == Down`). */
    method PickDirection(dir: Direction)
      requires Valid()
      modifies this
      ensures Valid()
      ensures currentFloor == old(currentFloor) && direction == dir && destinationFloor == None
      ensures open == old(open)
      ensures State() == Editor.PickDirection(old(State()), dir)
    {
      direction := dir;
      destinationFloor := None;
    }

    /** A destination-floor button: refused unless the floor differs from
        the origin and lies on the chosen side of it. */
    method ClickDestination(floor: int)
      requires Valid() && ValidFloor(floor)
      modifies this
      ensures Valid()
      ensures currentFloor == old(currentFloor) && direction == old(direction) && open == old(open)
      ensures destinationFloor == if Acceptable(old(State()), floor) then Some(floor) else old(destinationFloor)
      ensures State() == Editor.ClickDestination(old(State()), floor)
    {
      if floor == currentFloor {
        return;
      }
      if direction == Up && floor <= currentFloor {
        return;
      }
      if direction == Down && floor >= currentFloor {
        return;
      }
      destinationFloor := Some(floor);
    }

    /** The submit button: emits the request built from the fields as they
        were, resets the editor and closes the modal; with no usable
        destination it does nothing. */
    method Submit() returns (emitted: Option<Request>)
      requires Valid()
      modifies this
      ensures Valid()
      ensures emitted.Some? <==> old(destinationFloor).Some?
      ensures emitted.Some? ==>
                emitted.value == Request(old(currentFloor), old(direction), old(destinationFloor).value)
                && WellFormedRequest(emitted.value)
                && State() == Initial() && !open
      ensures emitted.None? ==> State() == old(State()) && open == old(open)
      ensures Editor.Submit(old(State())) == Step(State(), emitted)
    {
      if SubmitGuard(State()) {
        emitted := Some(Request(currentFloor, direction, destinationFloor.value));
        currentFloor := 1;
        direction := Up;
        destinationFloor := None;
        open := false;
      } else {
        emitted := None;
      }
    }

    /** The close button or a click on the backdrop. */
    method Close()
      requires Valid()
      modifies this
      ensures Valid()
      ensures !open && State() == old(State())
    {
      open := false;
    }
  }

  /** Origin 3 going up on the object: floor 2 is refused, floor 7 taken,
      and submit hands over the request from 3 up to 7. */
  method ScenarioThreeUpToSeven() returns (refused: bool, emitted: Option<Request>)
    ensures refused
    ensures emitted == Some(Request(3, Up, 7))
  {
    var m := new RequestModal();
    m.PickOrigin(3);
    m.ClickDestination(2);
    refused := m.destinationFloor == None;
    m.ClickDestination(7);
    emitted := m.Submit();
    assert m.State() == Initial() && !m.open;
  }
}
