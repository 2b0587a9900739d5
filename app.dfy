/**
 * The control panel: which location is selected, whether the fire has been
 * placed, and the camera-reset pulse. Each handler is a method on `App`; its
 * effect on the three fields is the pure function `Step` on a snapshot, which
 * the lemmas below reason about over any sequence of user events.
 */
module App {
  import CityScene

  /** The three state fields of the panel. */
  datatype Snapshot = Snapshot(selectedRoom: string, showFire: bool, resetCameraTrigger: bool)

  /** What the user (or the reset timer) can do. */
  datatype Event =
    | Choose(value: string)   // the dropdown's change handler
    | PlaceFire               // the "Place Fire" button
    | ResetCamera             // the "Reset View" button
    | ResetTimerElapsed       // the timer that ends the reset pulse

  /** The four named options of the dropdown, in display order. */
  function DropdownLocations(): seq<string>
  {
    ["OTE Building", "Road Point 1", "Road Point 2", "OAKA"]
  }

  /** A value the dropdown can report: its placeholder `""` or a named option. */
  predicate IsOption(v: string)
  {
    v == "" || v in DropdownLocations()
  }

  function Initial(): Snapshot
  {
    Snapshot("", false, false)
  }

  /** The effect of one event on the fields. */
  function Step(s: Snapshot, e: Event): (r: Snapshot)
    ensures r.selectedRoom == if e.Choose? then e.value else s.selectedRoom
    ensures r.showFire <==> s.showFire || (e == PlaceFire && s.selectedRoom != "")
    ensures e == ResetCamera ==> r.resetCameraTrigger
    ensures e == ResetTimerElapsed ==> !r.resetCameraTrigger
    ensures e != ResetCamera && e != ResetTimerElapsed ==>
      r.resetCameraTrigger == s.resetCameraTrigger
  {
    match e
    case Choose(v) => s.(selectedRoom := v)
    case PlaceFire => if s.selectedRoom != "" then s.(showFire := true) else s
    case ResetCamera => s.(resetCameraTrigger := true)
    case ResetTimerElapsed => s.(resetCameraTrigger := false)
  }

  /** The state after a sequence of events, in order. */
  function Run(s: Snapshot, es: seq<Event>): (r: Snapshot)
    ensures es == [] ==> r == s
    ensures r.selectedRoom == s.selectedRoom
            || exists i :: 0 <= i < |es| && es[i].Choose? && es[i].value == r.selectedRoom
    decreases |es|
  {
    if es == [] then s
    else
      var r := Run(Step(s, es[0]), es[1..]);
      assert forall i :: 0 <= i < |es| - 1 ==> es[1..][i] == es[i + 1];
      r
  }

  /** After a run, the selection is the value of its last choice. */
  lemma {:induction false} LastChoiceWins(s: Snapshot, es: seq<Event>, i: nat)
    requires i < |es| && es[i].Choose?
    requires forall j :: i < j < |es| ==> !es[j].Choose?
    ensures Run(s, es).selectedRoom == es[i].value
    decreases |es|
  {
    var t := Step(s, es[0]);
    forall j | 0 <= j < |es| - 1
      ensures es[1..][j] == es[j + 1]
    {
    }
    if i > 0 {
      LastChoiceWins(t, es[1..], i - 1);
    } else {
      assert Run(s, es) == Run(t, es[1..]);
    }
  }

  /** Handling two batches of events in turn is handling them as one. */
  lemma {:induction false} RunAppend(s: Snapshot, a: seq<Event>, b: seq<Event>)
    ensures Run(s, a + b) == Run(Run(s, a), b)
    decreases |a|
  {
    if a != [] {
      assert (a + b)[0] == a[0];
      assert (a + b)[1..] == a[1..] + b;
      RunAppend(Step(s, a[0]), a[1..], b);
    } else {
      assert a + b == b;
    }
  }

  /** Every choice in the sequence is a value the dropdown offers. */
  predicate FromDropdown(es: seq<Event>)
  {
    forall i :: 0 <= i < |es| ==> (es[i].Choose? ==> IsOption(es[i].value))
  }

  /** A non-empty prefix of a run is its first event, then a prefix of the rest. */
  lemma RunPrefixStep(s: Snapshot, es: seq<Event>, i: nat)
    requires 1 <= i <= |es|
    ensures Run(s, es[..i]) == Run(Step(s, es[0]), es[1..][..i - 1])
  {
    assert es[..i][0] == es[0];
    assert es[..i][1..] == es[1..][..i - 1];
  }

  /** The fire is shown after a run exactly when it was already, or some
      placement happened while a location was selected. */
  lemma {:induction false} FireShownIff(s: Snapshot, es: seq<Event>)
    ensures Run(s, es).showFire <==>
      s.showFire || exists i :: 0 <= i < |es| && es[i] == PlaceFire
                                && Run(s, es[..i]).selectedRoom != ""
    decreases |es|
  {
    if es != [] {
      var t := Step(s, es[0]);
      FireShownIff(t, es[1..]);
      assert Run(s, es[..0]) == s;
      forall i | 1 <= i <= |es|
        ensures Run(s, es[..i]) == Run(t, es[1..][..i - 1])
      {
        RunPrefixStep(s, es, i);
      }
      if t.showFire && !s.showFire {
        assert es[0] == PlaceFire && Run(s, es[..0]).selectedRoom != "";
      }
      if exists i :: 0 <= i < |es| - 1 && es[1..][i] == PlaceFire
                     && Run(t, es[1..][..i]).selectedRoom != "" {
        var i :| 0 <= i < |es| - 1 && es[1..][i] == PlaceFire
                 && Run(t, es[1..][..i]).selectedRoom != "";
        assert es[i + 1] == PlaceFire && Run(s, es[..i + 1]).selectedRoom != "";
      }
      if exists i :: 0 <= i < |es| && es[i] == PlaceFire && Run(s, es[..i]).selectedRoom != "" {
        var i :| 0 <= i < |es| && es[i] == PlaceFire && Run(s, es[..i]).selectedRoom != "";
        if i > 0 {
          assert es[1..][i - 1] == PlaceFire && Run(t, es[1..][..i - 1]).selectedRoom != "";
        } else {
          assert t.showFire;
        }
      }
    }
  }

  /** No event ever hides the fire again. */
  lemma FireStaysShown(s: Snapshot, es: seq<Event>)
    requires s.showFire
    ensures Run(s, es).showFire
  {
    FireShownIff(s, es);
  }

  /** Starting from the initial state, the selection is always a dropdown value. */
  lemma {:induction false} SelectionIsOption(s: Snapshot, es: seq<Event>)
    requires IsOption(s.selectedRoom) && FromDropdown(es)
    ensures IsOption(Run(s, es).selectedRoom)
    decreases |es|
  {
    if es != [] {
      assert es[0].Choose? ==> IsOption(es[0].value);
      assert FromDropdown(es[1..]) by {
        forall i | 0 <= i < |es| - 1 ensures es[1..][i].Choose? ==> IsOption(es[1..][i].value) {
          assert es[1..][i] == es[i + 1];
        }
      }
      SelectionIsOption(Step(s, es[0]), es[1..]);
    }
  }

  /** Every named dropdown option is a registered location of the scene. */
  lemma OptionsRegistered()
    ensures forall v :: v in DropdownLocations() ==> v in CityScene.RegisteredNames()
  {
  }

  /**
   * After any sequence of dropdown choices and button presses from the
   * initial state, the scene draws the fire exactly when it has been placed
   * and a location is selected, and then at that location's coordinate.
   */
  lemma {:induction false} FireDrawnWhenPlaced(es: seq<Event>)
    requires FromDropdown(es)
    ensures var s := Run(Initial(), es);
      && (CityScene.Render(s.showFire, s.selectedRoom).fire.Some?
          <==> s.showFire && s.selectedRoom != "")
      && (CityScene.Render(s.showFire, s.selectedRoom).fire.Some? ==>
          CityScene.Render(s.showFire, s.selectedRoom).fire == CityScene.Lookup(s.selectedRoom))
  {
    SelectionIsOption(Initial(), es);
    OptionsRegistered();
  }

  /** The panel's state, with one handler per user action. */
  class App {
    var selectedRoom: string
    var showFire: bool
    var resetCameraTrigger: bool

    function State(): Snapshot
      reads this
    {
      Snapshot(selectedRoom, showFire, resetCameraTrigger)
    }

    /** Nothing selected, no fire, no reset pending. */
    constructor ()
      ensures State() == Initial()
    {
      selectedRoom := "";
      showFire := false;
      resetCameraTrigger := false;
    }

    /** The dropdown's change handler: it records the chosen value. */
    method Choose(value: string)
      requires IsOption(value)
      modifies this
      ensures State() == Step(old(State()), Event.Choose(value))
      ensures selectedRoom == value
      ensures showFire == old(showFire) && resetCameraTrigger == old(resetCameraTrigger)
    {
      selectedRoom := value;
    }

    /** "Place Fire": shows the fire if a location is selected, otherwise declines. */
    method HandlePlaceFire()
      modifies this
      ensures State() == Step(old(State()), PlaceFire)
      ensures showFire == (old(showFire) || old(selectedRoom) != "")
      ensures selectedRoom == old(selectedRoom) && resetCameraTrigger == old(resetCameraTrigger)
    {
      if selectedRoom != "" {
        showFire := true;
      }
    }

    /** "Reset View": raises the camera-reset pulse. */
    method HandleResetCamera()
      modifies this
      ensures State() == Step(old(State()), ResetCamera)
      ensures resetCameraTrigger
      ensures selectedRoom == old(selectedRoom) && showFire == old(showFire)
    {
      resetCameraTrigger := true;
    }

    /** The reset timer's callback: it lowers the pulse again. */
    method ResetTimerElapsed()
      modifies this
      ensures State() == Step(old(State()), Event.ResetTimerElapsed)
      ensures !resetCameraTrigger
      ensures selectedRoom == old(selectedRoom) && showFire == old(showFire)
    {
      resetCameraTrigger := false;
    }
  }
}
