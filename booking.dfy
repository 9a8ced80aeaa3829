/** The four-step ride booking wizard: Location (1), Vehicle (2), Driver (3), Ride (4).
    Its six pieces of component state are the fields of class Wizard; the datatype State
    is their value, on which the transitions are specified as functions. */
module BookingDemo {

  datatype Option<T> = None | Some(value: T)

  /** A matched driver, as the wizard displays it. */
  datatype Driver = Driver(name: string, rating: real, car: string, plate: string, eta: string)

  /** The one record the simulated matching ever supplies. */
  const MatchedDriver: Driver := Driver("Michael K.", 4.9, "Tesla Model Y", "LQ2024", "3 min")

  /** One entry of the ride-type list rendered on step 2. */
  datatype RideOption = RideOption(id: string, name: string, price: string, time: string)

  const RideOptions: seq<RideOption> := [
    RideOption("economy", "Economy", "$12.50", "12 min"),
    RideOption("comfort", "Comfort", "$18.75", "10 min"),
    RideOption("premium", "Premium", "$25.00", "8 min")
  ]

  /** The values `rideType` may hold: nothing chosen yet, or the id of a listed option. */
  predicate IsRideType(id: string) {
    id == "" || exists i :: 0 <= i < |RideOptions| && RideOptions[i].id == id
  }

  /** The wizard's state: the step shown, the two text inputs, the chosen ride type,
      the "matching" flag and the driver record (null until matched). */
  datatype State = State(step: int, pickup: string, destination: string, rideType: string,
                         isLoading: bool, driver: Option<Driver>)

  /** The state a freshly mounted wizard starts in. */
  function Initial(): State {
    State(1, "", "", "", false, None)
  }

  /** What every state the wizard can reach satisfies. */
  ghost predicate Inv(s: State) {
    && 1 <= s.step <= 4
    && IsRideType(s.rideType)
    && (s.isLoading ==> s.step == 3)
    && (s.driver.Some? <==> s.step >= 3 && !s.isLoading)
    && (s.driver.Some? ==> s.driver.value == MatchedDriver)
    && (s.step >= 2 ==> s.pickup != "" && s.destination != "")
    && (s.step >= 3 ==> s.rideType != "")
    && (s.step == 1 ==> s.rideType == "")
  }

  /** The guard of the Continue button, before the matching flag is taken into account.
      Strings are tested for emptiness only, as JavaScript truthiness does. */
  function NextDisabled(s: State): bool {
    if s.step == 1 then s.pickup == "" || s.destination == ""
    else if s.step == 2 then s.rideType == ""
    else false
  }

  /** The button is disabled when the guard says so or while a driver is being matched. */
  function ButtonDisabled(s: State): bool {
    NextDisabled(s) || s.isLoading
  }

  /** The button's caption. */
  function ButtonLabel(s: State): (caption: string)
    ensures caption == "Start Over" <==> s.step == 4
    ensures caption == "Continue" <==> s.step != 4
    // "Start Over" is shown exactly when a press returns the wizard to its initial state,
    // and "Continue" when a press stays put or moves one step forward
    ensures Inv(s) ==> (caption == "Start Over" <==> Next(s) == Initial() && s != Initial())
    ensures Inv(s) && caption == "Continue" ==> Next(s) == s || Next(s).step == s.step + 1
  {
    if s.step == 4 then "Start Over" else "Continue"
  }

  /** The effect of the Continue / Start Over handler on the state. Entering step 3 also
      starts the matching timer, whose firing is DriverFound. */
  function Next(s: State): (r: State)
    // the step stays in range and the invariant is kept
    ensures 1 <= s.step <= 4 ==> 1 <= r.step <= 4
    ensures Inv(s) ==> Inv(r)
    // the wizard only moves one step forward, or wraps from 4 to 1
    ensures r.step != s.step ==> r.step == s.step % 4 + 1
    // when the step does not move, nothing else does
    ensures r.step == s.step ==> r == s
    // the guard of each step
    ensures s.step == 1 ==> (r.step == 2 <==> s.pickup != "" && s.destination != "")
    ensures s.step == 2 ==> (r.step == 3 <==> s.rideType != "")
    ensures s.step == 3 ==> (r.step == 4 <==> s.driver.Some?)
    ensures s.step == 4 ==> r.step == 1
    // entering step 3 raises the matching flag; nothing else touches it
    ensures r.isLoading != s.isLoading ==> s.step == 2 && r.step == 3 && r.isLoading
    ensures s.step == 2 && r.step == 3 ==> r.isLoading
    // only Start Over touches the inputs and the driver, and it clears them
    ensures (|| r.pickup != s.pickup || r.destination != s.destination
             || r.rideType != s.rideType || r.driver != s.driver) ==> s.step == 4
    ensures s.step == 4 ==> r.pickup == "" && r.destination == "" && r.rideType == "" && r.driver == None
    ensures Inv(s) && s.step == 4 ==> r == Initial()
    // an enabled button always moves the wizard, a disabled one never does
    ensures Inv(s) ==> (!ButtonDisabled(s) <==> r.step != s.step)
  {
    if s.step == 1 && s.pickup != "" && s.destination != "" then
      s.(step := 2)
    else if s.step == 2 && s.rideType != "" then
      s.(step := 3, isLoading := true)
    else if s.step == 3 && s.driver.Some? then
      s.(step := 4)
    else if s.step == 4 then
      s.(step := 1, pickup := "", destination := "", rideType := "", driver := None)
    else
      s
  }

  /** A press the guard refuses changes nothing; once matching is over, the guard refuses
      exactly the presses that would change nothing. */
  lemma NextDisabledGuard(s: State)
    ensures NextDisabled(s) ==> Next(s) == s
    ensures Inv(s) && !s.isLoading ==> (NextDisabled(s) <==> Next(s) == s)
  {
  }

  /** The button is disabled while matching, and, in every state satisfying the invariant,
      exactly when pressing it would change nothing. */
  lemma ButtonDisabledGuard(s: State)
    ensures s.isLoading ==> ButtonDisabled(s)
    ensures Inv(s) ==> (ButtonDisabled(s) <==> Next(s) == s)
  {
  }

  /** The matching timer's callback: the flag drops and the fixed driver is assigned. */
  function DriverFound(s: State): (r: State)
    ensures !r.isLoading && r.driver == Some(MatchedDriver)
    ensures r.step == s.step && r.pickup == s.pickup && r.destination == s.destination
    ensures r.rideType == s.rideType
    ensures Inv(s) && s.isLoading ==> Inv(r) && r.step == 3 && !ButtonDisabled(r)
  {
    s.(isLoading := false, driver := Some(MatchedDriver))
  }

  /** Typing in the pickup input, which is rendered on step 1 only. */
  function EditPickup(s: State, text: string): (r: State)
    requires s.step == 1
    ensures r.pickup == text && r.step == 1
    ensures r.destination == s.destination && r.rideType == s.rideType
    ensures r.isLoading == s.isLoading && r.driver == s.driver
    ensures Inv(s) ==> Inv(r)
  {
    s.(pickup := text)
  }

  /** Typing in the destination input, which is rendered on step 1 only. */
  function EditDestination(s: State, text: string): (r: State)
    requires s.step == 1
    ensures r.destination == text && r.step == 1
    ensures r.pickup == s.pickup && r.rideType == s.rideType
    ensures r.isLoading == s.isLoading && r.driver == s.driver
    ensures Inv(s) ==> Inv(r)
  {
    s.(destination := text)
  }

  /** Clicking ride option `i`, which is rendered on step 2 only. */
  function ChooseRide(s: State, i: nat): (r: State)
    requires s.step == 2 && i < |RideOptions|
    ensures r.rideType == RideOptions[i].id && r.rideType != "" && r.step == 2
    ensures r.pickup == s.pickup && r.destination == s.destination
    ensures r.isLoading == s.isLoading && r.driver == s.driver
    ensures Inv(s) ==> Inv(r) && !ButtonDisabled(r)
  {
    s.(rideType := RideOptions[i].id)
  }

  /** The things that can happen to the wizard. */
  datatype Event =
    | TypePickup(text: string)
    | TypeDestination(text: string)
    | SelectRide(option: nat)
    | PressButton
    | MatchTimerFires

  /** Whether an event can happen in a state: an input exists only on its step, a disabled
      button cannot be pressed, and the matching timer is pending only while matching. */
  predicate CanOccur(s: State, e: Event) {
    match e
    case TypePickup(_) => s.step == 1
    case TypeDestination(_) => s.step == 1
    case SelectRide(i) => s.step == 2 && i < |RideOptions|
    case PressButton => !ButtonDisabled(s)
    case MatchTimerFires => s.isLoading
  }

  function Apply(s: State, e: Event): (r: State)
    requires CanOccur(s, e)
    ensures Inv(s) ==> Inv(r)
    // the inputs change only on the step that renders them, or on Start Over
    ensures r.pickup != s.pickup || r.destination != s.destination ==> s.step == 1 || s.step == 4
    ensures r.rideType != s.rideType ==> s.step == 2 || s.step == 4
  {
    match e
    case TypePickup(text) => EditPickup(s, text)
    case TypeDestination(text) => EditDestination(s, text)
    case SelectRide(i) => ChooseRide(s, i)
    case PressButton => Next(s)
    case MatchTimerFires => DriverFound(s)
  }

  /** The state after a sequence of events; an event that cannot happen is no event. */
  function Run(s: State, events: seq<Event>): State
    decreases |events|
  {
    if events == [] then s
    else Run(if CanOccur(s, events[0]) then Apply(s, events[0]) else s, events[1..])
  }

  lemma {:induction false} RunKeepsInv(s: State, events: seq<Event>)
    requires Inv(s)
    ensures Inv(Run(s, events))
    decreases |events|
  {
    if events != [] {
      var t := if CanOccur(s, events[0]) then Apply(s, events[0]) else s;
      RunKeepsInv(t, events[1..]);
    }
  }

  /** Every state reachable from the initial one keeps the invariant; in particular the step
      is always one of 1, 2, 3, 4 and the ride type one of "", "economy", "comfort", "premium". */
  lemma {:induction false} ReachableStates(events: seq<Event>)
    ensures Inv(Run(Initial(), events))
    ensures Run(Initial(), events).step in {1, 2, 3, 4}
    ensures Run(Initial(), events).rideType in {"", "economy", "comfort", "premium"}
  {
    RunKeepsInv(Initial(), events);
    var s := Run(Initial(), events);
    if s.rideType != "" {
      var i :| 0 <= i < |RideOptions| && RideOptions[i].id == s.rideType;
    }
  }

  /** A full tour of the wizard: enter both addresses, pick "comfort", wait for the match,
      confirm, and start over. */
  lemma BookingTour()
    ensures var s1 := EditDestination(EditPickup(Initial(), "123 Main St"), "456 Market St");
            var s2 := Next(s1);
            var s3 := Next(ChooseRide(s2, 1));
            var s4 := DriverFound(s3);
            var s5 := Next(s4);
            && s2.step == 2
            && s3.step == 3 && s3.isLoading && s3.rideType == "comfort"
            && !s4.isLoading && s4.driver == Some(MatchedDriver)
            && s5.step == 4
            && Next(s5) == Initial()
  {
  }

  /** The mounted component, whose handlers update its six state variables in place. */
  class Wizard {
    var step: int
    var pickup: string
    var destination: string
    var rideType: string
    var isLoading: bool
    var driver: Option<Driver>

    function Snapshot(): State
      reads this
    {
      State(step, pickup, destination, rideType, isLoading, driver)
    }

    ghost predicate Valid()
      reads this
    {
      Inv(Snapshot())
    }

    constructor ()
      ensures Valid() && Snapshot() == Initial()
    {
      step, pickup, destination, rideType := 1, "", "", "";
      isLoading, driver := false, None;
    }

    /** The button's `disabled` attribute. */
    function IsButtonDisabled(): bool
      reads this
    {
      ButtonDisabled(Snapshot())
    }

    /** The click handler of the Continue / Start Over button. */
    method HandleNext()
      requires Valid()
      modifies this
      ensures Valid() && Snapshot() == Next(old(Snapshot()))
      ensures old(IsButtonDisabled()) <==> step == old(step)
    {
      if step == 1 && pickup != "" && destination != "" {
        step := 2;
      } else if step == 2 && rideType != "" {
        step := 3;
        isLoading := true;
      } else if step == 3 && driver.Some? {
        step := 4;
      } else if step == 4 {
        step := 1;
        pickup := "";
        destination := "";
        rideType := "";
        driver := None;
      }
    }

    /** The matching timer started by entering step 3 fires; it is pending exactly while
        the matching flag is up. */
    method FireMatchTimer()
      requires Valid() && isLoading
      modifies this
      ensures Valid() && Snapshot() == DriverFound(old(Snapshot()))
      ensures step == 3 && !IsButtonDisabled()
    {
      isLoading := false;
      driver := Some(MatchedDriver);
    }

    method SetPickup(text: string)
      requires Valid() && step == 1
      modifies this
      ensures Valid() && Snapshot() == EditPickup(old(Snapshot()), text)
    {
      pickup := text;
    }

    method SetDestination(text: string)
      requires Valid() && step == 1
      modifies this
      ensures Valid() && Snapshot() == EditDestination(old(Snapshot()), text)
    {
      destination := text;
    }

    method SelectRideType(i: nat)
      requires Valid() && step == 2 && i < |RideOptions|
      modifies this
      ensures Valid() && Snapshot() == ChooseRide(old(Snapshot()), i)
    {
      rideType := RideOptions[i].id;
    }
  }
}
