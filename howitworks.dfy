/** The "How It Works" section: four process cards, one of which is highlighted and which
    rotate on an interval or are picked by a click, and a self-playing booking demo that
    steps through a fixed table of four demo states on another interval. */
module HowItWorks {

  /** The state the self-playing demo renders. */
  datatype DemoState = DemoState(pickup: string, destination: string, step: int)

  /** The table the demo rotates through; entry i has step i. */
  const DemoSteps: seq<DemoState> := [
    DemoState("123 Main St", "", 0),
    DemoState("123 Main St", "456 Market St", 1),
    DemoState("123 Main St", "456 Market St", 2),
    DemoState("123 Main St", "456 Market St", 3)
  ]

  /** The demo state before the first tick; it is not an entry of the table. */
  const InitialDemo: DemoState := DemoState("", "", 0)

  /** The number of process cards. */
  const CardCount: int := 4

  /** A state the demo can hold: the initial one or a table entry. */
  ghost predicate DemoReachable(d: DemoState) {
    d == InitialDemo || d in DemoSteps
  }

  /** The demo interval's updater. Steps are never negative, and for non-negative
      operands JavaScript's `%` agrees with Dafny's. */
  function NextDemo(prev: DemoState): (r: DemoState)
    requires 0 <= prev.step
    ensures r in DemoSteps
    ensures 0 <= r.step < 4 && r == DemoSteps[r.step]
    ensures r.step == (prev.step + 1) % 4
  {
    DemoSteps[(prev.step + 1) % 4]
  }

  /** The demo state after `n` ticks. */
  function DemoAfter(d: DemoState, n: nat): (r: DemoState)
    requires 0 <= d.step
    ensures 0 <= r.step
    decreases n
  {
    if n == 0 then d else NextDemo(DemoAfter(d, n - 1))
  }

  /** From any state, the n-th tick (n >= 1) lands on table entry (step + n) mod 4. */
  lemma {:induction false} DemoAfterTicks(d: DemoState, n: nat)
    requires 0 <= d.step && 1 <= n
    ensures DemoAfter(d, n) == DemoSteps[(d.step + n) % 4]
    decreases n
  {
    if n > 1 {
      DemoAfterTicks(d, n - 1);
      var k := (d.step + n - 1) % 4;
      assert DemoSteps[k].step == k;
      SuccMod(d.step + n - 1);
    }
  }

  lemma SuccMod(k: int)
    ensures (k % 4 + 1) % 4 == (k + 1) % 4
  {
  }

  lemma AddFour(k: int)
    ensures (k + 4) % 4 == k % 4
  {
  }

  /** The demo steps cycle 0, 1, 2, 3, 0, ...: each tick advances the step by one mod 4. */
  lemma DemoCycles(d: DemoState)
    requires d in DemoSteps
    ensures d == DemoSteps[d.step]
    ensures NextDemo(d).step == (d.step + 1) % 4
  {
  }

  /** Once the first tick has happened, the demo rotation has period four. */
  lemma DemoPeriodic(d: DemoState, n: nat)
    requires 0 <= d.step && 1 <= n
    ensures DemoAfter(d, n + 4) == DemoAfter(d, n)
  {
    DemoAfterTicks(d, n);
    DemoAfterTicks(d, n + 4);
    AddFour(d.step + n);
  }

  /** Four ticks bring a table entry back to itself. */
  lemma DemoEntryPeriodic(i: int)
    requires 0 <= i < |DemoSteps|
    ensures DemoAfter(DemoSteps[i], 4) == DemoSteps[i]
  {
    assert DemoSteps[i].step == i;
    DemoAfterTicks(DemoSteps[i], 4);
    AddFour(i);
  }

  /** The initial demo state is not in the table, and the first tick shows entry 1. */
  lemma InitialDemoFirstTick()
    ensures InitialDemo !in DemoSteps
    ensures NextDemo(InitialDemo) == DemoSteps[1]
  {
  }

  /** The card-rotation interval's updater. */
  function RotateActive(prev: int): (r: int)
    requires 0 <= prev
    ensures 0 <= r < CardCount
    ensures 0 <= prev < CardCount ==> r == if prev == CardCount - 1 then 0 else prev + 1
  {
    (prev + 1) % 4
  }

  /** The active card after `n` rotation ticks. */
  function ActiveAfter(a: int, n: nat): (r: int)
    requires 0 <= a
    ensures 0 <= r
    decreases n
  {
    if n == 0 then a else RotateActive(ActiveAfter(a, n - 1))
  }

  lemma {:induction false} ActiveAfterTicks(a: int, n: nat)
    requires 0 <= a < CardCount
    ensures ActiveAfter(a, n) == (a + n) % CardCount
    decreases n
  {
    if n > 0 {
      ActiveAfterTicks(a, n - 1);
      assert ActiveAfter(a, n) == ((a + n - 1) % 4 + 1) % 4;
      SuccMod(a + n - 1);
    }
  }

  /** Four rotation ticks bring the highlighted card back. */
  lemma ActivePeriodic(a: int, n: nat)
    requires 0 <= a < CardCount
    ensures ActiveAfter(a, n + 4) == ActiveAfter(a, n)
    ensures ActiveAfter(a, 4) == a
  {
    ActiveAfterTicks(a, n);
    ActiveAfterTicks(a, n + 4);
    ActiveAfterTicks(a, 4);
    AddFour(a + n);
    AddFour(a);
  }

  /** Whether card `index` is rendered as the active one. */
  function IsActive(activeStep: int, index: int): bool {
    activeStep == index
  }

  /** Exactly one of the four cards is active. */
  function ActiveCards(activeStep: int): (cards: set<int>)
    requires 0 <= activeStep < CardCount
    ensures cards == {activeStep}
    ensures |cards| == 1
  {
    set i | 0 <= i < CardCount && IsActive(activeStep, i)
  }

  /** The text of the demo's action button. */
  function ButtonText(step: int): (text: string)
    ensures text != "" <==> 0 <= step < 4
  {
    if step == 0 then "Set Pickup Location"
    else if step == 1 then "Set Destination"
    else if step == 2 then "Finding Driver..."
    else if step == 3 then "Track Your Ride"
    else ""
  }

  /** The demo's status message. */
  function StatusText(step: int): (text: string)
    ensures text != "" <==> 0 <= step < 4
  {
    if step == 0 then "Enter your pickup location"
    else if step == 1 then "Enter your destination"
    else if step == 2 then "Finding your driver..."
    else if step == 3 then "Your ride is on the way!"
    else ""
  }

  /** What the demo renders for a state, leaving out layout and animation. */
  datatype View = View(
    routeDrawn: bool,          // the route path is at full length
    carShown: bool,            // the car marker is on the map
    carOffsetPercent: int,     // how far along the route the car is drawn
    pickupFocused: bool,       // the pickup input's underline and pulse
    destinationFocused: bool,  // the destination input's underline and pulse
    status: string,
    button: string,
    driverCardShown: bool)

  function DemoView(d: DemoState): (v: View)
    // the route and the car appear from step 2 on
    ensures v.routeDrawn <==> d.step >= 2
    ensures v.carShown <==> d.step >= 2
    // the car has arrived exactly on step 3, and is halfway otherwise
    ensures v.carOffsetPercent == 100 <==> d.step == 3
    ensures v.carOffsetPercent in {50, 100}
    // the driver card is shown only once the car has arrived
    ensures v.driverCardShown <==> d.step == 3
    ensures v.driverCardShown ==> v.carShown && v.routeDrawn
    // at most one input is focused, and none once the route is drawn
    ensures !(v.pickupFocused && v.destinationFocused)
    ensures v.routeDrawn ==> !v.pickupFocused && !v.destinationFocused
    ensures v.status == StatusText(d.step) && v.button == ButtonText(d.step)
  {
    View(d.step >= 2, d.step >= 2, if d.step == 3 then 100 else 50,
         d.step == 0, d.step == 1, StatusText(d.step), ButtonText(d.step), d.step == 3)
  }

  /** Every state the demo can hold has a caption, and the caption tells the table's
      four entries apart. */
  lemma DemoCaptions(d: DemoState, e: DemoState)
    requires DemoReachable(d) && DemoReachable(e)
    ensures DemoView(d).button != "" && DemoView(d).status != ""
    ensures DemoView(d).button == DemoView(e).button <==> d.step == e.step
  {
  }

  /** The section's component state, overwritten by its two intervals and a card click. */
  class Showcase {
    var activeStep: int
    var demoState: DemoState

    ghost predicate Valid()
      reads this
    {
      0 <= activeStep < CardCount && DemoReachable(demoState)
    }

    constructor ()
      ensures Valid() && activeStep == 0 && demoState == InitialDemo
    {
      activeStep := 0;
      demoState := InitialDemo;
    }

    /** The demo interval fires. */
    method DemoTick()
      requires Valid()
      modifies this
      ensures Valid() && demoState == NextDemo(old(demoState)) && activeStep == old(activeStep)
    {
      demoState := DemoSteps[(demoState.step + 1) % 4];
    }

    /** The card-rotation interval fires. */
    method RotateTick()
      requires Valid()
      modifies this
      ensures Valid() && activeStep == RotateActive(old(activeStep)) && demoState == old(demoState)
    {
      activeStep := (activeStep + 1) % 4;
    }

    /** Card `index` is clicked; there are four cards. */
    method ClickCard(index: int)
      requires Valid() && 0 <= index < CardCount
      modifies this
      ensures Valid() && activeStep == index && demoState == old(demoState)
      ensures ActiveCards(activeStep) == {index}
    {
      activeStep := index;
    }
  }
}
