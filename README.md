# LogistiQ landing page: the state machines behind the page

The LogistiQ landing page is presentation almost throughout, but four of its components keep
state that clicks and timers drive. This project models them in Dafny and proves what they
promise:

- **Booking wizard** (`booking.dfy`, module `BookingDemo`). Four steps: Location, Vehicle,
  Driver, Ride. The six state variables (`step`, `pickup`, `destination`, `rideType`,
  `isLoading`, `driver`) are the fields of class `Wizard`. Its handlers change them in place.
  Each handler is specified by a function on the value `State`: `Next` (the Continue / Start
  Over handler), `DriverFound` (the matching timer's callback), `EditPickup`,
  `EditDestination` and `ChooseRide` (the inputs). The invariant `Inv` ties `isLoading`,
  `driver` and `step` together. The main results:
  - `Inv` holds in every state reachable by any sequence of events (`ReachableStates`).
  - so `step` is always 1 to 4;
  - `rideType` is always "", "economy", "comfort" or "premium";
  - an enabled button always moves the wizard, and a disabled one never does.
- **How It Works** (`howitworks.dfy`, module `HowItWorks`).
  - The self-playing demo rotates through a four-entry table (`NextDemo`). After the first
    tick it repeats with period four (`DemoAfterTicks`, `DemoPeriodic`).
  - The highlighted process card rotates modulo four or is picked by a click. Exactly one
    card is active (`ActiveCards`).
  - `DemoView` maps a demo state to what the inner demo renders: route, car, driver card,
    status and button captions.
- **Preloader** (`preloader.dfy`, module `Preloader`). A counter that saturates at 100
  (`Advance`). Its interval clears itself on the tick that reaches the cap. From 0 that is
  exactly the 100th tick (`HundredTicks`, `RunInterval`).
- **Page** (`page.dfy`, module `Page`).
  - The active-section effect picks the first section in view, in a fixed order, and leaves
    the section unchanged when none is in view (`SelectSection`).
  - The navigation highlight: at most one item is highlighted, and never "Contact", because
    no section is ever named "contact".
  - The mobile-menu toggle, the cursor-variant setters and the one-shot loading flag
    (class `Home`).

Each timer is an explicit event method: `Wizard.FireMatchTimer`, `Showcase.DemoTick`,
`Showcase.RotateTick`, `Loader.Tick` and `Home.LoadingTimerFires`. Three of them are
one-shot or self-clearing timers and require the flag that says they are still pending:
- `FireMatchTimer` requires `isLoading`;
- `Loader.Tick` requires `running`;
- `LoadingTimerFires` requires `isLoading`.

The two How It Works intervals need no such flag, because they stay scheduled for as long
as the section is mounted.

Each input setter can be called only on the step where its control is rendered:
- pickup and destination on step 1;
- the ride options on step 2.

The six viewport flags of the page are inputs (`InView`). Real time is not modelled.

Two behaviours of the code worth stating:
- The step-1 guard tests only that the strings are non-empty (JavaScript truthiness), so
  whitespace-only text passes.
- The matching timer's `setTimeout` is never cancelled.

## Model

| member | source | states |
|---|---|---|
| `BookingDemo.Next` | app/components/booking-demo.tsx:17-44 | Step stays in 1..4; the invariant is kept; the step only advances by one or wraps 4→1; if the step does not move, nothing changes. Guards: step 1→2 iff both addresses are non-empty; 2→3 iff a ride type is chosen, and then the matching flag rises; 3→4 iff a driver is present; 4→1 always. Start Over alone clears the inputs and the driver and gives back the initial state. Under the invariant, the button is enabled iff the step changes. |
| `BookingDemo.DriverFound` | app/components/booking-demo.tsx:24-33 | The flag drops and the driver becomes the fixed record {"Michael K.", 4.9, "Tesla Model Y", "LQ2024", "3 min"}; no other field changes. Fired while matching, it keeps the invariant and enables the button on step 3. |
| `BookingDemo.EditPickup` | app/components/booking-demo.tsx:92-97 | Legal on step 1 only. Sets pickup to the typed text, changes nothing else, keeps the invariant. |
| `BookingDemo.EditDestination` | app/components/booking-demo.tsx:101-106 | Legal on step 1 only. Sets destination to the typed text, changes nothing else, keeps the invariant. |
| `BookingDemo.ChooseRide` | app/components/booking-demo.tsx:122-132 | Legal on step 2 only. Sets rideType to the clicked option's id, which is non-empty. Changes nothing else, keeps the invariant and enables the button. |
| `BookingDemo.ButtonLabel` | app/components/booking-demo.tsx:257 | The caption is "Start Over" exactly on step 4 and "Continue" otherwise. Under the invariant, "Start Over" is shown exactly when a press returns the wizard to its initial state from some other state. "Continue" is shown when a press either stays put or moves exactly one step forward. |
| `BookingDemo.NextDisabledGuard` | app/components/booking-demo.tsx:46-50 | When the `isNextDisabled` guard refuses, a press changes nothing. Under the invariant and outside matching, the guard refuses exactly the presses that would change nothing. |
| `BookingDemo.ButtonDisabledGuard` | app/components/booking-demo.tsx:255 | The `disabled` expression holds while matching. Under the invariant, it holds exactly when a press would change nothing. |
| `BookingDemo.Apply` | app/components/booking-demo.tsx:80-132 | Every event that can occur keeps the invariant. Pickup and destination change only on step 1 or on Start Over. The ride type changes only on step 2 or on Start Over. |
| `BookingDemo.RunKeepsInv` | app/components/booking-demo.tsx:17-50 | Any sequence of events from a state satisfying the invariant ends in a state satisfying it. |
| `BookingDemo.ReachableStates` | app/components/booking-demo.tsx:10-15 | Every state reachable from the initial one satisfies the invariant. Its step is in {1,2,3,4} and its ride type in {"", "economy", "comfort", "premium"}. |
| `BookingDemo.BookingTour` | app/components/booking-demo.tsx:17-44 | The full tour: addresses → step 2 → "comfort" → step 3 with the flag up → timer → driver present → step 4 → Start Over back to the initial state. |
| `BookingDemo.Wizard.constructor` | app/components/booking-demo.tsx:10-15 | The initial state: step 1, empty inputs, no driver, not matching. |
| `BookingDemo.Wizard.HandleNext` | app/components/booking-demo.tsx:17-44 | The fields are updated exactly as `Next` says. The step stays put iff the button was disabled. |
| `BookingDemo.Wizard.FireMatchTimer` | app/components/booking-demo.tsx:24-33 | The fields are updated as `DriverFound` says; the wizard is on step 3 with the button enabled. |
| `BookingDemo.Wizard.SetPickup` | app/components/booking-demo.tsx:96 | Fields updated as `EditPickup` says. |
| `BookingDemo.Wizard.SetDestination` | app/components/booking-demo.tsx:105 | Fields updated as `EditDestination` says. |
| `BookingDemo.Wizard.SelectRideType` | app/components/booking-demo.tsx:132 | Fields updated as `ChooseRide` says. |
| `HowItWorks.NextDemo` | app/components/how-it-works.tsx:57-63 | A tick yields a table entry: the one at index (prev.step + 1) mod 4. The resulting step equals its own table index. |
| `HowItWorks.DemoAfterTicks` | app/components/how-it-works.tsx:49-63 | From any demo state, the n-th tick (n ≥ 1) shows table entry (step + n) mod 4. |
| `HowItWorks.DemoCycles` | app/components/how-it-works.tsx:49-61 | Every table entry sits at the index equal to its step, and a tick advances the step by one mod 4 (0→1→2→3→0). |
| `HowItWorks.DemoPeriodic` | app/components/how-it-works.tsx:60 | After the first tick, four more ticks return to the same demo state. |
| `HowItWorks.DemoEntryPeriodic` | app/components/how-it-works.tsx:49-61 | Four ticks bring every table entry back to itself. |
| `HowItWorks.InitialDemoFirstTick` | app/components/how-it-works.tsx:10-14 | The initial demo state {"", "", 0} is not a table entry. The first tick yields entry 1. |
| `HowItWorks.RotateActive` | app/components/how-it-works.tsx:69-75 | The active card stays in 0..3. A tick moves to the next card, and from 3 back to 0. |
| `HowItWorks.ActiveAfterTicks` | app/components/how-it-works.tsx:71 | After n ticks the active card is (start + n) mod 4. |
| `HowItWorks.ActivePeriodic` | app/components/how-it-works.tsx:71 | Four rotation ticks return to the same card. |
| `HowItWorks.ActiveCards` | app/components/how-it-works.tsx:192-199 | Exactly one of the four cards is active: the one at the active index. |
| `HowItWorks.ButtonText` | app/components/how-it-works.tsx:792-815 | Steps 0..3 have a non-empty button caption ("Set Pickup Location", "Set Destination", "Finding Driver...", "Track Your Ride"). Any other step has none. |
| `HowItWorks.StatusText` | app/components/how-it-works.tsx:701-760 | Steps 0..3 have a non-empty status message. Any other step has none. |
| `HowItWorks.DemoView` | app/components/how-it-works.tsx:541-821 | Route and car iff step ≥ 2. The car is at 100% iff step = 3, else at 50%. Driver card iff step = 3, and then the car and route show too. At most one input is highlighted, and none once the route is drawn. |
| `HowItWorks.DemoCaptions` | app/components/how-it-works.tsx:792-815 | Every state the demo can hold has a button caption and a status. Two such states have the same caption iff they have the same step. |
| `HowItWorks.Showcase.constructor` | app/components/how-it-works.tsx:9-14 | Card 0 is active and the demo shows the initial state. |
| `HowItWorks.Showcase.DemoTick` | app/components/how-it-works.tsx:57-63 | The demo state becomes `NextDemo` of the old one; the active card is unchanged. |
| `HowItWorks.Showcase.RotateTick` | app/components/how-it-works.tsx:69-75 | The active card becomes `RotateActive` of the old one; the demo state is unchanged. |
| `HowItWorks.Showcase.ClickCard` | app/components/how-it-works.tsx:362 | Clicking card i makes it the only active card; the demo state is unchanged. |
| `Preloader.Advance` | app/components/preloader.tsx:11-17 | A tick yields min(prev + 1, 100). The result never exceeds 100, never decreases from a value ≤ 100, and stays 100 at the cap. |
| `Preloader.CountsUp` | app/components/preloader.tsx:10-17 | From 0, k ticks (k ≤ 100) show progress k. |
| `Preloader.HundredTicks` | app/components/preloader.tsx:13-15 | From 0, none of the first 99 ticks clears the interval, the 100th does, and the progress is then 100. |
| `Preloader.StopsInterval` | app/components/preloader.tsx:13 | The interval-stop test `prev + 1 >= 100` holds exactly when the tick lands on the cap. `HundredTicks` shows that from 0 it first holds on the 100th tick. `Loader.Tick` keeps the interval scheduled exactly when the test fails. |
| `Preloader.StaysAtCap` | app/components/preloader.tsx:16 | Any number of ticks at 100 leaves the progress at 100. |
| `Preloader.RunInterval` | app/components/preloader.tsx:9-18 | Running the interval until it clears itself ends at 100. From a start below 100 this takes 100 − start ticks, otherwise one tick. The result is the updater applied that many times. |
| `Preloader.Loader.constructor` | app/components/preloader.tsx:7-10 | Progress starts at 0 with the interval scheduled. |
| `Preloader.Loader.Tick` | app/components/preloader.tsx:10-18 | The progress becomes `Advance` of the old value and strictly grows. The interval stays scheduled iff the cap was not reached. |
| `Page.SelectSection` | app/page.tsx:81-88 | The result is the first in-view section in the order hero, stats, features, how-it-works, reviews, cta. When none is in view, the current section is kept. The result is always the current section or a section name. |
| `Page.SelectSectionIsFirstInView` | app/page.tsx:81-88 | The if/else chain agrees on every input with an ordered scan for the first flag that is set. |
| `Page.HighlightedItems` | app/page.tsx:204-229 | A nav item is highlighted iff its section is the active one. At most one item is highlighted. When the active section is a section name, Contact never is. |
| `Page.Home.constructor` | app/page.tsx:49-52 | Loading starts true, the menu closed, the section "hero", the cursor "default". |
| `Page.Home.LoadingTimerFires` | app/page.tsx:72-79 | The loading flag, and with it the preloader, goes off. No other member sets it again. |
| `Page.Home.UpdateActiveSection` | app/page.tsx:81-88 | The active section becomes `SelectSection` of the old one and stays one of the six section names. |
| `Page.Home.ToggleMenu` | app/page.tsx:249 | The menu flag is negated; nothing else changes. |
| `Page.Home.CloseMenu` | app/page.tsx:286 | The menu is closed; nothing else changes. |
| `Page.Home.EnterButton` | app/page.tsx:170 | The cursor variant becomes "button". |
| `Page.Home.EnterLink` | app/page.tsx:171 | The cursor variant becomes "link". |
| `Page.Home.LeaveInteractive` | app/page.tsx:172 | The cursor variant becomes "default". |

## Left out

- Layout, CSS classes and framer-motion animation props (durations, springs, `whileInView`, `AnimatePresence`): presentation only.
- Wall-clock time (2000 ms, 1000 ms, 20 ms) and the cleanup functions that clear the intervals and timeouts on unmount: each timer is an event method instead.
- `useInView` viewport detection: the six in-view flags are inputs.
- Which DOM elements the section refs are attached to: framework behaviour.
- The map (Leaflet, tile loading, floating-point coordinates): not part of this model.
- The gradient background, feature cards and custom cursor (pointer geometry, DOM measurements): not part of this model.
- The reviews carousel's animation controls, and the other purely declarative wrappers (lamp, parallax, smooth scroll, scroll progress, text reveal, animated AI, container scroll): not part of this model.
- Components that are imported but not shown (`MagneticButton`, the `ui` components, `cn`): not part of this model.
- The driver's rating 4.9 is a Dafny `real`. JavaScript floating point is not modelled.
- `BookingDemo.Wizard.FireMatchTimer`: requires the matching flag. The model does not consider a timer left over from an earlier step-3 entry, because the button is disabled for as long as the timer is pending.
- `HowItWorks.NextDemo`, `HowItWorks.RotateActive`: require a non-negative step. JavaScript's `%` agrees with Dafny's only for non-negative operands, and the state never holds a negative step.
