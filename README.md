# RailOptima signal panel and status classifiers

A Dafny model of the behaviour inside the RailOptima train-traffic dashboard
(`src/pages/Index.tsx`). Most of that file is rendering. The parts with
behaviour that can be stated are modelled here:

- **Signal panel** (`signals.dfy`, `dashboard.dfy`). The component keeps a list
  of signal records (`id`, `name`, `status`, `trainId`, `position`, `section`)
  and a `simulationMode` flag. Three handlers replace them:
  - a click on a lamp (`toggleSignal`) steps the matching signal's status
    green → red → yellow → green; any other status becomes green;
  - "Start Simulation" sets the flag and turns every green signal yellow;
  - "Stop Simulation" clears the flag and turns every yellow signal green.

  `Signals` holds the list rewrites as pure functions over `seq<Signal>`,
  together with the lemmas about them. `Dashboard.SignalPanel` is a class that
  holds the two pieces of state. Its methods reassign them, and their
  contracts tie the new state to those functions. The class invariant (unique
  ids, every status one of the three aspects) holds for the initial list and
  is kept by all three handlers.
- **Status classifiers** (`classifiers.dfy`). `getTrainColor`,
  `getPriorityColor`, `getPlatformStatusColor` and `getSignalColor` map status
  strings to entries of the colour palette. The palette is the abstract
  datatype `Colour`, one constructor per palette key the classifiers return.
  Each classifier is proved equal to a lookup in a table with a fallback entry.
- **Platform occupancy** (`platforms.dfy`). Platform `n` of a station
  (numbered from 1) is "occupied" iff some train of the station stands at
  platform `n`; the train drawn there is the first such train in the list.

Statuses, types and priorities stay `string`, as they are in the source. This
keeps the default branches of the classifiers and of the click meaningful.

Facts about the code that the model keeps:
- a click cycles green → red → yellow → green;
- signals carry no automatic/manual flag, and every signal can be clicked;
- a click on an unknown id leaves the list unchanged (`Signals.ToggleUnknownId`);
- the file has no tick loop, train motion, weather, events, scoring or achievements.

## Model

| member | source | states |
|---|---|---|
| `Classifiers.TrainColor` | src/pages/Index.tsx:166-171 | the result is a train-chip colour; it is one of the three punctuality colours iff the status is "on-time", "minor-delay" or "significant-delay"; otherwise it is the freight colour iff the type is "freight", and the passenger colour iff it is not |
| `Classifiers.TrainColorMatchesTable` | src/pages/Index.tsx:166-171 | the train colour is the status table's entry when the status is in it, else the type's colour |
| `Classifiers.TrainColorStatusPrecedence` | src/pages/Index.tsx:167-169 | for a punctuality status, two trains of any types get the same colour, the status's own |
| `Classifiers.PriorityColor` | src/pages/Index.tsx:173-180 | the result is one of the alert colours or the accent colour; it is the accent (default) colour iff the priority is not exactly "CRITICAL", "HIGH" or "MEDIUM" |
| `Classifiers.PriorityColorMatchesTable` | src/pages/Index.tsx:173-180 | the priority colour is a table lookup with the accent colour as fallback |
| `Classifiers.PlatformStatusColor` | src/pages/Index.tsx:182-188 | the result is critical, high or accent; it is the accent (default) colour iff the status is neither "occupied" nor "reserved" |
| `Classifiers.PlatformStatusColorMatchesTable` | src/pages/Index.tsx:182-188 | the platform colour is a table lookup with the accent colour as fallback |
| `Classifiers.SignalColor` | src/pages/Index.tsx:190-197 | the result is a lamp colour; the lamp is drawn off iff the status is not "green", "yellow" or "red" |
| `Classifiers.SignalColorMatchesTable` | src/pages/Index.tsx:190-197 | the lamp colour is a table lookup with "off" as fallback |
| `Classifiers.TablesAreInjective` | src/pages/Index.tsx:166-197 | each classifier gives distinct known inputs distinct colours, and no known input gets its classifier's fallback colour |
| `Platforms.FirstOnPlatform` | src/pages/Index.tsx:345 | the result is the index of the first train at platform n, or none when no train is there |
| `Platforms.TrainOnPlatform` | src/pages/Index.tsx:345 | a train is found iff some train stands at platform n; the train found is the first one listed at platform n, as `find` returns it |
| `Platforms.PlatformStatus` | src/pages/Index.tsx:345-346 | the status is "occupied" or "empty", and "occupied" iff some train stands at platform n |
| `Platforms.PlatformStatuses` | src/pages/Index.tsx:343-346 | one status per platform; entry k is "occupied" iff some train stands at platform k + 1, else "empty" |
| `Platforms.PlatformDotColour` | src/pages/Index.tsx:343-353 | a platform dot is the critical colour iff a train is there, else the accent colour; the occupancy rule never produces the "reserved" colour |
| `Platforms.OccupiedDotsAtMostTrains` | src/pages/Index.tsx:343-346 | the number of platforms shown occupied never exceeds the number of trains listed for the station |
| `Signals.NextStatus` | src/pages/Index.tsx:282-283 | a click always yields an aspect (green, yellow or red); it yields green iff the old status is neither green nor red |
| `Signals.NextStatusFollowsClickCycle` | src/pages/Index.tsx:282-283 | on the three aspects a click moves one step along green → red → yellow → green |
| `Signals.NextStatusThrice` | src/pages/Index.tsx:282-283 | three clicks restore an aspect; from any other status three clicks end on yellow |
| `Signals.MapSignals` | src/pages/Index.tsx:278-286 | the list map keeps length and order and rewrites each record on its own |
| `Signals.Toggle` | src/pages/Index.tsx:277-287 | the click rewrite keeps the length and order and every field but `status`; records with another id are unchanged; records with the id get the next status |
| `Signals.ToggleUnknownId` | src/pages/Index.tsx:278-285 | a click on an id no signal carries leaves the list identical |
| `Signals.ToggleThrice` | src/pages/Index.tsx:278-285 | three clicks on one id restore the whole list when the signals with that id show an aspect |
| `Signals.ToggleMakesLit` | src/pages/Index.tsx:282-283 | after one click, every signal with that id shows an aspect |
| `Signals.ToggleTimesPeriodic` | src/pages/Index.tsx:277-287 | from the first click on, clicks on one id repeat with period three, whatever the starting statuses |
| `Signals.ToggleChangesAtMostOne` | src/pages/Index.tsx:278-285 | when ids are unique, a click changes at most one record |
| `Signals.StartTransform` | src/pages/Index.tsx:204-206 | the start rewrite keeps length, order and all non-status fields; green becomes yellow, any other status is kept; no green is left |
| `Signals.StopTransform` | src/pages/Index.tsx:213-215 | the stop rewrite keeps length, order and all non-status fields; yellow becomes green, any other status is kept; no yellow is left |
| `Signals.StartIdempotent` | src/pages/Index.tsx:204-206 | applying the start rewrite twice equals applying it once |
| `Signals.StopIdempotent` | src/pages/Index.tsx:213-215 | applying the stop rewrite twice equals applying it once |
| `Signals.StopAfterStart` | src/pages/Index.tsx:204-215 | stop after start equals stop alone; it leaves no yellow and leaves red signals unchanged |
| `Signals.ClickAndStartDoNotCommute` | src/pages/Index.tsx:200-287 | for a single green signal, a click followed by the start rewrite leaves it red, while the start rewrite followed by a click leaves it green |
| `Signals.StartAfterStop` | src/pages/Index.tsx:204-215 | start after stop equals start alone |
| `Signals.TransformsPreserveWellFormed` | src/pages/Index.tsx:200-287 | the click, start and stop rewrites keep ids unique and every status an aspect |
| `Dashboard.InitialSignals` | src/pages/Index.tsx:123-156 | the initial list has four signals with unique ids, each showing an aspect |
| `Dashboard.SignalPanel.constructor` | src/pages/Index.tsx:161-164 | the panel starts with the initial list and the simulation off, and satisfies the invariant |
| `Dashboard.SignalPanel.ToggleSignal` | src/pages/Index.tsx:277-287 | the new list is the click rewrite of the old one; the flag is unchanged; the invariant is kept |
| `Dashboard.SignalPanel.StartSimulation` | src/pages/Index.tsx:200-208 | the flag becomes true and the new list is the start rewrite of the old one; the invariant is kept |
| `Dashboard.SignalPanel.StopSimulation` | src/pages/Index.tsx:210-216 | the flag becomes false and the new list is the stop rewrite of the old one; the invariant is kept |
| `Dashboard.SignalPanel.Lamps` | src/pages/Index.tsx:472-484 | one lamp colour per signal, in list order; in a panel that satisfies the invariant no lamp is drawn off |

## Left out

- Rendering, layout, styling and the hex values of the colour table: they are presentation only. The palette is modelled by key name.
- `Dashboard.SignalPanel.StartSimulation`: the component dims green signals in a callback 2 seconds after the click; the model applies the dimming at once. So the model does not capture a stop pressed within those 2 seconds. In that case the callback fires after the stop and leaves yellow signals with the simulation off. `Signals.StartAfterStop` gives the list that results. A lamp click inside the window is not captured either. For a single green signal clicked within those 2 seconds, the component ends with it red (the click, then the delayed dimming), while the model ends with it green (the dimming, then the click). `Signals.ClickAndStartDoNotCommute` proves that the two orders differ.
- The initial state at line 164 passes the component's own `signals` binding to the state hook inside its own declaration. The model takes the module-level list at lines 123-156 as the initial state, which is evidently what was meant. As written, under the `const` rules of ECMAScript 2015, that read falls in the binding's temporal dead zone. It throws a ReferenceError, and TypeScript rejects it as error TS2448. So the component fails on its first render, and the module-level list is the repair. This follows from the language rules alone. The state hook itself is not modelled.
- Handlers that only log a message (accept/override a recommendation, hold/reroute a train, reserve/clear a platform, apply/discard changes): they change no state.
- Navigation state (`selectedStation`, `selectedTrain`, `activeTab`, `zoomLevel`) and the handlers that set it: UI selection only.
- The mock values of stations, recommendations and KPIs. The stored `occupiedPlatforms` counts are written by hand and are not computed from the trains. South Terminal stores 5, while its four trains occupy 4 platforms. The model claims no relation between the stored count and the trains. `Platforms.OccupiedDotsAtMostTrains` bounds only the dots the rule draws.
- The map view's platform tiles (lines 428-441) use the same `find` rule but colour a tile by its train; only the overview's occupancy dots are modelled.
- Tick loop, train motion, weather, automatic signals, events, scoring and achievements: the component contains none of them.
