# SmartThings Treasure Hunt — a Dafny model of the game core

The game is a small browser game. An avatar walks around a floor plan of a
home with six appliances, connects them to SmartThings and switches them off,
until the household's power draw falls to 300 W or less. This project models
its logic and proves properties of that model:

- **the session** (`App.tsx`): the device list, mission index, avatar, tab and
  overlay flags, changed by the key handler, the click handlers and the three
  effects;
- **the seed data and mission predicates** (`constants.ts`);
- **the device control modal** (`components/DeviceControlModal.tsx`): the
  simulated connect sequence, the power toggle with its re-entrancy flag, the
  channel buttons and the washer's finish action;
- **the energy tab** (`components/DashboardTabs.tsx`): the charted list, its
  total, the 300 W safety rule, the bar colours, the status list and the
  "all off" card;
- **the save store** (`utils/storage.ts`): an in-memory map in front of a
  durable store that may refuse any call, and the manual save code;
- **the two pagers**: the mascot's guide bubble
  (`components/BloomingGuide.tsx`) and the intro overlay
  (`components/IntroOverlay.tsx`).

Modules, one file each:

- `Wrappers`: `Option`.
- `Types`: the device, update, mission and routine shapes.
- `DeviceList`: the pure list expressions, namely the total power, the
  merge-by-id update, lookup and the routine bodies.
- `Constants`: the seed devices, routines and missions.
- `Movement`: the arrow-key step and clamp.
- `Proximity`: the nearby-device search, a loop.
- `Session`: the session as a class.
- `ControlModal`: the control modal.
- `Dashboard`: the energy tab.
- `Storage`: the save store and save code.
- `Guide` and `Intro`: the two pagers.

Timers are not modelled as time. The session's delayed effects are applied
at once. Each of the modal's pending callbacks becomes an explicit method
that fires the next one. Browser facilities (JSON, Base64, `localStorage`,
the Storage Access API) are parameters: an abstract codec, a durable-store
class whose every call is told whether it fails, and an environment record.

Two behaviours of the code worth noting:

- the game-clear guard does not look at the active tab;
- the proximity test is strict (`< 15`), so a device at exactly 15 is not nearby.

## Model

| member | source | states |
|---|---|---|
| DeviceList.Merge | App.tsx:91 | each field given in the partial update replaces the device's own; every field not given is kept; the empty update changes nothing |
| DeviceList.TotalPower | App.tsx:28 | no contract of its own, being the reduce itself; DeviceList.TotalPowerIsSumOfOnDevices gives its value and the lemmas below its algebra |
| DeviceList.MergeIdempotent | App.tsx:91 | applying the same partial update twice is the same as applying it once |
| DeviceList.OnDevices | components/DashboardTabs.tsx:38 | the filter keeps a device exactly when it is in the list and on, and never grows the list |
| DeviceList.OnDevicesSingleton | components/DashboardTabs.tsx:38 | a one-device list is kept exactly when its device is on |
| DeviceList.OnDevicesAppend | components/DashboardTabs.tsx:38 | the filter distributes over concatenation, so it keeps list order and repeated entries |
| DeviceList.TotalPowerIsSumOfOnDevices | App.tsx:28 | the reduce equals the sum of `powerConsumption` over the devices that are on |
| DeviceList.TotalPowerAppend | App.tsx:28 | the total of a concatenation is the sum of the totals |
| DeviceList.TotalPowerBounds | App.tsx:28 | with every device off the total is 0; with non-negative powers it is never negative |
| DeviceList.SumOfPowerBounds | App.tsx:28 | a sum of non-negative powers is non-negative |
| DeviceList.TotalPowerPointwise | App.tsx:28 | two lists whose devices contribute the same (power if on, 0 if off) have the same total |
| DeviceList.TotalPowerReplace | App.tsx:28 | replacing one device changes the total by exactly the difference of the two contributions |
| DeviceList.UpdateById | App.tsx:90-92 | the update keeps the length and order; devices with another id are identical; every device with the id is merged with the partial |
| DeviceList.UpdateAbsentIdIsNoop | App.tsx:90-92 | an update for an id no device has leaves the list unchanged |
| DeviceList.UpdateUniqueIsReplace | App.tsx:90-92 | with distinct ids, the update replaces exactly the one device carrying the id |
| DeviceList.UpdateKeepsIds | App.tsx:90-92 | an update that does not set `id` keeps every id, so distinct ids stay distinct |
| DeviceList.TotalPowerAfterUpdate | App.tsx:90-92 | after an update of the unique device with the id, the total changes by that device's old and new contributions only |
| DeviceList.TotalPowerIgnoresOtherFields | App.tsx:90-92 | an update that sets neither `isOn` nor `powerConsumption` leaves the total unchanged |
| DeviceList.FindIndex | constants.ts:34 | `find` by id: nothing exactly when no device has the id, otherwise the first position that has it |
| DeviceList.Find | constants.ts:34 | `find` by id: nothing exactly when no device has the id, otherwise the device at the first position holding the id |
| DeviceList.FindUnderOtherUpdate | constants.ts:33-36 | updating another id without renaming a device to the target leaves the lookup of the target unchanged |
| DeviceList.FindIndexIsFirst | constants.ts:34 | a position holding the id with no earlier match is what `find` picks |
| DeviceList.PowerSavingMode | App.tsx:109-113 | routine 1 keeps refrigerators untouched and turns every other device off, changing nothing else, with length and order kept |
| DeviceList.AwayMode | App.tsx:114-120 | routine 2 sets the air conditioner to 27, "Fan Only" and on, turns lights and TVs off, and leaves every other device untouched |
| DeviceList.PowerSavingLeavesOnlyRefrigerators | App.tsx:109-113 | after routine 1 only refrigerators can be on; running it again changes nothing; the total is the refrigerators' total |
| DeviceList.RefrigeratorPower | App.tsx:109-113 | after routine 1 the total power equals the total of the refrigerators alone |
| DeviceList.AwayModeIdempotent | App.tsx:114-120 | running routine 2 twice is running it once |
| Constants.SeedDevices | constants.ts:4-11 | six seed devices with pairwise-distinct ids and non-negative power, all on and none connected, drawing 3810 W |
| Constants.InitialDevices | constants.ts:4-11 | a constant, the seed list; Constants.SeedDevices states its properties |
| Constants.RoutineIds | constants.ts:13-18 | exactly four routines, with ids routine-1 to routine-4 in order |
| Constants.MissionShape | constants.ts:20-72 | missions 1, 2, 3 in order with three guide lines each; the first two target `tv-1` and `airfryer-1` with a control action; the third has no target and is the life check |
| Constants.Missions | constants.ts:20-72 | a constant, the three missions; Constants.MissionShape, Constants.ControlMissionSuccess and Constants.EnergyMissionPredicateFalse state its properties |
| Constants.ControlMissionSuccess | constants.ts:33-53 | with distinct ids, mission 1 (mission 2) succeeds exactly when a device `tv-1` (`airfryer-1`) exists that is connected and off |
| Constants.ConnectedAndOff | constants.ts:33-36 | no contract of its own, being the shared shape of missions 1 and 2 (lines 33-36 and 50-53); Constants.ControlMissionSuccess states its meaning |
| Constants.EnergyMissionPredicateFalse | constants.ts:67-70 | mission 3's own predicate never holds |
| Constants.MissionPredicateIsLocal | constants.ts:33-70 | an update of any id other than the mission's target, which does not rename a device to that target, keeps the mission predicate's value |
| Constants.SeedTvScenario | constants.ts:33-36 | connecting and switching off the seed TV in one update satisfies mission 1 and lowers the total by exactly 150 W |
| Movement.Clamp | App.tsx:49-50 | the result lies in [5, 95]; values inside are kept; values below go to 5 and values above go to 95 |
| Movement.StepAvatar | App.tsx:38-51 | a non-arrow key leaves the position unchanged; each arrow key moves its axis by 2.5 in its direction and then clamps both coordinates to [5, 95], from any start; the result is in bounds, and from an in-bounds start the other axis is kept |
| Movement.ArrowMovesOneStep | App.tsx:42-50 | from an in-bounds position, each arrow key moves its axis by 2.5 in its direction, stopping at the edge |
| Movement.UpThenDown | App.tsx:43-50 | Up then Down returns to the start when the start is at least one step below the top edge |
| Proximity.FindNearest | App.tsx:75-87 | the search finds nothing exactly when no device is within distance 15 (squared distance below 225); otherwise its device is in range, no farther than any device in range, and strictly closer than every earlier one in range |
| Proximity.NearestIsUnique | App.tsx:82 | the strict comparison makes the answer unique: on a tie the earliest device wins |
| Proximity.Dist2 | App.tsx:79-81 | no contract of its own, being `dx*dx + dy*dy`; Proximity.FindNearest states the search over it |
| Proximity.InRange | App.tsx:81-82 | no contract of its own, being `dist < 15` squared on both sides; Proximity.FindNearest states the search over it |
| Session.RoutineNamed | App.tsx:107 | the routine lookup succeeds exactly for the four listed ids and returns the routine with that id |
| Session.ApplyRoutine | App.tsx:106-121 | routine 1 is power saving, routine 2 is away mode, and any other id, listed or not, leaves the devices unchanged |
| Session.SeedPowerSaving | App.tsx:109-113 | power saving on the seed household leaves 100 W, the refrigerator, at or below the 300 W threshold |
| Session.GameClearOnlyOnEnergyMission | App.tsx:58-64 | game clear is requested only on the last mission, which is the life check, with the total at or below 300 W; never for the seed household |
| Session.NoSuccessModalOnEnergyMission | App.tsx:66-71 | the success modal is never requested on the last mission |
| Session.KeyboardEnabled | App.tsx:37 | no contract of its own, being the handler's early-return test negated; Session.GameSession.KeyDown states what it gates |
| Session.GameClearRequested | App.tsx:59-60 | no contract of its own, being the game-clear effect's two nested conditions; Session.GameClearOnlyOnEnergyMission and Session.GameSession.GameClearEffect state its meaning |
| Session.SuccessModalRequested | App.tsx:67-68 | no contract of its own, being the success effect's guard; Session.SuccessModalState and Session.NoSuccessModalOnEnergyMission state its meaning |
| Session.ConnectButtonShown | App.tsx:187 | no contract of its own, being the button's render condition; Session.GameSession.ConnectClick states what it gates |
| Session.MapShown | App.tsx:146-166 | no contract of its own: the floor plan is rendered only when the game is not clear and the tab is home; Session.GameSession.MapClick states what it gates |
| Session.SuccessModalShown | App.tsx:206 | no contract of its own, being the modal's render condition; Session.NextMissionState states what it gates |
| Session.NearbyFresh | App.tsx:73-88 | the freshness the nearby effect keeps: on the home tab the nearby device is empty exactly when nothing is in range, and otherwise it is the nearest device, earliest on ties; off the home tab nothing is required, as the effect does not run there |
| Session.NearbyFreshDetermines | App.tsx:73-88 | on the home tab freshness leaves exactly one possible nearby device, and that device is in range |
| Session.InitialNothingNearby | App.tsx:24-25 | no seed device is in range of the start position (50, 80), so the fresh state, nearby device empty, is fresh |
| Session.GameSession.constructor | App.tsx:17-25 | the fresh session: home tab, seed devices, mission 0, no selection, no success modal, intro shown, not cleared, avatar at (50, 80), nothing nearby |
| Session.GameSession.CurrentTotalPower | App.tsx:28 | the session's total power is the sum of power over its devices that are on |
| Session.GameSession.IntroComplete | App.tsx:31-33 | completing the intro hides it and changes nothing else |
| Session.GameSession.SelectTab | App.tsx:219 | choosing a tab sets the active tab and changes nothing else but the nearby device, which stays on other tabs and is recomputed on home |
| Session.GameSession.KeyDown | App.tsx:35-56 | only the avatar and, through the nearby effect, the nearby device can change; the avatar steps only when on the home tab with no intro, no selection, no success modal and no game clear; after an arrow step it is inside [5, 95] |
| Session.GameSession.GameClearEffect | App.tsx:58-64 | sets game clear exactly when the guard holds (not clear, intro closed, total at most 300, mission index at least 2), with nothing else changed; a new clear happens only on the last mission at or below the threshold |
| Session.SuccessModalState | App.tsx:66-71 | the success modal becomes open exactly when it was open or the game is not clear and the current mission's predicate holds; nothing else changes |
| Session.NextMissionState | App.tsx:125-132 | without the success modal drawn nothing changes; the index rises only with the modal drawn, by exactly one and never past the last mission, and then the modal closes, the tab is home and the avatar is at (50, 50); on the last mission only the modal closes |
| Session.AdvanceNeedsMissionSuccess | App.tsx:206-214 | from a state with the success modal closed, the success effect followed by the next-mission button leaves a mission only if the game is not clear, the mission's own predicate held and it was not the last mission |
| Session.GameSession.SuccessModalEffect | App.tsx:66-71 | opens the success modal exactly when the game is not clear and the current mission's predicate holds, with nothing else changed |
| Session.GameSession.NearbyEffect | App.tsx:73-88 | only the nearby device changes, and only on the home tab; there it is empty exactly when no device is in range, otherwise it is the nearest, earliest on ties; afterwards the session is fresh in the sense of Session.NearbyFresh, which every handler that changes the avatar, the devices or the tab restores by running this effect |
| Session.GameSession.UpdateDevice | App.tsx:90-92 | the device list becomes the merge-by-id update, and nothing else changes but the recomputed nearby device |
| Session.GameSession.MapClick | App.tsx:94-96 | with the map drawn (home tab, game not won) the avatar moves to the clicked point, unclamped, and nothing else changes but the recomputed nearby device; otherwise nothing changes |
| Session.GameSession.WalkToDevice | App.tsx:98-100 | the avatar stands at the device's x and 5 below its y, and nothing else changes but the recomputed nearby device |
| Session.GameSession.DeviceListClick | App.tsx:168 | a device card returns to the home tab with the avatar next to the device, the nearby device recomputed, and nothing else changed |
| Session.GameSession.LifeToggle | App.tsx:170 | the energy tab's toggle is the update `{ isOn }` of that id, with the nearby device recomputed |
| Session.GameSession.ConnectClick | App.tsx:187-195 | with the connect button drawn (home tab, a device nearby, no selection, no success modal, no intro, game not won) the selected device becomes the nearby one; otherwise nothing changes; a modal opens only from the home tab, and then on a device that is in range of the avatar and the nearest one |
| Session.GameSession.CloseModal | App.tsx:203 | closing the modal clears the selection and nothing else |
| Session.GameSession.RunRoutine | App.tsx:106-123 | the devices become the routine's result and nothing else changes but the recomputed nearby device; the announcement appears exactly for a listed id |
| Session.GameSession.NextMission | App.tsx:125-132 | the session takes the next-mission transition: nothing happens unless the success modal is drawn, and the index rises only then, by one; the nearby device is recomputed for the new position |
| Session.GameSession.ResetGame | App.tsx:134-144 | the whole session returns to the fresh state, seed devices and intro included |
| Session.ConnectAndSwitchOffReplaces | components/DeviceControlModal.tsx:19-26 | with distinct ids, the modal's connect update followed by its switch-off update replaces exactly the device with the id by its connected, switched-off self, keeping ids distinct |
| Session.SeedPowerSavingAfterMissions | App.tsx:109-113 | with the seed TV and air fryer connected and off, power saving leaves 100 W |
| Session.SeedPlaythrough | constants.ts:33-53 | on the seed household, connecting and switching off the TV meets mission 1 but not mission 2; doing the same to the air fryer meets mission 2; power saving then leaves 100 W |
| Session.PlayToGameClear | App.tsx:58-71 | a fresh game that finishes the intro, completes missions 1 and 2 through their success modals and runs power saving is cleared at 100 W on the last mission |
| ControlModal.OpeningStep | components/DeviceControlModal.tsx:16-22 | the modal opens on the control view exactly when the device is already connected |
| ControlModal.PowerUpdate | components/DeviceControlModal.tsx:26 | the power payload flips `isOn` and touches no other field |
| ControlModal.ValueUpdate | components/DeviceControlModal.tsx:29-32 | no update exactly when the device is off or its value is not a number; otherwise the update sets value to value plus delta and nothing else |
| ControlModal.FinishUpdate | components/DeviceControlModal.tsx:113 | a constant, the finish payload; ControlModal.DeviceControl.FinishWash states when it is issued |
| ControlModal.DeviceControl.Open | components/DeviceControlModal.tsx:13-22 | a disconnected device starts connecting with both callbacks pending; a connected one starts in the control view with none; no toggle runs |
| ControlModal.DeviceControl.FireConnectTimer | components/DeviceControlModal.tsx:19-20 | the first callback shows "connected" and issues `{ isConnected: true }`; the second shows the controls and issues nothing; with none pending nothing happens |
| ControlModal.DeviceControl.PowerButtonEnabled | components/DeviceControlModal.tsx:74 | no contract of its own: the button is drawn in the control view and disabled while toggling; ControlModal.DeviceControl.PowerClick states what it gates |
| ControlModal.DeviceControl.PowerClick | components/DeviceControlModal.tsx:24-27 | a click starts a toggle only while the button is enabled (control view, no toggle running); a running toggle is not restarted |
| ControlModal.DeviceControl.FireToggleTimer | components/DeviceControlModal.tsx:26 | the toggle delay ends by issuing the flip of the opened device's `isOn` and enabling the button again |
| ControlModal.DeviceControl.PanelShown | components/DeviceControlModal.tsx:91 | no contract of its own, being the panel's render condition inside the control view; ControlModal.DeviceControl.ChannelButton and ControlModal.DeviceControl.FinishWash state what it gates |
| ControlModal.DeviceControl.ChannelButton | components/DeviceControlModal.tsx:93-101 | the channel buttons act only on a TV whose value panel is shown, as `changeValue(-1)` and `changeValue(1)` |
| ControlModal.DeviceControl.FinishWash | components/DeviceControlModal.tsx:109-116 | finishing is possible exactly on a washer panel that is shown with value 0; it issues `{ status: 'Empty', isOn: false }` and closes the modal |
| ControlModal.OpenAndConnect | components/DeviceControlModal.tsx:16-22 | opening and letting every connect callback fire ends in the control view, issuing one `{ isConnected: true }` for a disconnected device and nothing for a connected one |
| ControlModal.ConnectUpdateIdempotent | components/DeviceControlModal.tsx:19 | marking a device connected twice is the same as marking it once |
| ControlModal.SnapshotToggleTwiceKeepsFirst | components/DeviceControlModal.tsx:26 | as written: a second power click in one modal session repeats the first payload, so the device stays as the first click left it |
| ControlModal.SnapshotChannelTwiceKeepsFirst | components/DeviceControlModal.tsx:29-32 | as written: `changeValue` also reads the opened snapshot, so a second channel-up click repeats the first payload and the channel rises by one, not two |
| ControlModal.LiveToggle | components/DeviceControlModal.tsx:26 | corrected toggle on the current list: length kept, other devices untouched |
| ControlModal.LiveToggleTwiceRestores | components/DeviceControlModal.tsx:26 | with the current device, one click flips `isOn` and a second click restores the list |
| Dashboard.ToEntry | components/DashboardTabs.tsx:8 | a chart entry carries its device and the device's power when on, 0 when off |
| Dashboard.Charted | components/DashboardTabs.tsx:8 | no contract of its own, being the filter test; Dashboard.EnergyData states which entries it keeps |
| Dashboard.EnergyData | components/DashboardTabs.tsx:8 | an entry is charted exactly when its device is in the list and its value is positive or the device is connected |
| Dashboard.TotalUsageAppend | components/DashboardTabs.tsx:9 | the usage of a concatenation is the sum of the usages |
| Dashboard.TotalUsage | components/DashboardTabs.tsx:9 | no contract of its own, being the reduce itself; Dashboard.TotalUsageIsTotalPower gives its value |
| Dashboard.TotalUsageIsTotalPower | components/DashboardTabs.tsx:8-9 | with non-negative powers the tab's total usage equals the session's total power |
| Dashboard.EntryAtMostTotal | components/DashboardTabs.tsx:9 | with non-negative values no entry exceeds the total |
| Dashboard.UsageNonNegative | components/DashboardTabs.tsx:9 | with non-negative values the total is non-negative |
| Dashboard.IsSafe | components/DashboardTabs.tsx:10 | no contract of its own, being `totalUsage <= 300`; Dashboard.SafeIffTotalPowerBelowLimit ties it to the session's total power |
| Dashboard.SafeIffTotalPowerBelowLimit | components/DashboardTabs.tsx:10 | the tab is safe exactly when the session's total power is at most 300 W |
| Dashboard.BarColourOf | components/DashboardTabs.tsx:29 | red exactly above 500; otherwise green exactly when safe and blue exactly when not |
| Dashboard.SafeChartIsGreen | components/DashboardTabs.tsx:29 | on a safe tab every bar is green |
| Dashboard.StatusRows | components/DashboardTabs.tsx:38-49 | one row per device that is on, in list order, with the off button exactly on connected ones; every on device has a row |
| Dashboard.OffButtonRequest | components/DashboardTabs.tsx:47-48 | the off button exists exactly on rows that show it and requests `isOn := false` for that device |
| Dashboard.AllOffCard | components/DashboardTabs.tsx:52-57 | the status list is empty exactly when no device is on, and then the tab is safe |
| Storage.DurableStore.constructor | utils/storage.ts:51 | the durable store, which the source does not create, starts with the given entries: the ones `getItem` will find |
| Storage.DurableStore.SetItem | utils/storage.ts:42 | a refused write changes nothing; otherwise the key is set |
| Storage.DurableStore.GetItem | utils/storage.ts:51 | a refused read throws; otherwise it returns the entry if there is one |
| Storage.DurableStore.RemoveItem | utils/storage.ts:71 | a refused delete changes nothing; otherwise the key is removed |
| Storage.DurableUsable | utils/storage.ts:50-52 | no contract of its own, being the test `if (localData) return JSON.parse(localData)` that does not throw; Storage.LoadFrom states the decision built on it |
| Storage.LoadFrom | utils/storage.ts:48-66 | a durable value that is non-empty and parses wins; otherwise a non-empty memory entry is parsed, failure giving null; otherwise null |
| Storage.SaveThenLoadWithDurableDenied | utils/storage.ts:38 | with the durable store refusing every call, a load after a save returns the saved state through the memory tier |
| Storage.SaveThenLoadWithDurable | utils/storage.ts:42-52 | with a working durable store, a load after a save returns the saved state |
| Storage.StaleDurableEntryWins | utils/storage.ts:41-52 | when a durable write fails but durable reads work, the older durable entry shadows the newer memory entry |
| Storage.ClearThenLoadWithDurableDenied | utils/storage.ts:68-75 | after a clear, with the durable store refused, a load returns null |
| Storage.RequestStorageAccess | utils/storage.ts:14-32 | false with no document; true with no API; otherwise true exactly when access is already granted or the request resolves |
| Storage.GenerateSaveCode | utils/storage.ts:78-86 | the empty code when stringifying throws, otherwise the encoded JSON |
| Storage.ParseSaveCode | utils/storage.ts:88-96 | null when decoding throws, otherwise the parse of the decoded text |
| Storage.SaveCodeRoundTrip | utils/storage.ts:78-96 | parsing a generated code gives the state back; a failed generation parses to null |
| Storage.GameStorage.constructor | utils/storage.ts:7 | the memory tier starts empty |
| Storage.GameStorage.Save | utils/storage.ts:34-46 | only a throwing stringify escapes, before anything is written; otherwise memory always gets the JSON and the durable store gets it unless its write fails, the failure being swallowed |
| Storage.GameStorage.Load | utils/storage.ts:48-66 | the load gives what the two-tier decision gives for the durable read and the memory entry |
| Storage.GameStorage.Clear | utils/storage.ts:68-75 | the memory entry is always removed; the durable entry is removed unless the call fails, which is swallowed |
| Storage.SaveLoadDenied | utils/storage.ts:34-66 | save then load through the class, with the durable store refusing every call, returns the state |
| Storage.ClearLoadDenied | utils/storage.ts:68-75 | clear then load through the class, with the durable store refusing every call, returns null |
| Guide.BloomingGuide.constructor | components/BloomingGuide.tsx:11 | the bubble starts on page 0 |
| Guide.BloomingGuide.Rerender | components/BloomingGuide.tsx:13 | a new array of lines resets the page to 0; the same array keeps it |
| Guide.BloomingGuide.Next | components/BloomingGuide.tsx:15-18 | the page goes up by one while another line remains; on the last line nothing changes; the page stays on a line |
| Guide.BloomingGuide.Shown | components/BloomingGuide.tsx:23 | the bubble shows the current line, and nothing for an empty array |
| Guide.BloomingGuide.Counter | components/BloomingGuide.tsx:25 | the counter reads page + 1 of the number of lines, is at least 1, and for a non-empty array never exceeds the count |
| Guide.BloomingGuide.ChevronShown | components/BloomingGuide.tsx:26 | the chevron is shown exactly while another line remains |
| Guide.ReadThrough | components/BloomingGuide.tsx:15-26 | clicking through a fresh bubble until the chevron disappears shows every line once, in order, in one click fewer than there are lines |
| Intro.IntroOverlay.constructor | components/IntroOverlay.tsx:10 | the overlay starts on step 0 |
| Intro.IntroSteps | components/IntroOverlay.tsx:12-18 | a constant, the five intro steps in order; Intro.RunIntro states that all five are shown in order |
| Intro.IntroOverlay.Current | components/IntroOverlay.tsx:25 | the step on screen is the one at the current index |
| Intro.IntroOverlay.Next | components/IntroOverlay.tsx:20-23 | below the last step the step goes up by one; completion is reported exactly on the last step, which then stays; the step stays in range |
| Intro.RunIntro | components/IntroOverlay.tsx:12-23 | from a fresh overlay, five clicks are needed: four advances, then completion, with the five texts shown in order |

## Left out

- Rendering: all markup, styling, icons, the chart drawing, the top bar, the bottom navigation and the floor-plan drawing.
- Timing: the delays of the two session effects are not modelled; their state change is applied at once. A pending timer fires even after its cause has gone (closing the modal, a reset); that is not modelled.
- Effect sequencing: the nearby-device effect runs inside every handler that changes the avatar, the devices or the tab. The success-modal and game-clear effects are separate transitions. A caller sequences them after the changes that should trigger them, and the model does not force them to run.
- Session.GameSession.GameClearEffect: applies the clear at once, so it does not capture a clear that lands one second later on a state that has changed meanwhile.
- `alert` after a routine becomes the `announced` result. The menu tab's confirm-then-reset wrapper only calls `resetGame`, which is modelled.
- JSON, Base64 and URI encoding are abstract functions with stated round-trip assumptions. `JSON.stringify` of `undefined`, which returns `undefined` instead of throwing, is not modelled.
- `localStorage` and the Storage Access API are abstract. Their failures come in as parameters; the asynchronous promise of `requestStorageAccess` is its result value.
- Floor-plan clicks: the conversion from screen position to percent is not modelled; the click handler takes the percentages.
- `Math.sqrt` and floating point: coordinates are exact reals, and the distance test compares the squared distance with 225.
- Numbers: power and device values are unbounded integers.
- `index.tsx` (bootstrap and error page) is not part of this model. `types.ts` only gives the shapes in `Types`.
- The menu tab's load action is wired to nothing, so there is no load to model.
- The `console.warn` and `console.error` messages of the store and the save code are logging only and are left out.
- Screen gates of the other handlers: `runRoutine`, `handleDeviceUpdate`, walk-to-device, the device-list card and the energy tab's toggle are modelled as the handlers themselves, callable in any state. The tab on which each button is drawn is not modelled. The connect button, the map click and the next-mission button are gated as drawn.
- Overlay stacking: the intro, control and success overlays cover the map, and that is decided by styling. Session.GameSession.MapClick is gated only by the render conditions of the map itself, not by an overlay in front of it.
- React's development double-run of effects is covered only by `ControlModal.ConnectUpdateIdempotent`.
- Guide.BloomingGuide.Rerender: the reset depends on the identity of the lines array; the model takes "a new array arrived" as an input flag.
- Storage: the saved state's type is a parameter. `App.tsx` imports `clearGameState` but calls no store operation, so nothing connects the store to the session.

## Findings

| source | as written | input that shows it | evidently intended | confidence | as-written member | corrected member |
|---|---|---|---|---|---|---|
| components/DeviceControlModal.tsx:26 | the power click flips `isOn` of the `device` prop. That prop is the selection captured when the modal opened (App.tsx:103, 203), and it is never refreshed. | Open the modal on the seed TV (on) and click power: the TV goes off. Click power again in the same modal: the payload is again `{ isOn: false }`, and the TV stays off. The channel buttons share the flaw (line 31): on the seed TV at channel 5, two channel-up clicks both send `{ value: 6 }` (ControlModal.SnapshotChannelTwiceKeepsFirst). | each click flips the device as it is now | not executed | ControlModal.SnapshotToggleTwiceKeepsFirst | ControlModal.LiveToggleTwiceRestores |
