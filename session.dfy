/**
 * The game session: the device list, mission progress, avatar, game-clear
 * flag, active tab and the overlay flags, changed step by step by the
 * handlers and effects of the top-level component.
 */
module Session {
  import opened Wrappers
  import opened Types
  import opened DeviceList
  import opened Constants
  import opened Movement
  import opened Proximity

  /** The household power level the last mission asks for. */
  const SafePowerThreshold := 300

  /** Where a new game and a reset put the avatar, and where the next mission does. */
  const StartPosition := Position(50.0, 80.0)
  const MissionStartPosition := Position(50.0, 50.0)

  /** Every piece of session state, as one value. */
  datatype SessionState = SessionState(
    activeTab: Tab,
    devices: seq<Device>,
    missionIndex: nat,
    selectedDevice: Option<Device>,
    showSuccessModal: bool,
    showIntro: bool,
    isGameClear: bool,
    avatar: Position,
    nearbyDevice: Option<Device>)

  /** The state of a fresh game. */
  const InitialState := SessionState(Home, InitialDevices, 0, None, false, true, false, StartPosition, None)

  /** `ROUTINES.find(r => r.id === routineId)` */
  function RoutineNamed(routineId: string): (r: Option<Routine>)
    ensures r.Some? <==> routineId in {"routine-1", "routine-2", "routine-3", "routine-4"}
    ensures r.Some? ==> r.value in Routines && r.value.id == routineId
  {
    if routineId == Routines[0].id then Some(Routines[0])
    else if routineId == Routines[1].id then Some(Routines[1])
    else if routineId == Routines[2].id then Some(Routines[2])
    else if routineId == Routines[3].id then Some(Routines[3])
    else None
  }

  /**
   * The device list after `runRoutine`: only the first two routines have a
   * body; the other listed routines and unknown ids change nothing.
   */
  function ApplyRoutine(ds: seq<Device>, routineId: string): (r: seq<Device>)
    ensures routineId == "routine-1" ==> r == PowerSavingMode(ds)
    ensures routineId == "routine-2" ==> r == AwayMode(ds)
    ensures routineId != "routine-1" && routineId != "routine-2" ==> r == ds
  {
    if RoutineNamed(routineId).None? then ds
    else if routineId == "routine-1" then PowerSavingMode(ds)
    else if routineId == "routine-2" then AwayMode(ds)
    else ds
  }

  /** Power saving on the seed household leaves only the 100 W refrigerator, under the threshold. */
  lemma SeedPowerSaving()
    ensures TotalPower(ApplyRoutine(InitialDevices, "routine-1")) == 100 <= SafePowerThreshold
  {
    PowerSavingLeavesOnlyRefrigerators(InitialDevices);
    var f := Refrigerators(InitialDevices);
    assert f == [InitialDevices[4]] by {
      var s := InitialDevices;
      assert s[1..][1..][1..][1..][1..][1..] == [];
    }
    assert [InitialDevices[4]][..0] == [];
  }

  /** The arrow keys are ignored off the map tab, behind an overlay or a modal, and after the game is won. */
  predicate KeyboardEnabled(st: SessionState) {
    st.activeTab == Home && !st.showIntro && st.selectedDevice.None? && !st.showSuccessModal && !st.isGameClear
  }

  /** The guard of the game-clear effect. */
  predicate GameClearRequested(st: SessionState) {
    !st.isGameClear && !st.showIntro && TotalPower(st.devices) <= SafePowerThreshold && st.missionIndex >= 2
  }

  /** The guard of the success-modal effect: the current mission's predicate holds and the game is not won. */
  predicate SuccessModalRequested(st: SessionState)
    requires st.missionIndex < |Missions|
  {
    !st.isGameClear && Missions[st.missionIndex].successCondition(st.devices)
  }

  /**
   * The game can be won only on the last mission, the energy check, with
   * the household at or below the threshold; the seed household, at
   * 3810 W, can never be.
   */
  lemma GameClearOnlyOnEnergyMission(st: SessionState)
    requires st.missionIndex < |Missions|
    ensures GameClearRequested(st) ==>
      st.missionIndex == |Missions| - 1 && Missions[st.missionIndex].requiredAction == LifeCheck
      && TotalPower(st.devices) <= 300
    ensures st.devices == InitialDevices ==> !GameClearRequested(st)
  {
    SeedDevices();
  }

  /** The success modal never opens on the energy mission: its own predicate is constantly false. */
  lemma NoSuccessModalOnEnergyMission(st: SessionState)
    requires st.missionIndex == |Missions| - 1
    ensures !SuccessModalRequested(st)
  {
    EnergyMissionPredicateFalse(st.devices);
  }

  /** The connect button is drawn: map tab, a device nearby, no modal or overlay open, game not won. */
  predicate ConnectButtonShown(st: SessionState) {
    st.activeTab == Home && st.nearbyDevice.Some? && st.selectedDevice.None?
    && !st.showSuccessModal && !st.showIntro && !st.isGameClear
  }

  /** The floor plan is drawn: the map tab of a game not yet won. */
  predicate MapShown(st: SessionState) {
    !st.isGameClear && st.activeTab == Home
  }

  /** The success modal, the only place with a next-mission button, is drawn. */
  predicate SuccessModalShown(st: SessionState) {
    st.showSuccessModal && !st.isGameClear
  }

  /**
   * The nearby device is up to date: on the map tab it is the device the
   * nearby-device effect would find for the current avatar position and
   * device list, and none when nothing is in range. Off the map tab the
   * effect does not run and the last value stays.
   */
  ghost predicate NearbyFresh(st: SessionState) {
    st.activeTab == Home ==>
      && (st.nearbyDevice.None? <==> forall i :: 0 <= i < |st.devices| ==> !InRange(st.devices[i], st.avatar))
      && (st.nearbyDevice.Some? ==> exists k: nat :: IsNearest(st.devices, st.avatar, k) && st.nearbyDevice.value == st.devices[k])
  }

  /** On the map tab freshness leaves one possible nearby device, and that one is in range. */
  lemma NearbyFreshDetermines(st: SessionState, n: Option<Device>)
    requires st.activeTab == Home && NearbyFresh(st) && NearbyFresh(st.(nearbyDevice := n))
    ensures n == st.nearbyDevice
    ensures n.Some? ==> InRange(n.value, st.avatar)
  {
    if n.Some? && st.nearbyDevice.Some? {
      var k1: nat :| IsNearest(st.devices, st.avatar, k1) && st.nearbyDevice.value == st.devices[k1];
      var k2: nat :| IsNearest(st.devices, st.avatar, k2) && n.value == st.devices[k2];
      NearestIsUnique(st.devices, st.avatar, k1, k2);
    }
  }

  /** Nothing is in range of the start position, so a fresh game and a reset begin with no nearby device. */
  lemma InitialNothingNearby()
    ensures NearbyFresh(InitialState)
    ensures forall i :: 0 <= i < |InitialDevices| ==> !InRange(InitialDevices[i], StartPosition)
  {
    SeedDevices();
  }

  /** The success-modal effect as a transition (its delay collapsed). */
  function SuccessModalState(st: SessionState): (r: SessionState)
    requires st.missionIndex < |Missions|
    ensures r.showSuccessModal <==> st.showSuccessModal || SuccessModalRequested(st)
    ensures r.(showSuccessModal := st.showSuccessModal) == st
  {
    st.(showSuccessModal := st.showSuccessModal || SuccessModalRequested(st))
  }

  /**
   * The next-mission button as a transition: with the success modal drawn
   * it closes the modal and, below the last mission, advances to the next
   * one on the map tab at the mission start; without the modal there is no
   * button and nothing happens.
   */
  function NextMissionState(st: SessionState): (r: SessionState)
    ensures !SuccessModalShown(st) ==> r == st
    ensures r.missionIndex != st.missionIndex ==> SuccessModalShown(st) && r.missionIndex == st.missionIndex + 1
    ensures st.missionIndex < |Missions| ==> r.missionIndex < |Missions|
    ensures SuccessModalShown(st) && st.missionIndex < |Missions| - 1 ==>
      r == st.(showSuccessModal := false, missionIndex := st.missionIndex + 1, activeTab := Home, avatar := MissionStartPosition)
    ensures SuccessModalShown(st) && st.missionIndex >= |Missions| - 1 ==> r == st.(showSuccessModal := false)
  {
    if !SuccessModalShown(st) then st
    else if st.missionIndex < |Missions| - 1 then
      st.(showSuccessModal := false, missionIndex := st.missionIndex + 1, activeTab := Home, avatar := MissionStartPosition)
    else st.(showSuccessModal := false)
  }

  /**
   * Starting with the success modal closed, a mission is left only after its
   * own predicate held, never on the last mission: the success effect must
   * have opened the modal that carries the button.
   */
  lemma AdvanceNeedsMissionSuccess(st: SessionState)
    requires st.missionIndex < |Missions| && !st.showSuccessModal
    ensures NextMissionState(SuccessModalState(st)).missionIndex != st.missionIndex ==>
      !st.isGameClear && Missions[st.missionIndex].successCondition(st.devices) && st.missionIndex < |Missions| - 1
  {
    var st1 := SuccessModalState(st);
    if NextMissionState(st1).missionIndex != st.missionIndex {
      assert SuccessModalShown(st1);
      assert SuccessModalRequested(st);
      if st.missionIndex == |Missions| - 1 {
        NoSuccessModalOnEnergyMission(st);
        assert false;
      }
    }
  }

  class GameSession {
    var activeTab: Tab
    var devices: seq<Device>
    var missionIndex: nat
    var selectedDevice: Option<Device>
    var showSuccessModal: bool
    var showIntro: bool
    var isGameClear: bool
    var avatar: Position
    var nearbyDevice: Option<Device>

    /** The mission index always names a mission, and the nearby device is up to date. */
    ghost predicate Valid()
      reads this
    {
      missionIndex < |Missions| && NearbyFresh(State())
    }

    function State(): SessionState
      reads this
    {
      SessionState(activeTab, devices, missionIndex, selectedDevice, showSuccessModal, showIntro, isGameClear, avatar, nearbyDevice)
    }

    /** The initial `useState` values. */
    constructor()
      ensures Valid() && State() == InitialState
    {
      activeTab, devices, missionIndex := Home, InitialDevices, 0;
      selectedDevice, showSuccessModal, showIntro, isGameClear := None, false, true, false;
      avatar, nearbyDevice := StartPosition, None;
      InitialNothingNearby();
    }

    /** `totalPower`, recomputed from the device list on every read. */
    function CurrentTotalPower(): (w: int)
      reads this
      ensures w == SumOfPower(OnDevices(devices))
    {
      TotalPowerIsSumOfOnDevices(devices);
      TotalPower(devices)
    }

    /** The intro overlay reports completion. */
    method IntroComplete()
      requires Valid()
      modifies this
      ensures Valid() && State() == old(State()).(showIntro := false)
    {
      showIntro := false;
    }

    /** A bottom-navigation tab is chosen. */
    method SelectTab(t: Tab)
      requires Valid()
      modifies this
      ensures Valid() && State() == old(State()).(activeTab := t, nearbyDevice := nearbyDevice)
      ensures t != Home ==> nearbyDevice == old(nearbyDevice)
    {
      activeTab := t;
      NearbyEffect();
    }

    /** The key-down handler. */
    method KeyDown(key: string)
      requires Valid()
      modifies this
      ensures Valid()
      ensures State() == old(State()).(avatar := if KeyboardEnabled(old(State())) then StepAvatar(old(avatar), key) else old(avatar),
                                       nearbyDevice := nearbyDevice)
      ensures !KeyboardEnabled(old(State())) || !IsArrow(key) ==> avatar == old(avatar)
      ensures KeyboardEnabled(old(State())) && IsArrow(key) ==> InBounds(avatar)
    {
      if !KeyboardEnabled(State()) {
        return;
      }
      avatar := StepAvatar(avatar, key);
      NearbyEffect();
    }

    /** The game-clear effect (its one-second delay is not modelled). */
    method GameClearEffect()
      requires Valid()
      modifies this
      ensures Valid()
      ensures State() == old(State()).(isGameClear := old(isGameClear) || GameClearRequested(old(State())))
      ensures isGameClear && !old(isGameClear) ==> missionIndex == |Missions| - 1 && TotalPower(devices) <= SafePowerThreshold
    {
      if GameClearRequested(State()) {
        isGameClear := true;
      }
    }

    /** The success-modal effect (its half-second delay is not modelled). */
    method SuccessModalEffect()
      requires Valid()
      modifies this
      ensures Valid()
      ensures State() == SuccessModalState(old(State()))
      ensures showSuccessModal <==> old(showSuccessModal) || SuccessModalRequested(old(State()))
    {
      if SuccessModalRequested(State()) {
        showSuccessModal := true;
      }
    }

    /**
     * The nearby-device effect: recomputed only while the map tab is showing.
     * Every handler that changes the avatar, the device list or the tab runs
     * it before returning, as React runs the effect after those changes.
     */
    method NearbyEffect()
      requires missionIndex < |Missions|
      modifies this
      ensures Valid()
      ensures State() == old(State()).(nearbyDevice := nearbyDevice)
      ensures activeTab != Home ==> nearbyDevice == old(nearbyDevice)
      ensures activeTab == Home ==>
        (nearbyDevice.None? <==> forall i :: 0 <= i < |devices| ==> !InRange(devices[i], avatar))
      ensures activeTab == Home && nearbyDevice.Some? ==>
        exists k: nat :: IsNearest(devices, avatar, k) && nearbyDevice.value == devices[k]
    {
      if activeTab != Home {
        return;
      }
      var found;
      ghost var at;
      found, at := FindNearest(devices, avatar);
      nearbyDevice := found;
    }

    /** `handleDeviceUpdate` */
    method UpdateDevice(id: string, u: DeviceUpdate)
      requires Valid()
      modifies this
      ensures Valid() && State() == old(State()).(devices := UpdateById(old(devices), id, u), nearbyDevice := nearbyDevice)
    {
      devices := UpdateById(devices, id, u);
      NearbyEffect();
    }

    /** A click on the drawn map moves the avatar there, unclamped; with no map drawn there is nothing to click. */
    method MapClick(x: real, y: real)
      requires Valid()
      modifies this
      ensures Valid()
      ensures State() == if MapShown(old(State())) then old(State()).(avatar := Position(x, y), nearbyDevice := nearbyDevice)
                         else old(State())
    {
      if MapShown(State()) {
        avatar := Position(x, y);
        NearbyEffect();
      }
    }

    /** `handleWalkToDevice`: stand just below the device. */
    method WalkToDevice(d: Device)
      requires Valid()
      modifies this
      ensures Valid() && State() == old(State()).(avatar := Position(d.x, d.y + 5.0), nearbyDevice := nearbyDevice)
    {
      avatar := Position(d.x, d.y + 5.0);
      NearbyEffect();
    }

    /** A device card on the device-list tab: back to the map, next to the device. */
    method DeviceListClick(d: Device)
      requires Valid()
      modifies this
      ensures Valid() && State() == old(State()).(activeTab := Home, avatar := Position(d.x, d.y + 5.0), nearbyDevice := nearbyDevice)
    {
      activeTab := Home;
      avatar := Position(d.x, d.y + 5.0);
      NearbyEffect();
    }

    /** The energy tab's off button: `handleDeviceUpdate(id, { isOn })`. */
    method LifeToggle(id: string, isOn: bool)
      requires Valid()
      modifies this
      ensures Valid() && State() == old(State()).(devices := UpdateById(old(devices), id, SetOn(isOn)), nearbyDevice := nearbyDevice)
    {
      UpdateDevice(id, SetOn(isOn));
    }

    /**
     * A click on the connect button, which is drawn only on the map tab with a
     * device nearby and nothing else open: `handleConnectClick` opens the
     * control modal on the nearby device. Without the button nothing happens.
     */
    method ConnectClick()
      requires Valid()
      modifies this
      ensures Valid()
      ensures State() == if ConnectButtonShown(old(State())) then old(State()).(selectedDevice := old(nearbyDevice)) else old(State())
      ensures selectedDevice.Some? && old(selectedDevice).None? ==> old(activeTab) == Home && selectedDevice == old(nearbyDevice)
      ensures selectedDevice.Some? && old(selectedDevice).None? ==>
        InRange(selectedDevice.value, avatar)
        && exists k: nat :: IsNearest(devices, avatar, k) && selectedDevice.value == devices[k]
    {
      if ConnectButtonShown(State()) {
        selectedDevice := nearbyDevice;
      }
    }

    /** The control modal's close button. */
    method CloseModal()
      requires Valid()
      modifies this
      ensures Valid() && State() == old(State()).(selectedDevice := None)
    {
      selectedDevice := None;
    }

    /** `runRoutine`; `announced` says whether the routine was found and its alert shown. */
    method RunRoutine(routineId: string) returns (announced: bool)
      requires Valid()
      modifies this
      ensures Valid() && State() == old(State()).(devices := ApplyRoutine(old(devices), routineId), nearbyDevice := nearbyDevice)
      ensures announced <==> RoutineNamed(routineId).Some?
    {
      var routine := RoutineNamed(routineId);
      if routine.None? {
        return false;
      }
      if routineId == "routine-1" {
        devices := PowerSavingMode(devices);
      } else if routineId == "routine-2" {
        devices := AwayMode(devices);
      }
      NearbyEffect();
      announced := true;
    }

    /**
     * The success modal's next-mission button (`nextMission`). The button
     * exists only while the success modal is drawn; then it closes the modal
     * and advances, below the last mission, to the next one.
     */
    method NextMission()
      requires Valid()
      modifies this
      ensures Valid()
      ensures State() == NextMissionState(old(State())).(nearbyDevice := nearbyDevice)
      ensures missionIndex != old(missionIndex) ==> old(SuccessModalShown(State())) && missionIndex == old(missionIndex) + 1
    {
      if !SuccessModalShown(State()) {
        return;
      }
      showSuccessModal := false;
      if missionIndex < |Missions| - 1 {
        missionIndex := missionIndex + 1;
        activeTab := Home;
        avatar := MissionStartPosition;
        NearbyEffect();
      }
    }

    /** `resetGame`: a fresh copy of the seed state, with the intro showing again. */
    method ResetGame()
      requires Valid()
      modifies this
      ensures Valid() && State() == InitialState
    {
      devices := InitialDevices;
      missionIndex := 0;
      activeTab := Home;
      avatar := StartPosition;
      isGameClear := false;
      showSuccessModal := false;
      selectedDevice := None;
      showIntro := true;
      nearbyDevice := None;
      InitialNothingNearby();
    }
  }

  /** The first mission's device list, then the second's: the control modal's two updates on each target. */
  function ConnectAndSwitchOff(ds: seq<Device>, id: string): seq<Device> {
    UpdateById(UpdateById(ds, id, SetConnected(true)), id, SetOn(false))
  }

  /** With distinct ids, the two updates replace the one device with the id by its connected, switched-off self. */
  lemma ConnectAndSwitchOffReplaces(ds: seq<Device>, id: string, k: nat)
    requires UniqueIds(ds) && k < |ds| && ds[k].id == id
    ensures ConnectAndSwitchOff(ds, id) == ds[k := ds[k].(isConnected := true, isOn := false)]
    ensures UniqueIds(ConnectAndSwitchOff(ds, id))
  {
    var a := UpdateById(ds, id, SetConnected(true));
    UpdateUniqueIsReplace(ds, id, SetConnected(true), k);
    UpdateKeepsIds(ds, id, SetConnected(true));
    UpdateUniqueIsReplace(a, id, SetOn(false), k);
    UpdateKeepsIds(a, id, SetOn(false));
  }

  /** Power saving after both missions leaves the seed refrigerator's 100 W. */
  lemma SeedPowerSavingAfterMissions(ds2: seq<Device>)
    requires ds2 == InitialDevices[0 := InitialDevices[0].(isConnected := true, isOn := false)]
                    [3 := InitialDevices[3].(isConnected := true, isOn := false)]
    ensures TotalPower(ApplyRoutine(ds2, "routine-1")) == 100
  {
    SeedPowerSaving();
    TotalPowerPointwise(PowerSavingMode(ds2), PowerSavingMode(InitialDevices));
  }

  /**
   * On the seed household: connecting and switching off the TV completes
   * mission 1 (the air fryer's mission is not yet met); doing the same to
   * the air fryer completes mission 2; power saving then leaves 100 W.
   */
  lemma SeedPlaythrough()
    ensures var ds1 := ConnectAndSwitchOff(InitialDevices, "tv-1");
      var ds2 := ConnectAndSwitchOff(ds1, "airfryer-1");
      && Missions[0].successCondition(ds1) && !Missions[1].successCondition(ds1)
      && Missions[1].successCondition(ds2)
      && TotalPower(ApplyRoutine(ds2, "routine-1")) == 100
  {
    SeedDevices();
    var s := InitialDevices;
    ConnectAndSwitchOffReplaces(s, "tv-1", 0);
    var ds1 := ConnectAndSwitchOff(s, "tv-1");
    ConnectAndSwitchOffReplaces(ds1, "airfryer-1", 3);
    var ds2 := ConnectAndSwitchOff(ds1, "airfryer-1");
    ControlMissionSuccess(ds1, 0);
    assert ds1[0].id == "tv-1" && ds1[0].isConnected && !ds1[0].isOn;
    ControlMissionSuccess(ds1, 1);
    assert ds1[3].id == "airfryer-1" && !ds1[3].isConnected;
    ControlMissionSuccess(ds2, 1);
    assert ds2[3].id == "airfryer-1" && ds2[3].isConnected && !ds2[3].isOn;
    SeedPowerSavingAfterMissions(ds2);
  }

  /**
   * A fresh game, played through: finish the intro; connect and switch off
   * the TV, see the success modal and move on; do the same with the air
   * fryer; run power saving. The game-clear effect then fires at 100 W on
   * the last mission.
   */
  method PlayToGameClear() returns (won: bool, watts: int, mission: nat)
    ensures won && watts == 100 && mission == |Missions| - 1
  {
    SeedPlaythrough();
    var g := new GameSession();
    g.IntroComplete();
    g.UpdateDevice("tv-1", SetConnected(true));
    g.UpdateDevice("tv-1", SetOn(false));
    g.SuccessModalEffect();
    g.NextMission();
    g.UpdateDevice("airfryer-1", SetConnected(true));
    g.UpdateDevice("airfryer-1", SetOn(false));
    g.SuccessModalEffect();
    g.NextMission();
    var _ := g.RunRoutine("routine-1");
    g.GameClearEffect();
    won, watts, mission := g.isGameClear, g.CurrentTotalPower(), g.missionIndex;
  }
}
