/** The seed devices, the routine list and the three scripted missions. */
module Constants {
  import opened Wrappers
  import opened Types
  import opened DeviceList

  /** The deliberately wasteful starting household: every device on, none connected. */
  const InitialDevices: seq<Device> := [
    Device("tv-1", "거실 TV", Tv, "Living Room", true, false, 150, Some(Num(5)), Some("On"), 25.0, 30.0),
    Device("ac-1", "침실 에어컨", Ac, "Bedroom", true, false, 1200, Some(Num(18)), Some("Cooling"), 75.0, 30.0),
    Device("light-1", "거실 조명", Light, "Living Room", true, false, 60, Some(Num(100)), Some("On"), 40.0, 40.0),
    Device("airfryer-1", "에어프라이어", AirFryer, "Kitchen", true, false, 1800, Some(Num(200)), Some("Cooking"), 25.0, 75.0),
    Device("fridge-1", "비스포크 냉장고", Refrigerator, "Kitchen", true, false, 100, Some(Num(3)), Some("Cooling"), 15.0, 65.0),
    Device("washer-1", "세탁기", Washer, "Utility", true, false, 500, Some(Num(0)), Some("Finished"), 80.0, 80.0)
  ]

  const Routines: seq<Routine> := [
    Routine("routine-1", "절전 모드", "leaf", "사용하지 않는 모든 기기의 전원을 끄고 대기전력을 차단합니다."),
    Routine("routine-2", "외출 모드", "door-open", "조명을 끄고 에어컨을 송풍 모드로 변경합니다."),
    Routine("routine-3", "취침 모드", "moon", "모든 조명과 TV를 끄고 에어컨을 쾌적 수면 온도로 맞춥니다."),
    Routine("routine-4", "영화 모드", "clapperboard", "TV를 켜고 조명을 어둡게 조절하여 분위기를 만듭니다.")
  ]

  /** The shared shape of missions 1 and 2: the target is present, connected and switched off. */
  predicate ConnectedAndOff(ds: seq<Device>, target: string) {
    match Find(ds, target)
    case Some(d) => d.isConnected && !d.isOn
    case None => false
  }

  const Missions: seq<Mission> := [
    Mission(1, "SmartThings 연결", "거실 TV 가까이 이동해서 기기를 찾고, SmartThings에 연결하세요.", "거실",
      Some("tv-1"), Control,
      (ds: seq<Device>) => ConnectedAndOff(ds, "tv-1"),
      ["큰일 났어! 이번 달 전기 요금이 엄청나게 나올 것 같아. 💸",
       "일단 거실 TV 쪽으로 가볼래?",
       "가까이 가서 TV를 누르고 SmartThings에 연결해서 끄면 돼!"]),
    Mission(2, "전력 소비 주범 찾기", "전기를 많이 쓰는 에어프라이어 앞으로 가서 연결하고 전원을 차단하세요.", "주방",
      Some("airfryer-1"), Control,
      (ds: seq<Device>) => ConnectedAndOff(ds, "airfryer-1"),
      ["앗, 주방에 에어프라이어가 계속 켜져 있네! 😱",
       "주방으로 가서 기기를 한 번 눌러봐.",
       "얼른 연결해서 전원을 꺼야 해."]),
    Mission(3, "에너지 모니터링 및 달성",
      "남은 기기들도 가까이 가서 연결하세요. \"라이프\" 탭에서 에너지 사용량이 초록색 구간에 도달하면 성공입니다!",
      "라이프 탭", None, LifeCheck,
      (ds: seq<Device>) => false,
      ["아직 집안에 연결 안 된 기기들이 더 있어.",
       "다른 방들도 돌아다니면서 다 찾아보자.",
       "불필요한 전기를 끄고 사용량을 초록색 구간까지 줄이면 성공이야!"])
  ]

  /** Six seed devices with distinct ids, all on and none connected, drawing 3810 W in all. */
  lemma SeedDevices()
    ensures |InitialDevices| == 6
    ensures UniqueIds(InitialDevices) && NonNegativePower(InitialDevices)
    ensures forall i :: 0 <= i < |InitialDevices| ==> InitialDevices[i].isOn && !InitialDevices[i].isConnected
    ensures TotalPower(InitialDevices) == 3810
  {
    var s := InitialDevices;
    assert s[..1][..0] == [];
    assert TotalPower(s[..1]) == 150;
    assert s[..2][..1] == s[..1];
    assert TotalPower(s[..2]) == 1350;
    assert s[..3][..2] == s[..2];
    assert TotalPower(s[..3]) == 1410;
    assert s[..4][..3] == s[..3];
    assert TotalPower(s[..4]) == 3210;
    assert s[..5][..4] == s[..4];
    assert TotalPower(s[..5]) == 3310;
    assert s[..5] == s[..|s| - 1];
  }

  /** Each routine with an id in the list; only the first two have a body in the session. */
  lemma RoutineIds()
    ensures |Routines| == 4
    ensures forall i :: 0 <= i < 4 ==> Routines[i].id == ["routine-1", "routine-2", "routine-3", "routine-4"][i]
  {
  }

  /** Missions 1, 2, 3 in order, three guide lines each, with the last one the energy check. */
  lemma MissionShape()
    ensures |Missions| == 3
    ensures forall i :: 0 <= i < 3 ==> Missions[i].id == i + 1 && |Missions[i].guideText| == 3
    ensures Missions[0].targetDeviceId == Some("tv-1") && Missions[1].targetDeviceId == Some("airfryer-1")
    ensures Missions[2].targetDeviceId == None && Missions[2].requiredAction == LifeCheck
    ensures Missions[0].requiredAction == Control && Missions[1].requiredAction == Control
  {
  }

  /**
   * Mission 1 (m == 0) and mission 2 (m == 1) succeed exactly when their
   * target device is present, connected and off; with unique ids that is
   * the one device carrying the id.
   */
  lemma ControlMissionSuccess(ds: seq<Device>, m: nat)
    requires m < 2 && UniqueIds(ds)
    ensures var target := if m == 0 then "tv-1" else "airfryer-1";
      Missions[m].successCondition(ds) <==>
        exists k :: 0 <= k < |ds| && ds[k].id == target && ds[k].isConnected && !ds[k].isOn
  {
    var target := if m == 0 then "tv-1" else "airfryer-1";
    assert Missions[m].successCondition(ds) == ConnectedAndOff(ds, target);
    match FindIndex(ds, target)
    case None =>
    case Some(k) =>
      assert Find(ds, target) == Some(ds[k]);
      forall j | 0 <= j < |ds| && ds[j].id == target
        ensures j == k
      {
        if j < k || k < j {
          assert false;
        }
      }
  }

  /** Mission 3's own predicate never holds: completion comes only from the power guard. */
  lemma EnergyMissionPredicateFalse(ds: seq<Device>)
    ensures !Missions[2].successCondition(ds)
  {
  }

  /**
   * Each mission predicate looks only at its target: updating any other id,
   * without renaming a device to the target, keeps its value.
   */
  lemma MissionPredicateIsLocal(ds: seq<Device>, m: nat, id: string, u: DeviceUpdate)
    requires m < |Missions|
    requires Missions[m].targetDeviceId.Some? ==> id != Missions[m].targetDeviceId.value && u.id != Missions[m].targetDeviceId
    ensures Missions[m].successCondition(UpdateById(ds, id, u)) == Missions[m].successCondition(ds)
  {
    if m < 2 {
      var target := if m == 0 then "tv-1" else "airfryer-1";
      FindUnderOtherUpdate(ds, target, id, u);
      assert Missions[m].successCondition(ds) == ConnectedAndOff(ds, target);
      assert Missions[m].successCondition(UpdateById(ds, id, u)) == ConnectedAndOff(UpdateById(ds, id, u), target);
    }
  }

  /**
   * Connecting and switching off the seed TV in one update makes mission 1
   * succeed and lowers the total by exactly the TV's 150 W.
   */
  lemma SeedTvScenario()
    ensures var ds := UpdateById(InitialDevices, "tv-1", NoFields.(isConnected := Some(true), isOn := Some(false)));
      Missions[0].successCondition(ds) && TotalPower(ds) == TotalPower(InitialDevices) - 150
  {
    SeedDevices();
    var u := NoFields.(isConnected := Some(true), isOn := Some(false));
    var ds := UpdateById(InitialDevices, "tv-1", u);
    TotalPowerAfterUpdate(InitialDevices, "tv-1", u, 0);
    ControlMissionSuccess(ds, 0);
    UpdateKeepsIds(InitialDevices, "tv-1", u);
    assert ds[0].id == "tv-1" && ds[0].isConnected && !ds[0].isOn;
  }
}
