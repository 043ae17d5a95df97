/** The records the dashboard passes around (src/types/vehicle.ts and the
    interfaces at the top of src/utils/calculations.ts). Every number of the
    source is a JavaScript number; here counts and distances are `real`,
    values the source produces with `Math.round`/`Math.floor` are `int`. */
module Vehicle {

  /** The eleven risky-driving behaviours, in the order of the weight table
      (calculations.ts lines 32-44), which is also the order of the
      per-vehicle behaviour lists. */
  datatype Behavior =
    | HardAcceleration   // 급가속
    | HardLaunch         // 급출발
    | HardDeceleration   // 급감속
    | HardBraking        // 급정지
    | Speeding           // 과속
    | ProlongedSpeeding  // 장기과속
    | HardLeftTurn       // 급좌회전
    | HardRightTurn      // 급우회전
    | HardUTurn          // 급유턴
    | HardOvertake       // 급앞지르기
    | HardLaneChange     // 급진로변경
  {
    /** The name the source uses for the behaviour as a key and a label. */
    function Label(): string {
      match this
      case HardAcceleration => "급가속"
      case HardLaunch => "급출발"
      case HardDeceleration => "급감속"
      case HardBraking => "급정지"
      case Speeding => "과속"
      case ProlongedSpeeding => "장기과속"
      case HardLeftTurn => "급좌회전"
      case HardRightTurn => "급우회전"
      case HardUTurn => "급유턴"
      case HardOvertake => "급앞지르기"
      case HardLaneChange => "급진로변경"
    }
  }

  /** All behaviours in weight-table order. */
  const Behaviors: seq<Behavior> :=
    [HardAcceleration, HardLaunch, HardDeceleration, HardBraking, Speeding,
     ProlongedSpeeding, HardLeftTurn, HardRightTurn, HardUTurn, HardOvertake,
     HardLaneChange]

  /** The position of a behaviour in `Behaviors`. */
  function Position(b: Behavior): (i: nat)
    ensures i < |Behaviors| && Behaviors[i] == b
  {
    match b
    case HardAcceleration => 0
    case HardLaunch => 1
    case HardDeceleration => 2
    case HardBraking => 3
    case Speeding => 4
    case ProlongedSpeeding => 5
    case HardLeftTurn => 6
    case HardRightTurn => 7
    case HardUTurn => 8
    case HardOvertake => 9
    case HardLaneChange => 10
  }

  /** `Position` undoes indexing into `Behaviors`. */
  lemma PositionOfIndex(j: nat)
    requires j < |Behaviors|
    ensures Position(Behaviors[j]) == j
  {
    if j == 0 {} else if j == 1 {} else if j == 2 {} else if j == 3 {}
    else if j == 4 {} else if j == 5 {} else if j == 6 {} else if j == 7 {}
    else if j == 8 {} else if j == 9 {} else {}
  }

  /** One uploaded row (VehicleData): identifier, distance, the informational
      event total and the eleven per-100 km behaviour counts. */
  datatype VehicleData = VehicleData(
    index: int,              // 인덱스
    plate: string,           // 차량번호
    totalDistance: real,     // 총운행거리 (km)
    eventTotal: real,        // 합계
    speeding: real,          // 과속
    prolongedSpeeding: real, // 장기과속
    hardAcceleration: real,  // 급가속
    hardLaunch: real,        // 급출발
    hardDeceleration: real,  // 급감속
    hardBraking: real,       // 급정지
    hardLeftTurn: real,      // 급좌회전
    hardRightTurn: real,     // 급우회전
    hardUTurn: real,         // 급유턴
    hardOvertake: real,      // 급앞지르기
    hardLaneChange: real     // 급진로변경
  )

  /** The count field of `v` for behaviour `b`. */
  function Count(v: VehicleData, b: Behavior): real {
    match b
    case HardAcceleration => v.hardAcceleration
    case HardLaunch => v.hardLaunch
    case HardDeceleration => v.hardDeceleration
    case HardBraking => v.hardBraking
    case Speeding => v.speeding
    case ProlongedSpeeding => v.prolongedSpeeding
    case HardLeftTurn => v.hardLeftTurn
    case HardRightTurn => v.hardRightTurn
    case HardUTurn => v.hardUTurn
    case HardOvertake => v.hardOvertake
    case HardLaneChange => v.hardLaneChange
  }

  /** No count is negative. */
  predicate NonNegativeCounts(v: VehicleData) {
    && v.speeding >= 0.0 && v.prolongedSpeeding >= 0.0
    && v.hardAcceleration >= 0.0 && v.hardLaunch >= 0.0
    && v.hardDeceleration >= 0.0 && v.hardBraking >= 0.0
    && v.hardLeftTurn >= 0.0 && v.hardRightTurn >= 0.0
    && v.hardUTurn >= 0.0 && v.hardOvertake >= 0.0 && v.hardLaneChange >= 0.0
  }

  /** The three tiers with their fixed display data (calculations.ts 46-52, 97-121). */
  datatype SafetyGrade = Danger | Warning | Safe {
    function Label(): string {
      match this case Danger => "위험" case Warning => "주의" case Safe => "양호"
    }
    function Emoji(): string {
      match this case Danger => "\U{1F534}" case Warning => "\U{1F7E1}" case Safe => "\U{1F7E2}"
    }
    function Color(): string {
      match this case Danger => "#EF4444" case Warning => "#FBBF24" case Safe => "#10B981"
    }
    function Message(): string {
      match this case Danger => "즉시 개선 필요" case Warning => "개선 권장" case Safe => "안전 운전 중"
    }
    /** Severity order of the tiers. */
    function Severity(): nat {
      match this case Safe => 0 case Warning => 1 case Danger => 2
    }
  }

  /** A VehicleData extended with its computed results (`...vehicle` plus
      seven fields); `data` is the spread record, kept unchanged. */
  datatype VehicleAnalysis = VehicleAnalysis(
    data: VehicleData,
    grade: SafetyGrade,        // 안전등급
    saving: int,               // 절감가능금액 (won)
    co2: int,                  // CO2절감량 (kg)
    riskScore: int,            // 위험도점수
    trees: int,                // 나무그루수
    improvement: real,         // 연비개선율 (%)
    currentEfficiency: real    // 현재연비 (km/L)
  )

  /** The fleet summary (Insights). */
  datatype Insights = Insights(
    top3: seq<VehicleAnalysis>,
    mostFrequent: seq<(Behavior, real)>,  // 가장많은행동
    top5Saving: int,                      // top5절감
    totalSaving: int,                     // 총절감액
    totalCO2: int,                        // 총CO2
    dangerCount: nat,                     // 위험차량수
    warningCount: nat,                    // 주의차량수
    totalCount: nat,                      // 전체차량수
    averageImprovement: real,             // 평균연비개선율
    averageEfficiency: real               // 평균현재연비
  )
}
