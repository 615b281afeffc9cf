/**
 * `SecureLocalLLM._assess_severity`: the severity band of a pollution
 * report, read from its AQI on a fixed threshold ladder.
 */
module Severity {
  import opened Basics

  datatype Level = Satisfactory | Moderate | Poor | VeryPoor | Severe {
    /** The label the service reports. */
    function Label(): string {
      match this
      case Satisfactory => "SATISFACTORY"
      case Moderate => "MODERATE"
      case Poor => "POOR"
      case VeryPoor => "VERY_POOR"
      case Severe => "SEVERE"
    }

    /** Position on the ladder, from 0 (satisfactory) to 4 (severe). */
    function Rank(): nat {
      match this
      case Satisfactory => 0
      case Moderate => 1
      case Poor => 2
      case VeryPoor => 3
      case Severe => 4
    }
  }

  /** The ladder's lower bounds, from moderate up to severe. */
  const Thresholds: seq<int> := [100, 200, 300, 400]

  /** The band of an AQI value: each band is a half-open interval of the ladder. */
  function Classify(aqi: int): (s: Level)
    ensures s == Severe <==> aqi >= 400
    ensures s == VeryPoor <==> 300 <= aqi < 400
    ensures s == Poor <==> 200 <= aqi < 300
    ensures s == Moderate <==> 100 <= aqi < 200
    ensures s == Satisfactory <==> aqi < 100
  {
    if aqi >= 400 then Severe
    else if aqi >= 300 then VeryPoor
    else if aqi >= 200 then Poor
    else if aqi >= 100 then Moderate
    else Satisfactory
  }

  /** `report_data.get('aqi', 0)` followed by the ladder: a report without an AQI is satisfactory. */
  function AssessSeverity(aqi: Option<int>): (s: Level)
    ensures aqi.None? ==> s == Satisfactory && s.Label() == "SATISFACTORY"
    ensures aqi.Some? ==> s == Classify(aqi.value)
    ensures s.Label() == "SEVERE" <==> aqi.GetOr(0) >= 400
    ensures s.Label() == "VERY_POOR" <==> 300 <= aqi.GetOr(0) < 400
    ensures s.Label() == "POOR" <==> 200 <= aqi.GetOr(0) < 300
    ensures s.Label() == "MODERATE" <==> 100 <= aqi.GetOr(0) < 200
    ensures s.Label() == "SATISFACTORY" <==> aqi.GetOr(0) < 100
  {
    Classify(aqi.GetOr(0))
  }

  /** How many of `ts` are at most `aqi`. */
  function ThresholdsMet(aqi: int, ts: seq<int>): nat {
    if |ts| == 0 then 0 else (if aqi >= ts[0] then 1 else 0) + ThresholdsMet(aqi, ts[1..])
  }

  /** A higher AQI never yields a lower band. */
  lemma Monotone(a: int, b: int)
    requires a <= b
    ensures Classify(a).Rank() <= Classify(b).Rank()
  {
  }

  /** The band's rank is the number of ladder thresholds the AQI reaches. */
  lemma RankCountsThresholds(aqi: int)
    ensures Classify(aqi).Rank() == ThresholdsMet(aqi, Thresholds)
  {
    var last := ThresholdsMet(aqi, [400]);
    assert ThresholdsMet(aqi, []) == 0;
    assert [400][1..] == [];
    assert last == if aqi >= 400 then 1 else 0;
    assert [300, 400][1..] == [400];
    var upper := ThresholdsMet(aqi, [300, 400]);
    assert upper == (if aqi >= 300 then 1 else 0) + last;
    assert [200, 300, 400][1..] == [300, 400];
    assert Thresholds[1..] == [200, 300, 400];
    assert ThresholdsMet(aqi, Thresholds[1..]) == (if aqi >= 200 then 1 else 0) + upper;
  }
}
