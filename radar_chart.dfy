/**
 * The radar chart of one physical assessment: ten labelled axes and the
 * value plotted on each.
 */
module RadarChart {
  import Api
  import Models

  /** The axis labels, clockwise. */
  const Labels: seq<string> := [
    "Max Strength", "Endurance Strength", "Explosive Strength", "Linear Speed", "Agility",
    "Power", "Mobility", "Aerobic Endurance", "Lactate Endurance", "ICM"]

  /** The scale the chart suggests; values outside it are still drawn. */
  const SuggestedMin: int := 0
  const SuggestedMax: int := 10

  /** A score as plotted: its value, or 0 when the assessment has none (`|| 0`). */
  function Score(a: Api.PhysicalAssessment, field: string): int {
    if field in a.scores then a.scores[field] else 0
  }

  /** The label each score field is shown under. */
  function DisplayName(field: string): string {
    match field
    case "strength_max" => "Max Strength"
    case "strength_endurance" => "Endurance Strength"
    case "strength_explosive" => "Explosive Strength"
    case "speed_linear" => "Linear Speed"
    case "agility" => "Agility"
    case "power" => "Power"
    case "mobility" => "Mobility"
    case "endurance_aerobic" => "Aerobic Endurance"
    case "endurance_lactate" => "Lactate Endurance"
    case "icm" => "ICM"
    case _ => field
  }

  /**
   * `dataValues`: one value per label, the i-th being the i-th score field
   * of the assessment series, present scores unchanged and missing ones 0.
   * Value i is drawn on the axis labelled with the name of score field i.
   */
  function DataValues(a: Api.PhysicalAssessment): (r: seq<int>)
    ensures |r| == |Labels| == |Models.ScoreFields| == 10
    ensures forall i :: 0 <= i < |r| ==> Labels[i] == DisplayName(Models.ScoreFields[i])
    ensures forall i :: 0 <= i < |r| ==>
      (Models.ScoreFields[i] in a.scores ==> r[i] == a.scores[Models.ScoreFields[i]])
    ensures forall i :: 0 <= i < |r| ==> (Models.ScoreFields[i] !in a.scores ==> r[i] == 0)
  {
    [Score(a, "strength_max"), Score(a, "strength_endurance"), Score(a, "strength_explosive"),
     Score(a, "speed_linear"), Score(a, "agility"), Score(a, "power"), Score(a, "mobility"),
     Score(a, "endurance_aerobic"), Score(a, "endurance_lactate"), Score(a, "icm")]
  }

  /** An assessment without scores is drawn as the zero polygon. */
  lemma NoScoresIsZero(a: Api.PhysicalAssessment)
    requires a.scores == map[]
    ensures DataValues(a) == [0, 0, 0, 0, 0, 0, 0, 0, 0, 0]
  {
  }
}
