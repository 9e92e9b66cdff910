/** The cargo screen (src/components/Cargo/CargoMonitoring.tsx): status, type, risk and condition
    colouring, the two alert rules and the verification modal's selected cargo. */
module CargoMonitoring {
  import opened Js
  import Bands
  import opened CargoSlice

  function StatusColor(status: string): (c: string)
    ensures c == Bands.GrayBadge <==> status !in ["loaded", "in_transit", "delivered", "damaged"]
    ensures status == "damaged" ==> c == Bands.RedBadge
  {
    match status
    case "loaded" => Bands.BlueBadge
    case "in_transit" => Bands.YellowBadge
    case "delivered" => Bands.GreenBadge
    case "damaged" => Bands.RedBadge
    case _ => Bands.GrayBadge
  }

  /** `'general'`, the one cargo type without a case, falls to the gray default. */
  function TypeColor(cargoType: string): (c: string)
    ensures c == Bands.GrayBadge <==> cargoType !in ["refrigerated", "fragile", "hazardous", "oversized"]
    ensures cargoType == "hazardous" ==> c == Bands.RedBadge
  {
    match cargoType
    case "refrigerated" => Bands.BlueBadge
    case "fragile" => Bands.OrangeBadge
    case "hazardous" => Bands.RedBadge
    case "oversized" => Bands.PurpleBadge
    case _ => Bands.GrayBadge
  }

  /** `getRiskColor`: at most 10 green, at most 25 yellow, above red. */
  function RiskColor(risk: real): (c: string)
    ensures c == "text-green-600" <==> risk <= 10.0
    ensures c == "text-yellow-600" <==> 10.0 < risk <= 25.0
    ensures c == "text-red-600" <==> 25.0 < risk
  {
    Bands.TextClass(Bands.AtMost(risk, 10.0, 25.0))
  }

  /** `getConditionColor`, where higher is better: at least 90 green, at least 70 yellow, below red. */
  function ConditionColor(score: real): (c: string)
    ensures c == "text-green-600" <==> 90.0 <= score
    ensures c == "text-yellow-600" <==> 70.0 <= score < 90.0
    ensures c == "text-red-600" <==> score < 70.0
  {
    Bands.TextClass(Bands.AtLeast(score, 90.0, 70.0))
  }

  /** The "Temperature alert detected" banner. */
  predicate TemperatureAlert(c: Cargo)
  {
    c.aiMonitoring.temperatureAlerts
  }

  /** The "Condition monitoring required" banner. */
  predicate ConditionAlert(c: Cargo)
  {
    c.aiMonitoring.conditionScore < 80.0
  }

  /** The banner and the colour use different thresholds: every red score and the yellow scores
      below 80 get the banner, the yellow scores from 80 and all green scores do not. */
  lemma ConditionAlertVersusColor(c: Cargo)
    ensures ConditionColor(c.aiMonitoring.conditionScore) == "text-red-600" ==> ConditionAlert(c)
    ensures ConditionColor(c.aiMonitoring.conditionScore) == "text-green-600" ==> !ConditionAlert(c)
    ensures ConditionColor(c.aiMonitoring.conditionScore) == "text-yellow-600" && ConditionAlert(c) <==>
              70.0 <= c.aiMonitoring.conditionScore < 80.0
    ensures ConditionColor(c.aiMonitoring.conditionScore) == "text-yellow-600" && !ConditionAlert(c) <==>
              80.0 <= c.aiMonitoring.conditionScore < 90.0
  {
  }

  /** The component's `selectedCargo` state cell, which controls the verification modal. */
  class CargoScreen {
    var selectedCargo: Option<string>

    /** `{selectedCargo && (...)}`: an id is truthy unless it is the empty string. */
    predicate ModalShown()
      reads this
    {
      selectedCargo.Some? && selectedCargo.value != ""
    }

    constructor ()
      ensures selectedCargo == None && !ModalShown()
    {
      selectedCargo := None;
    }

    /** The Eye button of a cargo card. */
    method Inspect(cargo: Cargo)
      modifies this
      ensures selectedCargo == Some(cargo.id)
      ensures ModalShown() <==> cargo.id != ""
    {
      selectedCargo := Some(cargo.id);
    }

    /** The modal's Cancel button. */
    method Cancel()
      modifies this
      ensures selectedCargo == None && !ModalShown()
    {
      selectedCargo := None;
    }
  }
}
