/** The threshold colouring the screens use for risk, fatigue and condition scores, and the
    badge classes their `switch` colour maps return. */
module Bands {

  /** The three bands a score falls into. */
  datatype Tone = Green | Yellow | Red

  /** Bands ordered from good to bad. */
  function Rank(t: Tone): nat
  {
    match t
    case Green => 0
    case Yellow => 1
    case Red => 2
  }

  /** `if (x <= low) green; if (x <= high) yellow; else red`: a score where lower is better. */
  function AtMost(x: real, low: real, high: real): (t: Tone)
    ensures t == Green <==> x <= low
    ensures t == Yellow <==> low < x <= high
    ensures t == Red <==> low < x && high < x
  {
    if x <= low then Green else if x <= high then Yellow else Red
  }

  /** `if (x >= high) green; if (x >= low) yellow; else red`: a score where higher is better. */
  function AtLeast(x: real, high: real, low: real): (t: Tone)
    ensures t == Green <==> x >= high
    ensures t == Yellow <==> low <= x < high
    ensures t == Red <==> x < high && x < low
  {
    if x >= high then Green else if x >= low then Yellow else Red
  }

  /** A higher score never gets a better band when lower is better. */
  lemma AtMostMonotone(x: real, y: real, low: real, high: real)
    requires x <= y
    ensures Rank(AtMost(x, low, high)) <= Rank(AtMost(y, low, high))
  {
  }

  /** A higher score never gets a worse band when higher is better. */
  lemma AtLeastAntitone(x: real, y: real, high: real, low: real)
    requires x <= y
    ensures Rank(AtLeast(y, high, low)) <= Rank(AtLeast(x, high, low))
  {
  }

  /** The text class of a band. */
  function TextClass(t: Tone): (c: string)
    ensures c == "text-green-600" <==> t == Green
    ensures c == "text-yellow-600" <==> t == Yellow
    ensures c == "text-red-600" <==> t == Red
  {
    match t
    case Green => "text-green-600"
    case Yellow => "text-yellow-600"
    case Red => "text-red-600"
  }

  const GreenBadge := "bg-green-100 text-green-800"
  const BlueBadge := "bg-blue-100 text-blue-800"
  const YellowBadge := "bg-yellow-100 text-yellow-800"
  const OrangeBadge := "bg-orange-100 text-orange-800"
  const RedBadge := "bg-red-100 text-red-800"
  const PurpleBadge := "bg-purple-100 text-purple-800"
  /** The `default:` of every colour switch. */
  const GrayBadge := "bg-gray-100 text-gray-800"
}
