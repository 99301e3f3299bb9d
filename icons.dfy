/**
 * `icon_2_int`: the weather service's icon names as condition codes.
 * The same table appears in all four node classes of the repository.
 */
module Icons {

  /** The condition names in code order: the name at index k has code k. */
  const IconNames: seq<string> := [
    "clear-day", "clear-night", "rain", "snow", "sleet",
    "wind", "fog", "cloudy", "partly-cloudy-day", "partly-cloudy-night"]

  /** `{...}.get(icn, 0)` for a string `icn`. */
  function IconToInt(icon: string): (code: int)
    ensures 0 <= code <= 9
    ensures forall k | 0 <= k < |IconNames| :: IconNames[k] == icon ==> code == k
    ensures icon !in IconNames ==> code == 0
  {
    match icon
    case "clear-day" => 0
    case "clear-night" => 1
    case "rain" => 2
    case "snow" => 3
    case "sleet" => 4
    case "wind" => 5
    case "fog" => 6
    case "cloudy" => 7
    case "partly-cloudy-day" => 8
    case "partly-cloudy-night" => 9
    case _ => 0
  }

  /** Every code 1..9 comes from exactly one name; code 0 from "clear-day" and from every unknown string. */
  lemma IconCodePreimage(icon: string, code: int)
    requires 0 <= code <= 9
    ensures code > 0 ==> (IconToInt(icon) == code <==> icon == IconNames[code])
    ensures code == 0 ==> (IconToInt(icon) == 0 <==> icon == "clear-day" || icon !in IconNames)
  {
  }
}
