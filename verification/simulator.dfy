/**
 The simulator values and the one random primitive that both capture
 scripts use: a vehicle blueprint, a world location, and
 `random.choice` with its draw passed in.
 */
module Simulator {
  import opened Outcome

  /** A vehicle blueprint: its id and its `number_of_wheels` attribute. */
  datatype Blueprint = Blueprint(id: string, wheels: int)

  /** A simulator location. */
  datatype Location = Location(x: real, y: real, z: real)

  /** `random.choice` with the random draw as a parameter: the draw picks
      an index. An empty list fails. */
  function Choice<T>(s: seq<T>, draw: nat): (r: Result<T>)
    ensures r.Ok? <==> |s| > 0
    ensures r.Err? ==> r.error == ChoiceFromEmpty
    ensures r.Ok? ==> r.value in s
  {
    if |s| == 0 then Err(ChoiceFromEmpty) else Ok(s[draw % |s|])
  }
}
