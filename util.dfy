/** Small helpers shared by the fishing-game model: an optional value and the
    "first index satisfying a predicate" search that the game uses for every
    lookup in its user list (JavaScript's Array.prototype.findIndex). */
module Util {

  datatype Option<T> = None | Some(value: T) {
    /** The value, or `default` when there is none (the game's `x || default`). */
    function GetOr(default: T): T {
      if Some? then value else default
    }
  }

  /** Index of the first element of `s` satisfying `p`, or -1 when none does. */
  function FindIndex<T>(s: seq<T>, p: T -> bool): (i: int)
    ensures -1 <= i < |s|
    ensures 0 <= i ==> p(s[i]) && forall j :: 0 <= j < i ==> !p(s[j])
    ensures i == -1 <==> forall j :: 0 <= j < |s| ==> !p(s[j])
  {
    if s == [] then -1
    else if p(s[0]) then 0
    else
      var k := FindIndex(s[1..], p);
      if k == -1 then -1 else k + 1
  }
}
