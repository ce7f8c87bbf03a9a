/** The "first failing item" scan behind both validation loops of the handler. */
module Scan {
  import opened Optional

  /**
   * The index of the first name in `names` for which `failing` holds, or None
   * when every name passes.
   */
  function FirstFailing(names: seq<string>, failing: string -> bool): (r: Option<nat>)
    ensures r.Some? ==> r.value < |names| && failing(names[r.value])
    ensures r.Some? ==> forall j :: 0 <= j < r.value ==> !failing(names[j])
    ensures r.None? ==> forall j :: 0 <= j < |names| ==> !failing(names[j])
  {
    if names == [] then None
    else if failing(names[0]) then Some(0)
    else
      match FirstFailing(names[1..], failing)
      case None => None
      case Some(i) => Some(i + 1)
  }

  /** The scan's result is pinned down by the failing item it reports. */
  lemma FirstFailingIs(names: seq<string>, failing: string -> bool, i: nat)
    requires i < |names| && failing(names[i])
    requires forall j :: 0 <= j < i ==> !failing(names[j])
    ensures FirstFailing(names, failing) == Some(i)
  {
  }
}
