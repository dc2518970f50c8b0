/**
 * The endpoint filter applied to the comma-separated gateway list before the
 * collector is built: keep the candidates whose URL scheme is http or https.
 */
module Hosts {
  import opened Wrappers

  /** The one error ValidateHosts can return ("no valid endpoints provided"). */
  datatype HostsError = NoValidEndpoints

  /**
   * `parse` stands for the URL parser: `None` when parsing fails, otherwise
   * the scheme of the parsed URL (which the parser reports in lower case).
   */
  predicate ValidScheme(parse: string -> Option<string>, hostURL: string)
  {
    parse(hostURL).Some? && (parse(hostURL).value == "http" || parse(hostURL).value == "https")
  }

  /** Reference definition of the filter: the valid candidates, in input order. */
  function KeepValid(candidates: seq<string>, parse: string -> Option<string>): seq<string>
  {
    if candidates == [] then []
    else
      var rest := KeepValid(candidates[..|candidates| - 1], parse);
      var last := candidates[|candidates| - 1];
      if ValidScheme(parse, last) then rest + [last] else rest
  }

  /** The positions of the candidates KeepValid keeps, in increasing order. */
  ghost function KeptIndices(candidates: seq<string>, parse: string -> Option<string>): seq<nat>
  {
    if candidates == [] then []
    else
      var rest := KeptIndices(candidates[..|candidates| - 1], parse);
      if ValidScheme(parse, candidates[|candidates| - 1]) then rest + [|candidates| - 1] else rest
  }

  /**
   * The output of the filter is exactly the valid candidates in their original
   * order: it is the subsequence of the input at the strictly increasing
   * positions KeptIndices, and a position is among them iff its scheme is valid.
   */
  lemma {:induction false} KeepValidIsOrderedSelection(candidates: seq<string>, parse: string -> Option<string>)
    ensures var r, idx := KeepValid(candidates, parse), KeptIndices(candidates, parse);
      && |idx| == |r| <= |candidates|
      && (forall k :: 0 <= k < |idx| ==> idx[k] < |candidates| && r[k] == candidates[idx[k]])
      && (forall k, l :: 0 <= k < l < |idx| ==> idx[k] < idx[l])
      && (forall i :: 0 <= i < |candidates| ==> (i in idx <==> ValidScheme(parse, candidates[i])))
  {
    if candidates != [] {
      var init := candidates[..|candidates| - 1];
      KeepValidIsOrderedSelection(init, parse);
      var idx := KeptIndices(candidates, parse);
      var idx0 := KeptIndices(init, parse);
      assert forall k :: 0 <= k < |idx0| ==> idx0[k] < |init|;
      forall i | 0 <= i < |candidates|
        ensures i in idx <==> ValidScheme(parse, candidates[i])
      {
        if i < |init| {
          assert candidates[i] == init[i];
          assert i != |candidates| - 1;
        }
      }
    }
  }

  /**
   * Membership: a string is in the output iff it is a candidate with a valid
   * scheme; in particular a candidate whose parse fails never reaches the
   * output, and the output is never longer than the input.
   */
  lemma {:induction false} KeepValidMembers(candidates: seq<string>, parse: string -> Option<string>)
    ensures var r := KeepValid(candidates, parse);
      && |r| <= |candidates|
      && (forall h :: h in r <==> h in candidates && ValidScheme(parse, h))
      && (forall h :: h in candidates && parse(h).None? ==> h !in r)
  {
    if candidates != [] {
      var init := candidates[..|candidates| - 1];
      KeepValidMembers(init, parse);
      assert candidates == init + [candidates[|candidates| - 1]];
    }
  }

  /**
   * ValidateHosts: walks the candidates, keeps those whose parse succeeds
   * with scheme http or https, and reports an error exactly when nothing was
   * kept. A parse error inside the loop is dropped with the candidate and
   * never returned.
   */
  method ValidateHosts(candidateHosts: seq<string>, parse: string -> Option<string>)
    returns (validHosts: seq<string>, err: Option<HostsError>)
    ensures validHosts == KeepValid(candidateHosts, parse)
    ensures err.Some? <==> validHosts == []
    ensures err.Some? ==> err.value == NoValidEndpoints
  {
    validHosts := [];
    err := None;
    var i := 0;
    while i < |candidateHosts|
      invariant 0 <= i <= |candidateHosts|
      invariant validHosts == KeepValid(candidateHosts[..i], parse)
    {
      var hostURL := candidateHosts[i];
      assert candidateHosts[..i + 1][..i] == candidateHosts[..i];
      var u := parse(hostURL);
      if u.None? || (u.value != "http" && u.value != "https") {
        i := i + 1;
        continue;
      }
      validHosts := validHosts + [hostURL];
      i := i + 1;
    }
    assert candidateHosts[..i] == candidateHosts;
    if |validHosts| == 0 {
      err := Some(NoValidEndpoints);
    }
  }
}
