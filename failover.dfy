/**
 * Endpoint failover of the collector (getRGWConnection): build a rotated
 * list of target endpoints from the configured hosts and an offset, then try
 * the targets in order and keep the first connection that succeeds.
 *
 * The admin client's constructor is an oracle `dial` from endpoint to the
 * outcome of that one attempt.
 */
module Failover {
  import opened Wrappers

  /** What one call of the admin client's constructor reports for an endpoint. */
  datatype DialResult = Accepted | Refused(reason: string)

  /** A bound admin API session, recording the endpoint it was built for. */
  datatype Api = Api(endpoint: string)

  /** The values of `conn`, `err` and `failures` once the attempt loop ends. */
  datatype AttemptResult = AttemptResult(conn: Option<Api>, err: Option<string>, failures: nat)

  /** The position in `hosts` (of length n) that the i-th target is taken from. */
  function TargetIndex(n: nat, offset: nat, i: nat): nat
    requires offset <= n
  {
    if offset == 0 then i
    else if i < n - offset then offset + i
    else i - (n - offset)
  }

  /**
   * The target list exactly as the collector builds it: the hosts themselves
   * for offset 0, otherwise hosts[offset:] followed by hosts[0:offset-1].
   * The slicing demands 0 <= offset <= |hosts|.
   */
  function Targets(hosts: seq<string>, offset: nat): (ts: seq<string>)
    requires offset <= |hosts|
    ensures offset == 0 ==> ts == hosts
    ensures offset > 0 ==> |ts| == |hosts| - 1
    ensures forall i :: 0 <= i < |ts| ==>
      TargetIndex(|hosts|, offset, i) < |hosts| && ts[i] == hosts[TargetIndex(|hosts|, offset, i)]
  {
    if offset == 0 then hosts else hosts[offset..] + hosts[..offset - 1]
  }

  /**
   * For a nonzero offset the list is drawn from every position of `hosts`
   * except offset-1 and holds every other host: with distinct hosts,
   * hosts[offset-1] is never attempted.
   */
  lemma TargetsSkipPreviousHost(hosts: seq<string>, offset: nat)
    requires 0 < offset <= |hosts|
    ensures var ts := Targets(hosts, offset);
      && (forall i :: 0 <= i < |ts| ==> TargetIndex(|hosts|, offset, i) != offset - 1)
      && (forall j :: 0 <= j < |hosts| && j != offset - 1 ==> hosts[j] in ts)
      && ((forall a, b :: 0 <= a < b < |hosts| ==> hosts[a] != hosts[b]) ==> hosts[offset - 1] !in ts)
  {
    var n, ts := |hosts|, Targets(hosts, offset);
    forall j | 0 <= j < n && j != offset - 1
      ensures hosts[j] in ts
    {
      var i := if j >= offset then j - offset else j + (n - offset);
      assert TargetIndex(n, offset, i) == j;
      assert ts[i] == hosts[j];
    }
  }

  /**
   * The number of targets, from the start, that refuse before the first one
   * that accepts (all of them if none accepts).
   */
  function LeadingFailures(ts: seq<string>, dial: string -> DialResult): (k: nat)
    ensures k <= |ts|
    ensures forall i :: 0 <= i < k ==> dial(ts[i]).Refused?
    ensures k < |ts| ==> dial(ts[k]).Accepted?
  {
    if ts == [] || dial(ts[0]).Accepted? then 0
    else 1 + LeadingFailures(ts[1..], dial)
  }

  /** The count of leading refusals is the first position that accepts, or the length. */
  lemma {:induction false} LeadingFailuresAt(ts: seq<string>, dial: string -> DialResult, i: nat)
    requires i <= |ts| && forall j :: 0 <= j < i ==> dial(ts[j]).Refused?
    requires i < |ts| ==> dial(ts[i]).Accepted?
    ensures LeadingFailures(ts, dial) == i
  {
    if i > 0 {
      LeadingFailuresAt(ts[1..], dial, i - 1);
    }
  }

  /**
   * What the attempt loop leaves behind: the first accepting target's
   * connection with a nil error; the last attempt's error when every target
   * refuses; nil and nil when there is no target at all.
   */
  function Connect(ts: seq<string>, dial: string -> DialResult): AttemptResult
  {
    var k := LeadingFailures(ts, dial);
    if k < |ts| then AttemptResult(Some(Api(ts[k])), None, k)
    else if ts == [] then AttemptResult(None, None, 0)
    else AttemptResult(None, Some(dial(ts[|ts| - 1]).reason), k)
  }

  /**
   * The error is nil exactly when some target accepts or there is no target;
   * a connection is returned exactly when some target accepts, and then it is
   * bound to the first accepting target, after exactly `failures` refusals;
   * otherwise the error is the last target's.
   */
  lemma ConnectOutcome(ts: seq<string>, dial: string -> DialResult)
    ensures var c := Connect(ts, dial);
      && (c.err.None? <==> (ts == [] || exists i :: 0 <= i < |ts| && dial(ts[i]).Accepted?))
      && (c.conn.Some? <==> exists i :: 0 <= i < |ts| && dial(ts[i]).Accepted?)
      && (c.conn.Some? ==> c.failures < |ts| && c.conn.value.endpoint == ts[c.failures]
                           && forall i :: 0 <= i < c.failures ==> dial(ts[i]).Refused?)
      && (c.failures == |ts| <==> forall i :: 0 <= i < |ts| ==> dial(ts[i]).Refused?)
      && (c.err.Some? ==> c.conn.None? && c.err.value == dial(ts[|ts| - 1]).reason)
  {
    var k := LeadingFailures(ts, dial);
    if exists i :: 0 <= i < |ts| && dial(ts[i]).Accepted? {
      var i :| 0 <= i < |ts| && dial(ts[i]).Accepted?;
      assert k <= i;
    }
  }

  /**
   * getRGWConnection. Besides Go's two results it returns the hosts passed to
   * the constructor, in order, and whether the "all hosts ... NOT reachable"
   * log line fires (failures == len(hosts)).
   */
  method GetRGWConnection(hosts: seq<string>, offset: nat, dial: string -> DialResult)
    returns (conn: Option<Api>, err: Option<string>, attempted: seq<string>, allFailedLogged: bool)
    requires offset <= |hosts|
    ensures var ts := Targets(hosts, offset);
      var c := Connect(ts, dial);
      && conn == c.conn && err == c.err
      && attempted == ts[..if c.failures < |ts| then c.failures + 1 else |ts|]
      && allFailedLogged == (c.failures == |hosts|)
  {
    var targets := BuildTargets(hosts, offset);
    var failures;
    conn, err, failures, attempted := TryTargets(targets, dial);
    allFailedLogged := failures == |hosts|;
  }

  /** The target list of getRGWConnection, built by appending the two slices. */
  method BuildTargets(hosts: seq<string>, offset: nat) returns (targets: seq<string>)
    requires offset <= |hosts|
    ensures targets == Targets(hosts, offset)
  {
    targets := [];
    if offset == 0 {
      targets := hosts;
    } else {
      targets := targets + hosts[offset..];
      targets := targets + hosts[0..offset - 1];
    }
  }

  /**
   * The attempt loop of getRGWConnection: try each target in turn and stop
   * at the first that accepts; `attempted` lists the targets tried.
   */
  method TryTargets(targets: seq<string>, dial: string -> DialResult)
    returns (conn: Option<Api>, err: Option<string>, failures: nat, attempted: seq<string>)
    ensures var c := Connect(targets, dial);
      && conn == c.conn && err == c.err && failures == c.failures
      && attempted == targets[..if c.failures < |targets| then c.failures + 1 else |targets|]
  {
    failures := 0;
    conn, err := None, None;
    attempted := [];
    var i := 0;
    while i < |targets|
      invariant 0 <= i <= |targets|
      invariant failures == i && attempted == targets[..i] && conn == None
      invariant forall j :: 0 <= j < i ==> dial(targets[j]).Refused?
      invariant err == if i == 0 then None else Some(dial(targets[i - 1]).reason)
    {
      var hostName := targets[i];
      attempted := attempted + [hostName];
      assert attempted == targets[..i + 1];
      match dial(hostName) {
        case Accepted =>
          LeadingFailuresAt(targets, dial, i);
          conn, err := Some(Api(hostName)), None;
          return;
        case Refused(reason) =>
          conn, err := None, Some(reason);
      }
      failures := failures + 1;
      i := i + 1;
    }
    LeadingFailuresAt(targets, dial, i);
  }

  lemma AllFailedOnlyAtOffsetZero(hosts: seq<string>, offset: nat, dial: string -> DialResult)
    requires offset <= |hosts|
    ensures Connect(Targets(hosts, offset), dial).failures == |hosts| <==>
      offset == 0 && forall i :: 0 <= i < |hosts| ==> dial(hosts[i]).Refused?
  {
    ConnectOutcome(Targets(hosts, offset), dial);
  }

  /**
   * The corrected target list: start at offset mod |hosts| and wrap around
   * once, so that every host is tried before the attempt loop gives up.
   */
  function RotatedTargets(hosts: seq<string>, offset: nat): (ts: seq<string>)
    ensures |ts| == |hosts|
    ensures multiset(ts) == multiset(hosts)
    ensures hosts != [] ==> ts[0] == hosts[offset % |hosts|]
    ensures forall i :: 0 <= i < |ts| ==>
      var p := offset % |hosts| + i; ts[i] == hosts[if p < |hosts| then p else p - |hosts|]
  {
    if hosts == [] then []
    else
      var o := offset % |hosts|;
      assert hosts == hosts[..o] + hosts[o..];
      hosts[o..] + hosts[..o]
  }

  /** With the rotated list the error is non-nil exactly when every host refuses. */
  lemma RotatedConnectComplete(hosts: seq<string>, offset: nat, dial: string -> DialResult)
    requires hosts != []
    ensures Connect(RotatedTargets(hosts, offset), dial).err.Some? <==>
      forall j :: 0 <= j < |hosts| ==> dial(hosts[j]).Refused?
  {
    var ts := RotatedTargets(hosts, offset);
    ConnectOutcome(ts, dial);
    if exists j :: 0 <= j < |hosts| && dial(hosts[j]).Accepted? {
      var j :| 0 <= j < |hosts| && dial(hosts[j]).Accepted?;
      assert hosts[j] in multiset(ts);
      var i :| 0 <= i < |ts| && ts[i] == hosts[j];
    }
    if exists i :: 0 <= i < |ts| && dial(ts[i]).Accepted? {
      var i :| 0 <= i < |ts| && dial(ts[i]).Accepted?;
      assert ts[i] in multiset(hosts);
      var j :| 0 <= j < |hosts| && hosts[j] == ts[i];
    }
  }

  /**
   * Three hosts, offset 1, only the first reachable: the list as written is
   * [b, c], so the attempt fails although host a would accept; the rotated
   * list [b, c, a] connects to a.
   */
  lemma SkippedHostCounterexample()
    ensures Targets(["a", "b", "c"], 1) == ["b", "c"]
    ensures Connect(Targets(["a", "b", "c"], 1), OnlyFirstUp).err == Some("down")
    ensures Connect(RotatedTargets(["a", "b", "c"], 1), OnlyFirstUp).conn == Some(Api("a"))
  {
    var hosts: seq<string> := ["a", "b", "c"];
    assert Targets(hosts, 1) == ["b", "c"] by {
      assert hosts[1..] == ["b", "c"] && hosts[..0] == [];
    }
    assert RotatedTargets(hosts, 1) == ["b", "c", "a"] by {
      assert hosts[1..] == ["b", "c"] && hosts[..1] == ["a"];
    }
    SkippedHostAttempts();
  }

  /** The counterexample's reachability: only host "a" accepts. */
  function OnlyFirstUp(h: string): DialResult
  {
    if h == "a" then Accepted else Refused("down")
  }

  /** The two attempts of the counterexample, on the lists it computes. */
  lemma SkippedHostAttempts()
    ensures Connect(["b", "c"], OnlyFirstUp).err == Some("down")
    ensures Connect(["b", "c", "a"], OnlyFirstUp).conn == Some(Api("a"))
  {
    var bc: seq<string>, c: seq<string>, ca: seq<string>, a: seq<string> := ["b", "c"], ["c"], ["c", "a"], ["a"];
    assert "b" != "a" && "c" != "a" by { assert "b"[0] != "a"[0] && "c"[0] != "a"[0]; }
    assert LeadingFailures(c, OnlyFirstUp) == 1 by { assert c[1..] == []; }
    assert LeadingFailures(bc, OnlyFirstUp) == 2 by { assert bc[1..] == c; }
    assert LeadingFailures(a, OnlyFirstUp) == 0;
    assert LeadingFailures(ca, OnlyFirstUp) == 1 by { assert ca[1..] == a; }
    assert LeadingFailures(["b", "c", "a"], OnlyFirstUp) == 2 by { assert ["b", "c", "a"][1..] == ca; }
  }

  /** Endpoints [A, B] with A down, offset 0: connected to B after exactly one failed attempt. */
  lemma SecondHostScenario()
    ensures var dial := (h: string) => if h == "A" then Refused("unreachable") else Accepted;
      Connect(Targets(["A", "B"], 0), dial) == AttemptResult(Some(Api("B")), None, 1)
  {
    var dial := (h: string) => if h == "A" then Refused("unreachable") else Accepted;
    assert ["A", "B"][1..] == ["B"];
    assert LeadingFailures(["B"], dial) == 0;
  }
}
