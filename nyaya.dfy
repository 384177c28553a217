/** Records of the legal knowledge base and the five lookups over them.
    Each lookup is a partial map keyed by (country, id): a missing data
    file, an empty file and a missing id are all simply "not in the map". */
module Nyaya {
  import opened Wrappers

  /** One step of a procedure; the statute may be absent (`null`). */
  datatype Step = Step(step: int, action: string, statute: Option<string>, minDays: int, maxDays: int)

  datatype Procedure = Procedure(procedureId: string, steps: seq<Step>, failurePaths: seq<string>,
                                 appealAvailable: bool)

  /** A route: an ordered list of procedure ids. */
  datatype Route = Route(routeId: string, domainId: string, routeName: string, procedureIds: seq<string>)

  datatype Domain = Domain(domainId: string, name: string, statutes: seq<string>, parentDomain: string)

  /** Timeline records are passed through unchanged; their entries are opaque. */
  datatype Timeline = Timeline(routeId: string, entries: seq<string>)

  datatype Evidence = Evidence(evidenceId: string, requiredDocuments: seq<string>, optionalDocuments: seq<string>)

  datatype SuccessRange = SuccessRange(low: real, high: real)

  datatype OutcomeSignal = OutcomeSignal(procedureId: string, successRange: SuccessRange,
                                         escalationRisk: real, wrongRoutePenalty: real)

  /** A lookup keyed by (country, id). */
  type Lookup<T> = map<(string, string), T>

  /** `get_domain`, `get_routes` (by domain id), `get_procedure`,
      `get_timeline` and `get_evidence` (both by route id). */
  datatype KnowledgeBase = KnowledgeBase(
    domains: Lookup<Domain>,
    routes: Lookup<seq<Route>>,
    procedures: Lookup<Procedure>,
    timelines: Lookup<Timeline>,
    evidence: Lookup<Evidence>)

  /** All steps of all procedures, in procedure order then step order. */
  function Flatten(procs: seq<Procedure>): seq<Step>
  {
    if |procs| == 0 then [] else Flatten(procs[..|procs| - 1]) + procs[|procs| - 1].steps
  }

  /** The number of steps summed over the procedures. */
  function TotalSteps(procs: seq<Procedure>): nat
  {
    if |procs| == 0 then 0 else |procs[0].steps| + TotalSteps(procs[1..])
  }

  /** A step cites statute `s` when its statute is present and non-empty
      (the truthiness test `if statute:`). */
  predicate Cites(step: Step, s: string)
  {
    step.statute == Some(s) && s != ""
  }

  function StatuteOf(step: Step): set<string>
  {
    if step.statute.Some? && step.statute.value != "" then {step.statute.value} else {}
  }

  /** The distinct statutes cited by a list of steps. */
  function StatuteSet(steps: seq<Step>): set<string>
  {
    if |steps| == 0 then {} else StatuteSet(steps[..|steps| - 1]) + StatuteOf(steps[|steps| - 1])
  }

  /** The distinct actions of a list of steps. */
  function ActionSet(steps: seq<Step>): set<string>
  {
    set k | 0 <= k < |steps| :: steps[k].action
  }

  lemma {:induction false} FlattenAppend(a: seq<Procedure>, b: seq<Procedure>)
    ensures Flatten(a + b) == Flatten(a) + Flatten(b)
    decreases |b|
  {
    if |b| == 0 {
      assert a + b == a;
    } else {
      var b0 := b[..|b| - 1];
      assert (a + b)[..|a + b| - 1] == a + b0;
      FlattenAppend(a, b0);
    }
  }

  lemma {:induction false} TotalStepsAppend(procs: seq<Procedure>, p: Procedure)
    ensures TotalSteps(procs + [p]) == TotalSteps(procs) + |p.steps|
  {
    if |procs| > 0 {
      assert (procs + [p])[1..] == procs[1..] + [p];
      TotalStepsAppend(procs[1..], p);
    }
  }

  /** One flattened step per step of every procedure. */
  lemma {:induction false} FlattenLength(procs: seq<Procedure>)
    ensures |Flatten(procs)| == TotalSteps(procs)
  {
    if |procs| > 0 {
      var init := procs[..|procs| - 1];
      FlattenLength(init);
      assert init + [procs[|procs| - 1]] == procs;
      TotalStepsAppend(init, procs[|procs| - 1]);
    }
  }

  /** Step j of procedure i sits right after the steps of procedures 0..i-1. */
  lemma FlattenIndex(procs: seq<Procedure>, i: int, j: int)
    requires 0 <= i < |procs| && 0 <= j < |procs[i].steps|
    ensures |Flatten(procs[..i])| + j < |Flatten(procs)|
    ensures Flatten(procs)[|Flatten(procs[..i])| + j] == procs[i].steps[j]
  {
    var head := procs[..i + 1];
    assert head[..i] == procs[..i];
    assert Flatten(head) == Flatten(procs[..i]) + procs[i].steps;
    assert procs == head + procs[i + 1..];
    FlattenAppend(head, procs[i + 1..]);
  }

  /** Every flattened step is a step of one of the procedures. */
  lemma {:induction false} FlattenCover(procs: seq<Procedure>, k: int)
    requires 0 <= k < |Flatten(procs)|
    ensures exists i, j :: 0 <= i < |procs| && 0 <= j < |procs[i].steps| && Flatten(procs)[k] == procs[i].steps[j]
  {
    var n := |procs|;
    var init := procs[..n - 1];
    if k < |Flatten(init)| {
      FlattenCover(init, k);
      var i, j :| 0 <= i < |init| && 0 <= j < |init[i].steps| && Flatten(init)[k] == init[i].steps[j];
      assert init[i] == procs[i];
    } else {
      var j := k - |Flatten(init)|;
      assert Flatten(procs)[k] == procs[n - 1].steps[j];
    }
  }

  lemma {:induction false} StatuteSetMembers(steps: seq<Step>, s: string)
    ensures s in StatuteSet(steps) <==> exists k :: 0 <= k < |steps| && Cites(steps[k], s)
  {
    if |steps| > 0 {
      var init := steps[..|steps| - 1];
      StatuteSetMembers(init, s);
      if s in StatuteSet(init) {
        var k :| 0 <= k < |init| && Cites(init[k], s);
        assert steps[k] == init[k];
      }
      if k :| 0 <= k < |steps| && Cites(steps[k], s) {
        if k < |init| {
          assert init[k] == steps[k];
        }
      }
    }
  }

  /** The statute set of the flattened procedures is exactly the set of
      non-empty statutes over all steps of all procedures. */
  lemma StatutesOfProcedures(procs: seq<Procedure>, s: string)
    ensures s in StatuteSet(Flatten(procs)) <==>
      exists i, j :: 0 <= i < |procs| && 0 <= j < |procs[i].steps| && Cites(procs[i].steps[j], s)
  {
    var f := Flatten(procs);
    StatuteSetMembers(f, s);
    if s in StatuteSet(f) {
      var k :| 0 <= k < |f| && Cites(f[k], s);
      FlattenCover(procs, k);
    }
    if i, j :| 0 <= i < |procs| && 0 <= j < |procs[i].steps| && Cites(procs[i].steps[j], s) {
      FlattenIndex(procs, i, j);
    }
  }
}
