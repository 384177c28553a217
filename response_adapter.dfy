/** The response adapter: reshapes a resolved decision into the payload the
    assistant front end displays. */
module ResponseAdapter {
  import opened Wrappers
  import opened Nyaya

  /** The resolved decision the adapter consumes. */
  datatype Decision = Decision(
    jurisdiction: string,
    domainId: string,
    chosenRoute: Route,
    procedures: seq<Procedure>,
    evidence: Evidence,
    outcomes: seq<OutcomeSignal>)

  datatype Meta = Meta(jurisdiction: string, domainId: string, routeId: string)

  datatype Recommendation = Recommendation(title: string, confidenceBand: SuccessRange)

  datatype StepItem = StepItem(text: string, statute: Option<string>)

  datatype TimelineItem = TimelineItem(text: string, minDays: int, maxDays: int)

  datatype Payload = Payload(
    meta: Meta,
    recommendation: Recommendation,
    steps: seq<StepItem>,
    timeline: seq<TimelineItem>,
    evidenceRequired: Evidence,
    disclaimer: string)

  const Disclaimer: string := "This is not legal advice. Generated for informational purposes."

  /** The labels of a timeline, as a set. */
  function TimelineLabels(timeline: seq<TimelineItem>): set<string>
  {
    set k | 0 <= k < |timeline| :: timeline[k].text
  }

  /** `adapt_decision_for_assistant`. The first outcome signal must exist:
      the source reads `outcomes[0]` unguarded. */
  method AdaptDecisionForAssistant(decision: Decision) returns (payload: Payload)
    requires |decision.outcomes| > 0
    ensures payload.meta == Meta(decision.jurisdiction, decision.domainId, decision.chosenRoute.routeId)
    ensures payload.recommendation ==
      Recommendation(decision.chosenRoute.routeName, decision.outcomes[0].successRange)
    ensures var all := Flatten(decision.procedures);
      && |payload.steps| == |all|
      && forall k :: 0 <= k < |all| ==> payload.steps[k] == StepItem(all[k].action, all[k].statute)
    ensures var all := Flatten(decision.procedures);
      && |payload.timeline| == |all|
      && forall k :: 0 <= k < |all| ==>
           payload.timeline[k] == TimelineItem(all[k].action, all[k].minDays, all[k].maxDays)
    ensures |payload.steps| == |payload.timeline| == TotalSteps(decision.procedures)
    ensures payload.evidenceRequired == decision.evidence
    ensures payload.disclaimer == Disclaimer
  {
    var route := decision.chosenRoute;
    var procedures := decision.procedures;
    var evidence := decision.evidence;

    var steps: seq<StepItem> := [];
    var timeline: seq<TimelineItem> := [];
    for n := 0 to |procedures|
      invariant Mirrors(steps, timeline, Flatten(procedures[..n]))
    {
      var proc := procedures[n];
      ghost var before := Flatten(procedures[..n]);
      assert before + proc.steps[..0] == before;
      for m := 0 to |proc.steps|
        invariant Mirrors(steps, timeline, before + proc.steps[..m])
      {
        var step := proc.steps[m];
        assert before + proc.steps[..m + 1] == (before + proc.steps[..m]) + [step];
        MirrorsSnoc(steps, timeline, before + proc.steps[..m], step);
        steps := steps + [StepItem(step.action, step.statute)];
        timeline := timeline + [TimelineItem(step.action, step.minDays, step.maxDays)];
      }
      assert procedures[..n + 1][..n] == procedures[..n];
      assert proc.steps[..|proc.steps|] == proc.steps;
    }
    assert procedures[..|procedures|] == procedures;
    FlattenLength(procedures);

    // Computed as in the source, but not part of the payload.
    var glossaryTerms := GlossaryTerms(procedures);

    payload := Payload(
      Meta(decision.jurisdiction, decision.domainId, route.routeId),
      Recommendation(route.routeName, decision.outcomes[0].successRange),
      steps,
      timeline,
      evidence,
      Disclaimer);
  }

  /** `steps` and `timeline` hold one entry per step of `done`, in order. */
  ghost predicate Mirrors(steps: seq<StepItem>, timeline: seq<TimelineItem>, done: seq<Step>)
  {
    && |steps| == |done| && |timeline| == |done|
    && (forall k :: 0 <= k < |done| ==> steps[k] == StepItem(done[k].action, done[k].statute))
    && (forall k :: 0 <= k < |done| ==>
          timeline[k] == TimelineItem(done[k].action, done[k].minDays, done[k].maxDays))
  }

  lemma MirrorsSnoc(steps: seq<StepItem>, timeline: seq<TimelineItem>, done: seq<Step>, step: Step)
    requires Mirrors(steps, timeline, done)
    ensures Mirrors(steps + [StepItem(step.action, step.statute)],
                    timeline + [TimelineItem(step.action, step.minDays, step.maxDays)], done + [step])
  {
  }

  /** The glossary terms: every distinct step action, collected by a second
      pass over the procedures and their steps. */
  method GlossaryTerms(procedures: seq<Procedure>) returns (terms: set<string>)
    ensures terms == ActionSet(Flatten(procedures))
  {
    terms := {};
    for n := 0 to |procedures|
      invariant terms == ActionSet(Flatten(procedures[..n]))
    {
      var proc := procedures[n];
      ghost var before := Flatten(procedures[..n]);
      assert before + proc.steps[..0] == before;
      for m := 0 to |proc.steps|
        invariant terms == ActionSet(before + proc.steps[..m])
      {
        var step := proc.steps[m];
        assert before + proc.steps[..m + 1] == (before + proc.steps[..m]) + [step];
        ActionSetSnoc(before + proc.steps[..m], step);
        terms := terms + {step.action};
      }
      assert procedures[..n + 1][..n] == procedures[..n];
      assert proc.steps[..|proc.steps|] == proc.steps;
    }
    assert procedures[..|procedures|] == procedures;
  }

  lemma ActionSetSnoc(steps: seq<Step>, step: Step)
    ensures ActionSet(steps + [step]) == ActionSet(steps) + {step.action}
  {
    var s := steps + [step];
    forall a | a in ActionSet(s) ensures a in ActionSet(steps) + {step.action} {
      var k :| 0 <= k < |s| && s[k].action == a;
      if k < |steps| {
        assert s[k] == steps[k];
      }
    }
    forall a | a in ActionSet(steps) ensures a in ActionSet(s) {
      var k :| 0 <= k < |steps| && steps[k].action == a;
      assert s[k] == steps[k];
    }
    assert s[|steps|] == step;
  }

  /** The glossary terms are exactly the labels of a timeline built as the
      adapter builds it. */
  lemma GlossaryIsTimelineLabels(procedures: seq<Procedure>, timeline: seq<TimelineItem>)
    requires |timeline| == |Flatten(procedures)|
    requires forall k :: 0 <= k < |timeline| ==> timeline[k].text == Flatten(procedures)[k].action
    ensures ActionSet(Flatten(procedures)) == TimelineLabels(timeline)
  {
    var all := Flatten(procedures);
    forall a | a in ActionSet(all) ensures a in TimelineLabels(timeline) {
      var k :| 0 <= k < |all| && all[k].action == a;
      assert timeline[k].text == a;
    }
    forall a | a in TimelineLabels(timeline) ensures a in ActionSet(all) {
      var k :| 0 <= k < |timeline| && timeline[k].text == a;
      assert all[k].action == a;
    }
  }

  /** Step j of procedure i appears in the payload at the position right
      after all steps of the earlier procedures, in both lists. */
  lemma PayloadFollowsProcedureOrder(decision: Decision, payload: Payload, i: int, j: int)
    requires 0 <= i < |decision.procedures| && 0 <= j < |decision.procedures[i].steps|
    requires var all := Flatten(decision.procedures);
      && |payload.steps| == |all| == |payload.timeline|
      && (forall k :: 0 <= k < |all| ==> payload.steps[k] == StepItem(all[k].action, all[k].statute))
      && (forall k :: 0 <= k < |all| ==>
            payload.timeline[k] == TimelineItem(all[k].action, all[k].minDays, all[k].maxDays))
    ensures var k := TotalSteps(decision.procedures[..i]) + j;
      var step := decision.procedures[i].steps[j];
      && k < |payload.steps|
      && payload.steps[k] == StepItem(step.action, step.statute)
      && payload.timeline[k] == TimelineItem(step.action, step.minDays, step.maxDays)
  {
    FlattenIndex(decision.procedures, i, j);
    FlattenLength(decision.procedures[..i]);
  }
}
