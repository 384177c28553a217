/** The fail-closed legal-context resolver: five knowledge-base lookups
    chained so that any single absence yields no context at all. */
module LegalContext {
  import opened Wrappers
  import opened Nyaya

  /** The canonical legal context. The statutes are a set: the source returns
      them as a list built from a set, in no particular order. */
  datatype Context = Context(
    country: string,
    domain: string,
    route: string,
    procedure: seq<Procedure>,
    timeline: Timeline,
    evidence: Evidence,
    statutes: set<string>)

  /** The first route, in list order, whose id is `routeId`. */
  function FindRoute(routes: seq<Route>, routeId: string): (r: Option<Route>)
    ensures r.None? <==> forall i :: 0 <= i < |routes| ==> routes[i].routeId != routeId
    ensures r.Some? ==> r.value.routeId == routeId
    ensures r.Some? ==> exists i :: 0 <= i < |routes| && routes[i] == r.value &&
                                  (forall j :: 0 <= j < i ==> routes[j].routeId != routeId)
  {
    if |routes| == 0 then None
    else if routes[0].routeId == routeId then Some(routes[0])
    else
      var r := FindRoute(routes[1..], routeId);
      assert forall i :: 1 <= i < |routes| ==> routes[i] == routes[1..][i - 1];
      r
  }

  predicate ProceduresResolve(kb: KnowledgeBase, country: string, ids: seq<string>)
  {
    forall i :: 0 <= i < |ids| ==> (country, ids[i]) in kb.procedures
  }

  /** Every lookup the resolver makes succeeds: the domain, its routes, a
      route with the requested id, each of that route's procedures, and the
      route's timeline and evidence. */
  predicate Resolves(kb: KnowledgeBase, country: string, domainId: string, routeId: string)
  {
    && (country, domainId) in kb.domains
    && (country, domainId) in kb.routes
    && FindRoute(kb.routes[(country, domainId)], routeId).Some?
    && ProceduresResolve(kb, country, FindRoute(kb.routes[(country, domainId)], routeId).value.procedureIds)
    && (country, routeId) in kb.timelines
    && (country, routeId) in kb.evidence
  }

  /** The route the resolver settles on. */
  function ChosenRoute(kb: KnowledgeBase, country: string, domainId: string, routeId: string): (route: Route)
    requires Resolves(kb, country, domainId, routeId)
    ensures route in kb.routes[(country, domainId)] && route.routeId == routeId
  {
    FindRoute(kb.routes[(country, domainId)], routeId).value
  }

  /** The procedures of a route, in order, with the statutes their steps cite. */
  datatype Fetched = Fetched(procedures: seq<Procedure>, statutes: set<string>)

  /** Step 3 of the resolver: fetch each procedure of the route in order,
      giving up on the first one that is absent. */
  method FetchProcedures(kb: KnowledgeBase, country: string, ids: seq<string>) returns (fetched: Option<Fetched>)
    ensures fetched.Some? <==> ProceduresResolve(kb, country, ids)
    ensures fetched.Some? ==>
      && |fetched.value.procedures| == |ids|
      && (forall i :: 0 <= i < |ids| ==> fetched.value.procedures[i] == kb.procedures[(country, ids[i])])
      && fetched.value.statutes == StatuteSet(Flatten(fetched.value.procedures))
  {
    var procedures: seq<Procedure> := [];
    var statutes: set<string> := {};
    for n := 0 to |ids|
      invariant |procedures| == n
      invariant forall i :: 0 <= i < n ==>
        (country, ids[i]) in kb.procedures && procedures[i] == kb.procedures[(country, ids[i])]
      invariant statutes == StatuteSet(Flatten(procedures))
    {
      var pid := ids[n];
      if (country, pid) !in kb.procedures {
        return None;
      }
      var procedure := kb.procedures[(country, pid)];
      ghost var prev := procedures;
      procedures := procedures + [procedure];
      FlattenSnoc(prev, procedure);
      ghost var before := Flatten(prev);
      assert before + procedure.steps[..0] == before;
      for m := 0 to |procedure.steps|
        invariant statutes == StatuteSet(before + procedure.steps[..m])
      {
        var step := procedure.steps[m];
        StatuteSetStep(before, procedure.steps, m);
        if step.statute.Some? && step.statute.value != "" {
          statutes := statutes + {step.statute.value};
        }
      }
      assert procedure.steps[..|procedure.steps|] == procedure.steps;
    }
    return Some(Fetched(procedures, statutes));
  }

  /** `get_legal_context`: `None` as soon as one lookup is absent, otherwise
      the assembled context whose every field is exactly what was looked up. */
  method GetLegalContext(kb: KnowledgeBase, country: string, domainId: string, routeId: string)
    returns (result: Option<Context>)
    ensures result.Some? <==> Resolves(kb, country, domainId, routeId)
    ensures result.Some? ==>
      var ctx := result.value;
      var ids := ChosenRoute(kb, country, domainId, routeId).procedureIds;
      && ctx.country == country && ctx.domain == domainId && ctx.route == routeId
      && |ctx.procedure| == |ids|
      && (forall i :: 0 <= i < |ids| ==> ctx.procedure[i] == kb.procedures[(country, ids[i])])
      && ctx.timeline == kb.timelines[(country, routeId)]
      && ctx.evidence == kb.evidence[(country, routeId)]
      && ctx.statutes == StatuteSet(Flatten(ctx.procedure))
  {
    // 1. Domain
    if (country, domainId) !in kb.domains {
      return None;
    }
    // 2. Routes, and the first route with the requested id
    if (country, domainId) !in kb.routes {
      return None;
    }
    var routes := kb.routes[(country, domainId)];
    var found := FindRoute(routes, routeId);
    if found.None? {
      return None;
    }
    var route := found.value;
    // 3. Procedures, collecting the statutes of their steps
    var fetched := FetchProcedures(kb, country, route.procedureIds);
    if fetched.None? {
      return None;
    }
    var procedures, statutes := fetched.value.procedures, fetched.value.statutes;
    // 4. Timeline
    if (country, routeId) !in kb.timelines {
      return None;
    }
    var timeline := kb.timelines[(country, routeId)];
    // 5. Evidence
    if (country, routeId) !in kb.evidence {
      return None;
    }
    var evidence := kb.evidence[(country, routeId)];
    // 6. Assemble
    return Some(Context(country, domainId, routeId, procedures, timeline, evidence, statutes));
  }

  /** When several routes carry the requested id, the first one is used. */
  lemma FirstMatchingRouteWins(routes: seq<Route>, routeId: string, i: int)
    requires 0 <= i < |routes| && routes[i].routeId == routeId
    requires forall j :: 0 <= j < i ==> routes[j].routeId != routeId
    ensures FindRoute(routes, routeId) == Some(routes[i])
  {
    var r := FindRoute(routes, routeId);
    var k :| 0 <= k < |routes| && routes[k] == r.value &&
             (forall j :: 0 <= j < k ==> routes[j].routeId != routeId);
    if k != i {
      assert false;
    }
  }

  lemma FlattenSnoc(procs: seq<Procedure>, p: Procedure)
    ensures Flatten(procs + [p]) == Flatten(procs) + p.steps
  {
    assert (procs + [p])[..|procs|] == procs;
  }

  lemma StatuteSetStep(prefix: seq<Step>, steps: seq<Step>, m: int)
    requires 0 <= m < |steps|
    ensures StatuteSet(prefix + steps[..m + 1]) == StatuteSet(prefix + steps[..m]) + StatuteOf(steps[m])
  {
    assert (prefix + steps[..m + 1])[..|prefix| + m] == prefix + steps[..m];
  }
}
