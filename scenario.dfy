/** A client of the model: the end-to-end flow over the stub knowledge base
    (an Indian tenant-eviction matter), proved from the contracts alone. */
module Scenario {
  import opened Wrappers
  import opened Nyaya
  import opened Reward
  import opened Memory
  import opened ContextKey
  import opened LegalContext

  function StubStep(): Step
  {
    Step(1, "Serve legal notice", Some("TPA Section 106"), 15, 30)
  }

  function StubProcedure(id: string): Procedure
  {
    Procedure(id, [StubStep()], ["NO_RESPONSE", "INVALID_NOTICE"], true)
  }

  function StubRoute(): Route
  {
    Route("IN_EVICTION_NOTICE", "IN_RENT_EVICTION", "Legal Eviction via Notice",
          ["IN_EVICT_NOTICE", "IN_EVICT_FILE", "IN_EVICT_HEARING"])
  }

  function StubKnowledgeBase(): KnowledgeBase
  {
    KnowledgeBase(
      map[("IN", "IN_RENT_EVICTION") := Domain("IN_RENT_EVICTION", "Tenant Eviction",
                                               ["Transfer of Property Act", "Rent Control Act"], "IN_PROPERTY")],
      map[("IN", "IN_RENT_EVICTION") := [StubRoute()]],
      map[("IN", "IN_EVICT_NOTICE") := StubProcedure("IN_EVICT_NOTICE"),
          ("IN", "IN_EVICT_FILE") := StubProcedure("IN_EVICT_FILE"),
          ("IN", "IN_EVICT_HEARING") := StubProcedure("IN_EVICT_HEARING")],
      map[("IN", "IN_EVICTION_NOTICE") := Timeline("IN_EVICTION_NOTICE", [])],
      map[("IN", "IN_EVICTION_NOTICE") := Evidence("IN_EVICTION_NOTICE",
                                                   ["Rent Agreement", "Ownership Proof", "Previous Notices"],
                                                   ["Witness affidavit"])])
  }

  /** The stub matter resolves completely: three procedures, and statutes
      deduplicated to the one section they all cite. */
  method ResolveStubMatter()
  {
    var kb := StubKnowledgeBase();
    var route := "IN_EVICTION_NOTICE";
    assert FindRoute([StubRoute()], route) == Some(StubRoute());
    assert Resolves(kb, "IN", "IN_RENT_EVICTION", route);
    var ctx := GetLegalContext(kb, "IN", "IN_RENT_EVICTION", route);
    assert ctx.Some? && |ctx.value.procedure| == 3;
  }

  /** Without an evidence record the whole context is refused. */
  method RefuseIncompleteMatter()
  {
    var kb := StubKnowledgeBase().(evidence := map[]);
    var ctx := GetLegalContext(kb, "IN", "IN_RENT_EVICTION", "IN_EVICTION_NOTICE");
    assert ctx.None?;
  }

  /** With no memory the only candidate is chosen, and an "up" vote
      records average 1.0 over one use. */
  method FirstFeedback()
  {
    var route := "IN_EVICTION_NOTICE";
    var memory := new MemoryStore();
    var key := BuildStateKey("Tenant", "IN", "rent_dispute");
    var first := memory.SelectBestAction(key, [route]);
    assert first == route;
    var reward := CalculateReward(Some("up"), 0, false);
    memory.Update(key, route, reward);
    assert memory.table[(key, route)] == Record(1.0, 1, 1.0);
  }

  /** After positive feedback the route stays chosen over an untried one,
      and asking twice gives the same answer. */
  method StableChoice()
  {
    var route, key := "IN_EVICTION_NOTICE", "rent_dispute|tenant|in";
    var memory := new MemoryStore();
    memory.Update(key, route, 1.0);
    var candidates := [route, "IN_RENT_SUIT"];
    ScoreIsStoredAverage(memory.table, key, route);
    ScoreIsStoredAverage(memory.table, key, "IN_RENT_SUIT");
    var again := memory.SelectBestAction(key, candidates);
    var twice := memory.SelectBestAction(key, candidates);
    assert again == twice by {
      var i :| IsFirstBest(memory.table, key, candidates, i) && again == candidates[i];
      var i' :| IsFirstBest(memory.table, key, candidates, i') && twice == candidates[i'];
      FirstBestIsUnique(memory.table, key, candidates, i, i');
    }
    assert again == route;
  }
}
