# Law agent core: a verified model

This project models the sequential core of a legal-route recommender, which learns from feedback. The core has five parts:

- **Reward function.** It turns a feedback triple (vote, seconds spent, follow-up) into one additive, unclamped reward.
- **Memory store.** The table keeps one row per (state key, action key), with a running total, a use count and their average. It also holds the greedy selector, which picks the first candidate with the highest stored average. An action never tried scores 0.
- **Context key.** A keyword classifier gives the matter category. A builder joins category, user type and region into a lower-case key.
- **Legal-context resolver.** It chains five knowledge-base lookups (domain, routes, each procedure, timeline, evidence). It fails closed: any absence gives no context. Otherwise it assembles the context, with a deduplicated statute set.
- **Response adapter.** It flattens the procedures' steps into two parallel lists, `steps` and `timeline`. It copies the meta and confidence fields and attaches a fixed disclaimer.

Modules:

- `Wrappers` has `Option`.
- `Text` has ASCII case folding and substring search.
- `Reward`.
- `Memory` has the `MemoryStore` class with `Update` and `SelectBestAction`.
- `ContextKey`.
- `Nyaya` has the knowledge-base records and the flattening of steps.
- `LegalContext`.
- `ResponseAdapter`.
- `Scenario` is a client. It walks through the stub matter end to end (an Indian tenant eviction), and its assertions follow from the contracts alone.

Rewards and averages are Dafny `real`s. The knowledge base's five lookups are partial maps keyed by (country, id). A missing data file, an empty file and a missing id all mean "not in the map".

## Where the design and the code differ

- **Empty candidate list.** The intended design rejects it as invalid input. `select_best_action` instead indexes `candidate_actions[0]` without a check. The model follows the code: a non-empty list is a precondition.
- **Votes.** The design names three votes: up, down and none. The code compares against the strings `"up"` and `"down"`, so any other string, and `None`, contributes 0. The model does the same.

## Model

| member | source | states |
|---|---|---|
| `Reward.VoteScore` | app/main.py:99-103 | The vote adds exactly +1 iff it is "up" and -1 iff it is "down". Any other value, including no vote, adds 0. |
| `Reward.TimeBonus` | app/main.py:104-105 | The time bonus is 0.5 iff more than 60 seconds were spent, and 0 otherwise. So 60 seconds earn nothing. |
| `Reward.FollowUpBonus` | app/main.py:106-107 | The follow-up bonus is 0.3 iff there was a follow-up, and 0 otherwise. |
| `Reward.RewardOf` | app/memory/reward.py:1-15 | The reward is the plain sum of the three components, with no clamping. It always lies in [-1.0, 1.8]. |
| `Reward.CalculateReward` | app/main.py:98-108 | The accumulator starts at 0 and is adjusted by each signal in turn. It ends equal to the sum of the components, within [-1.0, 1.8]. |
| `Reward.CalculateMemoryReward` | app/memory/reward.py:1-15 | The memory package's variant, whose vote is a string. It returns the same reward as the service's `calculate_reward` on every input. |
| `Reward.ComponentsAreIndependent` | app/main.py:98-108 | Changing one signal changes the reward by exactly that signal's contribution. |
| `Reward.TimeBonusIsAThreshold` | app/memory/reward.py:9-10 | The bonus is a threshold, not proportional: 60 s earn 0, and every stay over 60 s earns the same 0.5. |
| `Reward.RewardTable` | app/memory/reward.py:3-15 | Worked values: (up, 30, no) gives 1.0. (down, 90, yes) gives -0.2. ("none", 10, no) and (no vote, 10, no) give 0.0. (up, 61, yes) gives 1.8. (down, 60, no) gives -1.0. |
| `ContextKey.ClassifyDomain` | app/main.py:77-87 | The result is always one of four labels. It is rent_dispute iff the lower-cased text mentions rent, tenant or landlord. Otherwise it is family_law iff the text mentions divorce or marriage. Otherwise it is employment_law iff it mentions job, salary or termination. Otherwise it is general_legal. |
| `ContextKey.BuildStateKey` | app/main.py:92-93 | The key is already lower case. Its length is the parts' lengths plus two separators. |
| `ContextKey.ClassifyIgnoresCase` | app/main.py:78 | Texts that differ only in letter case are classified alike. |
| `ContextKey.StateKeyIgnoresCase` | app/main.py:92-93 | Inputs that differ only in letter case give the same key. |
| `ContextKey.StateKeyDeterminesParts` | app/main.py:92-93 | When neither the domain nor the user type contains the separator, equal keys mean equal parts, up to letter case. |
| `ContextKey.StateKeySeparatorCollision` | app/main.py:92-93 | Without that condition, distinct inputs can collide: user type "tenant" plus the separator plus "owner" with region "in", and user type "tenant" with region "owner" plus the separator plus "in", give one key. |
| `ContextKey.ClassifyBySubstring` | app/main.py:80-81 | Matching is by substring, not by word: "Divorce from my parent" is classified rent_dispute, because "parent" contains "rent". |
| `Memory.Upsert` | app/memory/service.py:15-27 | First feedback on a key creates total = reward, times = 1, avg = reward. Later feedback adds the reward to the total and 1 to the count. The touched row satisfies avg = total / times. The key set grows by at most that key, and every other row is unchanged. |
| `Memory.Scores` | app/main.py:139-143 | The score map of a state key has exactly the actions that have a row under that key. It maps each one to that row's average. |
| `Memory.MemoryStore.Update` | app/main.py:113-133 | The in-place upsert leaves the table equal to `Upsert` of the old table. It keeps the well-formedness of every row. |
| `Memory.MemoryStore.SelectBestAction` | app/main.py:138-154 | The result is a candidate. No candidate scores higher, and a missing row scores 0. Every earlier candidate scores strictly less, so the first one wins ties. The method does not modify the memory. |
| `Memory.ScoreIsStoredAverage` | app/main.py:143-149 | A candidate's score is its row's stored average, or 0.0 when it has no row. |
| `Memory.UpsertPreservesWellFormed` | app/memory/service.py:20-27 | If every stored row has times_used >= 1 and avg = total / times_used, that still holds after an upsert. |
| `Memory.UpsertAllAccumulates` | app/memory/service.py:24-26 | After n feedbacks on one key, the count has grown by n and the total by the rewards' sum. Other rows are untouched. |
| `Memory.AverageOfFeedbacks` | app/main.py:119-131 | Starting from no row, rewards r1..rn leave times_used = n, total = r1+...+rn and avg = (r1+...+rn)/n. |
| `Memory.UpsertMovesOneScore` | app/main.py:128-131 | An upsert on (state, action) sets that action's score to the new average. It changes no other (state, action) score. |
| `Memory.FirstBestIsUnique` | app/main.py:145-154 | At most one index is the first best, so two selections over an unchanged table return the same action. |
| `Memory.NoHistoryPicksFirst` | app/main.py:145-146 | With no rows for any candidate, the first candidate is selected. |
| `Memory.LearnedActionIsSelected` | app/main.py:148-152 | Learning is monotonic: once feedback lifts action a strictly above every other candidate, a is selected. |
| `Nyaya.FlattenLength` | app/response_adapter.py:9-19 | The flattened step list has one entry per step: its length is the sum of the procedures' step counts. |
| `Nyaya.FlattenIndex` | app/response_adapter.py:9-11 | Step j of procedure i comes right after all steps of procedures 0..i-1. The order is procedure order, then step order. |
| `Nyaya.StatutesOfProcedures` | legal_context_api.py:53-56 | The statute set is exactly the set of present, non-empty statutes over all steps of all procedures. |
| `LegalContext.FindRoute` | legal_context_api.py:38-40 | No route is found iff no route has the requested id. A found route has that id, and no earlier route has it. |
| `LegalContext.FirstMatchingRouteWins` | legal_context_api.py:38 | When several routes match, the first one in list order is returned. |
| `LegalContext.FetchProcedures` | legal_context_api.py:42-56 | The fetch succeeds iff every procedure id resolves, so a partial list is never produced. On success the list has the ids' length and order, with element i the lookup of id i. The statutes are the set that the procedures' steps cite. |
| `LegalContext.GetLegalContext` | legal_context_api.py:13-77 | The result is present iff the domain, its routes, a route with the id, every procedure, the timeline and the evidence all resolve. Then country, domain and route echo the arguments, and the procedures are the route's, looked up in order. Timeline and evidence are exactly the looked-up records, and the statutes are the deduplicated set the procedures' steps cite. |
| `ResponseAdapter.AdaptDecisionForAssistant` | app/response_adapter.py:1-40 | `steps` has one entry per flattened step, with label = action and the step's statute. `timeline` runs parallel: same length, the same label at each index, and min/max days copied. Both lengths equal the total step count. Meta copies jurisdiction, domain id and route id. The title is the route name and the confidence band is the first outcome's success range. The evidence is unchanged and the disclaimer is the fixed text. |
| `ResponseAdapter.GlossaryTerms` | app/response_adapter.py:21-24 | The glossary terms are exactly the distinct step actions. |
| `ResponseAdapter.GlossaryIsTimelineLabels` | app/response_adapter.py:15-24 | The glossary terms equal the set of labels of a timeline built as the adapter builds it. |
| `ResponseAdapter.PayloadFollowsProcedureOrder` | app/response_adapter.py:9-19 | In a payload meeting the adapter's contract, step j of procedure i sits at the earlier procedures' total step count plus j. It is at that index in both lists. |

## Left out

- HTTP endpoints, CORS, request schemas and the database session (app/main.py:13-72, 188-245, 313-318). These are transport and ORM plumbing. The memory table is a `map` field of `MemoryStore`.
- Analytics endpoints (app/main.py:247-311). They are database `order_by ... limit` queries whose order for equal averages is set by the database.
- PDF text extraction and regex fact extraction (app/main.py:156-186, app/documents/). These are calls into a PDF library and regular-expression heuristics.
- File and JSON loading of the knowledge base (nyaya_loader.py). Each of its lookups is "a key in a dictionary, or None", so each is a partial map in `Nyaya.KnowledgeBase`. `get_glossary` is imported by the resolver but never called.
- The HTTP client (app/lka_client.py) and the stub service (lka_stub.py). The stub's records serve only as fixture data in `Scenario`.
- The ORM column declaration (app/memory/models.py). Its shape is `Memory.Record`.
- The whole front end (law-agent-frontend/).
- The "decision" flow (selector, then procedures, evidence and outcome signals). Its driver is not part of this model. `ResponseAdapter.AdaptDecisionForAssistant` takes the decision record as given.
- Floating point. Rewards and averages are exact reals, so nothing is claimed about IEEE rounding.
- Concurrency and the atomicity of the database commit. Each upsert is one sequential step.
- Missing dictionary fields, and the `.get(..., [])` defaults in the resolver. Records have required fields, so a `KeyError` on malformed input is not modelled. A step's statute is an `Option`, and `None` or `""` counts as absent, as in `if statute:`.
- The resolver's statutes are returned as `list(set)`, in hash order. The model returns the set.
- Timeline records are passed through without being interpreted. Their entries are opaque strings.
- Memory.MemoryStore.Update: the ORM row mutated in place is a record value replaced in the map, so aliasing of row objects is not modelled.
- Memory.MemoryStore.SelectBestAction: the empty candidate list, which raises `IndexError` in the source, is excluded by a precondition.
- ResponseAdapter.AdaptDecisionForAssistant: an empty outcomes list, which raises `IndexError` in the source, is excluded by a precondition.
- ContextKey.ClassifyDomain: case folding is ASCII only. Unicode `str.lower()` is not modelled.
- ContextKey.BuildStateKey: case folding is ASCII only. Unicode `str.lower()` is not modelled.
