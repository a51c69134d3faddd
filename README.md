# Turn routing and referrals of the MIT multi-agent assistant

This project is a Dafny model of how one conversation turn moves through the MIT
("Multi Intelligence Twin") assistant. It covers three layers and the state they share.

- **Module router.** A language-model reply names a module, or `"direct"`. The router
  resets the per-turn fields of the conversation state. It then hands the turn either to
  that module's coordinator or to a direct answer. A direct answer is shown up to ten
  earlier conversation lines and is appended to the conversation.
- **Coordinator.** One per module. It classifies the query to one of its sub-agents,
  falling back to the first registered one. It runs that sub-agent, then follows
  referrals from sub-agent to sub-agent. It stops at the hop limit, at a sub-agent
  already visited, or when no usable referral is left.
- **Sub-agent.** It takes the latest human message as the query and answers
  "No query provided." when there is none. Otherwise it retrieves passages, asks the
  generator for an answer and looks for a referral phrase ("consult X",
  "check with X", "refer to X", "X agent") in that answer.
- **State.** The conversation state is a record whose keys may be absent (`Option`
  fields; accessors apply the code's defaults 0, 10 and []). Messages are
  `Human(text) | Assistant(text)`.
- **Outside services.** The language model is a `Generator` value (one function per
  prompt the code sends). The retriever is a function from (collection, query, k) to
  passages.

Modules:

| file | module | contents |
|---|---|---|
| `wrappers.dfy` | `Wrappers` | `Option` and `Result` |
| `text.dfy` | `Text` | `strip`, `lower`, substring test, `join` |
| `state.dfy` | `State` | the state record, the query scan, the generator and retriever types |
| `sub_agent.dfy` | `SubAgents` | referral detection, sources and context text, one sub-agent step, class `SubAgent` |
| `coordinator.dfy` | `Coordinators` | classification, hand-off, stop rule, the referral loop and its invariant, class `Coordinator` |
| `router.dfy` | `Router` | routing decision, router reset, direct-answer history, a whole turn, class `ModuleRouter` |
| `registries.dfy` | `Registries` | the network and auth modules with their sub-agents, and turns through them |

Each class method is proved equal to a value-level function, and the properties are
proved about those functions:

- `SubAgent.Invoke` equals `AfterInvoke`.
- `Coordinator.RunTurn`, a while loop, equals `CoordinatorTurn`.
- `ModuleRouter.RunTurn` equals `RouterTurn`.

## Model

| member | source | states |
|---|---|---|
| `Text.Strip` | src/mit/core/coordinator.py:69 | the stripped reply has no whitespace at either end and is no longer than the reply |
| `Text.StripPadding` | src/mit/core/router.py:90 | stripping removes exactly the whitespace padding around a trimmed text |
| `Text.Lower` | src/mit/core/base_agent.py:117 | lower-casing keeps the length and lower-cases each character |
| `Text.NormalizePaddedName` | src/mit/core/coordinator.py:69 | a reply that spells a lower-case name in any case, padded with whitespace, normalises to that name |
| `State.QueryIsLastHumanText` | src/mit/core/base_agent.py:134-142 | the query is the text of the human entry that no later human entry follows |
| `State.LatestHumanQuery` | src/mit/core/base_agent.py:134-142 | a non-empty query is the text of some human entry of the conversation |
| `State.NoHumanNoQuery` | src/mit/core/base_agent.py:135 | without any human entry the query is "" |
| `State.ExtractQuery` | src/mit/core/router.py:155-162 | the backwards scan with its early exit finds exactly that query |
| `State.ReceiveQuery` | src/mit/main.py:35-44 | a new turn's input is appended to the persisted conversation as one human entry holding the query, which becomes the latest query; nothing else changes |
| `SubAgents.FirstReferral` | src/mit/core/base_agent.py:115-129 | a detected referral is a candidate the answer refers to; none is detected exactly when no candidate is referred to |
| `SubAgents.FirstReferralIsEarliest` | src/mit/core/base_agent.py:118-128 | the detected referral is the first candidate, in `can_refer_to` order, that the answer refers to |
| `SubAgents.DetectReferral` | src/mit/core/base_agent.py:115-129 | the early-return scan over `can_refer_to` returns that first referred candidate, or None |
| `SubAgents.ReferralIn` | src/mit/core/base_agent.py:115-129 | a detected referral is one of `can_refer_to` whose trigger phrase occurs in the lower-cased answer; none is detected exactly when no candidate's phrase occurs |
| `SubAgents.NameWithCapitalNeverReferred` | src/mit/core/base_agent.py:117-127 | only the answer is lower-cased, so a name holding a capital letter is never detected |
| `SubAgents.NameTestIsImpliedByPhrase` | src/mit/core/base_agent.py:119-127 | a candidate is detected exactly when one of its four trigger phrases occurs; a bare mention of the name is not enough |
| `SubAgents.ReferralIgnoresAnswerCase` | src/mit/core/base_agent.py:117 | the case of the answer never changes the detected referral |
| `SubAgents.ConsultOauthExample` | src/mit/core/base_agent.py:121-128 | "Please Consult Oauth agent" refers an agent that may refer to "oauth" to "oauth" |
| `SubAgents.Sources` | src/mit/core/base_agent.py:110 | one source per passage, in order: its `source` metadata or "unknown" |
| `SubAgents.ContextBlocks` | src/mit/core/base_agent.py:93-96 | one "[source]\ncontent" block per passage, in order |
| `SubAgents.ContextText` | src/mit/core/base_agent.py:93-96 | the context text is empty exactly when there are no passages |
| `SubAgents.ContextTextAppend` | src/mit/core/base_agent.py:93-96 | the context text is empty without passages and grows by a blank line and one block per passage |
| `SubAgents.WithoutSelf` | src/mit/core/base_agent.py:45 | the stored siblings are exactly the given ones other than the agent itself |
| `SubAgents.TemplateFor` | src/mit/core/base_agent.py:36-46 | the template used is the stored one when it was built, and otherwise the one `set_siblings` would build from the agent's name and current siblings, naming that agent and those siblings |
| `SubAgents.Response` | src/mit/core/base_agent.py:88-113 | the response's answer is the generated text (prompted with the lazily built template), its referral is the one detected in that answer, hence one of `can_refer_to` and none when that list is empty; its sources follow the passages, and it had context exactly when passages were found |
| `SubAgents.AfterInvoke` | src/mit/core/base_agent.py:131-160 | a sub-agent step changes only context, answer and referral; without a query it answers "No query provided." and clears the referral, touching nothing else; otherwise it stores the passages retrieved with k = 5, the generated answer (corrected template, see Findings), and the referral detected in that answer; in both cases the final answer is this agent's answer to the latest query |
| `SubAgents.AfterInvokeAsWritten` | src/mit/core/base_agent.py:98 | as written, a step with a query fails when the prompt template was never built, and equals the corrected step once it was |
| `SubAgents.UnwiredIssuesAgentFails` | src/mit/core/base_agent.py:36 | a freshly built "issues" agent asked "How do I fix a 504 error?" fails as written |
| `SubAgents.SubAgent.constructor` | src/mit/core/base_agent.py:30-37 | a new sub-agent has no siblings and no prompt template, so its template is consistent with its siblings |
| `SubAgents.SubAgent.SetSiblings` | src/mit/core/base_agent.py:39-46 | overwrites the siblings with the given ones minus itself and rebuilds the template from them, keeping the template consistent with the siblings |
| `SubAgents.SubAgent.Generate` | src/mit/core/base_agent.py:88-113 | the object's generation step produces `Response` of its current configuration, using the stored template or, when none was built, one built from its current siblings (the corrected behaviour, see Findings) |
| `SubAgents.SubAgent.Invoke` | src/mit/core/base_agent.py:131-160 | the object's step produces `AfterInvoke` of its current configuration, so it uses the corrected template as well |
| `Coordinators.ClassifyQuery` | src/mit/core/coordinator.py:64-79 | the classification is always registered: the normalised reply when it is a registered name, else the first registered name |
| `Coordinators.ClassifyNode` | src/mit/core/coordinator.py:81-100 | classification makes its sub-agent current, adds exactly one hop, appends it to the visited list and changes nothing else |
| `Coordinators.RouteToSubAgent` | src/mit/core/coordinator.py:102-104 | the next sub-agent is the current one, or the first registered one when none is set |
| `Coordinators.HandleReferral` | src/mit/core/coordinator.py:106-118 | a present, non-empty, registered referral becomes current, adds one hop, is appended to the visited list and is cleared; any other state is returned unchanged |
| `Coordinators.ShouldContinue` | src/mit/core/coordinator.py:120-138 | the turn ends at the hop limit whatever the referral, and goes on exactly when a usable referral names an unvisited sub-agent |
| `Coordinators.HandoffShrinksUnvisited` | src/mit/core/coordinator.py:133-136 | every hand-off removes one sub-agent from the unvisited ones, so the referral loop terminates |
| `Coordinators.Referrals` | src/mit/core/coordinator.py:179-192 | the referral loop ends where the stop rule says end; it keeps messages, thread, module and hop limit, keeps an answer once there is one, and adds one hop per appended visit |
| `Coordinators.ClassifyStartsInvariant` | src/mit/core/coordinator.py:93-100 | classification from zero hops establishes the turn invariant: distinct visits, one hop per visit, only registered agents, within the limit or at the first hop |
| `Coordinators.HandoffKeepsInvariant` | src/mit/core/coordinator.py:106-118 | a hand-off the stop rule allowed keeps that invariant |
| `Coordinators.ReferralsKeepInvariant` | src/mit/core/coordinator.py:179-192 | the whole referral loop keeps that invariant |
| `Coordinators.ReferralsAnsweredByLast` | src/mit/core/coordinator.py:179-192 | when the current sub-agent is the last one visited and the final answer is its answer to the latest query, the referral loop keeps both: every hand-off runs the sub-agent it has just made current |
| `Coordinators.DistinctVisitsBound` | src/mit/core/coordinator.py:133-135 | distinct visits to registered sub-agents are at most as many as the registry holds |
| `Coordinators.CoordinatorTurnBounds` | src/mit/core/coordinator.py:154-194 | a module turn from zero hops ends with the stop rule saying end, leaves messages alone, never visits a sub-agent twice, counts one hop per visit, and takes between 1 and (number of sub-agents) hops, and at most the hop limit when that limit is at least 1; the current sub-agent is the last one visited and the final answer is its answer to the latest query ("No query provided." without one) |
| `Coordinators.CoordinatorTurn` | src/mit/core/coordinator.py:154-194 | a module turn (classify, sub-agent, then hand-offs while the stop rule says continue) ends where the stop rule says end, with an answer; it keeps messages, thread, module and hop limit, only extends the visited list, by at least one agent, and adds one hop per new visit |
| `Coordinators.BuildDefaultGraph` | src/mit/core/coordinator.py:154-194 | the default graph: classify, the sub-agents in order and the hand-off node; every sub-agent name dispatches to its own node; "continue" leads to the hand-off and "end" to the end |
| `Coordinators.BranchesAreDefined` | src/mit/core/coordinator.py:173-192 | every branch label classification, hand-off and stop rule produce has an entry in the graph, leading to the node of that name |
| `Coordinators.Coordinator.constructor` | src/mit/core/coordinator.py:28-40 | a new coordinator has its name and registry and no graph yet |
| `Coordinators.Coordinator.GetGraph` | src/mit/core/coordinator.py:148-152 | the graph is built on the first call only; later calls return the stored one |
| `Coordinators.Coordinator.InvokeNamed` | src/mit/core/coordinator.py:165-166 | running the node of a registered sub-agent name runs that sub-agent's step, `AfterInvoke` of the sub-agent registered under that name |
| `Coordinators.Coordinator.RunTurn` | src/mit/core/coordinator.py:154-194 | the classify, sub-agent, stop rule, hand-off loop driven by the graph produces `CoordinatorTurn` |
| `Router.RouteQuery` | src/mit/core/router.py:85-102 | the routing decision is "direct" or a module; the normalised reply only when it names a module, "direct" for every other reply |
| `Router.RouterNode` | src/mit/core/router.py:149-178 | the router node records the decision, resets hops, visits, answer and referral, fixes the hop limit (default 10), and keeps messages, context, last sub-agent and thread id |
| `Router.RouterNodeForgetsPreviousTurn` | src/mit/core/router.py:166-178 | what the previous turn left in the per-turn fields never reaches the router node's result |
| `Router.RouteToModule` | src/mit/core/router.py:180-182 | the branch taken is the current module, "direct" when none is set |
| `Router.RouteMap` | src/mit/core/router.py:203-205 | the branch map sends every module and "direct" to the node of the same name, and nothing else is mapped |
| `Router.RouteIsAlwaysMapped` | src/mit/core/router.py:180-205 | the branch a routed turn takes is always in the branch map |
| `Router.HistoryLines` | src/mit/core/router.py:121-128 | one history line per entry, in order |
| `Router.MessagesContext` | src/mit/core/router.py:118-134 | with at most one entry the history is "No previous conversation."; otherwise it starts with the history header |
| `Router.HistoryIsLastTenPriorEntries` | src/mit/core/router.py:119-130 | the history shown is the lines of the (up to) ten entries before the current one, oldest first |
| `Router.OlderEntriesAreNotShown` | src/mit/core/router.py:130 | entries older than the ten before the current one never reach the direct answer |
| `Router.BuildMessagesContext` | src/mit/core/router.py:119-134 | the line-accumulating loop and the slice produce exactly that history |
| `Router.DirectResponse` | src/mit/core/router.py:104-147 | a direct answer keeps the prior messages, appends exactly one assistant entry, and that entry's text is the final answer; nothing else changes |
| `Router.DirectAnswerJoinsHistory` | src/mit/core/router.py:138-147 | after a direct answer the question is still the latest query, and the next turn's history ends with the answer |
| `Router.RouterTurnBounds` | src/mit/core/router.py:184-212 | every turn ends with an answer; a direct turn appends exactly that answer and uses no hops; a module turn goes to a registered module, leaves messages alone with distinct visits, one hop per visit, between 1 and as many hops as the module has sub-agents, within a hop limit of at least 1, and its final answer is the last visited sub-agent's answer to the latest query |
| `Router.RouterTurn` | src/mit/core/router.py:184-212 | a turn ends with an answer and a branch; a direct turn appends that answer as one assistant entry; a module turn goes to a registered module and leaves the messages alone |
| `Router.DirectBranch` | src/mit/core/router.py:202-208 | a turn routed "direct" is the direct-answer node applied to the router node's result |
| `Router.ModuleBranch` | src/mit/core/router.py:194-210 | a turn routed to a module is that module's coordinator turn started from the router node's result |
| `Router.ModuleTurnBounds` | src/mit/core/router.py:194-210 | a module turn is sound for the module it was routed to: the bounds and the final answer of `CoordinatorTurnBounds`, stated against the conversation the router received |
| `Router.UnknownReplyIsAnsweredDirectly` | src/mit/core/router.py:96-102 | a routing reply naming no module, whatever its case and padding, is answered directly, appended to the conversation, with no hops |
| `Router.TurnIgnoresLeftovers` | src/mit/core/router.py:166-178 | the previous turn's hops, visits, answer and referral never change a turn's outcome |
| `Router.BuildRouterGraph` | src/mit/core/router.py:184-212 | the main graph: route, direct and one node per module, entered at route, with the route map as its branches |
| `Router.EveryBranchEnds` | src/mit/core/router.py:207-210 | every node the route map reaches goes straight to the end |
| `Router.ModuleRouter.constructor` | src/mit/core/router.py:23-32 | a router holds its module registry; given coordinators that each have a sub-agent, every module it holds is staffed |
| `Router.ModuleRouter.Route` | src/mit/core/router.py:149-178 | the object's router node, with its backwards query scan, produces `RouterNode` |
| `Router.ModuleRouter.DirectResponseNode` | src/mit/core/router.py:104-147 | the object's direct-answer node produces `DirectResponse` |
| `Router.ModuleRouter.BuildGraph` | src/mit/core/router.py:184-212 | building the main graph yields its wiring; each coordinator then holds the graph it already had, or else the default graph of its own sub-agents |
| `Router.ModuleRouter.RunTurn` | src/mit/core/router.py:184-212 | the object's turn produces `RouterTurn` |
| `Registries.NetworkAgent` | src/mit/agents/network/agent.py:19-24 | the network coordinator registers api_ref, then issues, and issues may refer to api_ref |
| `Registries.AuthAgent` | src/mit/agents/auth/agent.py:18-23 | the auth coordinator registers oauth, then errors, and errors may refer to oauth |
| `Registries.CreateRouter` | src/mit/graph.py:12-28 | the router registers network, then auth, each with at least one sub-agent |
| `Registries.PhraseRefers` | src/mit/core/base_agent.py:119-128 | a trigger phrase for a name, in any case, makes an agent that may refer only to that name refer to it |
| `Registries.ModulesReferToTheirSource` | src/mit/agents/network/issues.py:33 | in both modules the first agent refers to nobody and the second may refer only to the first (issues to api_ref, errors to oauth) |
| `Registries.ReferrerStep` | src/mit/core/coordinator.py:93-100 | in such a module, a turn classified to the second agent whose answer holds a trigger phrase for the first has one hop and a pending referral to the first after that step |
| `Registries.SourceStep` | src/mit/core/coordinator.py:106-138 | within a hop limit of at least 2 that referral is followed: the first agent answers last, the referral is cleared and the turn ends |
| `Registries.ReferrerHandsOff` | src/mit/core/coordinator.py:179-192 | such a turn visits the second agent then the first, in two hops, and the first agent's answer is final |
| `Registries.HopLimitOneKeepsReferral` | src/mit/core/coordinator.py:123-127 | with a hop limit of 1 the same turn stops after the second agent, whose answer is final, and the referral stays pending |
| `Registries.SourceFirstStep` | src/mit/core/coordinator.py:76-79 | a turn not classified to the second agent runs the first agent, with one hop and no referral |
| `Registries.SourceAnswersAlone` | src/mit/agents/network/api_ref.py:31 | such a turn is answered by the first agent alone in one hop, since it refers to nobody; that agent stays current and its answer to the latest query is final |
| `Registries.ReferrerAnswersAlone` | src/mit/core/coordinator.py:120-138 | a turn classified to the second agent whose answer holds no trigger phrase for the first ends after that agent in one hop, with no referral and that agent's answer as final |
| `Registries.IssuesHandsOffToApiRef` | src/mit/agents/network/agent.py:21-24 | a network turn classified to issues whose answer says "refer to api_ref" visits issues then api_ref, and api_ref's answer is final |
| `Registries.ErrorsHandsOffToOAuth` | src/mit/agents/auth/agent.py:20-23 | an auth turn classified to errors whose answer says "consult oauth" visits errors then oauth, and oauth's answer is final |

## Left out

- Language-model calls, their prompt texts and `extract_text`. The generator is a
  function value taking only the variable parts of each prompt. The coordinator reads
  the reply without `extract_text`, so a non-string reply would fail there; every reply
  is a string in this model.
- `extract_text` itself: the router and the sub-agent import it from `src/mit/llm.py`,
  which does not define it, so those imports fail as written. The model assumes a
  helper that reduces a reply to its text.
- The turn-level members (`Coordinators.Referrals`, `Coordinators.CoordinatorTurn`,
  `Router.RouterTurn` and the lemmas about them) run sub-agents through
  `SubAgents.AfterInvoke`, the corrected step of the Findings table. With the code as
  written, a module turn whose query is non-empty fails at the first sub-agent.
- Building the language-model client. It reads a `llm_provider` setting that the
  configuration class does not define. The router's prompts also read a `description`
  that the auth coordinator does not declare. The model does not cover these
  construction paths.
- Retrieval: the vector store, the embeddings and document ingestion. The retriever is
  a function value. A sub-agent step always asks for `default_top_k` = 5 passages.
- `async`, logging, the REPL, thread ids generated with uuid, and the graph library's
  checkpointer. Persistence across turns is modelled only as the append of a new query
  (`State.ReceiveQuery`). A module graph's output state replaces the router's state,
  and the message reducer's merge by message id is not modelled.
- Graph-library validation is not modelled. Examples are two nodes with the same name
  (a module called "route" or "direct") or an unknown branch label. The branch lemmas
  show that the routing functions never produce an unmapped label.
- Text.Lower: only ASCII letters are lower-cased. Python's full Unicode case mapping
  is not modelled.
- Text.Strip: its contract states only that the result is trimmed and not longer. The
  exact result for padded text is stated by `Text.StripPadding`.
- The `confidence` score (1.0 or 0.5) is the boolean `hadContext`.
- Python `None` and an absent key are the same `None` for `final_answer` and
  `referral`. The code treats them alike.
- Object and tuple messages are both modelled by the two-case `Message`. A tuple
  tagged with a role other than "human" counts as an assistant line, as in the code.
- Registries are sequences whose keys are the agents' own names, as in the two
  concrete modules. Dictionary key uniqueness is not imposed.
- Coordinators.Coordinator.constructor: it requires a non-empty registry. With an
  empty one the code's fallback to the first sub-agent raises `StopIteration`, and
  that failure is not modelled.
- Sub-agent system prompts and descriptions, and the rendered sibling section of the
  template. The template is kept abstract as (agent, siblings).

## Findings

| source | as written | input that shows it | evidently intended | confidence | as-written member | corrected member |
|---|---|---|---|---|---|---|
| src/mit/core/base_agent.py:36 | The prompt template starts as `None` and only `set_siblings` builds it. No coordinator or router calls `set_siblings`, so `generate` pipes `None` into the model, which fails. | A freshly built "issues" agent asked "How do I fix a 504 error?" (`SubAgents.UnwiredIssuesAgentFails`). | Build the template from the current siblings before first use, as the "built lazily" comment says. | not executed | `SubAgents.AfterInvokeAsWritten` | `SubAgents.AfterInvoke` |
