/**
  The module router: the entry of every turn. It resets the per-turn fields,
  decides between a module coordinator and a direct answer, and for a direct
  answer shows the generator the recent conversation.
*/
module Router {
  import opened Wrappers
  import opened Text
  import opened State
  import opened SubAgents
  import opened Coordinators

  /** The routing branch for "answer without a module". */
  const Direct := "direct"
  const RouteNodeId := "route"
  /** How many prior conversation lines the direct answer is shown. */
  const HistoryWindow: nat := 10
  const HistoryHeader := "Previous conversation:\n"
  const NoHistory := "No previous conversation."

  /**
    Routing decision: the normalised reply when it names a module, and
    "direct" for the reply "direct" and for every unknown reply alike.
  */
  function RouteQuery(modules: seq<string>, reply: string): (r: string)
    ensures r == Direct || r in modules
    ensures Normalize(reply) in modules ==> r == Normalize(reply)
    ensures Normalize(reply) !in modules ==> r == Direct
  {
    var decision := Normalize(reply);
    if decision in modules then decision
    else if decision == Direct then Direct
    else Direct
  }

  /**
    The router node: records the routing decision, resets the per-turn
    bookkeeping, fixes the hop limit, and keeps the conversation, the last
    context, the last sub-agent and the thread id.
  */
  function RouterNode(modules: seq<string>, gen: Generator, s: AgentState): (r: AgentState)
    ensures r.currentModule == Some(RouteQuery(modules, gen.routeModule(LatestHumanQuery(s.messages))))
    ensures r.hopCount == Some(0) && r.visitedAgents == Some([])
    ensures r.finalAnswer == None && r.referral == None
    ensures r.maxHops == Some(MaxHops(s))
    ensures r.messages == s.messages
    ensures r.context == Some(s.context.GetOr([]))
    ensures r.currentSubAgent == Some(s.currentSubAgent.GetOr(""))
    ensures r.threadId == Some(s.threadId.GetOr(""))
  {
    var moduleName := RouteQuery(modules, gen.routeModule(LatestHumanQuery(s.messages)));
    s.(currentModule := Some(moduleName),
       currentSubAgent := Some(s.currentSubAgent.GetOr("")),
       hopCount := Some(0),
       maxHops := Some(MaxHops(s)),
       visitedAgents := Some([]),
       context := Some(s.context.GetOr([])),
       finalAnswer := None,
       referral := None,
       threadId := Some(s.threadId.GetOr("")))
  }

  /**
    Nothing the previous turn left in the per-turn fields (hops, visits, answer,
    referral, module) reaches the state the router node produces.
  */
  lemma RouterNodeForgetsPreviousTurn(modules: seq<string>, gen: Generator, s1: AgentState, s2: AgentState)
    requires s1.messages == s2.messages && s1.threadId == s2.threadId
    requires s1.currentSubAgent == s2.currentSubAgent && s1.maxHops == s2.maxHops
    requires s1.context == s2.context
    ensures RouterNode(modules, gen, s1) == RouterNode(modules, gen, s2)
  {
  }

  /** The branch the graph takes after the router node. */
  function RouteToModule(s: AgentState): (r: string)
    ensures s.currentModule.Some? ==> r == s.currentModule.value
    ensures s.currentModule.None? ==> r == Direct
  {
    s.currentModule.GetOr(Direct)
  }

  /** The router's branch map: every module to its own node, "direct" to the
      direct-answer node. */
  function RouteMap(modules: seq<string>): (m: map<string, string>)
    ensures m.Keys == (set n | n in modules) + {Direct}
    ensures forall k | k in m :: m[k] == k
  {
    (map n | n in modules :: n)[Direct := Direct]
  }

  /** Every label a turn produces has an entry in the branch map, which
      leads to the node of the same name. */
  lemma RouteIsAlwaysMapped(modules: seq<string>, gen: Generator, s: AgentState)
    ensures var branch := RouteToModule(RouterNode(modules, gen, s));
            branch in RouteMap(modules) && RouteMap(modules)[branch] == branch
  {
  }

  // ---------------------------------------------------------------------
  // The direct answer
  // ---------------------------------------------------------------------

  /** One line of the conversation shown to the direct answer. */
  function HistoryLine(m: Message): string {
    match m
    case Human(text) => "User: " + text
    case Assistant(text) => "Assistant: " + text
  }

  /** One line per entry, in order. */
  function HistoryLines(messages: seq<Message>): (r: seq<string>)
    ensures |r| == |messages|
    ensures forall i | 0 <= i < |messages| :: r[i] == HistoryLine(messages[i])
  {
    if messages == [] then [] else HistoryLines(messages[..|messages| - 1]) + [HistoryLine(messages[|messages| - 1])]
  }

  /** Python's `lines[-n:]`. */
  function LastN(lines: seq<string>, n: nat): (r: seq<string>)
    ensures |r| == if |lines| < n then |lines| else n
    ensures r == lines[|lines| - |r|..]
  {
    if |lines| <= n then lines else lines[|lines| - n..]
  }

  /**
    The conversation text the direct answer is shown: every entry except the
    last (the current question) as a line, the last ten of them under a
    header, or a fixed sentence when there is at most one entry.
  */
  function MessagesContext(messages: seq<Message>): (r: string)
    ensures |messages| <= 1 ==> r == NoHistory
    ensures |messages| > 1 ==> StartsWith(r, HistoryHeader) && r != NoHistory
  {
    var historyLines := if |messages| > 1 then HistoryLines(messages[..|messages| - 1]) else [];
    if historyLines != [] then
      var r := HistoryHeader + Join("\n", LastN(historyLines, HistoryWindow));
      assert r[..|HistoryHeader|] == HistoryHeader;
      assert r[0] != NoHistory[0];
      r
    else NoHistory
  }

  /** The entries whose lines the direct answer is shown: the (up to) ten
      before the last one. */
  function ShownEntries(messages: seq<Message>): (r: seq<Message>)
    requires |messages| > 0
    ensures |r| == if |messages| - 1 < HistoryWindow then |messages| - 1 else HistoryWindow
    ensures r == messages[|messages| - 1 - |r|..|messages| - 1]
  {
    var last := |messages| - 1;
    if last < HistoryWindow then messages[..last] else messages[last - HistoryWindow..last]
  }

  /** The history shown is exactly the lines of those entries, oldest first. */
  lemma HistoryIsLastTenPriorEntries(messages: seq<Message>)
    requires |messages| > 1
    ensures MessagesContext(messages) == HistoryHeader + Join("\n", HistoryLines(ShownEntries(messages)))
  {
    var lines := HistoryLines(messages[..|messages| - 1]);
    assert LastN(lines, HistoryWindow) == HistoryLines(ShownEntries(messages));
  }

  /** Entries older than the ten before the current one never reach the
      direct answer. */
  lemma OlderEntriesAreNotShown(older: seq<Message>, messages: seq<Message>)
    requires |messages| > HistoryWindow
    ensures MessagesContext(older + messages) == MessagesContext(messages)
  {
    var all := older + messages;
    var shownAll := ShownEntries(all);
    var shown := ShownEntries(messages);
    forall i | 0 <= i < |shown|
      ensures shownAll[i] == shown[i]
    {
      assert shownAll[i] == all[|all| - 1 - HistoryWindow + i];
    }
    assert shownAll == shown;
    HistoryIsLastTenPriorEntries(all);
    HistoryIsLastTenPriorEntries(messages);
  }

  /** The `history_lines` loop over all entries but the last, then the slice. */
  method BuildMessagesContext(messages: seq<Message>) returns (context: string)
    ensures context == MessagesContext(messages)
  {
    var historyLines: seq<string> := [];
    if |messages| > 1 {
      var prior := messages[..|messages| - 1];
      var i := 0;
      while i < |prior|
        invariant 0 <= i <= |prior|
        invariant historyLines == HistoryLines(prior[..i])
      {
        assert prior[..i + 1][..i] == prior[..i];
        historyLines := historyLines + [HistoryLine(prior[i])];
        i := i + 1;
      }
      assert prior[..i] == prior;
    }
    if historyLines != [] {
      context := HistoryHeader + Join("\n", LastN(historyLines, HistoryWindow));
    } else {
      context := NoHistory;
    }
  }

  /**
    The direct-answer node: the generated answer is appended to the
    conversation as one assistant entry and becomes the final answer.
  */
  function DirectResponse(gen: Generator, s: AgentState): (r: AgentState)
    ensures |r.messages| == |s.messages| + 1
    ensures r.messages[..|s.messages|] == s.messages
    ensures r.messages[|s.messages|].Assistant?
    ensures r.finalAnswer == Some(r.messages[|s.messages|].text)
    ensures r.finalAnswer == Some(gen.answerDirectly(MessagesContext(s.messages), LatestHumanQuery(s.messages)))
    ensures r == s.(messages := r.messages, finalAnswer := r.finalAnswer)
  {
    var reply := gen.answerDirectly(MessagesContext(s.messages), LatestHumanQuery(s.messages));
    s.(messages := s.messages + [Assistant(reply)], finalAnswer := Some(reply))
  }

  /**
    After a direct answer the question is still the latest human entry, and
    the next turn's history ends with this question and its answer.
  */
  lemma DirectAnswerJoinsHistory(gen: Generator, s: AgentState, next: string)
    ensures LatestHumanQuery(DirectResponse(gen, s).messages) == LatestHumanQuery(s.messages)
    ensures var after := DirectResponse(gen, s).messages + [Human(next)];
            var lines := HistoryLines(after[..|after| - 1]);
            lines[|lines| - 1] == "Assistant: " + DirectResponse(gen, s).finalAnswer.value
  {
    var m := DirectResponse(gen, s).messages;
    assert m[..|m| - 1] == s.messages;
  }

  // ---------------------------------------------------------------------
  // A whole turn
  // ---------------------------------------------------------------------

  /** A module as a value: its name and its coordinator's sub-agents. */
  datatype ModuleView = ModuleView(name: string, agents: seq<SubAgentView>)

  /** The module registry's keys, in order. */
  function ModuleNames(modules: seq<ModuleView>): (r: seq<string>)
    ensures |r| == |modules|
    ensures forall i | 0 <= i < |modules| :: r[i] == modules[i].name
  {
    seq(|modules|, i requires 0 <= i < |modules| => modules[i].name)
  }

  predicate AllStaffed(modules: seq<ModuleView>) {
    forall i | 0 <= i < |modules| :: modules[i].agents != []
  }

  /**
    One turn of the main graph: route, then either the direct answer or the
    chosen module's coordinator turn; both end the turn.
  */
  function RouterTurn(modules: seq<ModuleView>, gen: Generator, retrieve: Retriever, s: AgentState): (r: AgentState)
    requires AllStaffed(modules)
    ensures r.finalAnswer.Some? && r.currentModule.Some?
    ensures r.currentModule.value == Direct ==> r.messages == s.messages + [Assistant(r.finalAnswer.value)]
    ensures r.currentModule.value != Direct ==> r.currentModule.value in ModuleNames(modules) && r.messages == s.messages
  {
    var names := ModuleNames(modules);
    var routed := RouterNode(names, gen, s);
    var branch := RouteToModule(routed);
    if branch == Direct then DirectResponse(gen, routed)
    else
      var m := modules[IndexOf(names, branch)];
      CoordinatorTurn(m.name, m.agents, gen, retrieve, routed)
  }

  /** A turn the router answers directly is the direct-answer node's result. */
  lemma DirectBranch(modules: seq<ModuleView>, gen: Generator, retrieve: Retriever, s: AgentState)
    requires AllStaffed(modules)
    requires RouteToModule(RouterNode(ModuleNames(modules), gen, s)) == Direct
    ensures RouterTurn(modules, gen, retrieve, s) == DirectResponse(gen, RouterNode(ModuleNames(modules), gen, s))
  {
  }

  /** A turn the router sends to a module is that module's coordinator turn. */
  lemma ModuleBranch(modules: seq<ModuleView>, gen: Generator, retrieve: Retriever, s: AgentState)
    requires AllStaffed(modules)
    requires RouteToModule(RouterNode(ModuleNames(modules), gen, s)) != Direct
    ensures var routed := RouterNode(ModuleNames(modules), gen, s);
            var m := modules[IndexOf(ModuleNames(modules), RouteToModule(routed))];
            RouterTurn(modules, gen, retrieve, s) == CoordinatorTurn(m.name, m.agents, gen, retrieve, routed)
  {
  }

  /**
    What a turn the router sent to module `m` ends with: the conversation left
    alone, no sub-agent visited twice, one hop per visit, no more hops than the
    module has sub-agents, within the hop limit whenever that limit is at
    least 1, and the answer of the last sub-agent visited, which is the
    current one, as the final answer.
  */
  ghost predicate ModuleTurnSound(m: ModuleView, gen: Generator, retrieve: Retriever, s: AgentState, r: AgentState) {
    && r.messages == s.messages
    && NoDup(Visited(r))
    && HopCount(r) == |Visited(r)|
    && 1 <= HopCount(r) <= |m.agents|
    && (MaxHops(s) >= 1 ==> HopCount(r) <= MaxHops(s))
    && r.currentSubAgent == Some(Visited(r)[|Visited(r)| - 1])
    && r.currentSubAgent.value in Names(m.agents)
    && r.finalAnswer == Some(AnswerOf(AgentNamed(m.agents, r.currentSubAgent.value), gen, retrieve, LatestHumanQuery(s.messages)))
  }

  /**
    Every turn ends with an answer. A direct turn appends exactly that answer
    to the conversation and uses no hops. A module turn is sound for the
    module it was sent to.
  */
  lemma RouterTurnBounds(modules: seq<ModuleView>, gen: Generator, retrieve: Retriever, s: AgentState)
    requires AllStaffed(modules)
    ensures var r := RouterTurn(modules, gen, retrieve, s);
            && r.finalAnswer.Some?
            && r.currentModule.Some?
            && (r.currentModule.value == Direct ==>
                  && r.messages == s.messages + [Assistant(r.finalAnswer.value)]
                  && HopCount(r) == 0 && Visited(r) == [])
            && (r.currentModule.value != Direct ==>
                  && r.currentModule.value in ModuleNames(modules)
                  && ModuleTurnSound(modules[IndexOf(ModuleNames(modules), r.currentModule.value)], gen, retrieve, s, r))
  {
    var routed := RouterNode(ModuleNames(modules), gen, s);
    if RouteToModule(routed) != Direct {
      ModuleTurnBounds(modules, gen, retrieve, s);
    } else {
      DirectBranch(modules, gen, retrieve, s);
    }
  }

  /** The module branch of a turn is sound for the module it was sent to. */
  lemma ModuleTurnBounds(modules: seq<ModuleView>, gen: Generator, retrieve: Retriever, s: AgentState)
    requires AllStaffed(modules)
    requires RouteToModule(RouterNode(ModuleNames(modules), gen, s)) != Direct
    ensures var r := RouterTurn(modules, gen, retrieve, s);
            && r.currentModule == Some(RouteToModule(RouterNode(ModuleNames(modules), gen, s)))
            && ModuleTurnSound(modules[IndexOf(ModuleNames(modules), r.currentModule.value)], gen, retrieve, s, r)
  {
    var names := ModuleNames(modules);
    var routed := RouterNode(names, gen, s);
    var branch := RouteToModule(routed);
    var m := modules[IndexOf(names, branch)];
    ModuleBranch(modules, gen, retrieve, s);
    assert routed.currentModule == Some(branch);
    assert MaxHops(routed) == MaxHops(s) && routed.messages == s.messages;
    CoordinatorTurnSound(m, gen, retrieve, s, routed);
  }

  /** A coordinator turn started from a routed state is sound for its module. */
  lemma CoordinatorTurnSound(m: ModuleView, gen: Generator, retrieve: Retriever, s: AgentState, routed: AgentState)
    requires m.agents != [] && HopCount(routed) == 0 && Visited(routed) == []
    requires routed.messages == s.messages && MaxHops(routed) == MaxHops(s)
    ensures var r := CoordinatorTurn(m.name, m.agents, gen, retrieve, routed);
            r.currentModule == routed.currentModule && ModuleTurnSound(m, gen, retrieve, s, r)
  {
    CoordinatorTurnBounds(m.name, m.agents, gen, retrieve, routed);
  }

  /** A routing reply naming no module, whatever its case and padding, is
      answered directly and appended to the conversation, with no hops. */
  lemma UnknownReplyIsAnsweredDirectly(modules: seq<ModuleView>, gen: Generator, retrieve: Retriever, s: AgentState)
    requires AllStaffed(modules)
    requires Normalize(gen.routeModule(LatestHumanQuery(s.messages))) !in ModuleNames(modules)
    ensures var r := RouterTurn(modules, gen, retrieve, s);
            && r.currentModule == Some(Direct)
            && r.messages == s.messages + [Assistant(r.finalAnswer.value)]
            && HopCount(r) == 0 && Visited(r) == []
  {
    var routed := RouterNode(ModuleNames(modules), gen, s);
    assert RouteToModule(routed) == Direct;
  }

  /** The previous turn's per-turn fields never change the outcome of a turn. */
  lemma TurnIgnoresLeftovers(modules: seq<ModuleView>, gen: Generator, retrieve: Retriever, s1: AgentState, s2: AgentState)
    requires AllStaffed(modules)
    requires s1.messages == s2.messages && s1.threadId == s2.threadId
    requires s1.currentSubAgent == s2.currentSubAgent && s1.maxHops == s2.maxHops
    requires s1.context == s2.context
    ensures RouterTurn(modules, gen, retrieve, s1) == RouterTurn(modules, gen, retrieve, s2)
  {
    RouterNodeForgetsPreviousTurn(ModuleNames(modules), gen, s1, s2);
  }

  /** The wiring of the main graph. */
  datatype RouterGraph = RouterGraph(
    nodes: seq<string>,
    entry: string,
    routeMap: map<string, string>,
    toEnd: set<string>)

  function BuildRouterGraph(modules: seq<string>): (g: RouterGraph)
    ensures g.nodes == [RouteNodeId, Direct] + modules
    ensures g.entry == RouteNodeId
    ensures g.routeMap == RouteMap(modules)
    ensures g.toEnd == {Direct} + set n | n in modules
  {
    RouterGraph([RouteNodeId, Direct] + modules, RouteNodeId, RouteMap(modules), {Direct} + set n | n in modules)
  }

  /** Every node the branch map can reach goes straight to the end. */
  lemma EveryBranchEnds(modules: seq<string>)
    ensures var g := BuildRouterGraph(modules);
            forall k | k in g.routeMap :: g.routeMap[k] in g.toEnd
  {
  }

  /** The router object: its ordered registry of module coordinators. */
  class ModuleRouter {
    const agents: seq<Coordinator>

    constructor (agents: seq<Coordinator>)
      requires forall i | 0 <= i < |agents| :: agents[i].subAgents != []
      ensures this.agents == agents
      ensures Valid()
    {
      this.agents := agents;
    }

    /** Every coordinator has at least one sub-agent. */
    predicate Valid() {
      forall i | 0 <= i < |agents| :: agents[i].subAgents != []
    }

    /** The registry's keys, in order. */
    function Modules(): (r: seq<string>)
      ensures |r| == |agents|
      ensures forall i | 0 <= i < |agents| :: r[i] == agents[i].name
    {
      seq(|agents|, i requires 0 <= i < |agents| => agents[i].name)
    }

    /** The sub-agent objects of all coordinators. */
    function SubAgentObjects(): set<SubAgent> {
      set i, a | 0 <= i < |agents| && a in agents[i].subAgents :: a
    }

    /** The registry as values. */
    function Views(): (r: seq<ModuleView>)
      reads SubAgentObjects()
      ensures |r| == |agents|
      ensures forall i | 0 <= i < |agents| :: r[i] == ModuleView(agents[i].name, agents[i].Views())
    {
      seq(|agents|, i requires 0 <= i < |agents| reads SubAgentObjects() => ModuleView(agents[i].name, agents[i].Views()))
    }

    /** The router node, with the query found by the backwards scan. */
    method Route(gen: Generator, s: AgentState) returns (r: AgentState)
      ensures r == RouterNode(Modules(), gen, s)
    {
      var query := ExtractQuery(s.messages);
      var moduleName := RouteQuery(Modules(), gen.routeModule(query));
      r := s.(currentModule := Some(moduleName),
              currentSubAgent := Some(s.currentSubAgent.GetOr("")),
              hopCount := Some(0),
              maxHops := Some(MaxHops(s)),
              visitedAgents := Some([]),
              context := Some(s.context.GetOr([])),
              finalAnswer := None,
              referral := None,
              threadId := Some(s.threadId.GetOr("")));
    }

    /** The direct-answer node. */
    method DirectResponseNode(gen: Generator, s: AgentState) returns (r: AgentState)
      ensures r == DirectResponse(gen, s)
    {
      var query := ExtractQuery(s.messages);
      var context := BuildMessagesContext(s.messages);
      var reply := gen.answerDirectly(context, query);
      r := s.(messages := s.messages + [Assistant(reply)], finalAnswer := Some(reply));
    }

    /** Builds the main graph, building (or reusing) every module's graph. */
    method BuildGraph() returns (g: RouterGraph)
      modifies set i | 0 <= i < |agents| :: agents[i]
      ensures g == BuildRouterGraph(Modules())
      ensures forall i | 0 <= i < |agents| ::
                agents[i].graph == if old(agents[i].graph).Some? then old(agents[i].graph)
                                   else Some(BuildDefaultGraph(agents[i].SubAgentNames()))
    {
      var i := 0;
      while i < |agents|
        invariant 0 <= i <= |agents|
        invariant forall j | 0 <= j < i :: agents[j].graph.Some?
        invariant forall j | 0 <= j < |agents| ::
                    || agents[j].graph == old(agents[j].graph)
                    || (old(agents[j].graph).None? && agents[j].graph == Some(BuildDefaultGraph(agents[j].SubAgentNames())))
      {
        var _ := agents[i].GetGraph();
        i := i + 1;
      }
      g := BuildRouterGraph(Modules());
    }

    /** The registry as values has the same names, and no empty module. */
    lemma ViewsMatchRegistry()
      requires Valid()
      ensures ModuleNames(Views()) == Modules()
      ensures AllStaffed(Views())
    {
      var views := Views();
      forall i | 0 <= i < |views|
        ensures views[i].agents != []
      {
        assert |views[i].agents| == |agents[i].subAgents|;
      }
    }

    /** One turn, driven as the main graph drives it. */
    method RunTurn(gen: Generator, retrieve: Retriever, s: AgentState) returns (r: AgentState)
      requires Valid()
      ensures r == RouterTurn(Views(), gen, retrieve, s)
    {
      ghost var views := Views();
      var names := Modules();
      ViewsMatchRegistry();
      r := Route(gen, s);
      assert Views() == views;
      var branch := RouteToModule(r);
      if branch == Direct {
        DirectBranch(views, gen, retrieve, s);
        r := DirectResponseNode(gen, r);
      } else {
        var k := IndexOf(names, branch);
        assert views[k] == ModuleView(agents[k].name, agents[k].Views());
        ModuleBranch(views, gen, retrieve, s);
        assert IndexOf(ModuleNames(views), branch) == k;
        ghost var routed := r;
        r := agents[k].RunTurn(gen, retrieve, r);
        assert r == CoordinatorTurn(views[k].name, views[k].agents, gen, retrieve, routed);
      }
      assert Views() == views;
    }
  }
}
