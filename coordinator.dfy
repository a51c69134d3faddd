/**
  A module coordinator: it owns an ordered registry of sub-agents, sends the
  turn to one of them, and follows referrals from one sub-agent to another
  until the hop limit, a cycle, or the lack of a usable referral stops it.
*/
module Coordinators {
  import opened Wrappers
  import opened Text
  import opened State
  import opened SubAgents

  /** The two labels the stop rule returns. */
  datatype Next = Continue | End

  /** The registry's keys, in insertion order. */
  function Names(agents: seq<SubAgentView>): (r: seq<string>)
    ensures |r| == |agents|
    ensures forall i | 0 <= i < |agents| :: r[i] == agents[i].name
  {
    if agents == [] then [] else [agents[0].name] + Names(agents[1..])
  }

  /** The position of a registered name. */
  function IndexOf(names: seq<string>, x: string): (i: nat)
    requires x in names
    ensures i < |names| && names[i] == x
  {
    if names[0] == x then 0 else 1 + IndexOf(names[1..], x)
  }

  /** `self.sub_agents[x]` */
  function AgentNamed(agents: seq<SubAgentView>, x: string): (a: SubAgentView)
    requires x in Names(agents)
    ensures a in agents && a.name == x
  {
    agents[IndexOf(Names(agents), x)]
  }

  predicate NoDup(s: seq<string>) {
    forall i, j | 0 <= i < j < |s| :: s[i] != s[j]
  }

  /**
    Classification: the normalised reply when it is a registered name,
    otherwise the first registered name. Never anything unregistered.
  */
  function ClassifyQuery(names: seq<string>, reply: string): (r: string)
    requires names != []
    ensures r in names
    ensures Normalize(reply) in names ==> r == Normalize(reply)
    ensures Normalize(reply) !in names ==> r == names[0]
  {
    var name := Normalize(reply);
    if name in names then name else names[0]
  }

  /**
    The classification node: the classified sub-agent becomes current, costs
    one hop and is appended to the visited list; nothing else changes.
  */
  function ClassifyNode(moduleName: string, names: seq<string>, pick: (string, string) -> string, s: AgentState)
    : (r: AgentState)
    requires names != []
    ensures r == s.(currentSubAgent := r.currentSubAgent, hopCount := r.hopCount, visitedAgents := r.visitedAgents)
    ensures r.currentSubAgent == Some(ClassifyQuery(names, pick(moduleName, LatestHumanQuery(s.messages))))
    ensures HopCount(r) == HopCount(s) + 1
    ensures Visited(r) == Visited(s) + [r.currentSubAgent.value]
  {
    var name := ClassifyQuery(names, pick(moduleName, LatestHumanQuery(s.messages)));
    s.(currentSubAgent := Some(name),
       hopCount := Some(HopCount(s) + 1),
       visitedAgents := Some(Visited(s) + [name]))
  }

  /** The sub-agent the graph runs next: the current one, or the first
      registered one when the state names none. */
  function RouteToSubAgent(names: seq<string>, s: AgentState): (r: string)
    requires names != []
    ensures s.currentSubAgent.Some? ==> r == s.currentSubAgent.value
    ensures s.currentSubAgent.None? ==> r == names[0]
  {
    s.currentSubAgent.GetOr(names[0])
  }

  /** A referral the coordinator acts on: present, non-empty, registered. */
  predicate Referable(names: seq<string>, referral: Option<string>) {
    referral.Some? && referral.value != "" && referral.value in names
  }

  /**
    The hand-off node: a usable referral becomes the current sub-agent, costs
    one hop, is appended to the visited list and is cleared; any other state
    is returned unchanged.
  */
  function HandleReferral(names: seq<string>, s: AgentState): (r: AgentState)
    ensures Referable(names, s.referral) ==>
              r == s.(currentSubAgent := s.referral,
                      hopCount := Some(HopCount(s) + 1),
                      visitedAgents := Some(Visited(s) + [s.referral.value]),
                      referral := None)
    ensures !Referable(names, s.referral) ==> r == s
  {
    if Referable(names, s.referral) then
      s.(currentSubAgent := s.referral,
         hopCount := Some(HopCount(s) + 1),
         visitedAgents := Some(Visited(s) + [s.referral.value]),
         referral := None)
    else
      s
  }

  /**
    The stop rule: stop at the hop limit whatever the referral; otherwise go
    on exactly when a usable referral names a sub-agent not yet visited.
  */
  function ShouldContinue(names: seq<string>, s: AgentState): (r: Next)
    ensures HopCount(s) >= MaxHops(s) ==> r == End
    ensures r == Continue <==>
              HopCount(s) < MaxHops(s) && Referable(names, s.referral) && s.referral.value !in Visited(s)
  {
    if HopCount(s) >= MaxHops(s) then End
    else if Referable(names, s.referral) then
      if s.referral.value in Visited(s) then End else Continue
    else End
  }

  /** The registered sub-agents not visited yet: what bounds the loop. */
  function Unvisited(names: seq<string>, visited: seq<string>): set<string> {
    (set n | n in names) - (set v | v in visited)
  }

  /** A hand-off removes its target from the unvisited agents. */
  lemma HandoffShrinksUnvisited(names: seq<string>, s: AgentState, next: AgentState)
    requires ShouldContinue(names, s) == Continue
    requires Visited(next) == Visited(HandleReferral(names, s))
    ensures Unvisited(names, Visited(next)) < Unvisited(names, Visited(s))
  {
    var target := s.referral.value;
    assert Visited(next) == Visited(s) + [target];
    assert target in Unvisited(names, Visited(s));
    assert target !in Unvisited(names, Visited(next));
  }

  /**
    The rest of a turn once a sub-agent has run: stop, or hand off and run the
    referred sub-agent, then decide again.
  */
  function Referrals(agents: seq<SubAgentView>, gen: Generator, retrieve: Retriever, s: AgentState)
    : (r: AgentState)
    requires agents != []
    ensures ShouldContinue(Names(agents), r) == End
    ensures r.messages == s.messages && r.threadId == s.threadId
    ensures r.currentModule == s.currentModule && r.maxHops == s.maxHops
    ensures s.finalAnswer.Some? ==> r.finalAnswer.Some?
    ensures Visited(s) <= Visited(r)
    ensures HopCount(r) - HopCount(s) == |Visited(r)| - |Visited(s)|
    decreases Unvisited(Names(agents), Visited(s))
  {
    var names := Names(agents);
    if ShouldContinue(names, s) == End then s
    else
      var handedOff := HandleReferral(names, s);
      var next := AfterInvoke(AgentNamed(agents, RouteToSubAgent(names, handedOff)), handedOff, gen, retrieve);
      HandoffShrinksUnvisited(names, s, next);
      Referrals(agents, gen, retrieve, next)
  }

  /** One round of the referral loop: hand off, then run the referred sub-agent. */
  lemma ReferralsUnfold(agents: seq<SubAgentView>, gen: Generator, retrieve: Retriever, s: AgentState)
    requires agents != [] && ShouldContinue(Names(agents), s) == Continue
    ensures var handedOff := HandleReferral(Names(agents), s);
            var x := RouteToSubAgent(Names(agents), handedOff);
            && x == s.referral.value && x in Names(agents)
            && Referrals(agents, gen, retrieve, s)
               == Referrals(agents, gen, retrieve, AfterInvoke(AgentNamed(agents, x), handedOff, gen, retrieve))
  {
  }

  /** A whole module turn: classify, run the chosen sub-agent, follow referrals. */
  function CoordinatorTurn(moduleName: string, agents: seq<SubAgentView>, gen: Generator, retrieve: Retriever, s0: AgentState)
    : (r: AgentState)
    requires agents != []
    ensures ShouldContinue(Names(agents), r) == End
    ensures r.finalAnswer.Some?
    ensures r.messages == s0.messages && r.threadId == s0.threadId
    ensures r.currentModule == s0.currentModule && r.maxHops == s0.maxHops
    ensures |Visited(s0)| < |Visited(r)| && Visited(s0) <= Visited(r)
    ensures HopCount(r) - HopCount(s0) == |Visited(r)| - |Visited(s0)|
  {
    var names := Names(agents);
    var classified := ClassifyNode(moduleName, names, gen.pickSubAgent, s0);
    var first := AfterInvoke(AgentNamed(agents, RouteToSubAgent(names, classified)), classified, gen, retrieve);
    var r := Referrals(agents, gen, retrieve, first);
    VisitsExtend(s0, first, r, classified.currentSubAgent.value);
    r
  }

  /** A first visit followed by more visits, one hop each. */
  lemma VisitsExtend(s0: AgentState, first: AgentState, r: AgentState, x: string)
    requires Visited(first) == Visited(s0) + [x] && HopCount(first) == HopCount(s0) + 1
    requires Visited(first) <= Visited(r)
    requires HopCount(r) - HopCount(first) == |Visited(r)| - |Visited(first)|
    ensures |Visited(s0)| < |Visited(r)| && Visited(s0) <= Visited(r)
    ensures HopCount(r) - HopCount(s0) == |Visited(r)| - |Visited(s0)|
  {
    assert Visited(r)[..|Visited(s0)|] == Visited(first)[..|Visited(s0)|];
  }

  /** A module turn runs the classified sub-agent, then the referral loop. */
  lemma TurnUnfold(moduleName: string, agents: seq<SubAgentView>, gen: Generator, retrieve: Retriever, s0: AgentState)
    requires agents != []
    ensures var classified := ClassifyNode(moduleName, Names(agents), gen.pickSubAgent, s0);
            var x := RouteToSubAgent(Names(agents), classified);
            && x in Names(agents)
            && CoordinatorTurn(moduleName, agents, gen, retrieve, s0)
               == Referrals(agents, gen, retrieve, AfterInvoke(AgentNamed(agents, x), classified, gen, retrieve))
  {
  }

  /**
    What holds of the bookkeeping throughout a turn that began with no hops:
    no sub-agent visited twice, one hop per visit, only registered sub-agents
    visited, and the hop limit exceeded at most by the classification hop.
  */
  ghost predicate TurnInvariant(names: seq<string>, s: AgentState) {
    && NoDup(Visited(s))
    && HopCount(s) == |Visited(s)|
    && (forall v | v in Visited(s) :: v in names)
    && (HopCount(s) <= MaxHops(s) || HopCount(s) == 1)
  }

  /** Classification from a fresh turn establishes the invariant. */
  lemma ClassifyStartsInvariant(moduleName: string, names: seq<string>, pick: (string, string) -> string, s: AgentState)
    requires names != [] && HopCount(s) == 0 && Visited(s) == []
    ensures TurnInvariant(names, ClassifyNode(moduleName, names, pick, s))
  {
    var r := ClassifyNode(moduleName, names, pick, s);
    SingleVisitInvariant(names, r, r.currentSubAgent.value);
  }

  /** One visit to a registered sub-agent, costing one hop, meets the invariant. */
  lemma SingleVisitInvariant(names: seq<string>, r: AgentState, x: string)
    requires x in names && Visited(r) == [x] && HopCount(r) == 1
    ensures TurnInvariant(names, r)
  {
  }

  /** A hand-off the stop rule allowed keeps the invariant. */
  lemma HandoffKeepsInvariant(names: seq<string>, s: AgentState)
    requires TurnInvariant(names, s) && ShouldContinue(names, s) == Continue
    ensures TurnInvariant(names, HandleReferral(names, s))
  {
    var r := HandleReferral(names, s);
    var target := s.referral.value;
    assert Visited(r) == Visited(s) + [target];
    forall i, j | 0 <= i < j < |Visited(r)|
      ensures Visited(r)[i] != Visited(r)[j]
    {
      if j == |Visited(s)| {
        assert Visited(r)[i] in Visited(s);
      }
    }
  }

  /** Every step of the referral loop keeps the invariant. */
  lemma {:induction false} ReferralsKeepInvariant(agents: seq<SubAgentView>, gen: Generator, retrieve: Retriever, s: AgentState)
    requires agents != [] && TurnInvariant(Names(agents), s)
    ensures TurnInvariant(Names(agents), Referrals(agents, gen, retrieve, s))
    decreases Unvisited(Names(agents), Visited(s))
  {
    var names := Names(agents);
    if ShouldContinue(names, s) == Continue {
      var handedOff := HandleReferral(names, s);
      HandoffKeepsInvariant(names, s);
      var next := AfterInvoke(AgentNamed(agents, RouteToSubAgent(names, handedOff)), handedOff, gen, retrieve);
      HandoffShrinksUnvisited(names, s, next);
      ReferralsKeepInvariant(agents, gen, retrieve, next);
    }
  }

  /**
    The turn's current sub-agent is the last one visited, and the final answer
    is that sub-agent's answer to the turn's query.
  */
  ghost predicate AnsweredByLast(agents: seq<SubAgentView>, gen: Generator, retrieve: Retriever, s: AgentState) {
    && Visited(s) != []
    && s.currentSubAgent == Some(Visited(s)[|Visited(s)| - 1])
    && s.currentSubAgent.value in Names(agents)
    && s.finalAnswer == Some(AnswerOf(AgentNamed(agents, s.currentSubAgent.value), gen, retrieve, LatestHumanQuery(s.messages)))
  }

  /** Every step of the referral loop runs the sub-agent it has just made
      current, so the last visited sub-agent keeps answering. */
  lemma {:induction false} ReferralsAnsweredByLast(agents: seq<SubAgentView>, gen: Generator, retrieve: Retriever, s: AgentState)
    requires agents != [] && AnsweredByLast(agents, gen, retrieve, s)
    ensures AnsweredByLast(agents, gen, retrieve, Referrals(agents, gen, retrieve, s))
    decreases Unvisited(Names(agents), Visited(s))
  {
    var names := Names(agents);
    if ShouldContinue(names, s) == Continue {
      var handedOff := HandleReferral(names, s);
      var target := s.referral.value;
      assert handedOff.currentSubAgent == Some(target);
      assert Visited(handedOff) == Visited(s) + [target];
      assert RouteToSubAgent(names, handedOff) == target;
      var next := AfterInvoke(AgentNamed(agents, target), handedOff, gen, retrieve);
      assert AnsweredByLast(agents, gen, retrieve, next);
      HandoffShrinksUnvisited(names, s, next);
      ReferralsAnsweredByLast(agents, gen, retrieve, next);
    }
  }

  /** Distinct registered names are at most as many as the registry holds. */
  lemma {:induction false} DistinctVisitsBound(visited: seq<string>, names: seq<string>)
    requires NoDup(visited) && forall v | v in visited :: v in names
    ensures |visited| <= |names|
  {
    DistinctCard(visited);
    SetOfSeqCard(names);
    var vs := set v | v in visited;
    var ns := set n | n in names;
    assert vs <= ns;
    SubsetCard(vs, ns);
  }

  lemma {:induction false} DistinctCard(s: seq<string>)
    requires NoDup(s)
    ensures |set x | x in s| == |s|
  {
    if s != [] {
      var last := s[|s| - 1];
      var init := s[..|s| - 1];
      DistinctCard(init);
      assert (set x | x in s) == (set x | x in init) + {last};
      assert last !in init;
    }
  }

  lemma {:induction false} SetOfSeqCard(s: seq<string>)
    ensures |set x | x in s| <= |s|
  {
    if s != [] {
      var init := s[..|s| - 1];
      SetOfSeqCard(init);
      assert (set x | x in s) == (set x | x in init) + {s[|s| - 1]};
    }
  }

  lemma {:induction false} SubsetCard(a: set<string>, b: set<string>)
    requires a <= b
    ensures |a| <= |b|
    decreases |b|
  {
    if a != {} {
      var x :| x in a;
      SubsetCard(a - {x}, b - {x});
    }
  }

  /**
    A module turn that starts with no hops and no visits ends with the stop
    rule saying "end", unchanged messages, no sub-agent visited twice, one hop
    per visit, at most as many hops as registered sub-agents, and within the
    hop limit whenever that limit is at least 1. The last sub-agent visited is
    the current one, and its answer to the query is the final answer.
  */
  lemma CoordinatorTurnBounds(moduleName: string, agents: seq<SubAgentView>, gen: Generator, retrieve: Retriever, s0: AgentState)
    requires agents != [] && HopCount(s0) == 0 && Visited(s0) == []
    ensures var r := CoordinatorTurn(moduleName, agents, gen, retrieve, s0);
            && ShouldContinue(Names(agents), r) == End
            && r.finalAnswer.Some?
            && r.messages == s0.messages
            && NoDup(Visited(r))
            && HopCount(r) == |Visited(r)|
            && 1 <= HopCount(r) <= |agents|
            && (MaxHops(s0) >= 1 ==> HopCount(r) <= MaxHops(s0))
            && r.currentSubAgent == Some(Visited(r)[|Visited(r)| - 1])
            && r.currentSubAgent.value in Names(agents)
            && r.finalAnswer == Some(AnswerOf(AgentNamed(agents, r.currentSubAgent.value), gen, retrieve, LatestHumanQuery(s0.messages)))
  {
    TurnKeepsInvariant(moduleName, agents, gen, retrieve, s0);
    TurnAnsweredByLast(moduleName, agents, gen, retrieve, s0);
    var r := CoordinatorTurn(moduleName, agents, gen, retrieve, s0);
    DistinctVisitsBound(Visited(r), Names(agents));
  }

  /** A module turn from zero hops ends with the turn invariant holding. */
  lemma TurnKeepsInvariant(moduleName: string, agents: seq<SubAgentView>, gen: Generator, retrieve: Retriever, s0: AgentState)
    requires agents != [] && HopCount(s0) == 0 && Visited(s0) == []
    ensures TurnInvariant(Names(agents), CoordinatorTurn(moduleName, agents, gen, retrieve, s0))
  {
    var names := Names(agents);
    TurnUnfold(moduleName, agents, gen, retrieve, s0);
    var classified := ClassifyNode(moduleName, names, gen.pickSubAgent, s0);
    ClassifyStartsInvariant(moduleName, names, gen.pickSubAgent, s0);
    var x := RouteToSubAgent(names, classified);
    var first := AfterInvoke(AgentNamed(agents, x), classified, gen, retrieve);
    assert TurnInvariant(names, first);
    ReferralsKeepInvariant(agents, gen, retrieve, first);
  }

  /** A module turn ends answered by the last sub-agent it visited. */
  lemma TurnAnsweredByLast(moduleName: string, agents: seq<SubAgentView>, gen: Generator, retrieve: Retriever, s0: AgentState)
    requires agents != []
    ensures AnsweredByLast(agents, gen, retrieve, CoordinatorTurn(moduleName, agents, gen, retrieve, s0))
  {
    var names := Names(agents);
    TurnUnfold(moduleName, agents, gen, retrieve, s0);
    var classified := ClassifyNode(moduleName, names, gen.pickSubAgent, s0);
    var x := RouteToSubAgent(names, classified);
    var first := AfterInvoke(AgentNamed(agents, x), classified, gen, retrieve);
    assert AnsweredByLast(agents, gen, retrieve, first);
    ReferralsAnsweredByLast(agents, gen, retrieve, first);
  }

  // ---------------------------------------------------------------------
  // The coordinator's graph
  // ---------------------------------------------------------------------

  const ClassifyNodeId := "classify"
  const HandoffNodeId := "handle_referral"
  /** The graph library's end marker. */
  const EndNodeId := "__end__"

  /**
    The wiring of the default graph: its nodes, its entry node, the branch map
    used after classification and after a hand-off, and the branch map used
    after every sub-agent.
  */
  datatype CoordinatorGraph = CoordinatorGraph(
    nodes: seq<string>,
    entry: string,
    dispatch: map<string, string>,
    afterSubAgent: map<Next, string>)

  function BuildDefaultGraph(names: seq<string>): (g: CoordinatorGraph)
    ensures g.nodes == [ClassifyNodeId] + names + [HandoffNodeId]
    ensures g.entry == ClassifyNodeId
    ensures g.dispatch.Keys == set n | n in names
    ensures forall n | n in names :: g.dispatch[n] == n
    ensures g.afterSubAgent == map[Continue := HandoffNodeId, End := EndNodeId]
  {
    CoordinatorGraph(
      [ClassifyNodeId] + names + [HandoffNodeId],
      ClassifyNodeId,
      map n | n in names :: n,
      map[Continue := HandoffNodeId, End := EndNodeId])
  }

  /**
    Every label the routing functions produce during a turn has a branch in
    the default graph, and each dispatch branch leads to the sub-agent node
    of the same name.
  */
  lemma BranchesAreDefined(moduleName: string, names: seq<string>, pick: (string, string) -> string, s: AgentState)
    requires names != []
    ensures var g := BuildDefaultGraph(names);
            var x := RouteToSubAgent(names, ClassifyNode(moduleName, names, pick, s));
            && x in g.dispatch && g.dispatch[x] == x
            && ShouldContinue(names, s) in g.afterSubAgent
            && (ShouldContinue(names, s) == Continue ==>
                  var y := RouteToSubAgent(names, HandleReferral(names, s));
                  y in g.dispatch && g.dispatch[y] == y)
  {
  }

  /** A coordinator object: its name, its registry, and the memoised graph. */
  class Coordinator {
    const name: string
    const subAgents: seq<SubAgent>
    var graph: Option<CoordinatorGraph>

    constructor (name: string, subAgents: seq<SubAgent>)
      requires subAgents != []
      ensures this.name == name && this.subAgents == subAgents && graph == None
    {
      this.name := name;
      this.subAgents := subAgents;
      graph := None;
    }

    /** The registry's keys, in order. */
    function SubAgentNames(): (r: seq<string>)
      ensures |r| == |subAgents|
      ensures forall i | 0 <= i < |subAgents| :: r[i] == subAgents[i].name
    {
      seq(|subAgents|, i requires 0 <= i < |subAgents| => subAgents[i].name)
    }

    /** The registry's sub-agents as values. */
    function Views(): (r: seq<SubAgentView>)
      reads set a | a in subAgents
      ensures |r| == |subAgents|
      ensures forall i | 0 <= i < |subAgents| :: r[i] == subAgents[i].View()
    {
      seq(|subAgents|, i requires 0 <= i < |subAgents| reads set a | a in subAgents => subAgents[i].View())
    }

    /** Builds the graph on the first call and returns the same one afterwards. */
    method GetGraph() returns (g: CoordinatorGraph)
      modifies this
      ensures graph == Some(g)
      ensures old(graph).Some? ==> g == old(graph).value
      ensures old(graph).None? ==> g == BuildDefaultGraph(SubAgentNames())
    {
      if graph.None? {
        graph := Some(BuildDefaultGraph(SubAgentNames()));
      }
      g := graph.value;
    }

    /** Looking a registered name up in the registry as values finds the view
        of the sub-agent object registered under it. */
    lemma ViewNamed(x: string)
      requires x in SubAgentNames()
      ensures Names(Views()) == SubAgentNames()
      ensures AgentNamed(Views(), x) == subAgents[IndexOf(SubAgentNames(), x)].View()
    {
      assert Names(Views()) == SubAgentNames();
    }

    /** The graph node of the sub-agent registered under `x`. */
    method InvokeNamed(x: string, s: AgentState, gen: Generator, retrieve: Retriever) returns (r: AgentState)
      requires x in SubAgentNames()
      ensures r == AfterInvoke(AgentNamed(Views(), x), s, gen, retrieve)
    {
      ViewNamed(x);
      r := subAgents[IndexOf(SubAgentNames(), x)].Invoke(s, gen, retrieve);
    }

    /** One module turn, driven as the graph drives it. */
    method RunTurn(gen: Generator, retrieve: Retriever, s0: AgentState) returns (s: AgentState)
      requires subAgents != []
      ensures s == CoordinatorTurn(name, Views(), gen, retrieve, s0)
    {
      var names := SubAgentNames();
      ghost var views := Views();
      ViewNamed(names[0]);
      TurnUnfold(name, views, gen, retrieve, s0);
      s := ClassifyNode(name, names, gen.pickSubAgent, s0);
      ghost var classified := s;
      var x := RouteToSubAgent(names, s);
      s := InvokeNamed(x, s, gen, retrieve);
      assert Views() == views;
      assert s == AfterInvoke(AgentNamed(views, x), classified, gen, retrieve);
      while ShouldContinue(names, s) == Continue
        invariant Referrals(views, gen, retrieve, s) == CoordinatorTurn(name, views, gen, retrieve, s0)
        decreases Unvisited(names, Visited(s))
      {
        ghost var before := s;
        ReferralsUnfold(views, gen, retrieve, before);
        s := HandleReferral(names, s);
        ghost var handedOff := s;
        x := RouteToSubAgent(names, s);
        s := InvokeNamed(x, s, gen, retrieve);
        assert Views() == views;
        assert s == AfterInvoke(AgentNamed(views, x), handedOff, gen, retrieve);
        HandoffShrinksUnvisited(names, before, s);
      }
    }
  }
}
