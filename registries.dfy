/**
  The two concrete modules and their sub-agents, in registration order, and
  what the referral machinery does with them.
*/
module Registries {
  import opened Wrappers
  import opened Text
  import opened State
  import opened SubAgents
  import opened Coordinators
  import opened Router

  /** The network module: API reference first, then issue troubleshooting,
      which may refer to the API reference. */
  const ApiRef := SubAgentView("api_ref", "network_api_ref", [], [], None)
  const Issues := SubAgentView("issues", "network_issues", ["api_ref"], [], None)
  const Network := ModuleView("network", [ApiRef, Issues])

  /** The auth module: OAuth first, then auth errors, which may refer to OAuth. */
  const OAuth := SubAgentView("oauth", "auth_oauth", [], [], None)
  const Errors := SubAgentView("errors", "auth_errors", ["oauth"], [], None)
  const Auth := ModuleView("auth", [OAuth, Errors])

  method NetworkAgent() returns (c: Coordinator)
    ensures fresh(c) && c.name == Network.name && c.graph == None
    ensures fresh(set a | a in c.subAgents)
    ensures c.Views() == Network.agents
  {
    var apiRef := new SubAgent("api_ref", "network_api_ref", []);
    var issues := new SubAgent("issues", "network_issues", ["api_ref"]);
    c := new Coordinator("network", [apiRef, issues]);
  }

  method AuthAgent() returns (c: Coordinator)
    ensures fresh(c) && c.name == Auth.name && c.graph == None
    ensures fresh(set a | a in c.subAgents)
    ensures c.Views() == Auth.agents
  {
    var oauth := new SubAgent("oauth", "auth_oauth", []);
    var errors := new SubAgent("errors", "auth_errors", ["oauth"]);
    c := new Coordinator("auth", [oauth, errors]);
  }

  /** The router over both modules, network first. */
  method CreateRouter() returns (r: ModuleRouter)
    ensures fresh(r) && r.Valid()
    ensures r.Modules() == [Network.name, Auth.name]
    ensures r.Views() == [Network, Auth]
  {
    var network := NetworkAgent();
    var auth := AuthAgent();
    r := new ModuleRouter([network, auth]);
    assert r.agents[0].Views() == Network.agents;
  }

  /** A trigger phrase for `name` in any case makes an agent that may refer
      only to `name` refer to it. */
  lemma PhraseRefers(response: string, name: string)
    requires HasReferralPhrase(Lower(response), name)
    ensures ReferralIn(response, [name]) == Some(name)
  {
    NameTestIsImpliedByPhrase(response, name);
  }

  /**
    The shape both modules share: a first agent that refers to nobody, then a
    second agent that may refer only to the first.
  */
  predicate ReferrerAfterSource(a: SubAgentView, b: SubAgentView) {
    a.name != "" && a.name != b.name && a.canReferTo == [] && b.canReferTo == [a.name]
  }

  /** Looking up either agent of a two-agent registry by name. */
  lemma PairLookup(a: SubAgentView, b: SubAgentView)
    requires a.name != b.name
    ensures Names([a, b]) == [a.name, b.name]
    ensures AgentNamed([a, b], a.name) == a && AgentNamed([a, b], b.name) == b
  {
    assert Names([a, b]) == [a.name, b.name];
  }

  /** The second agent's step when it is classified: one hop, its answer, and
      the referral detected in that answer. */
  lemma ReferrerClassified(moduleName: string, a: SubAgentView, b: SubAgentView, gen: Generator, retrieve: Retriever, s0: AgentState)
    returns (first: AgentState)
    requires ReferrerAfterSource(a, b)
    requires HopCount(s0) == 0 && Visited(s0) == []
    requires Normalize(gen.pickSubAgent(moduleName, LatestHumanQuery(s0.messages))) == b.name
    ensures CoordinatorTurn(moduleName, [a, b], gen, retrieve, s0) == Referrals([a, b], gen, retrieve, first)
    ensures first.messages == s0.messages && first.maxHops == s0.maxHops
    ensures HopCount(first) == 1 && Visited(first) == [b.name] && first.currentSubAgent == Some(b.name)
    ensures first.finalAnswer == Some(AnswerOf(b, gen, retrieve, LatestHumanQuery(s0.messages)))
    ensures first.referral ==
              if LatestHumanQuery(s0.messages) == "" then None
              else ReferralIn(AnswerOf(b, gen, retrieve, LatestHumanQuery(s0.messages)), [a.name])
  {
    PairLookup(a, b);
    var names := Names([a, b]);
    var classified := ClassifyNode(moduleName, names, gen.pickSubAgent, s0);
    assert RouteToSubAgent(names, classified) == b.name;
    first := AfterInvoke(b, classified, gen, retrieve);
  }

  /** The second agent's step: one hop, and a referral to the first agent. */
  lemma ReferrerStep(moduleName: string, a: SubAgentView, b: SubAgentView, gen: Generator, retrieve: Retriever, s0: AgentState)
    returns (first: AgentState)
    requires ReferrerAfterSource(a, b)
    requires HopCount(s0) == 0 && Visited(s0) == []
    requires LatestHumanQuery(s0.messages) != ""
    requires Normalize(gen.pickSubAgent(moduleName, LatestHumanQuery(s0.messages))) == b.name
    requires HasReferralPhrase(Lower(AnswerOf(b, gen, retrieve, LatestHumanQuery(s0.messages))), a.name)
    ensures CoordinatorTurn(moduleName, [a, b], gen, retrieve, s0) == Referrals([a, b], gen, retrieve, first)
    ensures first.messages == s0.messages && first.maxHops == s0.maxHops
    ensures HopCount(first) == 1 && Visited(first) == [b.name]
    ensures first.finalAnswer == Some(AnswerOf(b, gen, retrieve, LatestHumanQuery(s0.messages)))
    ensures first.referral == Some(a.name)
  {
    first := ReferrerClassified(moduleName, a, b, gen, retrieve, s0);
    PhraseRefers(AnswerOf(b, gen, retrieve, LatestHumanQuery(s0.messages)), a.name);
  }

  /** The hand-off to the first agent, which ends the turn. */
  lemma SourceStep(a: SubAgentView, b: SubAgentView, gen: Generator, retrieve: Retriever, first: AgentState)
    requires ReferrerAfterSource(a, b)
    requires HopCount(first) == 1 && Visited(first) == [b.name] && MaxHops(first) >= 2
    requires first.referral == Some(a.name)
    requires LatestHumanQuery(first.messages) != ""
    ensures var r := Referrals([a, b], gen, retrieve, first);
            && Visited(r) == [b.name, a.name]
            && HopCount(r) == 2
            && r.currentSubAgent == Some(a.name)
            && r.finalAnswer == Some(AnswerOf(a, gen, retrieve, LatestHumanQuery(first.messages)))
            && r.referral == None
  {
    PairLookup(a, b);
    var names := Names([a, b]);
    assert ShouldContinue(names, first) == Continue;
    var handedOff := HandleReferral(names, first);
    assert RouteToSubAgent(names, handedOff) == a.name;
    var second := AfterInvoke(a, handedOff, gen, retrieve);
    assert ShouldContinue(names, second) == End;
  }

  /**
    A question the classifier sends to the second agent, whose answer refers
    to the first, takes two hops: second, then first, whose answer is final;
    the referral is consumed and the turn stops there.
  */
  lemma ReferrerHandsOff(moduleName: string, a: SubAgentView, b: SubAgentView, gen: Generator, retrieve: Retriever, s0: AgentState)
    requires ReferrerAfterSource(a, b)
    requires HopCount(s0) == 0 && Visited(s0) == [] && MaxHops(s0) >= 2
    requires LatestHumanQuery(s0.messages) != ""
    requires Normalize(gen.pickSubAgent(moduleName, LatestHumanQuery(s0.messages))) == b.name
    requires HasReferralPhrase(Lower(AnswerOf(b, gen, retrieve, LatestHumanQuery(s0.messages))), a.name)
    ensures var r := CoordinatorTurn(moduleName, [a, b], gen, retrieve, s0);
            && Visited(r) == [b.name, a.name]
            && HopCount(r) == 2
            && r.currentSubAgent == Some(a.name)
            && r.finalAnswer == Some(AnswerOf(a, gen, retrieve, LatestHumanQuery(s0.messages)))
            && r.referral == None
  {
    var first := ReferrerStep(moduleName, a, b, gen, retrieve, s0);
    SourceStep(a, b, gen, retrieve, first);
  }

  /**
    With a hop limit of 1 the same turn stops after the second agent: its
    answer is final and its referral is left unconsumed.
  */
  lemma HopLimitOneKeepsReferral(moduleName: string, a: SubAgentView, b: SubAgentView, gen: Generator, retrieve: Retriever, s0: AgentState)
    requires ReferrerAfterSource(a, b)
    requires HopCount(s0) == 0 && Visited(s0) == [] && MaxHops(s0) == 1
    requires LatestHumanQuery(s0.messages) != ""
    requires Normalize(gen.pickSubAgent(moduleName, LatestHumanQuery(s0.messages))) == b.name
    requires HasReferralPhrase(Lower(AnswerOf(b, gen, retrieve, LatestHumanQuery(s0.messages))), a.name)
    ensures var r := CoordinatorTurn(moduleName, [a, b], gen, retrieve, s0);
            && Visited(r) == [b.name]
            && HopCount(r) == 1
            && r.finalAnswer == Some(AnswerOf(b, gen, retrieve, LatestHumanQuery(s0.messages)))
            && r.referral == Some(a.name)
  {
    var first := ReferrerStep(moduleName, a, b, gen, retrieve, s0);
    assert ShouldContinue(Names([a, b]), first) == End;
  }

  /** The first agent's step when it is classified: one hop, no referral. */
  lemma SourceFirstStep(moduleName: string, a: SubAgentView, b: SubAgentView, gen: Generator, retrieve: Retriever, s0: AgentState)
    returns (first: AgentState)
    requires ReferrerAfterSource(a, b)
    requires HopCount(s0) == 0 && Visited(s0) == []
    requires Normalize(gen.pickSubAgent(moduleName, LatestHumanQuery(s0.messages))) != b.name
    ensures CoordinatorTurn(moduleName, [a, b], gen, retrieve, s0) == Referrals([a, b], gen, retrieve, first)
    ensures HopCount(first) == 1 && Visited(first) == [a.name] && first.referral == None
  {
    PairLookup(a, b);
    var names := Names([a, b]);
    assert ClassifyQuery(names, gen.pickSubAgent(moduleName, LatestHumanQuery(s0.messages))) == a.name;
    var classified := ClassifyNode(moduleName, names, gen.pickSubAgent, s0);
    first := AfterInvoke(a, classified, gen, retrieve);
  }

  /**
    A question the classifier does not send to the second agent (an unknown
    reply falls back to the first) is answered by the first agent alone, in
    one hop, since it refers to nobody.
  */
  lemma SourceAnswersAlone(moduleName: string, a: SubAgentView, b: SubAgentView, gen: Generator, retrieve: Retriever, s0: AgentState)
    requires ReferrerAfterSource(a, b)
    requires HopCount(s0) == 0 && Visited(s0) == []
    requires Normalize(gen.pickSubAgent(moduleName, LatestHumanQuery(s0.messages))) != b.name
    ensures var r := CoordinatorTurn(moduleName, [a, b], gen, retrieve, s0);
            && Visited(r) == [a.name]
            && HopCount(r) == 1
            && r.referral == None
            && r.currentSubAgent == Some(a.name)
            && r.finalAnswer == Some(AnswerOf(a, gen, retrieve, LatestHumanQuery(s0.messages)))
  {
    var first := SourceFirstStep(moduleName, a, b, gen, retrieve, s0);
    assert ShouldContinue(Names([a, b]), first) == End;
  }

  /**
    A question the classifier sends to the second agent, whose answer holds no
    trigger phrase for the first, is answered by the second agent alone in
    one hop.
  */
  lemma ReferrerAnswersAlone(moduleName: string, a: SubAgentView, b: SubAgentView, gen: Generator, retrieve: Retriever, s0: AgentState)
    requires ReferrerAfterSource(a, b)
    requires HopCount(s0) == 0 && Visited(s0) == []
    requires Normalize(gen.pickSubAgent(moduleName, LatestHumanQuery(s0.messages))) == b.name
    requires !HasReferralPhrase(Lower(AnswerOf(b, gen, retrieve, LatestHumanQuery(s0.messages))), a.name)
    ensures var r := CoordinatorTurn(moduleName, [a, b], gen, retrieve, s0);
            && Visited(r) == [b.name]
            && HopCount(r) == 1
            && r.referral == None
            && r.currentSubAgent == Some(b.name)
            && r.finalAnswer == Some(AnswerOf(b, gen, retrieve, LatestHumanQuery(s0.messages)))
  {
    var first := ReferrerClassified(moduleName, a, b, gen, retrieve, s0);
    assert first.referral == None;
    assert ShouldContinue(Names([a, b]), first) == End;
  }

  /** Both modules have that shape. */
  lemma ModulesReferToTheirSource()
    ensures ReferrerAfterSource(ApiRef, Issues)
    ensures ReferrerAfterSource(OAuth, Errors)
  {
    assert ApiRef.name[0] != Issues.name[0] && |ApiRef.name| > 0;
    assert OAuth.name[0] != Errors.name[0] && |OAuth.name| > 0;
  }

  /**
    In the network module, a question classified to "issues" whose answer
    says "refer to api_ref" (in any case) visits issues then api_ref in two
    hops, and api_ref's answer is final.
  */
  lemma IssuesHandsOffToApiRef(gen: Generator, retrieve: Retriever, s0: AgentState)
    requires HopCount(s0) == 0 && Visited(s0) == [] && MaxHops(s0) >= 2
    requires LatestHumanQuery(s0.messages) != ""
    requires Normalize(gen.pickSubAgent(Network.name, LatestHumanQuery(s0.messages))) == Issues.name
    requires Contains(Lower(AnswerOf(Issues, gen, retrieve, LatestHumanQuery(s0.messages))), "refer to " + ApiRef.name)
    ensures var r := CoordinatorTurn(Network.name, Network.agents, gen, retrieve, s0);
            && Visited(r) == [Issues.name, ApiRef.name]
            && HopCount(r) == 2
            && r.finalAnswer == Some(AnswerOf(ApiRef, gen, retrieve, LatestHumanQuery(s0.messages)))
  {
    ModulesReferToTheirSource();
    ReferrerHandsOff(Network.name, ApiRef, Issues, gen, retrieve, s0);
  }

  /** In the auth module, an "errors" answer that says "consult oauth" hands
      the turn to oauth, whose answer is final. */
  lemma ErrorsHandsOffToOAuth(gen: Generator, retrieve: Retriever, s0: AgentState)
    requires HopCount(s0) == 0 && Visited(s0) == [] && MaxHops(s0) >= 2
    requires LatestHumanQuery(s0.messages) != ""
    requires Normalize(gen.pickSubAgent(Auth.name, LatestHumanQuery(s0.messages))) == Errors.name
    requires Contains(Lower(AnswerOf(Errors, gen, retrieve, LatestHumanQuery(s0.messages))), "consult " + OAuth.name)
    ensures var r := CoordinatorTurn(Auth.name, Auth.agents, gen, retrieve, s0);
            && Visited(r) == [Errors.name, OAuth.name]
            && HopCount(r) == 2
            && r.finalAnswer == Some(AnswerOf(OAuth, gen, retrieve, LatestHumanQuery(s0.messages)))
  {
    ModulesReferToTheirSource();
    ReferrerHandsOff(Auth.name, OAuth, Errors, gen, retrieve, s0);
  }
}
