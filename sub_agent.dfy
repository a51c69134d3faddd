/**
  A topic sub-agent: it retrieves context for the turn's query, asks the
  generator for an answer, and reads a referral to a sibling out of that
  answer's text.
*/
module SubAgents {
  import opened Wrappers
  import opened Text
  import opened State

  /** The answer a sub-agent gives when the turn carries no query. */
  const NoQueryAnswer := "No query provided."

  /** The source shown for a passage without `source` metadata. */
  const UnknownSource := "unknown"

  // ---------------------------------------------------------------------
  // Referral detection
  // ---------------------------------------------------------------------

  /** One of the four trigger phrases, built from the name as written, occurs
      in the lower-cased answer. */
  predicate HasReferralPhrase(lowered: string, name: string) {
    || Contains(lowered, "consult " + name)
    || Contains(lowered, "check with " + name)
    || Contains(lowered, "refer to " + name)
    || Contains(lowered, name + " agent")
  }

  /** The test applied to one candidate: the lower-cased name occurs, and so
      does one of its trigger phrases. */
  predicate Refers(lowered: string, name: string) {
    Contains(lowered, Lower(name)) && HasReferralPhrase(lowered, name)
  }

  /** The first candidate, in order, that the lower-cased answer refers to. */
  function FirstReferral(lowered: string, candidates: seq<string>): (r: Option<string>)
    ensures r.Some? ==> r.value in candidates && Refers(lowered, r.value)
    ensures r.None? <==> forall k | 0 <= k < |candidates| :: !Refers(lowered, candidates[k])
  {
    if candidates == [] then None
    else if Refers(lowered, candidates[0]) then Some(candidates[0])
    else FirstReferral(lowered, candidates[1..])
  }

  /** The referral is the earliest candidate that the answer refers to. */
  lemma {:induction false} FirstReferralIsEarliest(lowered: string, candidates: seq<string>, k: nat)
    requires k < |candidates| && Refers(lowered, candidates[k])
    requires forall j | 0 <= j < k :: !Refers(lowered, candidates[j])
    ensures FirstReferral(lowered, candidates) == Some(candidates[k])
  {
    if k > 0 {
      FirstReferralIsEarliest(lowered, candidates[1..], k - 1);
    }
  }

  /**
    The referral an agent with `can_refer_to == candidates` detects in
    `response`: a candidate for which one of the four trigger phrases occurs
    in the lower-cased response, and none exactly when no candidate has one.
  */
  function ReferralIn(response: string, candidates: seq<string>): (r: Option<string>)
    ensures r.Some? ==> r.value in candidates && HasReferralPhrase(Lower(response), r.value)
    ensures r.None? <==> forall k | 0 <= k < |candidates| :: !HasReferralPhrase(Lower(response), candidates[k])
  {
    PhraseDecides(response, candidates);
    FirstReferral(Lower(response), candidates)
  }

  lemma PhraseDecides(response: string, candidates: seq<string>)
    ensures forall k | 0 <= k < |candidates| ::
              Refers(Lower(response), candidates[k]) <==> HasReferralPhrase(Lower(response), candidates[k])
  {
    forall k | 0 <= k < |candidates|
      ensures Refers(Lower(response), candidates[k]) <==> HasReferralPhrase(Lower(response), candidates[k])
    {
      NameTestIsImpliedByPhrase(response, candidates[k]);
    }
  }

  /** The scan over `can_refer_to` that returns at the first match. */
  method DetectReferral(response: string, candidates: seq<string>) returns (r: Option<string>)
    ensures r == ReferralIn(response, candidates)
  {
    var lowered := Lower(response);
    var i := 0;
    while i < |candidates|
      invariant 0 <= i <= |candidates|
      invariant FirstReferral(lowered, candidates[i..]) == FirstReferral(lowered, candidates)
    {
      var name := candidates[i];
      if Contains(lowered, Lower(name)) && HasReferralPhrase(lowered, name) {
        return Some(name);
      }
      assert candidates[i..][1..] == candidates[i + 1..];
      i := i + 1;
    }
    return None;
  }

  /** Only the answer is lower-cased: a name holding an ASCII capital can never
      be detected, whatever the answer says. */
  lemma NameWithCapitalNeverReferred(response: string, name: string, k: nat)
    requires k < |name| && IsUpper(name[k])
    ensures !Refers(Lower(response), name)
  {
    var lowered := Lower(response);
    NoUpperExcludesUpper(lowered, "consult " + name, 8 + k);
    NoUpperExcludesUpper(lowered, "check with " + name, 11 + k);
    NoUpperExcludesUpper(lowered, "refer to " + name, 9 + k);
    NoUpperExcludesUpper(lowered, name + " agent", k);
  }

  /** The name-occurs test that precedes the phrase test never changes the
      outcome: a trigger phrase alone decides. */
  lemma NameTestIsImpliedByPhrase(response: string, name: string)
    ensures Refers(Lower(response), name) <==> HasReferralPhrase(Lower(response), name)
  {
    var lowered := Lower(response);
    if k :| 0 <= k < |name| && IsUpper(name[k]) {
      NameWithCapitalNeverReferred(response, name, k);
      NoUpperExcludesUpper(lowered, "consult " + name, 8 + k);
      NoUpperExcludesUpper(lowered, "check with " + name, 11 + k);
      NoUpperExcludesUpper(lowered, "refer to " + name, 9 + k);
      NoUpperExcludesUpper(lowered, name + " agent", k);
    } else {
      assert Lower(name) == name;
      if Contains(lowered, "consult " + name) {
        assert "consult " + name + "" == "consult " + name;
        ContainsInfix(lowered, "consult ", name, "");
      } else if Contains(lowered, "check with " + name) {
        assert "check with " + name + "" == "check with " + name;
        ContainsInfix(lowered, "check with ", name, "");
      } else if Contains(lowered, "refer to " + name) {
        assert "refer to " + name + "" == "refer to " + name;
        ContainsInfix(lowered, "refer to ", name, "");
      } else if Contains(lowered, name + " agent") {
        assert "" + name + " agent" == name + " agent";
        ContainsInfix(lowered, "", name, " agent");
      }
    }
  }

  /** Detection ignores the case of the answer. */
  lemma ReferralIgnoresAnswerCase(response: string, candidates: seq<string>)
    ensures ReferralIn(Lower(response), candidates) == ReferralIn(response, candidates)
  {
    assert Lower(Lower(response)) == Lower(response);
  }

  /** "Please Consult Oauth agent", with `can_refer_to == ["oauth"]`, refers to "oauth". */
  lemma ConsultOauthExample(response: string, candidates: seq<string>)
    requires response == "Please Consult Oauth agent" && candidates == ["oauth"]
    ensures ReferralIn(response, candidates) == Some("oauth")
  {
    ConsultOauthOccurs(response);
    assert "consult " + "oauth" == "consult oauth";
    LowerOfLowerCase("oauth");
    assert Refers(Lower(response), candidates[0]);
  }

  lemma ConsultOauthOccurs(response: string)
    requires response == "Please Consult Oauth agent"
    ensures Contains(Lower(response), "consult oauth") && Contains(Lower(response), "oauth")
  {
    var lowered := Lower(response);
    var phrase := "consult oauth";
    forall k | 0 <= k < |phrase|
      ensures lowered[7 + k] == phrase[k]
    {
      assert lowered[7 + k] == LowerChar(response[7 + k]);
    }
    assert lowered[7..7 + |phrase|] == phrase;
    ContainsAt(lowered, phrase, 7);
    assert phrase == "consult " + "oauth" + "";
    ContainsInfix(lowered, "consult ", "oauth", "");
  }

  // ---------------------------------------------------------------------
  // Generation: sources and the serialised context
  // ---------------------------------------------------------------------

  /** `doc.metadata.get("source", "unknown")` */
  function SourceOf(d: Document): string {
    d.source.GetOr(UnknownSource)
  }

  /** The response's `sources`: one entry per passage, in order. */
  function Sources(docs: seq<Document>): (r: seq<string>)
    ensures |r| == |docs|
    ensures forall i | 0 <= i < |docs| :: r[i] == SourceOf(docs[i])
  {
    if docs == [] then [] else [SourceOf(docs[0])] + Sources(docs[1..])
  }

  /** One passage as the prompt shows it: `[source]` on a line, then its text. */
  function ContextBlock(d: Document): string {
    "[" + SourceOf(d) + "]\n" + d.content
  }

  function ContextBlocks(docs: seq<Document>): (r: seq<string>)
    ensures |r| == |docs|
    ensures forall i | 0 <= i < |docs| :: r[i] == ContextBlock(docs[i])
  {
    if docs == [] then [] else [ContextBlock(docs[0])] + ContextBlocks(docs[1..])
  }

  /** The blocks joined by blank lines; empty exactly when there are no passages. */
  function ContextText(docs: seq<Document>): (r: string)
    ensures r == "" <==> docs == []
  {
    var blocks := ContextBlocks(docs);
    assert docs != [] ==> |Join("\n\n", blocks)| >= |blocks[0]| > 0;
    Join("\n\n", blocks)
  }

  /** The serialised context grows block by block, separated by a blank line,
      and is empty without passages. */
  lemma {:induction false} ContextTextAppend(docs: seq<Document>, d: Document)
    ensures ContextText([]) == ""
    ensures ContextText([d]) == ContextBlock(d)
    ensures docs != [] ==> ContextText(docs + [d]) == ContextText(docs) + "\n\n" + ContextBlock(d)
  {
    assert ContextBlocks([d]) == [ContextBlock(d)];
    if docs != [] {
      assert ContextBlocks(docs + [d]) == ContextBlocks(docs) + [ContextBlock(d)];
      JoinAppend("\n\n", ContextBlocks(docs), ContextBlock(d));
    }
  }

  lemma {:induction false} JoinAppend(sep: string, parts: seq<string>, last: string)
    requires parts != []
    ensures Join(sep, parts + [last]) == Join(sep, parts) + sep + last
  {
    if |parts| == 1 {
      assert parts + [last] == [parts[0], last];
      assert [parts[0], last][1..] == [last];
    } else {
      assert (parts + [last])[1..] == parts[1..] + [last];
      JoinAppend(sep, parts[1..], last);
    }
  }

  // ---------------------------------------------------------------------
  // The sub-agent's configuration, its prompt template and one turn step
  // ---------------------------------------------------------------------

  /** `{k: v for k, v in siblings.items() if k != self.name}`, order kept. */
  function WithoutSelf(siblings: seq<(string, string)>, self: string): (r: seq<(string, string)>)
    ensures forall p :: p in r <==> p in siblings && p.0 != self
    ensures |r| <= |siblings|
  {
    if siblings == [] then []
    else if siblings[0].0 == self then WithoutSelf(siblings[1..], self)
    else [siblings[0]] + WithoutSelf(siblings[1..], self)
  }

  function BuildTemplate(name: string, siblings: seq<(string, string)>): PromptTemplate {
    PromptTemplate(name, siblings)
  }

  /** Everything a sub-agent's behaviour depends on, as one value. */
  datatype SubAgentView = SubAgentView(
    name: string,
    collection: string,
    canReferTo: seq<string>,
    siblings: seq<(string, string)>,
    template: Option<PromptTemplate>)

  /**
    The template generation uses: a stored template as it is; when none was
    stored, or the stored one was built from the current siblings, the
    template built from the current siblings.
  */
  function TemplateFor(a: SubAgentView): (t: PromptTemplate)
    ensures a.template.Some? ==> t == a.template.value
    ensures a.template.None? || a.template == Some(BuildTemplate(a.name, a.siblings)) ==>
              t == BuildTemplate(a.name, a.siblings) && t.agent == a.name && t.siblings == a.siblings
  {
    a.template.GetOr(BuildTemplate(a.name, a.siblings))
  }

  /** The response `generate` assembles around the generator's text. */
  function Response(a: SubAgentView, query: string, docs: seq<Document>, answer: Prompt -> string): (r: AgentResponse)
    ensures r.answer == answer(Prompt(TemplateFor(a), ContextText(docs), query))
    ensures r.referral == ReferralIn(r.answer, a.canReferTo)
    ensures |r.sources| == |docs| && forall i | 0 <= i < |docs| :: r.sources[i] == SourceOf(docs[i])
    ensures r.referral.Some? ==> r.referral.value in a.canReferTo
    ensures a.canReferTo == [] ==> r.referral == None
    ensures r.hadContext <==> docs != []
  {
    var text := answer(Prompt(TemplateFor(a), ContextText(docs), query));
    AgentResponse(text, Sources(docs), ReferralIn(text, a.canReferTo), docs != [])
  }

  /** The answer an agent gives to query `q`: "No query provided." for an empty
      query, otherwise the generated text over the passages it retrieves. */
  function AnswerOf(a: SubAgentView, gen: Generator, retrieve: Retriever, q: string): string {
    if q == "" then NoQueryAnswer
    else gen.answer(Prompt(TemplateFor(a), ContextText(retrieve(a.collection, q, DefaultTopK)), q))
  }

  /**
    The state after the sub-agent has handled a turn: with no query it answers
    "No query provided." and clears the referral; otherwise it records the
    retrieved passages, its answer and the referral detected in it. Nothing
    else in the state changes.
  */
  function AfterInvoke(a: SubAgentView, s: AgentState, gen: Generator, retrieve: Retriever): (r: AgentState)
    ensures r == s.(context := r.context, finalAnswer := r.finalAnswer, referral := r.referral)
    ensures r.finalAnswer == Some(AnswerOf(a, gen, retrieve, LatestHumanQuery(s.messages)))
    ensures r.referral.Some? ==> r.referral.value in a.canReferTo
    ensures a.canReferTo == [] ==> r.referral == None
    ensures LatestHumanQuery(s.messages) == "" ==>
              r == s.(finalAnswer := Some(NoQueryAnswer), referral := None)
    ensures LatestHumanQuery(s.messages) != "" ==>
              var query := LatestHumanQuery(s.messages);
              var docs := retrieve(a.collection, query, DefaultTopK);
              var answer := gen.answer(Prompt(TemplateFor(a), ContextText(docs), query));
              && r.context == Some(docs)
              && r.finalAnswer == Some(answer)
              && r.referral == ReferralIn(answer, a.canReferTo)
  {
    var query := LatestHumanQuery(s.messages);
    if query == "" then
      s.(finalAnswer := Some(NoQueryAnswer), referral := None)
    else
      var docs := retrieve(a.collection, query, DefaultTopK);
      var response := Response(a, query, docs, gen.answer);
      s.(context := Some(docs), finalAnswer := Some(response.answer), referral := response.referral)
  }

  /** Why a turn step can fail as the code is written. */
  datatype Fault = PromptTemplateMissing

  /**
    The turn step as written: generation pipes the stored template into the
    generator, and a template that was never built (no sibling wiring) makes
    that call fail.
  */
  function AfterInvokeAsWritten(a: SubAgentView, s: AgentState, gen: Generator, retrieve: Retriever)
    : (r: Result<AgentState, Fault>)
    ensures a.template.Some? ==> r == Success(AfterInvoke(a, s, gen, retrieve))
    ensures a.template.None? && LatestHumanQuery(s.messages) != "" ==> r == Failure(PromptTemplateMissing)
  {
    var query := LatestHumanQuery(s.messages);
    if query == "" then
      Success(s.(finalAnswer := Some(NoQueryAnswer), referral := None))
    else if a.template.None? then
      Failure(PromptTemplateMissing)
    else
      var docs := retrieve(a.collection, query, DefaultTopK);
      var response := Response(a, query, docs, gen.answer);
      Success(s.(context := Some(docs), finalAnswer := Some(response.answer), referral := response.referral))
  }

  /** A freshly built "issues" agent, never wired to its siblings, fails on the
      query "How do I fix a 504 error?". */
  lemma UnwiredIssuesAgentFails(gen: Generator, retrieve: Retriever, s: AgentState)
    requires s.messages == [Human("How do I fix a 504 error?")]
    ensures AfterInvokeAsWritten(SubAgentView("issues", "network_issues", ["api_ref"], [], None), s, gen, retrieve)
            == Failure(PromptTemplateMissing)
  {
  }

  /** A sub-agent object: fixed identity and referral list, and the sibling
      descriptions and prompt template that `SetSiblings` overwrites. */
  class SubAgent {
    const name: string
    const collectionName: string
    const canReferTo: seq<string>
    var siblingDescriptions: seq<(string, string)>
    var promptTemplate: Option<PromptTemplate>

    /** A stored template is always the one built from the stored siblings. */
    predicate Valid()
      reads this
    {
      promptTemplate.None? || promptTemplate == Some(BuildTemplate(name, siblingDescriptions))
    }

    constructor (name: string, collectionName: string, canReferTo: seq<string>)
      ensures this.name == name && this.collectionName == collectionName
      ensures this.canReferTo == canReferTo
      ensures siblingDescriptions == [] && promptTemplate == None
      ensures Valid()
    {
      this.name := name;
      this.collectionName := collectionName;
      this.canReferTo := canReferTo;
      siblingDescriptions := [];
      promptTemplate := None;
    }

    function View(): SubAgentView
      reads this
    {
      SubAgentView(name, collectionName, canReferTo, siblingDescriptions, promptTemplate)
    }

    /** Keeps every sibling but itself and rebuilds the template with them. */
    method SetSiblings(siblings: seq<(string, string)>)
      modifies this
      ensures siblingDescriptions == WithoutSelf(siblings, name)
      ensures promptTemplate == Some(BuildTemplate(name, siblingDescriptions))
      ensures Valid()
    {
      siblingDescriptions := WithoutSelf(siblings, name);
      promptTemplate := Some(BuildTemplate(name, siblingDescriptions));
    }

    method Generate(query: string, docs: seq<Document>, answer: Prompt -> string) returns (r: AgentResponse)
      ensures r == Response(View(), query, docs, answer)
    {
      var contextText := ContextText(docs);
      var text := answer(Prompt(TemplateFor(View()), contextText, query));
      var referral := DetectReferral(text, canReferTo);
      r := AgentResponse(text, Sources(docs), referral, docs != []);
    }

    method Invoke(s: AgentState, gen: Generator, retrieve: Retriever) returns (r: AgentState)
      ensures r == AfterInvoke(View(), s, gen, retrieve)
    {
      var query := ExtractQuery(s.messages);
      if query == "" {
        return s.(finalAnswer := Some(NoQueryAnswer), referral := None);
      }
      var docs := retrieve(collectionName, query, DefaultTopK);
      var response := Generate(query, docs, gen.answer);
      r := s.(context := Some(docs), finalAnswer := Some(response.answer), referral := response.referral);
    }
  }
}
