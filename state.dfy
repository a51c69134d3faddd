/**
  The conversation state threaded through every node of the routing graph,
  the messages it carries, and the two outside collaborators (the text
  generator and the context retriever), given as function values.
*/
module State {
  import opened Wrappers
  import opened Text

  /** Configuration defaults `max_hops` and `default_top_k`. */
  const DefaultMaxHops: int := 10
  const DefaultTopK: nat := 5

  /** A conversation entry, tagged with the role that produced it. */
  datatype Message = Human(text: string) | Assistant(text: string)

  /** A retrieved passage: its text and its optional `source` metadata. */
  datatype Document = Document(content: string, source: Option<string>)

  /**
    The per-thread record. A key the source reads with `state.get(key, default)`
    may be absent, so it is an `Option`; for `final_answer` and `referral`
    `None` stands both for an absent key and for a stored Python `None`.
  */
  datatype AgentState = AgentState(
    messages: seq<Message>,
    threadId: Option<string>,
    currentModule: Option<string>,
    currentSubAgent: Option<string>,
    hopCount: Option<int>,
    maxHops: Option<int>,
    visitedAgents: Option<seq<string>>,
    context: Option<seq<Document>>,
    finalAnswer: Option<string>,
    referral: Option<string>)

  /** What a sub-agent's generation step returns; `hadContext` stands for the
      confidence score, which is 1.0 exactly when some context was retrieved. */
  datatype AgentResponse = AgentResponse(
    answer: string,
    sources: seq<string>,
    referral: Option<string>,
    hadContext: bool)

  /** `state.get("hop_count", 0)` */
  function HopCount(s: AgentState): int {
    s.hopCount.GetOr(0)
  }

  /** `state.get("max_hops", 10)` */
  function MaxHops(s: AgentState): int {
    s.maxHops.GetOr(DefaultMaxHops)
  }

  /** `state.get("visited_agents", [])` */
  function Visited(s: AgentState): seq<string> {
    s.visitedAgents.GetOr([])
  }

  /**
    The query of a turn: the text of the last human entry, found by scanning
    the messages from the end, or "" when there is no human entry.
  */
  function LatestHumanQuery(messages: seq<Message>): (q: string)
    ensures q != "" ==> Human(q) in messages
  {
    if messages == [] then ""
    else if messages[|messages| - 1].Human? then messages[|messages| - 1].text
    else LatestHumanQuery(messages[..|messages| - 1])
  }

  /** The query is the text of the human entry that no later human entry follows. */
  lemma {:induction false} QueryIsLastHumanText(messages: seq<Message>, i: nat)
    requires i < |messages| && messages[i].Human?
    requires forall j | i < j < |messages| :: messages[j].Assistant?
    ensures LatestHumanQuery(messages) == messages[i].text
  {
    if i < |messages| - 1 {
      QueryIsLastHumanText(messages[..|messages| - 1], i);
    }
  }

  /** Without a human entry the query is empty. */
  lemma {:induction false} NoHumanNoQuery(messages: seq<Message>)
    requires forall j | 0 <= j < |messages| :: messages[j].Assistant?
    ensures LatestHumanQuery(messages) == ""
  {
    if messages != [] {
      NoHumanNoQuery(messages[..|messages| - 1]);
    }
  }

  /** The `for msg in reversed(messages)` scan with its early `break`. */
  method ExtractQuery(messages: seq<Message>) returns (q: string)
    ensures q == LatestHumanQuery(messages)
  {
    var i := |messages|;
    assert messages[..i] == messages;
    while i > 0
      invariant 0 <= i <= |messages|
      invariant LatestHumanQuery(messages[..i]) == LatestHumanQuery(messages)
    {
      if messages[i - 1].Human? {
        return messages[i - 1].text;
      }
      assert messages[..i][..i - 1] == messages[..i - 1];
      i := i - 1;
    }
    return "";
  }

  /**
    The `add_messages` merge of a new turn's input: the human query is
    appended to the persisted history, and it becomes the turn's query.
  */
  function ReceiveQuery(persisted: AgentState, query: string): (s: AgentState)
    ensures |s.messages| == |persisted.messages| + 1
    ensures s.messages[..|persisted.messages|] == persisted.messages
    ensures s.messages[|persisted.messages|] == Human(query)
    ensures LatestHumanQuery(s.messages) == query
    ensures s == persisted.(messages := s.messages)
  {
    persisted.(messages := persisted.messages + [Human(query)])
  }

  /** The variable parts of a sub-agent's prompt: which agent speaks and which
      siblings it is told about. */
  datatype PromptTemplate = PromptTemplate(agent: string, siblings: seq<(string, string)>)

  /** A filled-in sub-agent prompt: template, serialised context, query. */
  datatype Prompt = Prompt(template: PromptTemplate, context: string, query: string)

  /**
    The text generator, seen through the four prompts the core sends it. Each
    field maps the variable parts of one prompt to the generated text, after
    the reply has been reduced to a plain string.
  */
  datatype Generator = Generator(
    routeModule: string -> string,
    pickSubAgent: (string, string) -> string,
    answer: Prompt -> string,
    answerDirectly: (string, string) -> string)

  /** The context retriever: (collection, query, k) to the passages found. */
  type Retriever = (string, string, nat) -> seq<Document>
}
