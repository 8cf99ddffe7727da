/** The one call to the remote language model that the send handler of the
    chat widget makes per accepted message: the system instruction it builds
    and how the outcome becomes the text of a model message. The call itself
    is not modelled; it is only the Request that goes out and the Outcome
    that comes back. The serialised knowledge base (resume and projects) is
    an opaque string. */
module ModelCall {
  import opened Optional

  /** One call to the model: the system instruction and the content. */
  datatype Request = Request(systemInstruction: string, contents: string)

  /** How the call settled: an answer whose text may be absent, or any
      failure at all (credentials, network, provider, malformed response). */
  datatype Outcome = Success(text: Option<string>) | Failure

  /** Shown when the model answers with no text. */
  const NoDataReply := "ERROR: NO DATA RECEIVED."

  /** Shown when the model call fails for any reason. */
  const FailureReply := "CRITICAL ERROR: CONNECTION TO AI CORE FAILED."

  /** A system instruction with two holes: the serialised knowledge base
      goes between `head` and `rules`, the query between `rules` and `tail`. */
  datatype PromptTemplate = PromptTemplate(head: string, rules: string, tail: string)

  /** The widget's system instruction, line breaks and indentation included. */
  const SystemPrompt := PromptTemplate(
    "\n        You are an advanced AI Terminal Assistant for Jia Song's interactive portfolio.\n"
    + "        \n"
    + "        YOUR KNOWLEDGE BASE:\n"
    + "        ",
    "\n\n"
    + "        INSTRUCTIONS:\n"
    + "        1. Answer questions based STRICTLY on the provided JSON data.\n"
    + "        2. If the user asks about something not in the data, state that \"DATA NOT FOUND IN ARCHIVES\".\n"
    + "        3. Keep answers concise, professional, but technical.\n"
    + "        4. Adopt a slight \"computer terminal\" persona (e.g., \"Scanning database...\", \"Retrieving records...\").\n"
    + "        5. You are helpful and want to showcase Jia's skills in Computer Science, AI, and Data Science.\n"
    + "        \n"
    + "        Current User Query: ",
    "\n      ")

  /** The template filled in for one query: the whole knowledge base, then
      the fixed rules, then the query itself. */
  function BuildPrompt(t: PromptTemplate, knowledge: string, query: string): (p: string)
    ensures |p| == |t.head| + |knowledge| + |t.rules| + |query| + |t.tail|
    ensures p[..|t.head|] == t.head
    ensures p[|t.head|..|t.head| + |knowledge|] == knowledge
    ensures p[|p| - |t.tail| - |query|..|p| - |t.tail|] == query
  {
    t.head + knowledge + t.rules + query + t.tail
  }

  /** Reads the query back out of an instruction filled in from `t` with
      `knowledge`, if it has that shape. */
  function QueryOf(t: PromptTemplate, knowledge: string, prompt: string): Option<string> {
    var n := |t.head| + |knowledge| + |t.rules|;
    if n + |t.tail| <= |prompt|
       && prompt[..n] == t.head + knowledge + t.rules
       && prompt[|prompt| - |t.tail|..] == t.tail
    then Some(prompt[n..|prompt| - |t.tail|])
    else None
  }

  /** The query is recoverable from the instruction: the instruction carries
      the whole query, and only the query varies with it. */
  lemma QueryOfBuildPrompt(t: PromptTemplate, knowledge: string, query: string)
    ensures QueryOf(t, knowledge, BuildPrompt(t, knowledge, query)) == Some(query)
  {
    var p := BuildPrompt(t, knowledge, query);
    var n := |t.head| + |knowledge| + |t.rules|;
    assert p[..n] == t.head + knowledge + t.rules;
    assert p[n..|p| - |t.tail|] == query;
    assert p[|p| - |t.tail|..] == t.tail;
  }

  /** Different queries give different instructions. */
  lemma BuildPromptInjective(t: PromptTemplate, knowledge: string, q1: string, q2: string)
    requires BuildPrompt(t, knowledge, q1) == BuildPrompt(t, knowledge, q2)
    ensures q1 == q2
  {
    QueryOfBuildPrompt(t, knowledge, q1);
    QueryOfBuildPrompt(t, knowledge, q2);
  }

  /** The request for one query: that query as the content, and an
      instruction holding the complete knowledge base and that same query. */
  function MakeRequest(t: PromptTemplate, knowledge: string, query: string): (q: Request)
    ensures q.contents == query
    ensures |q.systemInstruction| >= |t.head| + |knowledge|
    ensures q.systemInstruction[|t.head|..|t.head| + |knowledge|] == knowledge
    ensures QueryOf(t, knowledge, q.systemInstruction) == Some(query)
  {
    QueryOfBuildPrompt(t, knowledge, query);
    Request(BuildPrompt(t, knowledge, query), query)
  }

  /** The text of the model message appended when the call settles:
      `response.text || "ERROR: NO DATA RECEIVED."` on success, the failure
      sentinel on any failure. */
  function ReplyText(o: Outcome): (text: string)
    ensures text != []
    ensures o.Failure? ==> text == FailureReply
    ensures o.Success? && o.text.Some? && o.text.value != [] ==> text == o.text.value
    ensures o.Success? && (o.text.None? || o.text.value == []) ==> text == NoDataReply
  {
    match o
    case Success(Some(t)) => if t != [] then t else NoDataReply
    case Success(None) => NoDataReply
    case Failure => FailureReply
  }

  /** "The assistant said nothing" reads differently from "the connection
      broke". */
  lemma SentinelsDiffer()
    ensures NoDataReply != FailureReply
    ensures ReplyText(Success(None)) != ReplyText(Failure)
    ensures ReplyText(Success(Some([]))) != ReplyText(Failure)
  {
  }

}
