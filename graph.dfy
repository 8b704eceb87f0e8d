/** The agent workflow: an agent node that asks the model (with the system
    prompt put in front when the conversation has none), a tools node, and the
    routing between them. The model and LangGraph's tool-executing node are
    opaque: they are parameters, and nothing is claimed about what they return. */
module Graph {
  import opened PyStr

  /** A tool call requested by the model; only its name is used here. */
  datatype ToolCall = ToolCall(name: string)

  datatype Message =
    | SystemMsg(content: string)
    | HumanMsg(content: string)
    | AIMsg(content: string, toolCalls: seq<ToolCall>)
    | ToolMsg(content: string)

  /** The model: answers a conversation with one message. */
  type Model = seq<Message> -> Message

  /** The tools node: the messages it adds after running the requested calls. */
  type ToolNode = seq<Message> -> seq<Message>

  /** The system prompt and tool list a graph is built with. */
  datatype Config = Config(systemPrompt: string, tools: seq<string>)

  /** `create_agent_graph`'s defaults: only an absent argument (`None`) is
      replaced, so an empty prompt or an empty tool list is kept. */
  function CreateConfig(systemPrompt: Option<string>, tools: Option<seq<string>>,
                        defaultPrompt: string, defaultTools: seq<string>): (c: Config)
    ensures systemPrompt.None? ==> c.systemPrompt == defaultPrompt
    ensures systemPrompt.Some? ==> c.systemPrompt == systemPrompt.value
    ensures tools.None? ==> c.tools == defaultTools
    ensures tools.Some? ==> c.tools == tools.value
  {
    Config(if systemPrompt.Some? then systemPrompt.value else defaultPrompt,
           if tools.Some? then tools.value else defaultTools)
  }

  predicate HasSystem(messages: seq<Message>) {
    exists i :: 0 <= i < |messages| && messages[i].SystemMsg?
  }

  /** What the agent node sends to the model. */
  function WithSystem(prompt: string, messages: seq<Message>): (r: seq<Message>)
    ensures HasSystem(messages) ==> r == messages
    ensures !HasSystem(messages) ==> r == [SystemMsg(prompt)] + messages
    ensures HasSystem(r)
  {
    if HasSystem(messages) then messages
    else
      var r := [SystemMsg(prompt)] + messages;
      assert r[0].SystemMsg?;
      r
  }

  /** A system message is put in front at most once, whatever the prompt. */
  lemma {:induction false} WithSystemOnce(p: string, q: string, messages: seq<Message>)
    ensures WithSystem(q, WithSystem(p, messages)) == WithSystem(p, messages)
    ensures |WithSystem(p, messages)| <= |messages| + 1
    ensures WithSystem(p, messages)[|WithSystem(p, messages)| - |messages|..] == messages
  {
  }

  /** `agent_node`: the state update is exactly the model's one response; the
      system message it may have put in front is not part of the update. */
  function AgentNode(cfg: Config, messages: seq<Message>, model: Model): (update: seq<Message>)
    ensures |update| == 1 && update[0] == model(WithSystem(cfg.systemPrompt, messages))
  {
    [model(WithSystem(cfg.systemPrompt, messages))]
  }

  datatype Route = ToTools | ToEnd

  /** `should_continue`: the last message decides; an AI message with tool
      calls goes to the tools whatever its text, everything else ends. */
  function ShouldContinue(messages: seq<Message>): (r: Route)
    requires |messages| > 0
    ensures r == ToTools <==> messages[|messages| - 1].AIMsg? && |messages[|messages| - 1].toolCalls| > 0
  {
    var last := messages[|messages| - 1];
    if last.AIMsg? && |last.toolCalls| > 0 then ToTools else ToEnd
  }

  datatype Node = Agent | Tools | End

  /** The entry point of the workflow. */
  const Entry: Node := Agent

  /** The edges: the agent's conditional edge and the fixed edge back from the tools. */
  function Next(node: Node, messages: seq<Message>): (n: Node)
    requires node != End && |messages| > 0
    ensures node == Tools ==> n == Agent
    ensures node == Agent ==> (n == Tools <==> ShouldContinue(messages) == ToTools)
    ensures node == Agent ==> n != Agent
  {
    match node
    case Agent => if ShouldContinue(messages) == ToTools then Tools else End
    case Tools => Agent
  }

  datatype GraphResult = Completed(messages: seq<Message>) | StepLimit

  /** Running the compiled workflow from `node`, each node's update appended to
      the state, with `budget` node executions left before the run is cut off. */
  function Execute(cfg: Config, messages: seq<Message>, model: Model, tools: ToolNode,
                   node: Node, budget: nat): (r: GraphResult)
    requires node == Tools ==> |messages| > 0
    decreases budget
  {
    if node == End then Completed(messages)
    else if budget == 0 then StepLimit
    else if node == Agent then
      var next := messages + AgentNode(cfg, messages, model);
      Execute(cfg, next, model, tools, Next(Agent, next), budget - 1)
    else
      var next := messages + tools(messages);
      Execute(cfg, next, model, tools, Agent, budget - 1)
  }

  /** A completed run only ever appended to the conversation, and when it ran at
      all it stopped on a message that asks for no tools. */
  lemma {:induction false} ExecuteAppendsAndEnds(cfg: Config, messages: seq<Message>, model: Model,
                                                 tools: ToolNode, node: Node, budget: nat)
    requires node == Tools ==> |messages| > 0
    requires Execute(cfg, messages, model, tools, node, budget).Completed?
    ensures var out := Execute(cfg, messages, model, tools, node, budget).messages;
      && |messages| <= |out| && out[..|messages|] == messages
      && (node != End ==> |out| > |messages| && ShouldContinue(out) == ToEnd)
    decreases budget
  {
    if node == Agent {
      var next := messages + AgentNode(cfg, messages, model);
      var n := Next(Agent, next);
      ExecuteAppendsAndEnds(cfg, next, model, tools, n, budget - 1);
      var out := Execute(cfg, next, model, tools, n, budget - 1).messages;
      assert out[..|messages|] == next[..|next|][..|messages|];
    } else if node == Tools {
      var next := messages + tools(messages);
      ExecuteAppendsAndEnds(cfg, next, model, tools, Agent, budget - 1);
      var out := Execute(cfg, next, model, tools, Agent, budget - 1).messages;
      assert out[..|messages|] == next[..|next|][..|messages|];
    }
  }

  /** Two conversations without a system message join into one without. */
  lemma {:induction false} NoSystemAppend(a: seq<Message>, b: seq<Message>)
    requires !HasSystem(a) && !HasSystem(b)
    ensures !HasSystem(a + b)
  {
    forall i | 0 <= i < |a + b| ensures !(a + b)[i].SystemMsg? {
      if i < |a| {
        assert (a + b)[i] == a[i];
      } else {
        assert (a + b)[i] == b[i - |a|];
      }
    }
  }

  /** One agent step: the state grows by exactly the model's answer to the
      conversation with the system prompt in front. The prompt itself is not
      stored: the state holds a system message afterwards only when it held
      one before or the model answered with one. */
  lemma {:induction false} AgentStep(cfg: Config, messages: seq<Message>, model: Model, tools: ToolNode,
                                     budget: nat)
    requires budget > 0
    ensures var answer := model(WithSystem(cfg.systemPrompt, messages));
      var next := messages + [answer];
      && Execute(cfg, messages, model, tools, Agent, budget) == Execute(cfg, next, model, tools, Next(Agent, next), budget - 1)
      && (HasSystem(next) <==> HasSystem(messages) || answer.SystemMsg?)
  {
    var answer := model(WithSystem(cfg.systemPrompt, messages));
    var next := messages + [answer];
    if HasSystem(messages) {
      var i :| 0 <= i < |messages| && messages[i].SystemMsg?;
      assert next[i] == messages[i];
    }
    if answer.SystemMsg? {
      assert next[|messages|] == answer;
    }
    if HasSystem(next) && !answer.SystemMsg? {
      var i :| 0 <= i < |next| && next[i].SystemMsg?;
      assert i < |messages| && next[i] == messages[i];
    }
  }

  /** A run that starts without a system message, under a model and a tools
      node that never produce one, completes without one: the system prompt
      the agent node puts in front is only ever sent, never stored. */
  lemma {:induction false} ExecuteNeverStoresSystem(cfg: Config, messages: seq<Message>, model: Model,
                                                    tools: ToolNode, node: Node, budget: nat)
    requires node == Tools ==> |messages| > 0
    requires !HasSystem(messages)
    requires forall c :: !model(c).SystemMsg?
    requires forall c :: !HasSystem(tools(c))
    requires Execute(cfg, messages, model, tools, node, budget).Completed?
    ensures !HasSystem(Execute(cfg, messages, model, tools, node, budget).messages)
    decreases budget
  {
    if node == Agent {
      AgentStep(cfg, messages, model, tools, budget);
      var next := messages + AgentNode(cfg, messages, model);
      ExecuteNeverStoresSystem(cfg, next, model, tools, Next(Agent, next), budget - 1);
    } else if node == Tools {
      var next := messages + tools(messages);
      NoSystemAppend(messages, tools(messages));
      ExecuteNeverStoresSystem(cfg, next, model, tools, Agent, budget - 1);
    }
  }

  /** The list object a caller may pass as `history`. */
  class MessageList {
    var items: seq<Message>

    constructor (items: seq<Message>)
      ensures this.items == items
    {
      this.items := items;
    }

    method Append(m: Message)
      modifies this
      ensures items == old(items) + [m]
    {
      items := items + [m];
    }
  }

  /** `invoke_agent`: `history or []` reuses a non-empty caller list, which
      therefore gains the user message; an absent or empty history is replaced by
      a fresh list, and the caller's empty list is left as it was. The graph is
      built by `create_agent_graph()` with no arguments, so with the default
      prompt and tools. */
  method InvokeAgent(userInput: string, history: MessageList?, defaultPrompt: string, defaultTools: seq<string>,
                     model: Model, tools: ToolNode, budget: nat)
    returns (messages: MessageList, result: GraphResult)
    modifies history
    ensures history != null && |old(history.items)| > 0 ==>
      messages == history && messages.items == old(history.items) + [HumanMsg(userInput)]
    ensures history == null || |old(history.items)| == 0 ==>
      fresh(messages) && messages.items == [HumanMsg(userInput)]
    ensures history != null && |old(history.items)| == 0 ==> history.items == []
    ensures result == Execute(CreateConfig(None, None, defaultPrompt, defaultTools), messages.items, model, tools,
                              Entry, budget)
  {
    if history != null && |history.items| > 0 {
      messages := history;
    } else {
      messages := new MessageList([]);
    }
    messages.Append(HumanMsg(userInput));
    var cfg := CreateConfig(None, None, defaultPrompt, defaultTools);
    result := Execute(cfg, messages.items, model, tools, Entry, budget);
  }
}
