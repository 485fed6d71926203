/** Message routing between agents that each consult a language model: every
    agent shares one table of per-agent FIFO queues, reads its own queue into
    the observation before asking the model, and turns the model's chosen
    action into a result, posting `send_request` messages to the target's
    queue. */
module CrabAgents {

  datatype Option<T> = None | Some(value: T)

  /** The model's reply: the chosen function name and its keyword arguments. */
  datatype Reply = Reply(actionName: string, parameters: map<string, string>)

  /** The language model as the agent uses it: a reply for each prompt. */
  type Llm = string -> Reply

  /** Errors `chat` raises: calling into a model that `init_agent` never
      created, and a missing key in the reply's arguments. */
  datatype ChatError = AttributeError | KeyError(key: string)

  /** The `"arguments"` of a result: the wait list or the keyword arguments. */
  datatype Arguments = Positional(values: seq<string>) | Keyword(entries: map<string, string>)

  /** What `chat` returns: `None`, a result dictionary, or an exception. */
  datatype Response = NoResponse | Respond(name: string, arguments: Arguments) | Fail(error: ChatError)

  const SendRequest := "send_request"
  const Wait := "wait"
  const WaitArguments: seq<string> := ["100"]

  /** Actions that are tagged with the acting robot's name. */
  const RobotActions: set<string> := {"nav_to_obj", "nav_to_goal", "nav_to_robot", "place", "pick"}

  /** `REQUEST_TEMPLATE` filled in with the sender and the request. */
  function RequestMessage(source: string, request: string): string {
    "\"" + source + "\" agent sent you requests: \"" + request + "\"."
  }

  /** `sep.join(items)`. */
  function Join(sep: string, items: seq<string>): string {
    if |items| == 0 then ""
    else if |items| == 1 then items[0]
    else Join(sep, items[..|items| - 1]) + sep + items[|items| - 1]
  }

  /** Joining two non-empty lists is joining each and putting one separator
      between them, so a queue reads as its messages in insertion order. */
  lemma {:induction false} JoinConcat(sep: string, a: seq<string>, b: seq<string>)
    requires |a| > 0 && |b| > 0
    ensures Join(sep, a + b) == Join(sep, a) + sep + Join(sep, b)
    decreases |b|
  {
    var ab := a + b;
    if |b| == 1 {
      assert ab[..|ab| - 1] == a;
    } else {
      var init := b[..|b| - 1];
      assert ab[..|ab| - 1] == a + init;
      JoinConcat(sep, a, init);
    }
  }

  // ---------------------------------------------------------------- specification

  type Queues = map<string, seq<string>>

  /** The start of `chat`: a non-empty queue of the agent's is appended to
      the observation after one space, joined by spaces, and emptied. */
  function Drain(queues: Queues, name: string, observation: string): (r: (Queues, string))
    ensures r.0.Keys == queues.Keys
    ensures name in queues ==> r.0[name] == []
    ensures forall other :: other in queues && other != name ==> r.0[other] == queues[other]
    ensures |observation| <= |r.1| && r.1[..|observation|] == observation
  {
    if name in queues && |queues[name]| > 0 then
      (queues[name := []], observation + " " + Join(" ", queues[name]))
    else
      (queues, observation)
  }

  /** The rest of `chat`, once the model has replied. It never raises
      `AttributeError`, never posts to the caller's own queue, and only ever
      adds queues or appends to their ends. */
  function Route(queues: Queues, name: string, reply: Reply): (r: (Queues, Response))
    ensures r.1 != Fail(AttributeError)
    ensures queues.Keys <= r.0.Keys
    ensures name in queues ==> r.0[name] == queues[name]
    ensures forall k :: k in queues ==> |queues[k]| <= |r.0[k]| && r.0[k][..|queues[k]|] == queues[k]
  {
    var params := reply.parameters;
    if reply.actionName == SendRequest then
      if "target_agent" !in params then (queues, Fail(KeyError("target_agent")))
      else
        var target := params["target_agent"];
        if target == name then (queues, NoResponse)
        else if "request" !in params then (queues, Fail(KeyError("request")))
        else
          var queue := if target in queues then queues[target] else [];
          (queues[target := queue + [RequestMessage(name, params["request"])]], Respond(Wait, Positional(WaitArguments)))
    else if reply.actionName == Wait then
      (queues, Respond(Wait, Positional(WaitArguments)))
    else if reply.actionName in RobotActions then
      (queues, Respond(reply.actionName, Keyword(params["robot" := name])))
    else
      (queues, Respond(reply.actionName, Keyword(params)))
  }

  /** One whole call of `chat`: the queue is drained before the model is
      consulted, so it is drained even when there is no model, and the call
      fails with `AttributeError` exactly when there is none. */
  function ChatStep(queues: Queues, name: string, model: Option<Llm>, observation: string): (r: (Queues, Response))
    ensures r.1 == Fail(AttributeError) <==> model.None?
    ensures queues.Keys <= r.0.Keys
    ensures name in queues ==> r.0[name] == []
  {
    var (drained, prompt) := Drain(queues, name, observation);
    match model
    case None => (drained, Fail(AttributeError))
    case Some(llm) => Route(drained, name, llm(prompt))
  }

  // ---------------------------------------------------------------- properties

  /** Draining twice is draining once: the second call finds nothing. */
  lemma DrainIdempotent(queues: Queues, name: string, observation: string, later: string)
    ensures var (q1, _) := Drain(queues, name, observation);
      Drain(q1, name, later) == (q1, later)
  {
  }

  /** An agent with no queue, or an empty one, sees its observation unchanged
      and leaves the table as it was; otherwise it reads every queued message
      and its queue ends up empty, with every other queue untouched. */
  lemma DrainReadsOwnQueue(queues: Queues, name: string, observation: string)
    ensures var (q1, prompt) := Drain(queues, name, observation);
      && (name !in queues || |queues[name]| == 0 <==> q1 == queues && prompt == observation)
      && (name in queues && |queues[name]| > 0 ==>
            prompt == observation + " " + Join(" ", queues[name]) && q1[name] == [])
      && q1.Keys == queues.Keys
      && (forall other :: other in queues && other != name ==> q1[other] == queues[other])
  {
    var (q1, prompt) := Drain(queues, name, observation);
    if name in queues && |queues[name]| > 0 {
      assert |prompt| > |observation|;
    }
  }

  /** A request to oneself is dropped: `None`, and no queue changes. */
  lemma SelfRequestDropped(queues: Queues, name: string, params: map<string, string>)
    requires "target_agent" in params && params["target_agent"] == name
    ensures Route(queues, name, Reply(SendRequest, params)) == (queues, NoResponse)
  {
  }

  /** A request to another agent puts exactly one message at the end of the
      target's queue, creating it if needed, leaves every other queue as it
      was, and tells the sender to wait. */
  lemma RequestAppendsToTarget(queues: Queues, name: string, params: map<string, string>)
    requires "target_agent" in params && "request" in params && params["target_agent"] != name
    ensures var target := params["target_agent"];
      var (q1, response) := Route(queues, name, Reply(SendRequest, params));
      && response == Respond(Wait, Positional(["100"]))
      && q1.Keys == queues.Keys + {target}
      && (forall other :: other in queues && other != target ==> q1[other] == queues[other])
      && |q1[target]| == (if target in queues then |queues[target]| else 0) + 1
      && q1[target][..|q1[target]| - 1] == (if target in queues then queues[target] else [])
      && q1[target][|q1[target]| - 1] == RequestMessage(name, params["request"])
  {
    var target := params["target_agent"];
    var q1 := Route(queues, name, Reply(SendRequest, params)).0;
    var queue := if target in queues then queues[target] else [];
    assert q1[target] == queue + [RequestMessage(name, params["request"])];
    assert q1[target][..|q1[target]| - 1] == queue;
  }

  /** Only a `send_request` with both keys and another agent as target ever
      changes the table. */
  lemma OnlyRequestsPost(queues: Queues, name: string, reply: Reply)
    ensures Route(queues, name, reply).0 != queues ==>
      && reply.actionName == SendRequest
      && "target_agent" in reply.parameters && "request" in reply.parameters
      && reply.parameters["target_agent"] != name
  {
  }

  /** The result for every action other than `send_request`: `wait` waits;
      navigation and manipulation actions keep their name and arguments with
      `"robot"` set to the agent; any other action passes through unchanged. */
  lemma ActionResults(queues: Queues, name: string, reply: Reply)
    requires reply.actionName != SendRequest
    ensures var (q1, response) := Route(queues, name, reply);
      && q1 == queues
      && response.Respond? && response.name == reply.actionName
      && (reply.actionName == Wait ==> response.arguments == Positional(["100"]))
      && (reply.actionName != Wait && reply.actionName in RobotActions ==>
            && response.arguments.Keyword?
            && response.arguments.entries.Keys == reply.parameters.Keys + {"robot"}
            && response.arguments.entries["robot"] == name
            && forall k :: k in reply.parameters && k != "robot" ==> response.arguments.entries[k] == reply.parameters[k])
      && (reply.actionName != Wait && reply.actionName !in RobotActions ==>
            response.arguments == Keyword(reply.parameters))
  {
  }

  /** A request from `sender` to `receiver` reaches `receiver` on its next
      call: the prompt ends with the request message, after the messages that
      were already waiting, and the receiver's queue is emptied again. */
  lemma RequestDeliveredInOrder(queues: Queues, sender: string, receiver: string, request: string, observation: string)
    requires sender != receiver
    ensures var params := map["target_agent" := receiver, "request" := request];
      var (q1, _) := Route(queues, sender, Reply(SendRequest, params));
      var (q2, prompt) := Drain(q1, receiver, observation);
      var waiting := if receiver in queues then queues[receiver] else [];
      && q2[receiver] == []
      && prompt == observation + " " + Join(" ", waiting + [RequestMessage(sender, request)])
      && (|waiting| > 0 ==>
            prompt == observation + " " + Join(" ", waiting) + " " + RequestMessage(sender, request))
  {
    var waiting := if receiver in queues then queues[receiver] else [];
    var message := RequestMessage(sender, request);
    if |waiting| > 0 {
      JoinConcat(" ", waiting, [message]);
    }
  }

  // ---------------------------------------------------------------- objects

  /** The class-level `message_pipe`, shared by every agent. */
  class MessagePipe {
    var queues: Queues

    constructor ()
      ensures queues == map[]
    {
      queues := map[];
    }
  }

  class CrabAgent {
    const name: string
    const pipe: MessagePipe
    var model: Option<Llm>
    var initialized: bool
    var injectedHistory: Option<seq<string>>
    var robotType: string
    var taskDescription: string
    var subtaskDescription: string
    var enableLogging: bool
    var loggingFile: string
    /** The logging settings `init_agent` gives the model it creates. */
    var modelEnableLogging: bool
    var modelLoggingFile: string

    /** The agent has a model exactly when it is initialized. */
    predicate Valid()
      reads this
    {
      initialized <==> model.Some?
    }

    constructor (name: string, pipe: MessagePipe, enableLogging: bool, loggingFile: string)
      ensures this.name == name && this.pipe == pipe
      ensures !initialized && model == None && Valid()
      ensures this.enableLogging == enableLogging && this.loggingFile == loggingFile
    {
      this.name := name;
      this.pipe := pipe;
      model := None;
      initialized := false;
      injectedHistory := None;
      robotType, taskDescription, subtaskDescription := "", "", "";
      this.enableLogging := enableLogging;
      this.loggingFile := loggingFile;
      modelEnableLogging, modelLoggingFile := false, "";
    }

    /** `init_agent`: attach the model built for this agent's role; the
        discussion history replaces the model's own only when one is given,
        and the logging settings go to the model, not to the agent. */
    method InitAgent(robotType: string, taskDescription: string, subtaskDescription: string, llm: Llm,
                     chatHistory: Option<seq<string>>, enableLogging: bool, loggingFile: string)
      modifies this
      ensures initialized && model == Some(llm) && Valid()
      ensures injectedHistory == chatHistory
      ensures this.robotType == robotType && this.taskDescription == taskDescription
      ensures this.subtaskDescription == subtaskDescription
      ensures modelEnableLogging == enableLogging && modelLoggingFile == loggingFile
      ensures this.enableLogging == old(this.enableLogging) && this.loggingFile == old(this.loggingFile)
    {
      this.robotType := robotType;
      this.taskDescription := taskDescription;
      this.subtaskDescription := subtaskDescription;
      model := Some(llm);
      injectedHistory := None;
      if chatHistory.Some? {
        injectedHistory := chatHistory;
      }
      modelEnableLogging := enableLogging;
      modelLoggingFile := loggingFile;
      initialized := true;
    }

    /** `chat`: drain this agent's queue into the observation, ask the model,
        and route its reply; only the shared table changes. An agent in its
        valid state fails with `AttributeError` exactly when it was never
        initialized. */
    method Chat(observation: string) returns (response: Response)
      modifies pipe
      ensures (pipe.queues, response) == ChatStep(old(pipe.queues), name, model, observation)
      ensures Valid() ==> (response == Fail(AttributeError) <==> !initialized)
    {
      var prompt := observation;
      if name in pipe.queues && |pipe.queues[name]| > 0 {
        prompt := observation + " " + Join(" ", pipe.queues[name]);
        pipe.queues := pipe.queues[name := []];
      }
      assert (pipe.queues, prompt) == Drain(old(pipe.queues), name, observation);
      if model.None? {
        return Fail(AttributeError);
      }
      var reply := model.value(prompt);
      ghost var drained := pipe.queues;
      ghost var routed := Route(drained, name, reply);
      var params := reply.parameters;
      if reply.actionName == SendRequest {
        if "target_agent" !in params {
          return Fail(KeyError("target_agent"));
        }
        var target := params["target_agent"];
        if target == name {
          return NoResponse;
        }
        if "request" !in params {
          return Fail(KeyError("request"));
        }
        var request := params["request"];
        if target !in pipe.queues {
          pipe.queues := pipe.queues[target := []];
        }
        var message := RequestMessage(name, request);
        ghost var queue := if target in drained then drained[target] else [];
        assert pipe.queues[target] == queue;
        pipe.queues := pipe.queues[target := pipe.queues[target] + [message]];
        assert pipe.queues == drained[target := queue + [message]];
        return Respond(Wait, Positional(WaitArguments));
      }
      if reply.actionName == Wait {
        return Respond(Wait, Positional(WaitArguments));
      }
      if reply.actionName in RobotActions {
        params := params["robot" := name];
        return Respond(reply.actionName, Keyword(params));
      } else {
        return Respond(reply.actionName, Keyword(params));
      }
    }
  }

  /** An agent used before `init_agent`: a new agent has no model, so its
      first `chat` empties its own queue, leaves every other queue as it was,
      and then raises `AttributeError`. */
  method ChatBeforeInit(pipe: MessagePipe, name: string, observation: string, enableLogging: bool, loggingFile: string)
    returns (agent: CrabAgent, response: Response)
    modifies pipe
    ensures fresh(agent) && agent.name == name && agent.pipe == pipe && !agent.initialized && agent.Valid()
    ensures response == Fail(AttributeError)
    ensures pipe.queues.Keys == old(pipe.queues).Keys
    ensures name in pipe.queues ==> pipe.queues[name] == []
    ensures forall other :: other in old(pipe.queues) && other != name ==> pipe.queues[other] == old(pipe.queues)[other]
  {
    agent := new CrabAgent(name, pipe, enableLogging, loggingFile);
    response := agent.Chat(observation);
  }
}
