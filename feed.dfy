/** The agent-state part of the `ChatFeed` component: one round trip per call
    of `startAgentLoop`, folded into `agentState` by a pure updater. */
module Feed {
  import opened Wrappers
  import opened Steps
  import opened Api

  datatype AgentState = AgentState(sessionId: Option<string>, sessionUrl: Option<string>,
                                   steps: seq<BrowserStep>, isLoading: bool)

  /** The body of one POST to `/api/agent`. */
  datatype Request = Request(goal: string, previousSteps: seq<BrowserStep>, sessionId: Option<string>)

  const InitialState: AgentState := AgentState(None, None, [], false)

  /** The `setAgentState` updater for a successful response: the session fields
      are overwritten, the decision is appended as step `prev.steps.length + 1`,
      and nothing else changes. */
  function Updated(prev: AgentState, data: AgentReply): (next: AgentState)
    requires data.Ok?
    ensures next.sessionId == Some(data.sessionId) && next.sessionUrl == Some(data.sessionUrl)
    ensures next.isLoading == prev.isLoading
    ensures |next.steps| == |prev.steps| + 1 && next.steps[..|prev.steps|] == prev.steps
    ensures Decisions(next.steps) == Decisions(prev.steps) + [data.result]
    ensures next.steps[|prev.steps|].stepNumber == |prev.steps| + 1
    ensures Numbered(prev.steps) ==> Numbered(next.steps)
  {
    prev.(sessionId := Some(data.sessionId), sessionUrl := Some(data.sessionUrl),
          steps := AppendStep(prev.steps, data.result))
  }

  /** `initialMessage` as a condition: present and not empty. */
  predicate Truthy(message: Option<string>) {
    message.Some? && message.value != ""
  }

  class ChatFeed {
    const initialMessage: Option<string>
    /** The separate `steps` state, which nothing ever writes. */
    var steps: seq<BrowserStep>
    var isLoading: bool
    var agentState: AgentState
    /** Every request sent to `/api/agent`, in order. */
    var requests: seq<Request>

    /** The agent's steps are numbered 1..n, and `agentState.isLoading` keeps its
        initial `false`. */
    predicate Valid()
      reads this
    {
      Numbered(agentState.steps) && !agentState.isLoading
    }

    constructor (initialMessage: Option<string>)
      ensures Valid()
      ensures this.initialMessage == initialMessage
      ensures steps == [] && !isLoading && agentState == InitialState && requests == []
    {
      this.initialMessage := initialMessage;
      steps, isLoading, agentState, requests := [], false, InitialState, [];
    }

    /** The condition of the effect that starts the loop. It reads `steps`, not
        `agentState.steps`. */
    predicate AutoStart()
      reads this
    {
      Truthy(initialMessage) && |steps| == 0
    }

    /** `startAgentLoop` answered by `data`. */
    method StartAgentLoop(goal: string, data: AgentReply)
      requires Valid()
      modifies this
      ensures Valid()
      ensures requests == old(requests) + [Request(goal, old(agentState).steps, old(agentState).sessionId)]
      ensures agentState == if data.Ok? then Updated(old(agentState), data) else old(agentState)
      ensures !isLoading
      ensures steps == old(steps)
      ensures AutoStart() == old(AutoStart())
    {
      isLoading := true;
      requests := requests + [Request(goal, agentState.steps, agentState.sessionId)];
      if data.Ok? {
        agentState := Updated(agentState, data);
      }
      isLoading := false;
    }
  }

  /** Every success, a CLOSE decision included, changes `agentState.steps`,
      a dependency of `startAgentLoop` and through it of the auto-start
      effect, while `AutoStart()` stays as it was: the effect fires again. */
  lemma SuccessChangesSteps(state: AgentState, data: AgentReply)
    requires data.Ok?
    ensures Updated(state, data).steps != state.steps
  {
    assert |Updated(state, data).steps| == |state.steps| + 1;
  }

  /** The agent state after one `startAgentLoop` per response, in order. */
  function Fold(state: AgentState, replies: seq<AgentReply>): AgentState
    decreases |replies|
  {
    if replies == [] then state
    else Fold(if replies[0].Ok? then Updated(state, replies[0]) else state, replies[1..])
  }

  /** The decisions of the successful responses, in order. */
  function Successes(replies: seq<AgentReply>): seq<Decision> {
    if replies == [] then []
    else (if replies[0].Ok? then [replies[0].result] else []) + Successes(replies[1..])
  }

  /** Over any number of round trips the steps are exactly the successful
      decisions, numbered 1..n, failures leave no trace, and
      `agentState.isLoading` is never touched. */
  lemma {:induction false} FoldKeepsNumbering(state: AgentState, replies: seq<AgentReply>)
    requires Numbered(state.steps)
    ensures Numbered(Fold(state, replies).steps)
    ensures Decisions(Fold(state, replies).steps) == Decisions(state.steps) + Successes(replies)
    ensures Fold(state, replies).isLoading == state.isLoading
    decreases |replies|
  {
    if replies != [] {
      var next := if replies[0].Ok? then Updated(state, replies[0]) else state;
      FoldKeepsNumbering(next, replies[1..]);
      assert Decisions(state.steps) + Successes(replies)
          == Decisions(state.steps) + (if replies[0].Ok? then [replies[0].result] else []) + Successes(replies[1..]);
    }
  }
}
