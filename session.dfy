/** The `StagehandSession` component: it opens a session, then drives the
    agent one server round trip at a time, appending each returned decision as
    the next numbered step, until the model chooses CLOSE or a round trip fails. */
module Session {
  import opened Wrappers
  import opened Steps
  import opened Api

  /** The body of one POST to `/api/agent`. */
  datatype Request = Request(goal: string, sessionId: string, previousSteps: seq<Decision>)

  const LoopError: string := "Error in agent loop"
  const InitError: string := "Failed to initialize session"

  /** A response after which the loop does not call itself again. */
  predicate Stops(reply: AgentReply) {
    !reply.Ok? || reply.result.tool == CLOSE
  }

  /** The server's answers contain one that ends the loop. */
  predicate EndsRun(script: seq<AgentReply>) {
    |script| > 0 && (Stops(script[0]) || EndsRun(script[1..]))
  }

  /** The decisions a run appends when the server answers with `script`. */
  function RunDecisions(script: seq<AgentReply>): seq<Decision> {
    if script == [] || !script[0].Ok? then []
    else [script[0].result] + (if script[0].result.tool == CLOSE then [] else RunDecisions(script[1..]))
  }

  /** The requests a run sends: the first carries `previous`, each later one the
      `steps` of the response before it. */
  function RunRequests(sessionId: string, goal: string, previous: seq<Decision>, script: seq<AgentReply>): seq<Request>
    decreases |script|
  {
    [Request(goal, sessionId, previous)]
      + (if script == [] || Stops(script[0]) then []
         else RunRequests(sessionId, goal, script[0].steps, script[1..]))
  }

  /** The error a run leaves behind. */
  function RunError(error: Option<string>, script: seq<AgentReply>): Option<string> {
    if script == [] then error
    else match script[0]
      case Ok(result, _, _, _) => if result.tool == CLOSE then error else RunError(error, script[1..])
      case Fail(e) => Some(e)
      case Thrown => Some(LoopError)
  }

  /** How many responses a run reads: up to and including the first that
      stops it; every response before that one is a success with a tool other
      than CLOSE. */
  function Consumed(script: seq<AgentReply>): (n: nat)
    requires EndsRun(script)
    ensures 1 <= n <= |script|
    ensures Stops(script[n - 1])
    ensures forall i :: 0 <= i < n - 1 ==> !Stops(script[i])
    decreases |script|
  {
    if Stops(script[0]) then 1
    else
      var n := 1 + Consumed(script[1..]);
      assert forall i :: 1 <= i < n ==> script[i] == script[1..][i - 1];
      n
  }

  /** The loop calls itself exactly while the model does not choose CLOSE: every
      response it reads before the last is a success with another tool, each
      such success and a final CLOSE append their decision, and a final failure
      appends nothing and sets the error. */
  lemma {:induction false} RunShape(error: Option<string>, script: seq<AgentReply>)
    requires EndsRun(script)
    ensures var last := script[Consumed(script) - 1];
      && |RunDecisions(script)| == (if last.Ok? then Consumed(script) else Consumed(script) - 1)
      && (forall i :: 0 <= i < |RunDecisions(script)| ==> RunDecisions(script)[i] == script[i].result)
      && RunError(error, script) == match last
                                      case Ok(_, _, _, _) => error
                                      case Fail(e) => Some(e)
                                      case Thrown => Some(LoopError)
    decreases |script|
  {
    if !Stops(script[0]) {
      RunShape(error, script[1..]);
      var n := Consumed(script[1..]);
      assert script[Consumed(script) - 1] == script[1..][n - 1];
      forall i | 0 <= i < |RunDecisions(script)| ensures RunDecisions(script)[i] == script[i].result {
        if i > 0 { assert script[1..][i - 1] == script[i]; }
      }
    }
  }

  /** Each later request carries the history the server returned, not the
      client's own list of steps. */
  lemma {:induction false} RequestsFollowServer(sessionId: string, goal: string, previous: seq<Decision>, script: seq<AgentReply>)
    requires EndsRun(script)
    ensures |RunRequests(sessionId, goal, previous, script)| == Consumed(script)
    ensures RunRequests(sessionId, goal, previous, script)[0] == Request(goal, sessionId, previous)
    ensures forall i :: 0 < i < Consumed(script) ==>
              RunRequests(sessionId, goal, previous, script)[i] == Request(goal, sessionId, script[i - 1].steps)
    decreases |script|
  {
    if !Stops(script[0]) {
      var rest := RunRequests(sessionId, goal, script[0].steps, script[1..]);
      RequestsFollowServer(sessionId, goal, script[0].steps, script[1..]);
      forall i | 0 < i < Consumed(script)
        ensures RunRequests(sessionId, goal, previous, script)[i] == Request(goal, sessionId, script[i - 1].steps)
      {
        assert RunRequests(sessionId, goal, previous, script)[i] == rest[i - 1];
        if i > 1 { assert script[1..][i - 2] == script[i - 1]; }
      }
    }
  }

  /** The loop has no step budget: against answers that are all successes
      without CLOSE, however many, it never stops; it asks for one more. */
  lemma {:induction false} NoBudget(script: seq<AgentReply>)
    requires forall i :: 0 <= i < |script| ==> !Stops(script[i])
    ensures !EndsRun(script)
    decreases |script|
  {
    if script != [] {
      assert forall i :: 0 <= i < |script[1..]| ==> script[1..][i] == script[i + 1];
      NoBudget(script[1..]);
    }
  }

  /** One successful round trip of a run: its decision is appended first, and
      the run goes on with the rest of the script unless the decision is CLOSE. */
  lemma RunUnfolds(sessionId: string, goal: string, previous: seq<Decision>, error: Option<string>,
                   steps: seq<BrowserStep>, script: seq<AgentReply>)
    requires |script| > 0 && script[0].Ok?
    ensures var result := script[0].result;
      var rest := if result.tool == CLOSE then [] else script[1..];
      && AppendAll(steps, RunDecisions(script)) == AppendAll(AppendStep(steps, result), RunDecisions(rest))
      && RunRequests(sessionId, goal, previous, script)
         == [Request(goal, sessionId, previous)]
            + (if result.tool == CLOSE then [] else RunRequests(sessionId, goal, script[0].steps, rest))
      && RunError(error, script) == (if result.tool == CLOSE then error else RunError(error, rest))
  {
    assert RunDecisions([]) == [];
  }

  lemma RequestsAppend(a: seq<Request>, b: seq<Request>, c: seq<Request>)
    ensures a + b + c == a + (b + c)
  {
  }

  class StagehandSession {
    const initialPrompt: string
    var sessionId: Option<string>
    var sessionUrl: Option<string>
    var steps: seq<BrowserStep>
    var loading: bool
    var error: Option<string>
    /** Every request sent to `/api/agent`, in order. */
    var requests: seq<Request>

    /** The displayed steps are numbered 1..n. */
    predicate Valid()
      reads this
    {
      Numbered(steps)
    }

    constructor (initialPrompt: string)
      ensures Valid()
      ensures this.initialPrompt == initialPrompt
      ensures sessionId == None && sessionUrl == None && steps == [] && !loading && error == None && requests == []
    {
      this.initialPrompt := initialPrompt;
      sessionId, sessionUrl, steps, loading, error, requests := None, None, [], false, None, [];
    }

    /** `runAgentLoop`: one round trip, then a recursive call unless the answer
        stops the run. */
    method RunAgentLoop(sessionId: string, goal: string, previousSteps: seq<Decision>, script: seq<AgentReply>)
      requires Valid() && EndsRun(script)
      modifies this
      ensures Valid()
      ensures steps == AppendAll(old(steps), RunDecisions(script))
      ensures requests == old(requests) + RunRequests(sessionId, goal, previousSteps, script)
      ensures error == RunError(old(error), script)
      ensures !loading
      ensures this.sessionId == old(this.sessionId) && sessionUrl == old(sessionUrl)
      decreases |script|
    {
      loading := true;
      requests := requests + [Request(goal, sessionId, previousSteps)];
      var data := script[0];
      match data {
        case Ok(result, _, _, next) =>
          RunUnfolds(sessionId, goal, previousSteps, old(error), steps, script);
          steps := AppendStep(steps, result);
          if result.tool != CLOSE {
            RunAgentLoop(sessionId, goal, next, script[1..]);
            RequestsAppend(old(requests), [Request(goal, sessionId, previousSteps)],
                           RunRequests(sessionId, goal, next, script[1..]));
          }
        case Fail(e) =>
          error := Some(e);
        case Thrown =>
          error := Some(LoopError);
      }
      loading := false;
    }

    /** `initializeSession`: open a session and start the loop with an empty
        history, or record why the session could not be opened. */
    method InitializeSession(reply: SessionReply, script: seq<AgentReply>)
      requires Valid()
      requires reply.Created? ==> EndsRun(script)
      modifies this
      ensures Valid()
      ensures reply.Created? ==>
                && sessionId == Some(reply.sessionId) && sessionUrl == Some(reply.sessionUrl)
                && steps == AppendAll(old(steps), RunDecisions(script))
                && requests == old(requests) + RunRequests(reply.sessionId, initialPrompt, [], script)
                && error == RunError(old(error), script)
                && !loading
      ensures !reply.Created? ==>
                && sessionId == old(sessionId) && sessionUrl == old(sessionUrl)
                && steps == old(steps) && requests == old(requests) && loading == old(loading)
                && error == Some(if reply.Refused? then reply.error else InitError)
    {
      match reply {
        case Created(id, url) =>
          sessionId := Some(id);
          sessionUrl := Some(url);
          RunAgentLoop(id, initialPrompt, [], script);
        case Refused(e) =>
          error := Some(e);
        case Unreachable =>
          error := Some(InitError);
      }
    }
  }

  /** A fresh component that opens a session and runs to the end shows the
      returned decisions as steps 1..n, and its first request has an empty history. */
  method StartSession(initialPrompt: string, reply: SessionReply, script: seq<AgentReply>)
    returns (shown: seq<BrowserStep>, sent: seq<Request>)
    requires reply.Created? ==> EndsRun(script)
    ensures Numbered(shown)
    ensures Decisions(shown) == if reply.Created? then RunDecisions(script) else []
    ensures reply.Created? ==> |sent| > 0 && sent[0].previousSteps == []
    ensures !reply.Created? ==> sent == []
  {
    var session := new StagehandSession(initialPrompt);
    session.InitializeSession(reply, script);
    shown, sent := session.steps, session.requests;
    if reply.Created? {
      AppendAllExtends([], RunDecisions(script));
      assert Decisions([]) == [];
    }
  }
}
