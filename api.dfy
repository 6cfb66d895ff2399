/** What the clients receive from the server, as far as they read it. */
module Api {
  import opened Steps

  /** The response to a POST of `/api/agent`, after `response.json()`. */
  datatype AgentReply =
    | Ok(result: Decision, sessionId: string, sessionUrl: string, steps: seq<Decision>)  // `success: true`
    | Fail(error: string)                                                              // `success` missing or false
    | Thrown                                                                           // `fetch` or `json()` threw

  /** The response to a POST of `/api/session`. */
  datatype SessionReply =
    | Created(sessionId: string, sessionUrl: string)
    | Refused(error: string)
    | Unreachable
}
