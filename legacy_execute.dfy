/** `runStagehand` of the older server: a row of independent `if` tests on the
    method string, six methods, and no error handling at all. */
module LegacyExecute {
  import opened Wrappers
  import opened Automation

  /** The method names the older dispatcher tests for. */
  predicate IsLegacyMethod(m: string) {
    m in {"GOTO", "ACT", "EXTRACT", "CLOSE", "SCREENSHOT", "OBSERVE"}
  }

  /** The call the `if` matching `m` makes, if any `if` matches. */
  function Command(m: string, instruction: Option<string>): Option<Call> {
    if m == "GOTO" then Some(Goto(instruction, "domcontentloaded", 60000))
    else if m == "ACT" then Some(Act(instruction))
    else if m == "EXTRACT" then Some(Extract(instruction))
    else if m == "OBSERVE" then Some(Observe(instruction, true))
    else if m == "CLOSE" then Some(Call.Close)
    else if m == "SCREENSHOT" then Some(Call.Screenshot)
    else None
  }

  /** Exactly the six listed names select a call; WAIT and NAVBACK are not among them. */
  lemma CommandKnowsSixMethods(m: string, instruction: Option<string>)
    ensures Command(m, instruction).Some? <==> IsLegacyMethod(m)
    ensures !IsLegacyMethod("WAIT") && !IsLegacyMethod("NAVBACK")
  {
  }

  /** The whole behaviour of one call: its result and the calls it makes. */
  function Outcome(m: string, instruction: Option<string>, world: World): (Result<Value, Error>, seq<Call>) {
    var init := world(0, Init);
    if init.Failure? then (Failure(init.error), [Init])
    else match Command(m, instruction)
      case None => (Success(Undefined), [Init])
      case Some(c) =>
        var answer := world(1, c);
        if answer.Failure? then (Failure(answer.error), [Init, c])
        else if m in {"EXTRACT", "OBSERVE", "SCREENSHOT"} then (Success(answer.value), [Init, c])
        else (Success(Undefined), [Init, c])
  }

  method RunStagehand(sessionID: string, m: string, instruction: Option<string> := None, world: World)
    returns (r: Result<Value, Error>, effects: seq<Call>)
    ensures r == Outcome(m, instruction, world).0
    ensures effects == Outcome(m, instruction, world).1
  {
    var stagehand := new Stagehand(sessionID, world);
    var init := stagehand.Init();
    assert init == world(0, Init);
    if init.Failure? {
      return Failure(init.error), stagehand.effects;
    }
    if m == "GOTO" {
      var answer := stagehand.Goto(instruction, "domcontentloaded", 60000);
      if answer.Failure? { return Failure(answer.error), stagehand.effects; }
    }
    if m == "ACT" {
      var answer := stagehand.Act(instruction);
      if answer.Failure? { return Failure(answer.error), stagehand.effects; }
    }
    if m == "EXTRACT" {
      var answer := stagehand.Extract(instruction);
      if answer.Failure? { return Failure(answer.error), stagehand.effects; }
      return Success(answer.value), stagehand.effects;
    }
    if m == "OBSERVE" {
      var answer := stagehand.Observe(instruction, true);
      if answer.Failure? { return Failure(answer.error), stagehand.effects; }
      return Success(answer.value), stagehand.effects;
    }
    if m == "CLOSE" {
      var answer := stagehand.Close();
      if answer.Failure? { return Failure(answer.error), stagehand.effects; }
    }
    if m == "SCREENSHOT" {
      var answer := stagehand.Screenshot();
      if answer.Failure? { return Failure(answer.error), stagehand.effects; }
      return Success(answer.value), stagehand.effects;
    }
    r, effects := Success(Undefined), stagehand.effects;
  }

  /** Only the matching `if` makes a call; a name no `if` matches only starts
      the instance and resolves to `undefined`. */
  lemma OnlyMatchingBranch(m: string, instruction: Option<string>, world: World)
    requires world(0, Init).Success?
    ensures Command(m, instruction).None? ==> Outcome(m, instruction, world) == (Success(Undefined), [Init])
    ensures Command(m, instruction).Some? ==> Outcome(m, instruction, world).1 == [Init, Command(m, instruction).value]
  {
  }

  /** The arguments each branch passes to its primitive: GOTO waits for the
      DOM content with a 60-second timeout, OBSERVE asks for the accessibility
      tree, and every primitive receives the instruction unchanged. */
  lemma PrimitiveArguments(instruction: Option<string>, world: World)
    requires world(0, Init).Success?
    ensures Outcome("GOTO", instruction, world).1 == [Init, Goto(instruction, "domcontentloaded", 60000)]
    ensures Outcome("ACT", instruction, world).1 == [Init, Act(instruction)]
    ensures Outcome("EXTRACT", instruction, world).1 == [Init, Extract(instruction)]
    ensures Outcome("OBSERVE", instruction, world).1 == [Init, Observe(instruction, true)]
    ensures Outcome("CLOSE", instruction, world).1 == [Init, Call.Close]
    ensures Outcome("SCREENSHOT", instruction, world).1 == [Init, Call.Screenshot]
  {
  }

  /** No cleanup: a failing call propagates its own error and adds no close;
      the only close ever made is the one CLOSE asks for. */
  lemma NoCleanupOnFailure(m: string, instruction: Option<string>, world: World)
    ensures var (r, effects) := Outcome(m, instruction, world);
      Count(Call.Close, effects) == (if m == "CLOSE" && world(0, Init).Success? then 1 else 0)
      && (r.Failure? && world(0, Init).Success? ==> r.error == world(1, Command(m, instruction).value).error)
  {
    var (r, effects) := Outcome(m, instruction, world);
    assert [Init][..0] == [];
    if |effects| == 2 { assert effects[..1] == [Init]; }
  }

  /** GOTO, ACT and CLOSE resolve to `undefined`; EXTRACT, OBSERVE and
      SCREENSHOT resolve to the answer of their call. */
  lemma ReturnValues(m: string, instruction: Option<string>, world: World)
    requires Outcome(m, instruction, world).0.Success?
    ensures Outcome(m, instruction, world).0.value
         == if m in {"EXTRACT", "OBSERVE", "SCREENSHOT"} then world(1, Command(m, instruction).value).value else Undefined
  {
  }
}
