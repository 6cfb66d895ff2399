/** `runStagehand` of the current server: one automation primitive per method,
    chosen by an exhaustive switch, with the instance closed before any error
    from the switch is rethrown. */
module Execute {
  import opened Wrappers
  import opened Automation

  datatype Method = GOTO | ACT | EXTRACT | CLOSE | SCREENSHOT | OBSERVE | WAIT | NAVBACK

  const NavigationTimeout: nat := 60000
  const NavigationWaitUntil: string := "domcontentloaded"

  /** The one call each method makes inside the `try`. */
  function Command(m: Method, instruction: Option<string>): Call {
    match m
    case GOTO => Goto(instruction, NavigationWaitUntil, NavigationTimeout)
    case ACT => Act(instruction)
    case EXTRACT => Extract(instruction)
    case OBSERVE => Observe(instruction, true)
    case CLOSE => Call.Close
    case SCREENSHOT => Call.Screenshot
    case WAIT => Sleep(instruction)
    case NAVBACK => Call.GoBack
  }

  /** Different methods never make the same call: each method has its own branch. */
  lemma CommandSelectsMethod(m: Method, n: Method, instruction: Option<string>)
    ensures Command(m, instruction) == Command(n, instruction) ==> m == n
  {
  }

  /** What a method returns once its call succeeded: the extraction, the
      observation or the screenshot data, and nothing for the other methods. */
  function Returned(m: Method, answer: Value): Value {
    if m == EXTRACT || m == OBSERVE || m == SCREENSHOT then answer else Undefined
  }

  /** The whole behaviour of one `runStagehand` call against a remote side that
      answers as `world` does: its result and the calls it makes. */
  function Outcome(m: Method, instruction: Option<string>, world: World): (Result<Value, Error>, seq<Call>) {
    var init := world(0, Init);
    if init.Failure? then (Failure(init.error), [Init])
    else
      var c := Command(m, instruction);
      var answer := if c.Sleep? then Success(Undefined) else world(1, c);
      if answer.Success? then (Success(Returned(m, answer.value)), [Init, c])
      else
        var closed := world(2, Call.Close);
        (Failure(if closed.Failure? then closed.error else answer.error), [Init, c, Call.Close])
  }

  method RunStagehand(sessionID: string, m: Method, instruction: Option<string> := None, world: World)
    returns (r: Result<Value, Error>, effects: seq<Call>)
    ensures r == Outcome(m, instruction, world).0
    ensures effects == Outcome(m, instruction, world).1
  {
    var stagehand := new Stagehand(sessionID, world);
    var init := stagehand.Init();
    if init.Failure? {
      return Failure(init.error), stagehand.effects;
    }
    var answer: Result<Value, Error>;
    var returned: Value := Undefined;
    match m {
      case GOTO =>
        answer := stagehand.Goto(instruction, NavigationWaitUntil, NavigationTimeout);
      case ACT =>
        answer := stagehand.Act(instruction);
      case EXTRACT =>
        answer := stagehand.Extract(instruction);
        if answer.Success? { returned := answer.value; }
      case OBSERVE =>
        answer := stagehand.Observe(instruction, true);
        if answer.Success? { returned := answer.value; }
      case CLOSE =>
        answer := stagehand.Close();
      case SCREENSHOT =>
        answer := stagehand.Screenshot();
        if answer.Success? { returned := answer.value; }
      case WAIT =>
        stagehand.Sleep(instruction);
        answer := Success(Undefined);
      case NAVBACK =>
        answer := stagehand.GoBack();
    }
    var c := Command(m, instruction);
    assert stagehand.effects == [Init, c];
    assert answer == if c.Sleep? then Success(Undefined) else world(1, c);
    assert answer.Success? ==> returned == Returned(m, answer.value);
    if answer.Failure? {
      // the `catch`: close the instance, then rethrow
      var closed := stagehand.Close();
      r := if closed.Failure? then Failure(closed.error) else Failure(answer.error);
    } else {
      r := Success(returned);
    }
    effects := stagehand.effects;
  }

  /** Every call starts the instance first, and a failed start is thrown before
      the `try`: nothing else is called, in particular no close. */
  lemma InitFailureSkipsCleanup(m: Method, instruction: Option<string>, world: World)
    ensures Outcome(m, instruction, world).1[0] == Init
    ensures world(0, Init).Failure? ==>
              Outcome(m, instruction, world) == (Failure(world(0, Init).error), [Init])
  {
  }

  /** Once started, exactly one branch runs: the second call is the method's own
      command, followed at most by the cleanup close. */
  lemma ExactlyOneBranch(m: Method, instruction: Option<string>, world: World)
    requires world(0, Init).Success?
    ensures var effects := Outcome(m, instruction, world).1;
      effects == [Init, Command(m, instruction)] || effects == [Init, Command(m, instruction), Call.Close]
  {
  }

  /** The arguments each branch passes to its primitive: GOTO waits for the
      DOM content with a 60-second timeout, OBSERVE asks for the accessibility
      tree, and every primitive receives the instruction unchanged. */
  lemma PrimitiveArguments(instruction: Option<string>, world: World)
    requires world(0, Init).Success?
    ensures Outcome(GOTO, instruction, world).1[1] == Goto(instruction, "domcontentloaded", 60000)
    ensures Outcome(ACT, instruction, world).1[1] == Act(instruction)
    ensures Outcome(EXTRACT, instruction, world).1[1] == Extract(instruction)
    ensures Outcome(OBSERVE, instruction, world).1[1] == Observe(instruction, true)
    ensures Outcome(CLOSE, instruction, world).1[1] == Call.Close
    ensures Outcome(SCREENSHOT, instruction, world).1[1] == Call.Screenshot
    ensures Outcome(NAVBACK, instruction, world).1[1] == Call.GoBack
  {
  }

  /** A failure inside the `try` closes the instance once more and rethrows the
      same error, unless the close fails too, whose error then propagates. */
  lemma CloseOnFailure(m: Method, instruction: Option<string>, world: World)
    requires world(0, Init).Success?
    requires Outcome(m, instruction, world).0.Failure?
    ensures var (r, effects) := Outcome(m, instruction, world);
      |effects| == 3 && effects[2] == Call.Close
      && world(1, Command(m, instruction)).Failure?
      && (world(2, Call.Close).Success? ==> r.error == world(1, Command(m, instruction)).error)
  {
  }

  /** How often the instance is closed: once for a successful CLOSE, once more
      for every failure inside the `try`, never after a failed start. */
  lemma CloseCount(m: Method, instruction: Option<string>, world: World)
    ensures var (r, effects) := Outcome(m, instruction, world);
      Count(Call.Close, effects)
        == if world(0, Init).Failure? then 0
           else (if m == CLOSE then 1 else 0) + (if r.Failure? then 1 else 0)
  {
    var c := Command(m, instruction);
    CountLiteral(Call.Close, Init, c);
  }

  lemma CountLiteral(x: Call, a: Call, b: Call)
    ensures Count(x, [a]) == (if a == x then 1 else 0)
    ensures Count(x, [a, b]) == Count(x, [a]) + (if b == x then 1 else 0)
    ensures Count(x, [a, b, Call.Close]) == Count(x, [a, b]) + (if x == Call.Close then 1 else 0)
  {
    assert [a][..0] == [];
    assert [a, b][..1] == [a];
    assert [a, b, Call.Close][..2] == [a, b];
  }

  /** WAIT makes no page call, only the start of the instance; it cannot fail
      once started. */
  lemma WaitTouchesNoPage(instruction: Option<string>, world: World)
    requires world(0, Init).Success?
    ensures Outcome(WAIT, instruction, world) == (Success(Undefined), [Init, Sleep(instruction)])
    ensures forall i :: 1 <= i < |Outcome(WAIT, instruction, world).1| ==>
              !IsPageCall(Outcome(WAIT, instruction, world).1[i])
  {
  }

  /** Only EXTRACT, OBSERVE and SCREENSHOT resolve to a value; they resolve to
      the answer of their call. */
  lemma ReturnValues(m: Method, instruction: Option<string>, world: World)
    requires world(0, Init).Success?
    requires Outcome(m, instruction, world).0.Success?
    ensures Outcome(m, instruction, world).0.value
         == if m in {EXTRACT, OBSERVE, SCREENSHOT} then world(1, Command(m, instruction)).value else Undefined
  {
  }
}
