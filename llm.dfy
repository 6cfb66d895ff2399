/** `sendPrompt` of the current server: build the message, ask the language
    model for the next decision, and hand back the history with it appended. */
module Llm {
  import opened Wrappers
  import opened Steps
  import opened Automation
  import opened Prompt
  import Execute

  /** What `sendPrompt` resolves to in either server version: the decision and
      the extended history, over the decision type of that version's schema. */
  datatype Answer<D> = Answer(result: D, previousSteps: seq<D>)

  /** The language model behind `generateObject`: a decision within the
      seven-tool schema for the message it is given, or the error it throws. */
  type Decide = seq<Part> -> Result<Decision, Error>

  /** The content array, or the error of the screenshot call that was needed for it. */
  function Message(goal: string, steps: seq<Decision>, extraction: Value, world: World): (m: Result<seq<Part>, Error>)
    ensures m.Success? ==> forall i :: 0 <= i < |m.value| ==>
                             (m.value[i].ImagePart? <==> i == 1 && WantsScreenshot(steps))
    ensures m.Success? && WantsScreenshot(steps) ==> |m.value| >= 2 && m.value[1].ImagePart?
    ensures m.Failure? ==> WantsScreenshot(steps)
  {
    if WantsScreenshot(steps) then
      var shot := Execute.Outcome(Execute.SCREENSHOT, None, world).0;
      if shot.Failure? then Failure(shot.error) else Success(Content(PromptText(goal, steps), Some(shot.value), extraction))
    else Success(Content(PromptText(goal, steps), None, extraction))
  }

  /** The result of asking the model with `content`: the history grows by the
      decision. Both server versions return `{ result, previousSteps: [...previousSteps, result] }`. */
  function Answered<D>(decision: Result<D, Error>, steps: seq<D>): (r: Result<Answer<D>, Error>)
    ensures r.Success? <==> decision.Success?
    ensures r.Success? ==> r.value.result == decision.value && r.value.previousSteps == steps + [decision.value]
    ensures r.Failure? ==> r.error == decision.error
  {
    match decision
    case Success(d) => Success(Answer(d, steps + [d]))
    case Failure(e) => Failure(e)
  }

  method SendPrompt(goal: string, sessionID: string, previousSteps: seq<Decision> := [],
                    previousExtraction: Value := Undefined, world: World, decide: Decide)
    returns (r: Result<Answer<Decision>, Error>, content: seq<Part>, effects: seq<Call>)
    ensures effects == if WantsScreenshot(previousSteps) then Execute.Outcome(Execute.SCREENSHOT, None, world).1 else []
    ensures Message(goal, previousSteps, previousExtraction, world).Success? ==>
              content == Message(goal, previousSteps, previousExtraction, world).value
              && r == Answered(decide(content), previousSteps)
    ensures Message(goal, previousSteps, previousExtraction, world).Failure? ==>
              content == [TextPart(PromptText(goal, previousSteps))]
              && r == Failure(Message(goal, previousSteps, previousExtraction, world).error)
    ensures r.Success? ==> r.value.previousSteps == previousSteps + [r.value.result]
  {
    content := [TextPart(PromptText(goal, previousSteps))];
    effects := [];
    // only include a screenshot once the history navigated to a page
    if |previousSteps| > 0 && SomeGoto(previousSteps) {
      var shot;
      shot, effects := Execute.RunStagehand(sessionID, Execute.SCREENSHOT, world := world);
      if shot.Failure? {
        return Failure(shot.error), content, effects;
      }
      content := content + [ImagePart(shot.value)];
    }
    content := content + ExtractionParts(previousExtraction);
    r := Answered(decide(content), previousSteps);
  }
}
