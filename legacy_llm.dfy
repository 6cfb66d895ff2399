/** `sendPrompt` of the older server: the same prompt text, a screenshot
    always, and a five-tool schema. */
module LegacyLlm {
  import opened Wrappers
  import opened Steps
  import opened Automation
  import opened Prompt
  import LegacyExecute
  import Llm

  /** The language model behind `generateObject`, held to the five-tool schema. */
  type Decide = seq<Part> -> Result<LegacyDecision, Error>

  /** The content array, or the error of the screenshot call made first. */
  function Message(goal: string, steps: seq<Decision>, extraction: Value, world: World): (m: Result<seq<Part>, Error>)
    ensures m.Success? ==> |m.value| >= 2 && m.value[1].ImagePart?
    ensures m.Success? ==> forall i :: 0 <= i < |m.value| ==> (m.value[i].ImagePart? <==> i == 1)
  {
    var shot := LegacyExecute.Outcome("SCREENSHOT", None, world).0;
    if shot.Failure? then Failure(shot.error) else Success(Content(PromptText(goal, steps), Some(shot.value), extraction))
  }

  /** The screenshot is taken whatever the history, even before any navigation. */
  lemma ScreenshotAlways(goal: string, steps: seq<Decision>, extraction: Value, world: World)
    requires world(0, Init).Success? && world(1, Call.Screenshot).Success?
    ensures Message(goal, steps, extraction, world).Success?
    ensures Message(goal, steps, extraction, world).value[1] == ImagePart(world(1, Call.Screenshot).value)
  {
  }

  method SendPrompt(goal: string, sessionID: string, previousSteps: seq<LegacyDecision> := [],
                    previousExtraction: Value := Undefined, world: World, decide: Decide)
    returns (r: Result<Llm.Answer<LegacyDecision>, Error>, content: seq<Part>, effects: seq<Call>)
    ensures effects == LegacyExecute.Outcome("SCREENSHOT", None, world).1
    ensures Message(goal, previousSteps, previousExtraction, world).Success? ==>
              content == Message(goal, previousSteps, previousExtraction, world).value
              && r == Llm.Answered(decide(content), previousSteps)
    ensures Message(goal, previousSteps, previousExtraction, world).Failure? ==>
              content == [] && r == Failure(Message(goal, previousSteps, previousExtraction, world).error)
    ensures r.Success? ==> r.value.previousSteps == previousSteps + [r.value.result]
    ensures r.Success? ==> IsLegacyTool(r.value.result.tool)
  {
    // the screenshot is awaited while the array literal is built
    var shot;
    shot, effects := LegacyExecute.RunStagehand(sessionID, "SCREENSHOT", world := world);
    if shot.Failure? {
      return Failure(shot.error), [], effects;
    }
    content := [TextPart(PromptText(goal, previousSteps)), ImagePart(shot.value)];
    content := content + ExtractionParts(previousExtraction);
    r := Llm.Answered(decide(content), previousSteps);
  }
}
