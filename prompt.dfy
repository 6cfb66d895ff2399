/** The message both versions of `sendPrompt` put together for the language
    model: the rendered goal and history, an optional screenshot and an
    optional report of the previous extraction or observation. */
module Prompt {
  import opened Wrappers
  import opened Text
  import opened Steps
  import opened Automation

  /** One part of the user message. */
  datatype Part = TextPart(text: string) | ImagePart(image: Value)

  function Preamble(goal: string): string {
    "Consider the following screenshot of a web page, with the goal being \"" + goal + "\".\n"
  }

  const HistoryHeading: string := "\nPrevious steps taken:\n"

  const Closing: string :=
    "\nDetermine the immediate next step to take to achieve the goal. \nIf the goal has been achieved, return \"close\"."

  /** The block for the step numbered `n`: the template of the source, filled
      with the step number and the four fields of the decision. */
  function StepBlock(n: nat, step: Decision): string {
    "\nStep " + NatToString(n) + ":\n- Action: " + step.text + "\n- Reasoning: " + step.reasoning
      + "\n- Tool Used: " + ToolName(step.tool) + "\n- Instruction: " + step.instruction + "\n"
  }

  /** Where each field sits in a block: the step number after "Step ", then
      the text, the reasoning, the tool name and the instruction, each right
      after its label; only the closing newline follows the instruction. */
  lemma StepFields(n: nat, step: Decision)
    ensures var num := NatToString(n);
      var atText := |"\nStep "| + |num| + |":\n- Action: "|;
      var atReasoning := atText + |step.text| + |"\n- Reasoning: "|;
      var atTool := atReasoning + |step.reasoning| + |"\n- Tool Used: "|;
      var atInstruction := atTool + |ToolName(step.tool)| + |"\n- Instruction: "|;
      && OccursAt(StepBlock(n, step), |"\nStep "|, num)
      && OccursAt(StepBlock(n, step), atText, step.text)
      && OccursAt(StepBlock(n, step), atReasoning, step.reasoning)
      && OccursAt(StepBlock(n, step), atTool, ToolName(step.tool))
      && OccursAt(StepBlock(n, step), atInstruction, step.instruction)
      && |StepBlock(n, step)| == atInstruction + |step.instruction| + 1
  {
    NumberPlaced(n, step);
    TextPlaced(n, step);
    ReasoningPlaced(n, step);
    ToolPlaced(n, step);
    InstructionPlaced(n, step);
  }

  /** The step number and the label after it, in place. */
  lemma NumberPlaced(n: nat, step: Decision)
    ensures OccursAt(StepBlock(n, step), |"\nStep "|, NatToString(n))
    ensures OccursAt(StepBlock(n, step), |"\nStep " + NatToString(n)|, ":\n- Action: ")
  {
    var num, tool := NatToString(n), ToolName(step.tool);
    var c := "\nStep ";
    OccursWhole(c, num);
    var at := |c|;
    c := c + num;
    OccursWhole(c, ":\n- Action: ");
    var atLabel := |c|;
    OccursExtend(c, ":\n- Action: ", at, num);
    c := c + ":\n- Action: ";
    OccursExtend(c, step.text, at, num);
    OccursExtend(c, step.text, atLabel, ":\n- Action: ");
    c := c + step.text;
    OccursExtend(c, "\n- Reasoning: ", at, num);
    OccursExtend(c, "\n- Reasoning: ", atLabel, ":\n- Action: ");
    c := c + "\n- Reasoning: ";
    OccursExtend(c, step.reasoning, at, num);
    OccursExtend(c, step.reasoning, atLabel, ":\n- Action: ");
    c := c + step.reasoning;
    OccursExtend(c, "\n- Tool Used: ", at, num);
    OccursExtend(c, "\n- Tool Used: ", atLabel, ":\n- Action: ");
    c := c + "\n- Tool Used: ";
    OccursExtend(c, tool, at, num);
    OccursExtend(c, tool, atLabel, ":\n- Action: ");
    c := c + tool;
    OccursExtend(c, "\n- Instruction: ", at, num);
    OccursExtend(c, "\n- Instruction: ", atLabel, ":\n- Action: ");
    c := c + "\n- Instruction: ";
    OccursExtend(c, step.instruction, at, num);
    OccursExtend(c, step.instruction, atLabel, ":\n- Action: ");
    c := c + step.instruction;
    OccursExtend(c, "\n", at, num);
    OccursExtend(c, "\n", atLabel, ":\n- Action: ");
  }

  /** The text, right after its label. */
  lemma TextPlaced(n: nat, step: Decision)
    ensures OccursAt(StepBlock(n, step), |"\nStep " + NatToString(n) + ":\n- Action: "|, step.text)
  {
    var num, tool := NatToString(n), ToolName(step.tool);
    var c := "\nStep " + num + ":\n- Action: ";
    OccursWhole(c, step.text);
    var at := |c|;
    c := c + step.text;
    OccursExtend(c, "\n- Reasoning: ", at, step.text);
    c := c + "\n- Reasoning: ";
    OccursExtend(c, step.reasoning, at, step.text);
    c := c + step.reasoning;
    OccursExtend(c, "\n- Tool Used: ", at, step.text);
    c := c + "\n- Tool Used: ";
    OccursExtend(c, tool, at, step.text);
    c := c + tool;
    OccursExtend(c, "\n- Instruction: ", at, step.text);
    c := c + "\n- Instruction: ";
    OccursExtend(c, step.instruction, at, step.text);
    c := c + step.instruction;
    OccursExtend(c, "\n", at, step.text);
  }

  /** The reasoning, right after its label. */
  lemma ReasoningPlaced(n: nat, step: Decision)
    ensures OccursAt(StepBlock(n, step), |"\nStep " + NatToString(n) + ":\n- Action: " + step.text + "\n- Reasoning: "|, step.reasoning)
  {
    var num, tool := NatToString(n), ToolName(step.tool);
    var c := "\nStep " + num + ":\n- Action: " + step.text + "\n- Reasoning: ";
    OccursWhole(c, step.reasoning);
    var at := |c|;
    c := c + step.reasoning;
    OccursExtend(c, "\n- Tool Used: ", at, step.reasoning);
    c := c + "\n- Tool Used: ";
    OccursExtend(c, tool, at, step.reasoning);
    c := c + tool;
    OccursExtend(c, "\n- Instruction: ", at, step.reasoning);
    c := c + "\n- Instruction: ";
    OccursExtend(c, step.instruction, at, step.reasoning);
    c := c + step.instruction;
    OccursExtend(c, "\n", at, step.reasoning);
  }

  /** The tool name, right after its label. */
  lemma ToolPlaced(n: nat, step: Decision)
    ensures OccursAt(StepBlock(n, step), |"\nStep " + NatToString(n) + ":\n- Action: " + step.text + "\n- Reasoning: " + step.reasoning + "\n- Tool Used: "|, ToolName(step.tool))
  {
    var num, tool := NatToString(n), ToolName(step.tool);
    var c := "\nStep " + num + ":\n- Action: " + step.text + "\n- Reasoning: " + step.reasoning + "\n- Tool Used: ";
    OccursWhole(c, tool);
    var at := |c|;
    c := c + tool;
    OccursExtend(c, "\n- Instruction: ", at, tool);
    c := c + "\n- Instruction: ";
    OccursExtend(c, step.instruction, at, tool);
    c := c + step.instruction;
    OccursExtend(c, "\n", at, tool);
  }

  /** The instruction, right after its label. */
  lemma InstructionPlaced(n: nat, step: Decision)
    ensures OccursAt(StepBlock(n, step), |"\nStep " + NatToString(n) + ":\n- Action: " + step.text + "\n- Reasoning: " + step.reasoning + "\n- Tool Used: " + ToolName(step.tool) + "\n- Instruction: "|, step.instruction)
  {
    var num, tool := NatToString(n), ToolName(step.tool);
    var c := "\nStep " + num + ":\n- Action: " + step.text + "\n- Reasoning: " + step.reasoning + "\n- Tool Used: " + tool + "\n- Instruction: ";
    OccursWhole(c, step.instruction);
    var at := |c|;
    c := c + step.instruction;
    OccursExtend(c, "\n", at, step.instruction);
  }

  /** The step number can be read back from its block: a run of digits right
      after "Step ", ended by the colon, that parses to `n`. */
  lemma StepNumberReadable(n: nat, step: Decision)
    ensures var num := NatToString(n);
      && |"\nStep "| + |num| < |StepBlock(n, step)|
      && StepBlock(n, step)[|"\nStep "| + |num|] == ':'
      && (forall i :: |"\nStep "| <= i < |"\nStep "| + |num| ==> IsDigit(StepBlock(n, step)[i]))
      && ParseDecimal(StepBlock(n, step)[|"\nStep "|..|"\nStep "| + |num|]) == n
  {
    var num, block := NatToString(n), StepBlock(n, step);
    NumberPlaced(n, step);
    ParseNatToString(n);
    var o := 6 + |num|;
    assert block[o] == block[o..o + 12][0];
    forall i | 6 <= i < o ensures IsDigit(block[i]) {
      assert block[i] == block[6..o][i - 6];
    }
  }

  /** `previousSteps.map((step, index) => ...)`: one block per step, numbered from 1. */
  function StepBlocks(steps: seq<Decision>): seq<string> {
    seq(|steps|, i requires 0 <= i < |steps| => StepBlock(i + 1, steps[i]))
  }

  /** The history section: absent for an empty history, otherwise the heading
      and the blocks joined by newlines. */
  function HistorySection(steps: seq<Decision>): string {
    if |steps| > 0 then HistoryHeading + Join("\n", StepBlocks(steps)) else ""
  }

  /** The text of the first message part. */
  function PromptText(goal: string, steps: seq<Decision>): string {
    Preamble(goal) + HistorySection(steps) + Closing
  }

  /** Where the block of step `i + 1` starts inside the prompt text. */
  function BlockStart(goal: string, steps: seq<Decision>, i: nat): nat
    requires i < |steps|
  {
    |Preamble(goal)| + |HistoryHeading| + Offset("\n", StepBlocks(steps), i)
  }

  /** Every previous step is rendered in the prompt, at its `BlockStart`, as
      the block numbered `i + 1` showing its text, reasoning, tool and
      instruction. */
  lemma StepRendered(goal: string, steps: seq<Decision>, i: nat)
    requires i < |steps|
    ensures OccursAt(PromptText(goal, steps), BlockStart(goal, steps, i), StepBlocks(steps)[i])
  {
    JoinFramed(Preamble(goal), HistoryHeading, "\n", StepBlocks(steps), Closing, i);
    assert HistorySection(steps) == HistoryHeading + Join("\n", StepBlocks(steps));
  }

  /** The blocks follow each other in the order of the history, with the
      newline separator of `join("\n")` between neighbours. */
  lemma BlocksInOrder(goal: string, steps: seq<Decision>, i: nat)
    requires i + 1 < |steps|
    ensures BlockStart(goal, steps, i) + |StepBlocks(steps)[i]| + 1 == BlockStart(goal, steps, i + 1)
    ensures OccursAt(PromptText(goal, steps), BlockStart(goal, steps, i) + |StepBlocks(steps)[i]|, "\n")
  {
    JoinFramed(Preamble(goal), HistoryHeading, "\n", StepBlocks(steps), Closing, i);
    JoinFramedSep(Preamble(goal), HistoryHeading, "\n", StepBlocks(steps), Closing, i);
    assert HistorySection(steps) == HistoryHeading + Join("\n", StepBlocks(steps));
  }

  /** With a non-empty history the heading directly follows the preamble. */
  lemma HistoryHeadingPresent(goal: string, steps: seq<Decision>)
    requires |steps| > 0
    ensures OccursAt(PromptText(goal, steps), |Preamble(goal)|, HistoryHeading)
  {
    var rest := Join("\n", StepBlocks(steps));
    assert (HistoryHeading + rest)[0..|HistoryHeading|] == HistoryHeading;
    assert OccursAt(HistorySection(steps), 0, HistoryHeading);
    OccursInside(Preamble(goal), HistorySection(steps), Closing, 0, HistoryHeading, |Preamble(goal)|);
  }

  /** With an empty history there is no history section at all: the preamble is
      followed by the closing instructions. */
  lemma EmptyHistoryOmitted(goal: string, steps: seq<Decision>)
    ensures HistorySection(steps) == "" <==> steps == []
    ensures steps == [] ==> PromptText(goal, steps) == Preamble(goal) + Closing
  {
    if steps == [] {
      assert Preamble(goal) + "" == Preamble(goal);
    } else {
      assert HistoryHeading[0] == '\n';
      assert HistorySection(steps)[0] == '\n';
    }
  }

  /** `previousSteps.some((step) => step.tool === "GOTO")`. */
  function SomeGoto(steps: seq<Decision>): bool {
    if steps == [] then false else steps[0].tool == GOTO || SomeGoto(steps[1..])
  }

  lemma {:induction false} SomeGotoExists(steps: seq<Decision>)
    ensures SomeGoto(steps) <==> exists i :: 0 <= i < |steps| && steps[i].tool == GOTO
  {
    if steps != [] {
      SomeGotoExists(steps[1..]);
      if SomeGoto(steps[1..]) {
        var j :| 0 <= j < |steps[1..]| && steps[1..][j].tool == GOTO;
        assert steps[j + 1].tool == GOTO;
      }
      if !SomeGoto(steps) {
        forall i | 0 <= i < |steps| ensures steps[i].tool != GOTO {
          if i > 0 { assert steps[1..][i - 1] == steps[i]; }
        }
      }
    }
  }

  /** The current server's screenshot rule: only once the history is non-empty
      and some step used GOTO. */
  predicate WantsScreenshot(steps: seq<Decision>) {
    |steps| > 0 && SomeGoto(steps)
  }

  /** A screenshot is requested exactly when some earlier step navigated; the
      length test in front of `some` adds nothing. */
  lemma WantsScreenshotIffNavigated(steps: seq<Decision>)
    ensures WantsScreenshot(steps) <==> exists i :: 0 <= i < |steps| && steps[i].tool == GOTO
  {
    SomeGotoExists(steps);
  }

  /** JavaScript truthiness of `previousExtraction`: `undefined` and the empty
      string are falsy, every array (even an empty one) is truthy. */
  predicate Truthy(v: Value) {
    match v
    case Undefined => false
    case Str(s) => s != ""
    case Observations(_) => true
  }

  /** `${v}`: a string as itself, an array as its elements' strings joined by
      commas, and a plain object as "[object Object]". */
  function JsString(v: Value): string {
    match v
    case Undefined => "undefined"
    case Str(s) => s
    case Observations(items) => Join(",", seq(|items|, _ => "[object Object]"))
  }

  const ObservationLead: string := "The result of the previous observation is: "
  const ExtractionLead: string := "The result of the previous extraction is: "

  /** The report on `previousExtraction`: labelled "observation" for an array,
      "extraction" otherwise. */
  function ExtractionText(v: Value): string {
    (if v.Observations? then ObservationLead else ExtractionLead) + JsString(v) + "."
  }

  /** The parts pushed for `previousExtraction`: exactly one when it is truthy,
      none otherwise, opened by the label that matches the kind of value. */
  function ExtractionParts(v: Value): (ps: seq<Part>)
    ensures |ps| == (if Truthy(v) then 1 else 0)
    ensures |ps| == 1 ==> ps[0].TextPart?
    ensures |ps| == 1 && v.Observations? ==>
              |ObservationLead| <= |ps[0].text| && ps[0].text[..|ObservationLead|] == ObservationLead
    ensures |ps| == 1 && !v.Observations? ==>
              |ExtractionLead| <= |ps[0].text| && ps[0].text[..|ExtractionLead|] == ExtractionLead
  {
    if Truthy(v) then
      var lead := if v.Observations? then ObservationLead else ExtractionLead;
      assert ExtractionText(v) == lead + (JsString(v) + ".");
      [TextPart(ExtractionText(v))]
    else []
  }

  /** An observation report never reads like an extraction report, whatever
      the extracted string is: the label names the kind of value. */
  lemma ReportsTellKindApart(a: seq<ObservedAction>, s: string)
    ensures ExtractionText(Observations(a)) != ExtractionText(Str(s))
  {
    assert ExtractionText(Observations(a))[27] == ObservationLead[27] == 'o';
    assert ExtractionText(Str(s))[27] == ExtractionLead[27] == 'e';
  }

  /** An observation reaches the model only through its length: the selectors
      and descriptions of the observed actions are not part of the report. */
  lemma ObservationReportIgnoresItems(a: seq<ObservedAction>, b: seq<ObservedAction>)
    requires |a| == |b|
    ensures ExtractionText(Observations(a)) == ExtractionText(Observations(b))
  {
    assert seq(|a|, _ => "[object Object]") == seq(|b|, _ => "[object Object]");
  }

  /** The content array: the prompt text, then the screenshot when there is one,
      then the extraction report when there is one, in that fixed order. */
  function Content(prompt: string, image: Option<Value>, extraction: Value): (ps: seq<Part>)
    ensures |ps| == 1 + (if image.Some? then 1 else 0) + (if Truthy(extraction) then 1 else 0)
    ensures ps[0] == TextPart(prompt)
    ensures image.Some? ==> ps[1] == ImagePart(image.value)
    ensures forall i :: 0 <= i < |ps| ==> (ps[i].ImagePart? <==> image.Some? && i == 1)
    ensures Truthy(extraction) ==> ps[|ps| - 1] == ExtractionParts(extraction)[0]
  {
    [TextPart(prompt)]
      + (if image.Some? then [ImagePart(image.value)] else [])
      + ExtractionParts(extraction)
  }
}
