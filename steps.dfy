/** The step record shared by the server and the clients: the decision the
    language model returns, and the numbered step the user interface keeps. */
module Steps {

  /** The tool enumeration offered to the language model by the current server. */
  datatype Tool = GOTO | ACT | EXTRACT | OBSERVE | CLOSE | WAIT | NAVBACK

  /** The five tools of the older server, which has no WAIT and no NAVBACK. */
  predicate IsLegacyTool(t: Tool) {
    t != WAIT && t != NAVBACK
  }

  /** How `${step.tool}` renders: the enumeration literal itself. */
  function ToolName(t: Tool): string {
    match t
    case GOTO => "GOTO"
    case ACT => "ACT"
    case EXTRACT => "EXTRACT"
    case OBSERVE => "OBSERVE"
    case CLOSE => "CLOSE"
    case WAIT => "WAIT"
    case NAVBACK => "NAVBACK"
  }

  /** Different tools never render alike, so the rendered history names the tool exactly. */
  lemma ToolNameInjective(s: Tool, t: Tool)
    ensures ToolName(s) == ToolName(t) ==> s == t
  {
  }

  /** One decision of the language model (the `Step` object of the server). */
  datatype Decision = Decision(text: string, reasoning: string, tool: Tool, instruction: string)

  /** A decision as the older server's schema allows it. */
  type LegacyDecision = d: Decision | IsLegacyTool(d.tool) witness Decision("", "", CLOSE, "")

  /** A step as a client displays it: the decision plus its 1-based number. */
  datatype BrowserStep = BrowserStep(text: string, reasoning: string, tool: Tool, instruction: string, stepNumber: int)

  /** The decision a displayed step was made from. */
  function DecisionOf(s: BrowserStep): Decision {
    Decision(s.text, s.reasoning, s.tool, s.instruction)
  }

  /** The history of decisions behind a list of displayed steps. */
  function Decisions(steps: seq<BrowserStep>): (ds: seq<Decision>)
    ensures |ds| == |steps|
    ensures forall i :: 0 <= i < |steps| ==> ds[i] == DecisionOf(steps[i])
  {
    seq(|steps|, i requires 0 <= i < |steps| => DecisionOf(steps[i]))
  }

  /** Steps are numbered 1, 2, ..., n in list order. */
  predicate Numbered(steps: seq<BrowserStep>) {
    forall i :: 0 <= i < |steps| ==> steps[i].stepNumber == i + 1
  }

  /** The state updater both clients apply on a successful response: copy the
      four fields of the decision and number the new step `prev.length + 1`. */
  function AppendStep(prev: seq<BrowserStep>, d: Decision): (next: seq<BrowserStep>)
    ensures Decisions(next) == Decisions(prev) + [d]
    ensures next[..|prev|] == prev
    ensures next[|prev|].stepNumber == |prev| + 1
    ensures Numbered(prev) ==> Numbered(next)
  {
    var next := prev + [BrowserStep(d.text, d.reasoning, d.tool, d.instruction, |prev| + 1)];
    assert Decisions(next) == Decisions(prev) + [d];
    next
  }

  /** The list after a run of successful responses carrying `ds`, one append each. */
  function AppendAll(prev: seq<BrowserStep>, ds: seq<Decision>): seq<BrowserStep>
    decreases |ds|
  {
    if ds == [] then prev else AppendAll(AppendStep(prev, ds[0]), ds[1..])
  }

  /** A run of appends only extends the list: the old steps stay as they were,
      the decisions are added in order, and the numbering 1..n is kept. */
  lemma {:induction false} AppendAllExtends(prev: seq<BrowserStep>, ds: seq<Decision>)
    ensures |AppendAll(prev, ds)| == |prev| + |ds|
    ensures AppendAll(prev, ds)[..|prev|] == prev
    ensures Decisions(AppendAll(prev, ds)) == Decisions(prev) + ds
    ensures Numbered(prev) ==> Numbered(AppendAll(prev, ds))
    decreases |ds|
  {
    if ds != [] {
      var mid := AppendStep(prev, ds[0]);
      AppendAllExtends(mid, ds[1..]);
      assert |Decisions(mid)| == |mid|;
      assert AppendAll(prev, ds)[..|prev|] == AppendAll(mid, ds[1..])[..|mid|][..|prev|];
      assert Decisions(prev) + [ds[0]] + ds[1..] == Decisions(prev) + ds;
    }
  }
}
