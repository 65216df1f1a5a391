/** The records the workflow graph passes around: what subagents and users hand in,
    and what the orchestrator keeps.  Times of recording, prompt texts and the free-text
    `detail` of a warning carry no behaviour and are not part of the model. */
module Schema {
  import opened Basics

  datatype Stage =
    | INIT | PM_PHASE | GATE_1 | PLANNING_PHASE | GATE_1_5 | DEV_PHASE
    | GATE_2 | REV_PHASE | GATE_3 | DONE | BLOCKED

  /** `Stage.value`. */
  function StageValue(s: Stage): string {
    match s
    case INIT => "INIT"
    case PM_PHASE => "PM_PHASE"
    case GATE_1 => "GATE_1"
    case PLANNING_PHASE => "PLANNING_PHASE"
    case GATE_1_5 => "GATE_1_5"
    case DEV_PHASE => "DEV_PHASE"
    case GATE_2 => "GATE_2"
    case REV_PHASE => "REV_PHASE"
    case GATE_3 => "GATE_3"
    case DONE => "DONE"
    case BLOCKED => "BLOCKED"
  }

  datatype Severity = Minor | Severe

  datatype CheckId =
    | G1 | G3 | G4 | G5_DECL | G5_PROVE | G6
    | PLANNING_CONSULT_LIMIT | GATE_INVALID_ANSWER
    | CONTINUE_NO_HINT | CONTINUE_HINT_UNREADABLE | CONTINUE_HINT_TOO_LARGE | CONTINUE_HINT_NOT_UTF8

  datatype Warning = Warning(stage: string, subagent: string, checkId: CheckId, severity: Severity)

  datatype PhaseSummary =
    PhaseSummary(decisions: seq<string>, openIssues: seq<string>, risks: seq<string>, handoffNote: string)

  const EMPTY_SUMMARY := PhaseSummary([], [], [], "")

  datatype GateResult = GateResult(name: string, passed: bool, reasons: seq<string>)

  /** A subagent's own gate claim; `passed` may be missing, which is not the same as false. */
  datatype GateClaim = GateClaim(name: Option<string>, passed: Option<bool>, reasons: seq<string>)

  /** One entry of `artifact_updates`: a dict carrying a sha ("" when absent), or something else. */
  datatype Claim = NotAClaim | Claim(sha256: string)

  /** One entry of `subtask_plan`: something without a `task_id`, or a subtask description. */
  datatype PlanItem = BadItem | PlanItem(taskId: string, title: string, description: string)

  /** What a subagent hands back.  `None` stands for an absent field or one of the wrong type. */
  datatype SubagentResult =
    | NotADict
    | SubagentResult(
        status: Option<string>,
        stage: Option<string>,
        gate: Option<GateClaim>,
        artifactUpdates: Option<seq<(string, Claim)>>,
        phaseSummary: Option<PhaseSummary>,
        consultQuestion: Option<string>,
        subtaskPlan: seq<PlanItem>,
        decisionId: Option<string>,
        fileSha: string,
        filePath: string)

  /** The outcome of the checks on the hint file that comes with `continue_planning`. */
  datatype Hint =
    | NoHintPath | UnreadableHint | HintTooLarge | HintNotUtf8
    | HintOk(textPath: string, text: string)

  datatype GateDecision =
    GateDecision(answer: string, hint: Hint, decisionId: Option<string>, fileSha: string, filePath: string)

  /** What the orchestrator sees outside its state while one node runs: the files on disk,
      by path, and the digest function, of which nothing is assumed. */
  datatype World = World(disk: map<string, string>, sha: string -> string)

  datatype ArtifactRef = ArtifactRef(path: string, sha256: string, writtenBy: Stage)

  datatype Decision = Decision(decisionId: string, answer: string, sha256: string, filePath: string)

  datatype Consultation = Consultation(roundIndex: nat, questionSha: string, answerSha: string)

  datatype HintRef = HintRef(sha256: string, textPath: string)

  datatype Subtask = Subtask(taskId: string, title: string, description: string)

  datatype SubtaskResult = SubtaskResult(
    devStatus: string, devHandoff: string, devSha: string,
    codexStatus: string, codexHandoff: string, codexSha: string,
    reviewPassed: bool, reviewReasons: seq<string>)

  const EMPTY_RESULT := SubtaskResult("", "", "", "", "", "", false, [])

  /** A Python dict of subtask results: its entries in insertion order. */
  type ResultTable = seq<(string, SubtaskResult)>

  function Ids(t: ResultTable): (ids: seq<string>)
    ensures |ids| == |t| && forall i | 0 <= i < |t| :: ids[i] == t[i].0
  {
    seq(|t|, i requires 0 <= i < |t| => t[i].0)
  }

  function Find(t: ResultTable, id: string): (r: Option<SubtaskResult>)
    ensures r.None? <==> id !in Ids(t)
    ensures r.Some? ==> (id, r.value) in t
  {
    if t == [] then None
    else if t[0].0 == id then Some(t[0].1)
    else
      assert Ids(t) == [t[0].0] + Ids(t[1..]);
      Find(t[1..], id)
  }

  /** `{**table, id: r}`: an existing key keeps its place, a new one goes last. */
  function Put(t: ResultTable, id: string, r: SubtaskResult): (u: ResultTable)
    ensures id !in Ids(t) ==> u == t + [(id, r)]
    ensures id in Ids(t) ==> Ids(u) == Ids(t)
  {
    if t == [] then [(id, r)]
    else if t[0].0 == id then [(id, r)] + t[1..]
    else
      assert Ids(t) == [t[0].0] + Ids(t[1..]);
      [t[0]] + Put(t[1..], id, r)
  }
}
