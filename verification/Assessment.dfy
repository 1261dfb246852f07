/** Execution assessments: what the validators accept, what the builders build, and why no
    accepted report ever claims that verification passed. */
module Assessment {
  import opened Wrappers
  import opened Utf8
  import opened Texts
  import opened Verifier

  datatype Status = NotPerformed | Passed | Failed | NeedsReview

  datatype Criterion = CompletenessCheck | AccuracyCheck | SafetyCheck

  datatype Method = NoMethod | KeywordCoverage | Denylist

  datatype Reason =
    | ToolPathUnchecked | IsolatedPathUnchecked | ExecutionNotCompleted
    | NoTrustedOracle | HeuristicPassed | HeuristicFailed

  datatype Check = Check(criterion: Criterion, status: Status, how: Method, reason: Reason, score: Option<real>)

  datatype Risk = NotAssessed | Assessed(category: string, findingId: string) | Inconsistent

  /** The execution statuses a caller may pass; only the first four are terminal. */
  datatype Execution = Completed | Broken | Cancelled | TimedOut | Unfinished

  datatype Path = Classic | Tool | Isolated

  datatype Subtask = Subtask(id: string, path: Path, execution: Execution, digest: string,
                             verification: Status, checks: seq<Check>, risk: Risk)

  datatype RiskStatus = NoRisk | AllRisk | SomeRisk

  datatype Report = Report(taskId: string, execution: Execution, digest: string, verification: Status,
                           riskStatus: RiskStatus, independentlyVerified: bool, subtasks: seq<Subtask>)

  const CRITERIA: seq<Criterion> := [CompletenessCheck, AccuracyCheck, SafetyCheck]

  predicate Terminal(e: Execution) {
    e != Unfinished
  }

  predicate DigestText(s: string) {
    |s| == 64 && forall i | 0 <= i < |s| :: '0' <= s[i] <= '9' || 'a' <= s[i] <= 'f'
  }

  // ---------------------------------------------------------------- aggregation

  predicate AnyStatus(checks: seq<Check>, s: Status) {
    exists i | 0 <= i < |checks| :: checks[i].status == s
  }

  predicate OnlyStatus(checks: seq<Check>, s: Status) {
    forall i | 0 <= i < |checks| :: checks[i].status == s
  }

  /** `_verification`: a failure decides; nothing performed is nothing performed; anything left
      open needs review. */
  function Verification(checks: seq<Check>): Status {
    if AnyStatus(checks, Failed) then Failed
    else if OnlyStatus(checks, NotPerformed) then NotPerformed
    else if AnyStatus(checks, NeedsReview) || AnyStatus(checks, NotPerformed) then NeedsReview
    else Passed
  }

  function AssessedCount(subtasks: seq<Subtask>): (n: nat)
    ensures n <= |subtasks|
  {
    if subtasks == [] then 0
    else AssessedCount(subtasks[..|subtasks| - 1]) + if subtasks[|subtasks| - 1].risk.Assessed? then 1 else 0
  }

  function RiskStatusOf(subtasks: seq<Subtask>): RiskStatus {
    if AssessedCount(subtasks) == 0 then NoRisk
    else if AssessedCount(subtasks) == |subtasks| then AllRisk
    else SomeRisk
  }

  function AllChecks(subtasks: seq<Subtask>): seq<Check> {
    if subtasks == [] then [] else AllChecks(subtasks[..|subtasks| - 1]) + subtasks[|subtasks| - 1].checks
  }

  function Omission(path: Path, e: Execution): Reason {
    if e != Completed then ExecutionNotCompleted
    else if path == Isolated then IsolatedPathUnchecked
    else ToolPathUnchecked
  }

  // ---------------------------------------------------------------- the validators

  function HeuristicOf(c: Criterion): Option<Method> {
    match c
    case CompletenessCheck => Some(KeywordCoverage)
    case SafetyCheck => Some(Denylist)
    case AccuracyCheck => None
  }

  predicate ValidCheck(c: Check) {
    && (c.score.Some? ==> 0.0 <= c.score.value <= 1.0)
    && (if c.status == NotPerformed then
          && c.how == NoMethod && c.score.None? && c.reason != HeuristicPassed && c.reason != HeuristicFailed
          && (c.reason == NoTrustedOracle ==> c.criterion == AccuracyCheck)
        else
          && HeuristicOf(c.criterion) == Some(c.how) && c.score.Some?
          && (c.status == Passed || c.status == Failed)
          && c.reason == (if c.status == Passed then HeuristicPassed else HeuristicFailed)
          && (c.status == Passed <==> c.score.value == 1.0)
          && (c.criterion == SafetyCheck && c.status == Failed ==> c.score.value == 0.0))
  }

  predicate ValidRisk(r: Risk) {
    r.NotAssessed? || (r.Assessed? && r.findingId != "")
  }

  predicate ValidSubtask(s: Subtask) {
    && s.id != "" && Terminal(s.execution) && DigestText(s.digest) && ValidRisk(s.risk)
    && |s.checks| == 3 && (forall i | 0 <= i < 3 :: ValidCheck(s.checks[i]) && s.checks[i].criterion == CRITERIA[i])
    && s.verification == Verification(s.checks)
    && (s.path == Tool ==> s.id == "tool_loop") && (s.path == Isolated ==> s.id == "isolated")
    && (if s.path == Classic && s.execution == Completed then
          && s.risk.Assessed?
          && s.checks[1].reason == NoTrustedOracle
          && (s.checks[0].status == Passed || s.checks[0].status == Failed)
          && (s.checks[2].status == Passed || s.checks[2].status == Failed)
        else
          && s.risk.NotAssessed?
          && (forall i | 0 <= i < 3 ::
                s.checks[i].status == NotPerformed && s.checks[i].reason == Omission(s.path, s.execution)))
  }

  predicate ValidReport(r: Report) {
    && r.taskId != "" && Terminal(r.execution) && DigestText(r.digest) && !r.independentlyVerified
    && (forall i | 0 <= i < |r.subtasks| :: ValidSubtask(r.subtasks[i]))
    && (r.subtasks == [] ==> r.execution == Broken)
    && (r.execution == Completed ==> forall i | 0 <= i < |r.subtasks| :: r.subtasks[i].execution == Completed)
    && r.verification == Verification(AllChecks(r.subtasks))
    && r.riskStatus == RiskStatusOf(r.subtasks)
  }

  // ---------------------------------------------------------------- the builders

  /** Building validates; a value the validators refuse is never returned. */
  function Validated(s: Subtask): Option<Subtask> {
    if ValidSubtask(s) then Some(s) else None
  }

  function Unperformed(c: Criterion, reason: Reason): Check {
    Check(c, NotPerformed, NoMethod, reason, None)
  }

  /** `output_digest`: strict UTF-8 first, so text with a lone surrogate has none. */
  function OutputDigest(sha256: Bytes -> string, output: Text): Option<string> {
    if Scalar(output) then Some(sha256(Encode(output))) else None
  }

  function UncheckedSubtask(sha256: Bytes -> string, id: string, path: Path, e: Execution, output: Text): Option<Subtask> {
    var digest := OutputDigest(sha256, output);
    if (e == Completed && Blank(output)) || digest.None? then None
    else
      var reason := Omission(path, e);
      Validated(Subtask(id, path, e, digest.value, NotPerformed,
                        [Unperformed(CompletenessCheck, reason), Unperformed(AccuracyCheck, reason), Unperformed(SafetyCheck, reason)],
                        NotAssessed))
  }

  function HeuristicCheck(c: Criterion, o: Outcome): Check {
    Check(c, if o.passed then Passed else Failed, if c == CompletenessCheck then KeywordCoverage else Denylist,
          if o.passed then HeuristicPassed else HeuristicFailed, Some(o.score))
  }

  function ClassicChecks(completeness: Outcome, safety: Outcome): seq<Check> {
    [HeuristicCheck(CompletenessCheck, completeness), Unperformed(AccuracyCheck, NoTrustedOracle), HeuristicCheck(SafetyCheck, safety)]
  }

  function ClassicSubtask(sha256: Bytes -> string, id: string, e: Execution, output: Text,
                          completeness: Outcome, safety: Outcome, category: string, findingId: string): Option<Subtask>
  {
    var digest := OutputDigest(sha256, output);
    if e != Completed || Blank(output) || digest.None? then None
    else
      var checks := ClassicChecks(completeness, safety);
      Validated(Subtask(id, Classic, e, digest.value, Verification(checks), checks, Assessed(category, findingId)))
  }

  /** The source appends one check per criterion. */
  method BuildClassicChecks(completeness: Outcome, safety: Outcome) returns (checks: seq<Check>)
    ensures checks == ClassicChecks(completeness, safety)
  {
    checks := [];
    var i := 0;
    while i < |CRITERIA|
      invariant i <= 3 && checks == ClassicChecks(completeness, safety)[..i]
    {
      if CRITERIA[i] == AccuracyCheck {
        checks := checks + [Unperformed(AccuracyCheck, NoTrustedOracle)];
      } else {
        checks := checks + [HeuristicCheck(CRITERIA[i], if CRITERIA[i] == CompletenessCheck then completeness else safety)];
      }
      i := i + 1;
    }
  }

  function BuildAssessment(sha256: Bytes -> string, taskId: string, e: Execution, output: Text,
                           subtasks: seq<Subtask>): Option<Report>
  {
    var digest := OutputDigest(sha256, output);
    if (e == Completed && Blank(output)) || digest.None? then None
    else
      var r := Report(taskId, e, digest.value, Verification(AllChecks(subtasks)), RiskStatusOf(subtasks), false, subtasks);
      if ValidReport(r) then Some(r) else None
  }

  /** `bound_assessment`: the report, if it is valid and speaks of this task, outcome and output. */
  function Bound(sha256: Bytes -> string, report: Option<Report>, taskId: string, e: Execution, output: Text): Option<Report> {
    if report.Some? && ValidReport(report.value) && report.value.taskId == taskId
       && report.value.execution == e && Some(report.value.digest) == OutputDigest(sha256, output)
    then report else None
  }

  // ---------------------------------------------------------------- never passed

  /** Accuracy has no heuristic, so an accepted accuracy check was not performed. */
  lemma AccuracyIsNeverPerformed(c: Check)
    requires ValidCheck(c) && c.criterion == AccuracyCheck
    ensures c.status == NotPerformed
  {
  }

  lemma {:induction false} ChecksOfSubtask(subtasks: seq<Subtask>, i: nat, k: nat)
    requires i < |subtasks| && k < |subtasks[i].checks|
    ensures subtasks[i].checks[k] in AllChecks(subtasks)
  {
    var init := subtasks[..|subtasks| - 1];
    if i < |init| {
      ChecksOfSubtask(init, i, k);
    } else {
      assert subtasks[i].checks[k] in subtasks[i].checks;
    }
  }

  lemma {:induction false} ChecksComeFromSubtasks(subtasks: seq<Subtask>, c: Check)
    requires c in AllChecks(subtasks)
    ensures exists i | 0 <= i < |subtasks| :: c in subtasks[i].checks
  {
    var init := subtasks[..|subtasks| - 1];
    if c in AllChecks(init) {
      ChecksComeFromSubtasks(init, c);
      var i :| 0 <= i < |init| && c in init[i].checks;
      assert subtasks[i] == init[i];
    } else {
      assert c in subtasks[|subtasks| - 1].checks;
    }
  }

  lemma SubtaskNeverPassed(s: Subtask)
    requires ValidSubtask(s)
    ensures s.verification != Passed && |s.checks| == 3 && s.checks[1].status == NotPerformed
    ensures forall k | 0 <= k < 3 :: s.checks[k].status != NeedsReview
  {
    hide DigestText;
    AccuracyIsNeverPerformed(s.checks[1]);
  }

  /** No report and no subtask the validators accept ever has verification PASSED. */
  lemma NeverPassed(r: Report)
    requires ValidReport(r)
    ensures r.verification != Passed
    ensures forall i | 0 <= i < |r.subtasks| :: r.subtasks[i].verification != Passed
  {
    hide ValidSubtask, DigestText, RiskStatusOf;
    var all := AllChecks(r.subtasks);
    forall i | 0 <= i < |r.subtasks| ensures r.subtasks[i].verification != Passed {
      SubtaskNeverPassed(r.subtasks[i]);
    }
    if r.subtasks != [] {
      SubtaskNeverPassed(r.subtasks[0]);
      ChecksOfSubtask(r.subtasks, 0, 1);
      var j :| 0 <= j < |all| && all[j] == r.subtasks[0].checks[1];
    }
  }

  /** An accepted report says FAILED exactly when one of its checks failed, NEEDS_REVIEW exactly
      when none failed and at least one was performed, and otherwise NOT_PERFORMED. */
  lemma VerificationMeans(r: Report)
    requires ValidReport(r)
    ensures r.verification == Failed <==> SomeCheck(r.subtasks, Failed)
    ensures r.verification == NeedsReview <==> !SomeCheck(r.subtasks, Failed) && SomeCheck(r.subtasks, Passed)
  {
    hide ValidSubtask, DigestText, RiskStatusOf;
    NeverPassed(r);
    StatusesAgree(r.subtasks, Failed);
    StatusesAgree(r.subtasks, Passed);
    NoReviewChecks(r.subtasks);
  }

  predicate SomeCheck(subtasks: seq<Subtask>, s: Status) {
    exists i | 0 <= i < |subtasks| :: AnyStatus(subtasks[i].checks, s)
  }

  /** A status occurs among all checks exactly when it occurs in some subtask. */
  lemma StatusesAgree(subtasks: seq<Subtask>, s: Status)
    ensures AnyStatus(AllChecks(subtasks), s) <==> SomeCheck(subtasks, s)
  {
    var all := AllChecks(subtasks);
    if AnyStatus(all, s) {
      var j :| 0 <= j < |all| && all[j].status == s;
      ChecksComeFromSubtasks(subtasks, all[j]);
      var i :| 0 <= i < |subtasks| && all[j] in subtasks[i].checks;
      var k :| 0 <= k < |subtasks[i].checks| && subtasks[i].checks[k] == all[j];
    }
    if SomeCheck(subtasks, s) {
      var i :| 0 <= i < |subtasks| && AnyStatus(subtasks[i].checks, s);
      var k :| 0 <= k < |subtasks[i].checks| && subtasks[i].checks[k].status == s;
      ChecksOfSubtask(subtasks, i, k);
      var j :| 0 <= j < |all| && all[j] == subtasks[i].checks[k];
    }
  }

  lemma NoReviewChecks(subtasks: seq<Subtask>)
    requires forall i | 0 <= i < |subtasks| :: ValidSubtask(subtasks[i])
    ensures forall j | 0 <= j < |AllChecks(subtasks)| :: AllChecks(subtasks)[j].status != NeedsReview
  {
    hide ValidSubtask;
    var all := AllChecks(subtasks);
    forall j | 0 <= j < |all| ensures all[j].status != NeedsReview {
      ChecksComeFromSubtasks(subtasks, all[j]);
      var i :| 0 <= i < |subtasks| && all[j] in subtasks[i].checks;
      SubtaskNeverPassed(subtasks[i]);
    }
  }

  // ---------------------------------------------------------------- the builders build what is accepted

  ghost predicate Digests(sha256: Bytes -> string) {
    forall b {:trigger sha256(b)} :: DigestText(sha256(b))
  }

  /** What the two heuristics can answer. */
  predicate FromVerifier(completeness: Outcome, safety: Outcome) {
    && 0.0 <= completeness.score <= 1.0 && (completeness.passed <==> completeness.score == 1.0)
    && safety.score == (if safety.passed then 1.0 else 0.0)
  }

  /** A classic subtask is built exactly when execution completed with nonblank output that has a
      UTF-8 encoding, under a nonempty id and finding, and the outcomes are ones the two
      heuristics can answer. */
  lemma ClassicAccepted(sha256: Bytes -> string, id: string, e: Execution, output: Text,
                        completeness: Outcome, safety: Outcome, category: string, findingId: string)
    requires Digests(sha256)
    ensures ClassicSubtask(sha256, id, e, output, completeness, safety, category, findingId).Some? <==>
            && e == Completed && !Blank(output) && Scalar(output)
            && id != "" && findingId != "" && FromVerifier(completeness, safety)
  {
    hide Blank, Scalar, Encode;
    var checks := ClassicChecks(completeness, safety);
    assert DigestText(sha256(Encode(output)));
    assert ValidCheck(checks[1]);
    assert ValidCheck(checks[0]) && ValidCheck(checks[2]) <==> FromVerifier(completeness, safety);
  }

  /** Whatever the criteria and the denylist, the classic builder produces a subtask the
      validators accept for exactly the completed outputs that are nonblank and encodable. */
  lemma EveryVerifierOutcomeIsAccepted(sha256: Bytes -> string, lower: Text -> Text, id: string, output: Text,
                                       criteria: seq<Text>, denylist: seq<Text -> bool>, maxChars: nat,
                                       category: string, findingId: string)
    requires Digests(sha256) && id != "" && findingId != ""
    ensures var s := ClassicSubtask(sha256, id, Completed, output, Completeness(lower, output, criteria),
                                    Safety(denylist, maxChars, output), category, findingId);
            && (s.Some? <==> !Blank(output) && Scalar(output))
            && (s.Some? ==> ValidSubtask(s.value) && s.value.verification != Passed)
  {
    hide Blank, Scalar, Encode, ValidSubtask, Completeness;
    var completeness, safety := Completeness(lower, output, criteria), Safety(denylist, maxChars, output);
    CompletenessScores(lower, output, criteria);
    ClassicAccepted(sha256, id, Completed, output, completeness, safety, category, findingId);
    var s := ClassicSubtask(sha256, id, Completed, output, completeness, safety, category, findingId);
    if s.Some? {
      SubtaskNeverPassed(s.value);
    }
  }

  /** Nonblank completed output that no builder takes: a lone surrogate, alone or anywhere. */
  lemma LoneSurrogateIsRefused(sha256: Bytes -> string, output: Text, i: nat, id: string, path: Path, e: Execution,
                               completeness: Outcome, safety: Outcome, category: string, findingId: string,
                               subtasks: seq<Subtask>)
    requires i < |output| && Surrogate(output[i])
    ensures !Blank(output)
    ensures ClassicSubtask(sha256, id, e, output, completeness, safety, category, findingId).None?
    ensures UncheckedSubtask(sha256, id, path, e, output).None?
    ensures BuildAssessment(sha256, id, e, output, subtasks).None?
  {
    hide Blank;
    assert !Scalar(output);
    NotBlank(output, i);
  }

  /** An unchecked subtask is accepted exactly when the status is terminal, the output encodable,
      a completed one has nonblank output and did not run the classic path, and the other paths
      carry their fixed ids. */
  lemma UncheckedAccepted(sha256: Bytes -> string, id: string, path: Path, e: Execution, output: Text)
    requires Digests(sha256)
    ensures UncheckedSubtask(sha256, id, path, e, output).Some? <==>
            && Terminal(e) && id != "" && Scalar(output)
            && (e == Completed ==> !Blank(output) && path != Classic)
            && (path == Tool ==> id == "tool_loop") && (path == Isolated ==> id == "isolated")
  {
    hide Blank, Scalar, Encode;
    var reason := Omission(path, e);
    assert DigestText(sha256(Encode(output)));
    assert ValidCheck(Unperformed(CompletenessCheck, reason)) && ValidCheck(Unperformed(AccuracyCheck, reason))
           && ValidCheck(Unperformed(SafetyCheck, reason));
  }

  /** A report is built exactly when the status is terminal, the output encodable, completion is
      honest and backed by work, and every subtask is valid. */
  lemma BuildAccepted(sha256: Bytes -> string, taskId: string, e: Execution, output: Text, subtasks: seq<Subtask>)
    requires Digests(sha256)
    ensures BuildAssessment(sha256, taskId, e, output, subtasks).Some? <==>
            && taskId != "" && Terminal(e) && Scalar(output)
            && (forall i | 0 <= i < |subtasks| :: ValidSubtask(subtasks[i]))
            && (subtasks == [] ==> e == Broken)
            && (e == Completed ==> !Blank(output) && forall i | 0 <= i < |subtasks| :: subtasks[i].execution == Completed)
  {
    hide Blank, Scalar, Encode, ValidSubtask, DigestText, Verification, RiskStatusOf;
    assert DigestText(sha256(Encode(output)));
  }

  /** Build, then bind: what was built for a task and output is bound to exactly that task,
      status and output, as far as the digest tells the encoded outputs apart. */
  lemma BuiltIsBound(sha256: Bytes -> string, taskId: string, e: Execution, output: Text, subtasks: seq<Subtask>,
                     taskId': string, e': Execution, output': Text)
    requires BuildAssessment(sha256, taskId, e, output, subtasks).Some?
    requires sha256(Encode(output)) == sha256(Encode(output')) ==> Encode(output) == Encode(output')
    ensures Bound(sha256, BuildAssessment(sha256, taskId, e, output, subtasks), taskId', e', output').Some? <==>
            taskId' == taskId && e' == e && output' == output
  {
    hide ValidReport, Blank, Verification, RiskStatusOf, Encode, Scalar;
    if Scalar(output') && Encode(output) == Encode(output') {
      EncodeInjective(output, output');
    }
  }

  // ---------------------------------------------------------------- what built values say

  predicate NoneAssessed(subtasks: seq<Subtask>) {
    forall i | 0 <= i < |subtasks| :: !subtasks[i].risk.Assessed?
  }

  predicate AllAssessed(subtasks: seq<Subtask>) {
    forall i | 0 <= i < |subtasks| :: subtasks[i].risk.Assessed?
  }

  lemma {:induction false} CountMeans(subtasks: seq<Subtask>)
    ensures AssessedCount(subtasks) == 0 <==> NoneAssessed(subtasks)
    ensures AssessedCount(subtasks) == |subtasks| <==> AllAssessed(subtasks)
  {
    hide NoneAssessed, AllAssessed;
    if subtasks != [] {
      CountMeans(subtasks[..|subtasks| - 1]);
    }
    LastAssessed(subtasks);
  }

  lemma LastAssessed(subtasks: seq<Subtask>)
    ensures subtasks == [] ==> NoneAssessed(subtasks) && AllAssessed(subtasks)
    ensures subtasks != [] ==>
              var init, risk := subtasks[..|subtasks| - 1], subtasks[|subtasks| - 1].risk;
              && (NoneAssessed(subtasks) <==> NoneAssessed(init) && !risk.Assessed?)
              && (AllAssessed(subtasks) <==> AllAssessed(init) && risk.Assessed?)
  {
    if subtasks != [] {
      var init := subtasks[..|subtasks| - 1];
      assert forall i | 0 <= i < |init| :: init[i] == subtasks[i];
    }
  }

  /** Risk is unassessed when no subtask was assessed, assessed when all of at least one were, and
      partial in between. */
  lemma RiskMeans(subtasks: seq<Subtask>)
    ensures RiskStatusOf(subtasks) == NoRisk <==> NoneAssessed(subtasks)
    ensures RiskStatusOf(subtasks) == AllRisk <==> subtasks != [] && AllAssessed(subtasks)
  {
    hide AssessedCount;
    CountMeans(subtasks);
    if subtasks != [] {
      assert subtasks[0].risk.Assessed? || !subtasks[0].risk.Assessed?;
    }
  }

  /** A classic subtask carries the two heuristics' answers and an accuracy check that was not
      performed for want of a trusted oracle; it failed if a heuristic did, and needs review otherwise. */
  lemma ClassicSays(sha256: Bytes -> string, id: string, output: Text, completeness: Outcome, safety: Outcome,
                    category: string, findingId: string)
    requires ClassicSubtask(sha256, id, Completed, output, completeness, safety, category, findingId).Some?
    ensures var s := ClassicSubtask(sha256, id, Completed, output, completeness, safety, category, findingId).value;
            && s.id == id && s.path == Classic && s.execution == Completed && s.digest == sha256(Encode(output))
            && s.risk == Assessed(category, findingId) && |s.checks| == 3
            && s.checks[0] == Check(CompletenessCheck, if completeness.passed then Passed else Failed, KeywordCoverage,
                                    if completeness.passed then HeuristicPassed else HeuristicFailed, Some(completeness.score))
            && s.checks[1] == Check(AccuracyCheck, NotPerformed, NoMethod, NoTrustedOracle, None)
            && s.checks[2] == Check(SafetyCheck, if safety.passed then Passed else Failed, Denylist,
                                    if safety.passed then HeuristicPassed else HeuristicFailed, Some(safety.score))
            && s.verification == (if completeness.passed && safety.passed then NeedsReview else Failed)
  {
    hide Blank, Scalar, Encode, ValidSubtask;
    var checks := ClassicChecks(completeness, safety);
    assert checks[1].status == NotPerformed;
    assert checks[0].status == Failed || checks[2].status == Failed <==> !(completeness.passed && safety.passed);
  }

  /** An unchecked subtask says of all three criteria that nothing was checked, and why: execution did
      not complete, or its path is not one that is checked. */
  lemma UncheckedSays(sha256: Bytes -> string, id: string, path: Path, e: Execution, output: Text)
    requires UncheckedSubtask(sha256, id, path, e, output).Some?
    ensures var s := UncheckedSubtask(sha256, id, path, e, output).value;
            && s.id == id && s.path == path && s.execution == e && s.digest == sha256(Encode(output))
            && s.risk == NotAssessed && s.verification == NotPerformed && |s.checks| == 3
            && forall i | 0 <= i < 3 ::
                 && s.checks[i].criterion == [CompletenessCheck, AccuracyCheck, SafetyCheck][i]
                 && s.checks[i].status == NotPerformed && s.checks[i].score == None
                 && s.checks[i].reason == (if e != Completed then ExecutionNotCompleted
                                           else if path == Isolated then IsolatedPathUnchecked else ToolPathUnchecked)
  {
    hide Blank, Scalar, Encode, ValidSubtask;
  }

  /** A built report carries its task, status, digest and subtasks, and never claims an independent
      verification. */
  lemma BuiltSays(sha256: Bytes -> string, taskId: string, e: Execution, output: Text, subtasks: seq<Subtask>)
    requires BuildAssessment(sha256, taskId, e, output, subtasks).Some?
    ensures var r := BuildAssessment(sha256, taskId, e, output, subtasks).value;
            && r.taskId == taskId && r.execution == e && r.digest == sha256(Encode(output)) && r.subtasks == subtasks
            && !r.independentlyVerified
            && (r.verification == Failed <==>
                  exists i, k :: 0 <= i < |subtasks| && 0 <= k < |subtasks[i].checks| && subtasks[i].checks[k].status == Failed)
            && (r.riskStatus == AllRisk <==> subtasks != [] && AllAssessed(subtasks))
            && (r.riskStatus == NoRisk <==> NoneAssessed(subtasks))
  {
    hide Blank, Scalar, Encode, ValidReport, RiskStatusOf, AllChecks;
    RiskMeans(subtasks);
    StatusesAgree(subtasks, Failed);
    if i, k :| 0 <= i < |subtasks| && 0 <= k < |subtasks[i].checks| && subtasks[i].checks[k].status == Failed {
      assert AnyStatus(subtasks[i].checks, Failed);
    }
    if SomeCheck(subtasks, Failed) {
      var i :| 0 <= i < |subtasks| && AnyStatus(subtasks[i].checks, Failed);
      var k :| 0 <= k < |subtasks[i].checks| && subtasks[i].checks[k].status == Failed;
    }
  }
}
