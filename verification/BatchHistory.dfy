/** What a whole history of calls leaves: which part of a materialized batch is frozen, and when a batch says it was
    analyzed although its recommendation is gone. */
module BatchHistory {
  import opened Common
  import opened ImportBatch

  lemma {:induction false} AfterLast(b: Batch, ops: seq<Op>, op: Op, env: Environment)
    ensures AfterAll(b, ops + [op], env) == After(AfterAll(b, ops, env), op, env)
    decreases |ops|
  {
    if ops == [] {
      assert ops + [op] == [op] && [op][1..] == [];
    } else {
      assert (ops + [op])[0] == ops[0] && (ops + [op])[1..] == ops[1..] + [op];
      AfterLast(After(b, ops[0], env), ops[1..], op, env);
    }
  }

  /** The batch as the call at place `k` finds it. */
  function Before(b: Batch, ops: seq<Op>, k: nat, env: Environment): Batch
    requires k <= |ops|
  {
    AfterAll(b, ops[..k], env)
  }

  lemma BeforeNext(b: Batch, ops: seq<Op>, k: nat, env: Environment)
    requires k < |ops|
    ensures Before(b, ops, k + 1, env) == After(Before(b, ops, k, env), ops[k], env)
  {
    assert ops[..k + 1] == ops[..k] + [ops[k]];
    AfterLast(b, ops[..k], ops[k], env);
  }

  // ------------------------------------------------------------------ materialized batches

  /** Everything but the run and time that the scenario records and its copies under runs. */
  ghost predicate SameFrozenPart(a: Batch, b: Batch) {
    && a.status == b.status && a.evidence == b.evidence && a.quality == b.quality
    && a.recommendation == b.recommendation && a.analysis == b.analysis && a.analysisHistory == b.analysisHistory
    && a.projection == b.projection && a.scenarioId == b.scenarioId
    && a.scenario.Some? && b.scenario.Some?
    && a.scenario.value.id == b.scenario.value.id && a.scenario.value.analysisId == b.scenario.value.analysisId
  }

  /** A call that succeeds on a materialized batch: only materialize is left, for a run that can be had. */
  predicate Rematerializes(op: Op) {
    op.DoMaterialize? && (op.target.NamesRun() ==> op.target.runExists) && op.target.projectionBuilt
  }

  lemma MaterializedStep(b: Batch, op: Op, env: Environment)
    requires Fresh(b, env) && b.status == Materialized
    ensures var t := After(b, op, env);
            && Fresh(t, env) && SameFrozenPart(t, b)
            && (if Rematerializes(op)
                then t == WithScenario(b, op.target, ScenarioFor(b.recommendation.value.id, op.target, env))
                else t == b)
  {
    FreshKept(b, op, env);
  }

  /** Once materialized, status, evidence, reports, analyses and scenario id never change, whatever is called. */
  lemma {:induction false} MaterializedIsFrozen(b: Batch, ops: seq<Op>, env: Environment)
    requires Fresh(b, env) && b.status == Materialized
    ensures Fresh(AfterAll(b, ops, env), env) && SameFrozenPart(AfterAll(b, ops, env), b)
    decreases |ops|
  {
    if ops != [] {
      MaterializedStep(b, ops[0], env);
      MaterializedIsFrozen(After(b, ops[0], env), ops[1..], env);
    }
  }

  /** A run that materializes its batch fixes that part of it for good. */
  lemma MaterializedRunsAreOver(before: seq<Op>, op: Op, after: seq<Op>, sha: string -> string,
                                scenarioOf: string -> string)
    requires op.DoMaterialize? && ErrorOf(AfterAll(NEW_BATCH, before, Production(sha, scenarioOf)), op).None?
    ensures var env := Production(sha, scenarioOf);
            var b := After(AfterAll(NEW_BATCH, before, env), op, env);
            b.status == Materialized && SameFrozenPart(AfterAll(b, after, env), b)
  {
    var env := Production(sha, scenarioOf);
    EveryRunIsFresh(before, sha, scenarioOf);
    FreshKept(AfterAll(NEW_BATCH, before, env), op, env);
    MaterializedIsFrozen(After(AfterAll(NEW_BATCH, before, env), op, env), after, env);
  }

  // ------------------------------------------------------------------ the scenario of a materialized batch

  function Undated(s: Scenario): Scenario { s.(createdAt := 0) }

  /** The batch with or without the times at which scenarios were written. */
  function View(b: Batch, dated: bool): Batch {
    if dated then b
    else b.(scenario := if b.scenario.Some? then Some(Undated(b.scenario.value)) else None,
            links := map r | r in b.links :: Undated(b.links[r]))
  }

  /** The call asks for the scenario that is already there. */
  predicate Repeats(s: Scenario, t: Target, dated: bool) { t.run == s.run && (dated ==> t.at == s.createdAt) }

  lemma RematerializedView(b: Batch, op: Op, dated: bool, env: Environment)
    requires Fresh(b, env) && b.status == Materialized && Rematerializes(op)
    ensures View(After(b, op, env), dated) == View(b, dated) <==> Repeats(b.scenario.value, op.target, dated)
  {
    MaterializedStep(b, op, env);
    var t := After(b, op, env);
    if Repeats(b.scenario.value, op.target, dated) && !dated {
      assert Undated(t.scenario.value) == Undated(b.scenario.value);
      assert View(t, false).links == View(b, false).links;
    }
  }

  /** Seen from `b`, nothing has changed before any of the calls, nor after the last. */
  ghost predicate StaysPut(b: Batch, ops: seq<Op>, dated: bool, env: Environment) {
    forall k :: 0 <= k <= |ops| ==> View(Before(b, ops, k, env), dated) == View(b, dated)
  }

  ghost predicate OnlyRepeats(b: Batch, ops: seq<Op>, dated: bool) {
    b.scenario.Some? &&
    forall k :: 0 <= k < |ops| && Rematerializes(ops[k]) ==> Repeats(b.scenario.value, ops[k].target, dated)
  }

  lemma SameViewRepeats(a: Batch, b: Batch, t: Target, dated: bool)
    requires a.scenario.Some? && b.scenario.Some? && View(a, dated) == View(b, dated)
    ensures Repeats(a.scenario.value, t, dated) <==> Repeats(b.scenario.value, t, dated)
  {
    if !dated { assert Undated(a.scenario.value).run == Undated(b.scenario.value).run; }
  }

  /** One call leaves the view as it was exactly when it repeats the scenario or fails. */
  lemma StepStaysPut(b: Batch, ops: seq<Op>, k: nat, dated: bool, env: Environment)
    requires Fresh(b, env) && b.status == Materialized && k < |ops|
    requires View(Before(b, ops, k, env), dated) == View(b, dated)
    ensures View(Before(b, ops, k + 1, env), dated) == View(b, dated)
            <==> (Rematerializes(ops[k]) ==> Repeats(b.scenario.value, ops[k].target, dated))
  {
    var x := Before(b, ops, k, env);
    BeforeNext(b, ops, k, env);
    MaterializedIsFrozen(b, ops[..k], env);
    MaterializedStep(x, ops[k], env);
    if Rematerializes(ops[k]) {
      RematerializedView(x, ops[k], dated, env);
      SameViewRepeats(x, b, ops[k].target, dated);
    }
  }

  lemma {:induction false} RepeatsStayPut(b: Batch, ops: seq<Op>, k: nat, dated: bool, env: Environment)
    requires Fresh(b, env) && b.status == Materialized && OnlyRepeats(b, ops, dated) && k <= |ops|
    ensures View(Before(b, ops, k, env), dated) == View(b, dated)
  {
    if k > 0 {
      RepeatsStayPut(b, ops, k - 1, dated, env);
      StepStaysPut(b, ops, k - 1, dated, env);
    } else {
      assert ops[..0] == [];
    }
  }

  /** A materialized batch never changes again exactly when every later successful materialize repeats the recorded
      run, and, if times count, the recorded time. */
  lemma UnchangedIffRepeated(b: Batch, ops: seq<Op>, dated: bool, env: Environment)
    requires Fresh(b, env) && b.status == Materialized
    ensures StaysPut(b, ops, dated, env) <==> OnlyRepeats(b, ops, dated)
  {
    if StaysPut(b, ops, dated, env) {
      forall k | 0 <= k < |ops| && Rematerializes(ops[k]) ensures Repeats(b.scenario.value, ops[k].target, dated) {
        assert View(Before(b, ops, k, env), dated) == View(b, dated);
        assert View(Before(b, ops, k + 1, env), dated) == View(b, dated);
        StepStaysPut(b, ops, k, dated, env);
      }
    }
    if OnlyRepeats(b, ops, dated) {
      forall k | 0 <= k <= |ops| ensures View(Before(b, ops, k, env), dated) == View(b, dated) {
        RepeatsStayPut(b, ops, k, dated, env);
      }
    }
  }

  /** Uploading, validating and analyzing one file, then materializing it for one run and for another. */
  function TwoRuns(upload: Upload, first: string, second: string): seq<Op> {
    [DoUpload(upload), DoValidate(Some(Verdict(Validated, 1, 1))), DoAnalyze(1, "A", true),
     DoMaterialize(Target(Some(first), true, true, 1)), DoMaterialize(Target(Some(second), true, true, 2))]
  }

  ghost predicate Acceptable(u: Upload) { u.bytes <= MAX_FILE_BYTES && '\0' !in u.content }

  /** Materializing for a second run rewrites the scenario of a materialized batch and links it there too. */
  lemma SecondRunRewritesScenario(u: Upload, first: string, second: string, env: Environment)
    requires Acceptable(u) && first != "" && second != "" && first != second
    ensures var ops := TwoRuns(u, first, second);
            var b, t := Before(NEW_BATCH, ops, 4, env), Before(NEW_BATCH, ops, 5, env);
            && b.status == t.status == Materialized && SameFrozenPart(t, b)
            && b.scenario.Some? && b.scenario.value.run == Some(first) && b.links.Keys == {first}
            && t.scenario.Some? && t.scenario.value.run == Some(second) && t.links.Keys == {first, second}
  {
    var ops := TwoRuns(u, first, second);
    AnalyzedAfterThree(u, ops, env);
    BeforeNext(NEW_BATCH, ops, 3, env);
    BeforeNext(NEW_BATCH, ops, 4, env);
  }

  /** Three calls bring a new batch to a recommendation. */
  lemma AnalyzedAfterThree(u: Upload, ops: seq<Op>, env: Environment)
    requires Acceptable(u) && |ops| >= 3
    requires ops[..3] == [DoUpload(u), DoValidate(Some(Verdict(Validated, 1, 1))), DoAnalyze(1, "A", true)]
    ensures var b := Before(NEW_BATCH, ops, 3, env);
            b.status == Analyzed && b.quality.Some? && b.recommendation.Some? && b.links == map[]
  {
    assert ops[0] == ops[..3][0] && ops[1] == ops[..3][1] && ops[2] == ops[..3][2];
    BeforeNext(NEW_BATCH, ops, 0, env);
    BeforeNext(NEW_BATCH, ops, 1, env);
    BeforeNext(NEW_BATCH, ops, 2, env);
    assert Before(NEW_BATCH, ops, 0, env) == NEW_BATCH;
  }

  // ------------------------------------------------------------------ analyzed, but without a recommendation

  predicate Replaces(b: Batch, op: Op) {
    (op.DoUpload? || op.DoValidate? || op.DoAnalyze?) && ErrorOf(b, op).None?
  }

  /** The call at place `k` succeeds and replaces whatever was uploaded, validated or analyzed before. */
  ghost predicate Resets(ops: seq<Op>, k: nat, env: Environment)
    requires k < |ops|
  {
    Replaces(Before(NEW_BATCH, ops, k, env), ops[k])
  }

  predicate Interrupts(b: Batch, op: Op) { op == DoValidate(None) && b.status != Materialized }

  /** The validation at place `k` raises after it has begun to delete reports. */
  ghost predicate Raises(ops: seq<Op>, k: nat, env: Environment)
    requires k < |ops|
  {
    Interrupts(Before(NEW_BATCH, ops, k, env), ops[k])
  }

  /** The analysis at place `i` succeeds, and no upload, validation or analysis succeeds after it. */
  ghost predicate LastAnalysis(ops: seq<Op>, i: nat, env: Environment) {
    i < |ops| && ops[i].DoAnalyze? && Resets(ops, i, env) && forall k :: i < k < |ops| ==> !Resets(ops, k, env)
  }

  ghost predicate HasAnalysis(ops: seq<Op>, env: Environment) { exists i: nat :: LastAnalysis(ops, i, env) }

  /** After its last analysis, made at place `i`, a validation raises. */
  ghost predicate LosesReport(ops: seq<Op>, i: nat, env: Environment) {
    LastAnalysis(ops, i, env) && exists j: nat :: i < j < |ops| && Raises(ops, j, env)
  }

  ghost predicate ReportLost(ops: seq<Op>, env: Environment) { exists i: nat :: LosesReport(ops, i, env) }

  ghost predicate AnalyzedWithoutReport(b: Batch) { b.status == Analyzed && b.recommendation.None? }

  lemma AnalyzedWithoutReportStep(b: Batch, op: Op, env: Environment)
    requires Fresh(b, env)
    ensures AnalyzedWithoutReport(After(b, op, env)) <==>
              !Replaces(b, op)
              && (AnalyzedWithoutReport(b) || (Interrupts(b, op) && b.status in {Analyzed, Materialized}))
  {
  }

  lemma PrefixFinds(ops: seq<Op>, n: nat, k: nat, env: Environment)
    requires k <= n <= |ops|
    ensures Before(NEW_BATCH, ops[..n], k, env) == Before(NEW_BATCH, ops, k, env)
    ensures k < n ==> Resets(ops[..n], k, env) == Resets(ops, k, env) && Raises(ops[..n], k, env) == Raises(ops, k, env)
  {
    assert ops[..n][..k] == ops[..k];
  }

  /** How the last call changes which analysis, if any, is the last. */
  lemma LastAnalysisStep(ops: seq<Op>, i: nat, env: Environment)
    requires ops != []
    ensures var n := |ops| - 1;
            LastAnalysis(ops, i, env) <==>
              if Resets(ops, n, env) then i == n && ops[n].DoAnalyze? else LastAnalysis(ops[..n], i, env)
  {
    var n := |ops| - 1;
    forall k: nat | k < n ensures Resets(ops[..n], k, env) == Resets(ops, k, env) { PrefixFinds(ops, n, k, env); }
  }

  lemma HasAnalysisStep(ops: seq<Op>, env: Environment)
    requires ops != []
    ensures var n := |ops| - 1;
            HasAnalysis(ops, env) <==>
              if Resets(ops, n, env) then ops[n].DoAnalyze? else HasAnalysis(ops[..n], env)
  {
    var n := |ops| - 1;
    forall i: nat ensures LastAnalysis(ops, i, env) <==>
                            if Resets(ops, n, env) then i == n && ops[n].DoAnalyze? else LastAnalysis(ops[..n], i, env)
    {
      LastAnalysisStep(ops, i, env);
    }
    if Resets(ops, n, env) && ops[n].DoAnalyze? { assert LastAnalysis(ops, n, env); }
    if i :| LastAnalysis(ops[..n], i, env) { assert !Resets(ops, n, env) ==> LastAnalysis(ops, i, env); }
  }

  lemma LosesReportStep(ops: seq<Op>, i: nat, env: Environment)
    requires ops != []
    ensures var n := |ops| - 1;
            LosesReport(ops, i, env) <==>
              !Resets(ops, n, env) && LastAnalysis(ops[..n], i, env)
              && (LosesReport(ops[..n], i, env) || Raises(ops, n, env))
  {
    var n := |ops| - 1;
    LastAnalysisStep(ops, i, env);
    forall k: nat | k < n ensures Raises(ops[..n], k, env) == Raises(ops, k, env) { PrefixFinds(ops, n, k, env); }
  }

  lemma ReportLostStep(ops: seq<Op>, env: Environment)
    requires ops != []
    ensures var n := |ops| - 1;
            ReportLost(ops, env) <==>
              !Resets(ops, n, env) && (ReportLost(ops[..n], env) || (Raises(ops, n, env) && HasAnalysis(ops[..n], env)))
  {
    var n := |ops| - 1;
    forall i: nat
      ensures LosesReport(ops, i, env) <==>
                !Resets(ops, n, env) && LastAnalysis(ops[..n], i, env)
                && (LosesReport(ops[..n], i, env) || Raises(ops, n, env))
    {
      LosesReportStep(ops, i, env);
    }
  }

  lemma {:induction false} AnalyzedIffAnalysis(ops: seq<Op>, sha: string -> string, scenarioOf: string -> string)
    ensures var env := Production(sha, scenarioOf);
            AfterAll(NEW_BATCH, ops, env).status in {Analyzed, Materialized} <==> HasAnalysis(ops, env)
    decreases |ops|
  {
    var env := Production(sha, scenarioOf);
    if ops != [] {
      var n := |ops| - 1;
      AnalyzedIffAnalysis(ops[..n], sha, scenarioOf);
      EveryRunIsFresh(ops[..n], sha, scenarioOf);
      HasAnalysisStep(ops, env);
      BeforeNext(NEW_BATCH, ops, n, env);
      assert ops[..n + 1] == ops;
    }
  }

  /** After any calls on a new batch, it says ANALYZED without having a recommendation exactly when a validation
      raised after the last successful analysis, and no upload or validation has succeeded since that analysis. */
  lemma {:induction false} AnalyzedWithoutReportIff(ops: seq<Op>, sha: string -> string, scenarioOf: string -> string)
    ensures var env := Production(sha, scenarioOf);
            AnalyzedWithoutReport(AfterAll(NEW_BATCH, ops, env)) <==> ReportLost(ops, env)
    decreases |ops|
  {
    var env := Production(sha, scenarioOf);
    if ops != [] {
      var n := |ops| - 1;
      AnalyzedWithoutReportIff(ops[..n], sha, scenarioOf);
      AnalyzedIffAnalysis(ops[..n], sha, scenarioOf);
      EveryRunIsFresh(ops[..n], sha, scenarioOf);
      ReportLostStep(ops, env);
      AnalyzedWithoutReportStep(AfterAll(NEW_BATCH, ops[..n], env), ops[n], env);
      BeforeNext(NEW_BATCH, ops, n, env);
      assert ops[..n + 1] == ops;
    }
  }

  /** Such a history: the second validation of the same file raises. */
  lemma RaisingValidationLosesReport(u: Upload, env: Environment)
    requires Acceptable(u)
    ensures AnalyzedWithoutReport(
              AfterAll(NEW_BATCH, [DoUpload(u), DoValidate(Some(Verdict(Validated, 1, 1))), DoAnalyze(1, "A", true),
                                   DoValidate(None)], env))
  {
    var ops := [DoUpload(u), DoValidate(Some(Verdict(Validated, 1, 1))), DoAnalyze(1, "A", true), DoValidate(None)];
    AnalyzedAfterThree(u, ops, env);
    BeforeNext(NEW_BATCH, ops, 3, env);
    assert ops[..4] == ops;
  }

  // ------------------------------------------------------------------ files that make validation raise

  /** A call that leaves the files alone, if they are such that every validation raises. */
  predicate OnRaisingFiles(op: Op) { !op.DoUpload? && (op.DoValidate? ==> op.verdict.None?) }

  /** A batch whose files make validation raise gets neither a quality report nor any analysis until a file is
      uploaded, whatever else is called. */
  lemma {:induction false} RaisingFilesBlockBatch(b: Batch, ops: seq<Op>, env: Environment)
    requires b.status != Materialized && b.quality.None? && b.recommendation.None?
    requires forall op :: op in ops ==> OnRaisingFiles(op)
    ensures var t := AfterAll(b, ops, env);
            t.quality.None? && t.recommendation.None? && t.status == b.status && t.evidence == b.evidence
    decreases |ops|
  {
    if ops != [] {
      assert ops[0] in ops && forall op :: op in ops[1..] ==> op in ops;
      RaisingFilesBlockBatch(After(b, ops[0], env), ops[1..], env);
    }
  }
}
