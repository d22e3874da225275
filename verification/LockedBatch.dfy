/** Batch calls under the directory lock: each call reads the manifest when it enters and writes it back when it
    leaves. While the lock excludes, interleaved calls amount to calls one after another. */
module LockedBatch {
  import opened Common
  import opened ImportBatch
  import opened BatchHistory
  import L = BatchLock

  /** A call in its critical section, with the batch as it found it. */
  datatype Section = Section(op: Op, seen: Batch)

  datatype World = World(lock: L.State, batch: Batch, open: map<L.Pid, Section>)
  {
    predicate Timely(bound: nat) {
      forall p :: p in open && lock.At(p).Inside? ==> lock.now - lock.At(p).since <= bound
    }
  }

  const START := World(L.INITIAL, NEW_BATCH, map[])

  datatype Move =
    | Wait(a: L.Action)           // a step of the lock that neither enters nor leaves
    | Begin(p: L.Pid, op: Op)     // mkdir succeeds, and the manifest is read
    | Finish(p: L.Pid)            // what the call writes is written, and the lock is released

  /** The manifest as the call leaves it; the report files and the raw directory are not part of it. */
  function WithManifest(b: Batch, t: Batch): Batch {
    b.(status := t.status, evidence := Evidence(t.evidence.files, t.evidence.history, b.evidence.raw),
       analysis := t.analysis, analysisHistory := t.analysisHistory, scenarioId := t.scenarioId)
  }

  /** What a call that found `s.seen` writes over the batch as it is by then. */
  function Written(b: Batch, s: Section, env: Environment): Batch {
    var t := After(s.seen, s.op, env);
    match s.op
    case DoUpload(u) =>
      if UploadError(s.seen, u).Some? then b else
        var name := NewRecord(s.seen.evidence, u, env).storedName;
        var m := WithManifest(b, t);
        m.(evidence := m.evidence.(raw := m.evidence.raw[name := u.content]),
           quality := None, recommendation := None, scenario := None)
    case DoValidate(v) =>
      if s.seen.status == Materialized then b else
        var cleared := b.(recommendation := None, projection := None, scenario := None);
        if v.None? then cleared else WithManifest(cleared, t).(quality := t.quality)
    case DoAnalyze(n, _, completes) =>
      if AnalyzeError(s.seen, n, completes).Some? then b
      else WithManifest(b, t).(recommendation := t.recommendation)
    case DoMaterialize(target) =>
      if MaterializeError(s.seen, target).Some? then b
      else
        var scenario := ScenarioFor(s.seen.recommendation.value.id, target, env);
        WithManifest(b, t).(projection := t.projection, scenario := t.scenario,
                            links := if target.NamesRun() then b.links[target.run.value := scenario] else b.links)
  }

  /** Undisturbed, a call writes what it does. */
  lemma WrittenAlone(b: Batch, op: Op, env: Environment)
    ensures Written(b, Section(op, b), env) == After(b, op, env)
  {
  }

  function Next(w: World, m: Move, env: Environment): Option<World> {
    match m
    case Wait(a) =>
      var s := L.Step(w.lock, a);
      if s.None? || a.Release? || a.Die? || (a.Mkdir? && w.lock.lock.None?) then None else Some(w.(lock := s.value))
    case Begin(p, op) =>
      var s := L.Step(w.lock, L.Mkdir(p));
      if s.None? || w.lock.lock.Some? then None
      else Some(World(s.value, w.batch, w.open[p := Section(op, w.batch)]))
    case Finish(p) =>
      var s := L.Step(w.lock, L.Release(p));
      if s.None? || p !in w.open then None
      else Some(World(s.value, Written(w.batch, w.open[p], env), w.open - {p}))
  }

  ghost predicate Run(worlds: seq<World>, moves: seq<Move>, env: Environment) {
    && |worlds| == |moves| + 1
    && worlds[0] == START
    && forall i :: 0 <= i < |moves| ==> Next(worlds[i], moves[i], env) == Some(worlds[i + 1])
  }

  ghost predicate TimelyRun(worlds: seq<World>, bound: nat) {
    forall i :: 0 <= i < |worlds| ==> worlds[i].Timely(bound)
  }

  // ------------------------------------------------------------------ within the limit

  /** The lock's invariant, and each call inside has seen the batch as it is. */
  ghost predicate Undisturbed(w: World) {
    && L.Inv(w.lock) && L.NoneDead(w.lock)
    && (forall p :: p in w.open <==> w.lock.At(p).Inside?)
    && (forall p :: p in w.open ==> w.open[p].seen == w.batch)
  }

  function LockAction(m: Move): L.Action {
    match m
    case Wait(a) => a
    case Begin(p, _) => L.Mkdir(p)
    case Finish(p) => L.Release(p)
  }

  lemma LockSteps(w: World, m: Move, t: World, env: Environment)
    requires Next(w, m, env) == Some(t)
    ensures L.Step(w.lock, LockAction(m)) == Some(t.lock)
  {
  }

  lemma LockKeeps(w: World, m: Move, t: World, env: Environment)
    requires Undisturbed(w) && w.Timely(L.STALE_AFTER) && Next(w, m, env) == Some(t)
    ensures L.Inv(t.lock) && L.NoneDead(t.lock)
    ensures forall p :: p in t.open <==> t.lock.At(p).Inside?
  {
    var a := LockAction(m);
    LockSteps(w, m, t, env);
    if a.Tick? {
      assert forall p :: t.lock.At(p) == w.lock.At(p);
    } else {
      assert forall p :: p != a.p ==> t.lock.At(p) == w.lock.At(p);
    }
    L.StepKeepsInv(w.lock, a, t.lock);
  }

  /** One move: the batch stays, or one call takes its effect whole. */
  lemma StaysUndisturbed(w: World, m: Move, t: World, env: Environment)
    requires Undisturbed(w) && w.Timely(L.STALE_AFTER) && Next(w, m, env) == Some(t)
    ensures Undisturbed(t)
    ensures t.batch == if m.Finish? then After(w.batch, w.open[m.p].op, env) else w.batch
  {
    LockKeeps(w, m, t, env);
    if m.Finish? {
      WrittenAlone(w.batch, w.open[m.p].op, env);
      NobodyElse(w, m.p);
    }
  }

  lemma NobodyElse(w: World, p: L.Pid)
    requires Undisturbed(w) && p in w.open
    ensures forall q :: q in w.open ==> q == p
  {
    forall q | q in w.open ensures q == p {
      assert w.lock.At(p).Inside? && w.lock.At(q).Inside?;
    }
  }

  /** The calls that have finished, in the order in which they did. */
  function Finished(worlds: seq<World>, moves: seq<Move>): seq<Op>
    requires |worlds| == |moves| + 1
  {
    if moves == [] then []
    else
      var n := |moves| - 1;
      var before, m := Finished(worlds[..n + 1], moves[..n]), moves[n];
      if m.Finish? && m.p in worlds[n].open then before + [worlds[n].open[m.p].op] else before
  }

  /** Any number of processes, any interleaving: while holders are timely, the batch is what the finished calls make
      of a new batch one after another, and every call inside has seen it. */
  lemma {:induction false} InterleavedIsSequential(worlds: seq<World>, moves: seq<Move>, env: Environment)
    requires Run(worlds, moves, env) && TimelyRun(worlds, L.STALE_AFTER)
    ensures Undisturbed(worlds[|moves|])
    ensures worlds[|moves|].batch == AfterAll(NEW_BATCH, Finished(worlds, moves), env)
    decreases |moves|
  {
    if moves != [] {
      var n := |moves| - 1;
      InterleavedIsSequential(worlds[..n + 1], moves[..n], env);
      StaysUndisturbed(worlds[n], moves[n], worlds[n + 1], env);
      if moves[n].Finish? {
        AfterLast(NEW_BATCH, Finished(worlds[..n + 1], moves[..n]), worlds[n].open[moves[n].p].op, env);
      }
    }
  }

  /** So whatever is guaranteed of calls one after another holds at every point of every interleaving. */
  lemma InterleavedIsFresh(worlds: seq<World>, moves: seq<Move>, sha: string -> string, scenarioOf: string -> string)
    requires Run(worlds, moves, Production(sha, scenarioOf)) && TimelyRun(worlds, L.STALE_AFTER)
    ensures var b := worlds[|moves|].batch;
            Fresh(b, Production(sha, scenarioOf)) && Kept(b.evidence, Production(sha, scenarioOf))
  {
    InterleavedIsSequential(worlds, moves, Production(sha, scenarioOf));
    EveryRunIsFresh(Finished(worlds, moves), sha, scenarioOf);
  }

  /** The move loses no recorded revision, raw file or analysis. */
  ghost predicate Appends(w: World, t: World) {
    Extends(t.batch.evidence, w.batch.evidence) && w.batch.analysisHistory <= t.batch.analysisHistory
  }

  lemma LastMoveAppends(worlds: seq<World>, moves: seq<Move>, sha: string -> string, scenarioOf: string -> string)
    requires Run(worlds, moves, Production(sha, scenarioOf)) && TimelyRun(worlds, L.STALE_AFTER) && moves != []
    ensures Appends(worlds[|moves| - 1], worlds[|moves|])
  {
    var env, n := Production(sha, scenarioOf), |moves| - 1;
    InterleavedIsSequential(worlds[..n + 1], moves[..n], env);
    InterleavedIsFresh(worlds[..n + 1], moves[..n], sha, scenarioOf);
    StaysUndisturbed(worlds[n], moves[n], worlds[n + 1], env);
    ProductionNamesIdentify(sha, scenarioOf);
    if moves[n].Finish? {
      var op := worlds[n].open[moves[n].p].op;
      EvidenceStep(worlds[n].batch, op, env);
      EvidenceAfter(worlds[n].batch, op, env);
    }
  }

  ghost predicate AlwaysAppends(worlds: seq<World>) {
    forall i :: 0 <= i < |worlds| - 1 ==> Appends(worlds[i], worlds[i + 1])
  }

  lemma {:induction false} TimelyRunsAppend(worlds: seq<World>, moves: seq<Move>, sha: string -> string,
                                            scenarioOf: string -> string)
    requires Run(worlds, moves, Production(sha, scenarioOf)) && TimelyRun(worlds, L.STALE_AFTER)
    ensures AlwaysAppends(worlds)
    decreases |moves|
  {
    if moves != [] {
      var n := |moves| - 1;
      TimelyRunsAppend(worlds[..n + 1], moves[..n], sha, scenarioOf);
      LastMoveAppends(worlds, moves, sha, scenarioOf);
      forall i | 0 <= i < n ensures Appends(worlds[i], worlds[i + 1]) {
        assert worlds[..n + 1][i] == worlds[i] && worlds[..n + 1][i + 1] == worlds[i + 1];
      }
    }
  }

  // ------------------------------------------------------------------ beyond the limit

  function Last(worlds: seq<World>): World
    requires worlds != []
  {
    worlds[|worlds| - 1]
  }

  lemma GoOn(worlds: seq<World>, moves: seq<Move>, m: Move, t: World, bound: nat, env: Environment)
    returns (more: seq<World>, done: seq<Move>)
    requires Run(worlds, moves, env) && TimelyRun(worlds, bound)
    requires Next(Last(worlds), m, env) == Some(t) && t.Timely(bound)
    ensures more == worlds + [t] && done == moves + [m] && Last(more) == t
    ensures Run(more, done, env) && TimelyRun(more, bound)
  {
    more, done := worlds + [t], moves + [m];
  }

  /** A process that is about to try an unlocked batch, and has no call open. */
  ghost predicate AtDoor(w: World, p: L.Pid) { w.lock.At(p) == L.Trying && w.lock.lock.None? && p !in w.open }

  function Entered(w: World, p: L.Pid, op: Op): World {
    World(w.lock.Goto(p, L.Inside(w.lock.now)).(lock := Some(L.Lock(p, w.lock.now))), w.batch,
          w.open[p := Section(op, w.batch)])
  }

  lemma Enter(worlds: seq<World>, moves: seq<Move>, p: L.Pid, op: Op, bound: nat, env: Environment)
    returns (more: seq<World>, done: seq<Move>)
    requires Run(worlds, moves, env) && TimelyRun(worlds, bound) && AtDoor(Last(worlds), p)
    ensures Run(more, done, env) && TimelyRun(more, bound) && Last(more) == Entered(Last(worlds), p, op)
  {
    more, done := GoOn(worlds, moves, Begin(p, op), Entered(Last(worlds), p, op), bound, env);
  }

  lemma EntersAndLeaves(w: World, p: L.Pid, op: Op, env: Environment)
    requires AtDoor(w, p)
    ensures Next(Entered(w, p, op), Finish(p), env)
            == Some(World(w.lock.Goto(p, L.Idle), After(w.batch, op, env), w.open))
  {
    var inside := Entered(w, p, op);
    WrittenAlone(w.batch, op, env);
    assert inside.open - {p} == w.open;
    assert inside.lock.Goto(p, L.Idle).(lock := None) == w.lock.Goto(p, L.Idle);
  }

  /** Without any delay or competition a call takes its effect whole. */
  lemma CallAtOnce(worlds: seq<World>, moves: seq<Move>, p: L.Pid, op: Op, bound: nat, env: Environment)
    returns (more: seq<World>, done: seq<Move>)
    requires Run(worlds, moves, env) && TimelyRun(worlds, bound) && AtDoor(Last(worlds), p)
    ensures Run(more, done, env) && TimelyRun(more, bound)
    ensures var w := Last(worlds);
            Last(more) == World(w.lock.Goto(p, L.Idle), After(w.batch, op, env), w.open)
  {
    var w := Last(worlds);
    more, done := Enter(worlds, moves, p, op, bound, env);
    EntersAndLeaves(w, p, op, env);
    var left := World(w.lock.Goto(p, L.Idle), After(w.batch, op, env), w.open);
    more, done := GoOn(more, done, Finish(p), left, bound, env);
  }

  /** A process arrives. */
  lemma Arrives(worlds: seq<World>, moves: seq<Move>, p: L.Pid, bound: nat, env: Environment)
    returns (more: seq<World>, done: seq<Move>)
    requires Run(worlds, moves, env) && TimelyRun(worlds, bound) && Last(worlds).lock.At(p) == L.Idle
    requires p !in Last(worlds).open
    ensures Run(more, done, env) && TimelyRun(more, bound)
    ensures Last(more) == Last(worlds).(lock := Last(worlds).lock.Goto(p, L.Trying))
  {
    var w := Last(worlds);
    more, done := GoOn(worlds, moves, Wait(L.Arrive(p)), w.(lock := w.lock.Goto(p, L.Trying)), bound, env);
  }

  lemma WholeCall(worlds: seq<World>, moves: seq<Move>, p: L.Pid, op: Op, bound: nat, env: Environment)
    returns (more: seq<World>, done: seq<Move>)
    requires Run(worlds, moves, env) && TimelyRun(worlds, bound)
    requires Last(worlds).lock.lock.None? && Last(worlds).lock.At(p) == L.Idle && p !in Last(worlds).open
    ensures Run(more, done, env) && TimelyRun(more, bound)
    ensures var w := Last(worlds);
            Last(more) == World(w.lock.Goto(p, L.Idle), After(w.batch, op, env), w.open)
  {
    var w := Last(worlds);
    more, done := Arrives(worlds, moves, p, bound, env);
    more, done := CallAtOnce(more, done, p, op, bound, env);
    assert w.lock.Goto(p, L.Trying).Goto(p, L.Idle) == w.lock.Goto(p, L.Idle);
  }

  /** A batch with one validated file. */
  ghost predicate OneFile(b: Batch, u: Upload, env: Environment) {
    && b.evidence == WithRecord(NO_EVIDENCE, NewRecord(NO_EVIDENCE, u, env), u.content)
    && b.status == Checked(Validated) && b.quality.Some? && b.quality.value.status == Validated
    && b.analysisHistory == []
  }

  const VALIDATE := DoValidate(Some(Verdict(Validated, 1, 1)))

  const ANALYZE := DoAnalyze(1, "ANALYSIS", true)

  lemma UploadAndValidate(u: Upload, env: Environment)
    requires Acceptable(u)
    ensures OneFile(After(After(NEW_BATCH, DoUpload(u), env), VALIDATE, env), u, env)
  {
  }

  /** What an analysis writes back that began before an upload and ends after it: the manifest without the upload. The
      next upload of that file will have the same stored name. */
  lemma StaleManifest(b: Batch, u: Upload, v: Upload, env: Environment)
    requires OneFile(b, u, env) && Acceptable(v) && v.source == u.source && v.replace
    ensures var m := After(b, DoUpload(v), env);
            var t := Written(m, Section(ANALYZE, b), env);
            && v.source in m.evidence.history && |m.evidence.history[v.source]| == 2
            && v.source in t.evidence.history && |t.evidence.history[v.source]| == 1
            && !Extends(t.evidence, m.evidence)
            && NewRecord(t.evidence, v, env).storedName in t.evidence.raw
            && t.evidence.raw[NewRecord(t.evidence, v, env).storedName] == v.content
  {
    var m := After(b, DoUpload(v), env);
    var t := Written(m, Section(ANALYZE, b), env);
    assert t.evidence.files == b.evidence.files && t.evidence.history == b.evidence.history;
    assert t.evidence.raw == m.evidence.raw;
  }

  /** A process that meets a lock held too long removes it. */
  lemma BreakIn(worlds: seq<World>, moves: seq<Move>, q: L.Pid, bound: nat, env: Environment)
    returns (more: seq<World>, done: seq<Move>)
    requires Run(worlds, moves, env) && TimelyRun(worlds, bound)
    requires var w := Last(worlds);
             && w.lock.At(q) == L.Trying && q !in w.open
             && w.lock.lock.Some? && w.lock.now - w.lock.lock.value.mtime > L.STALE_AFTER
    ensures Run(more, done, env) && TimelyRun(more, bound)
    ensures Last(more) == Last(worlds).(lock := Last(worlds).lock.Goto(q, L.Trying).(lock := None))
  {
    var w := Last(worlds);
    var blocked, reaping := w.lock.Goto(q, L.Blocked), w.lock.Goto(q, L.Reaping);
    assert blocked.Goto(q, L.Reaping) == reaping;
    assert reaping.Goto(q, L.Trying).(lock := None) == w.lock.Goto(q, L.Trying).(lock := None);
    more, done := GoOn(worlds, moves, Wait(L.Mkdir(q)), w.(lock := blocked), bound, env);
    more, done := GoOn(more, done, Wait(L.Stat(q)), w.(lock := reaping), bound, env);
    more, done := GoOn(more, done, Wait(L.Reap(q)), w.(lock := w.lock.Goto(q, L.Trying).(lock := None)), bound, env);
  }

  /** A waiter breaks in on a holder that overstays and makes its call in full. */
  lemma Intrude(worlds: seq<World>, moves: seq<Move>, q: L.Pid, op: Op, bound: nat, env: Environment)
    returns (more: seq<World>, done: seq<Move>)
    requires Run(worlds, moves, env) && TimelyRun(worlds, bound)
    requires var w := Last(worlds);
             && w.lock.At(q) == L.Idle && q !in w.open
             && w.lock.lock.Some? && w.lock.now - w.lock.lock.value.mtime > L.STALE_AFTER
    ensures Run(more, done, env) && TimelyRun(more, bound)
    ensures var w := Last(worlds);
            Last(more) == World(w.lock.Goto(q, L.Idle).(lock := None), After(w.batch, op, env), w.open)
  {
    var w := Last(worlds);
    more, done := Arrives(worlds, moves, q, bound, env);
    more, done := BreakIn(more, done, q, bound, env);
    more, done := CallAtOnce(more, done, q, op, bound, env);
    assert w.lock.Goto(q, L.Trying).Goto(q, L.Trying).(lock := None).Goto(q, L.Idle)
           == w.lock.Goto(q, L.Idle).(lock := None);
  }

  /** A batch with one validated file, in which process 0 has been analyzing for too long. */
  lemma AnalysisOverstays(u: Upload, bound: nat, env: Environment)
    returns (worlds: seq<World>, moves: seq<Move>, b: Batch)
    requires bound > L.STALE_AFTER && Acceptable(u)
    ensures Run(worlds, moves, env) && TimelyRun(worlds, bound) && OneFile(b, u, env)
    ensures var w := Last(worlds);
            && w.batch == b && w.open == map[0 := Section(ANALYZE, b)] && w.lock.lock == Some(L.Lock(0, 0))
            && w.lock.At(0) == L.Inside(0) && w.lock.At(1) == L.Idle && w.lock.now == L.STALE_AFTER + 1
  {
    worlds, moves := [START], [];
    worlds, moves := WholeCall(worlds, moves, 0, DoUpload(u), bound, env);
    worlds, moves := WholeCall(worlds, moves, 0, VALIDATE, bound, env);
    UploadAndValidate(u, env);
    b := Last(worlds).batch;
    worlds, moves := Arrives(worlds, moves, 0, bound, env);
    worlds, moves := Enter(worlds, moves, 0, ANALYZE, bound, env);
    var held, late := Last(worlds), L.STALE_AFTER + 1;
    worlds, moves := GoOn(worlds, moves, Wait(L.Tick(late)), held.(lock := held.lock.(now := held.lock.now + late)),
                          bound, env);
  }

  /** An analysis that overstays by a millisecond undoes an upload made meanwhile, whose stored file the next upload
      will overwrite. */
  lemma OverstayUndoesUpload(u: Upload, v: Upload, bound: nat, env: Environment)
    returns (worlds: seq<World>, moves: seq<Move>)
    requires bound > L.STALE_AFTER && Acceptable(u) && Acceptable(v) && v.source == u.source && v.replace
    ensures Run(worlds, moves, env) && TimelyRun(worlds, bound) && !AlwaysAppends(worlds)
    ensures var e := Last(worlds).batch.evidence;
            var name := NewRecord(e, v, env).storedName;
            name in e.raw && e.raw[name] == v.content
  {
    var b, t;
    worlds, moves, b := AnalysisOverstays(u, bound, env);
    worlds, moves := Intrude(worlds, moves, 1, DoUpload(v), bound, env);
    var n, w := |moves|, Last(worlds);
    t := FinishesLate(w, b, u, v, env);
    worlds, moves := GoOn(worlds, moves, Finish(0), t, bound, env);
    assert worlds[n] == w && worlds[n + 1] == t;
  }

  /** The overstaying analysis writes back what it saw. */
  lemma FinishesLate(w: World, b: Batch, u: Upload, v: Upload, env: Environment) returns (t: World)
    requires OneFile(b, u, env) && Acceptable(v) && v.source == u.source && v.replace
    requires w.batch == After(b, DoUpload(v), env) && w.open == map[0 := Section(ANALYZE, b)]
    requires w.lock.At(0).Inside?
    ensures Next(w, Finish(0), env) == Some(t) && t.open == map[] && !Appends(w, t)
    ensures var name := NewRecord(t.batch.evidence, v, env).storedName;
            name in t.batch.evidence.raw && t.batch.evidence.raw[name] == v.content
  {
    StaleManifest(b, u, v, env);
    assert map[0 := Section(ANALYZE, b)] - {0} == map[];
    t := World(w.lock.Goto(0, L.Idle).(lock := None), Written(w.batch, Section(ANALYZE, b), env), map[]);
  }

  /** Every interleaving with holding times up to `bound` keeps what was recorded if and only if `bound` is at most
      300 s. */
  lemma AppendsExactlyUpToStaleLimit(bound: nat, u: Upload, sha: string -> string, scenarioOf: string -> string)
    requires Acceptable(u) && u.replace
    ensures (forall worlds, moves ::
               Run(worlds, moves, Production(sha, scenarioOf)) && TimelyRun(worlds, bound) ==> AlwaysAppends(worlds))
            <==> bound <= L.STALE_AFTER
  {
    var env := Production(sha, scenarioOf);
    if bound <= L.STALE_AFTER {
      forall worlds, moves | Run(worlds, moves, env) && TimelyRun(worlds, bound) ensures AlwaysAppends(worlds) {
        TimelyRunsAppend(worlds, moves, sha, scenarioOf);
      }
    } else {
      var worlds, moves := OverstayUndoesUpload(u, u, bound, env);
    }
  }
}
