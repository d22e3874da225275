/** The directory lock that guards one import batch, as a protocol between any number of processes.
    Every file-system call is one step; time is in milliseconds and is shared by the clock and the mtimes. */
module BatchLock {
  import opened Common

  const STALE_AFTER := 300_000

  type Pid = nat

  /** Where a process stands in the acquire / critical section / release code. */
  datatype Pc =
    | Idle
    | Trying                // about to mkdir
    | Blocked               // mkdir found the directory; about to stat it
    | Waiting               // about to give up or to sleep and retry
    | Reaping               // judged the lock stale; about to remove whatever is there
    | Inside(since: nat)    // in the critical section
    | Dead                  // died there, leaving its lock behind

  /** The lock directory; `owner` is who made it, which the file system does not record. */
  datatype Lock = Lock(owner: Pid, mtime: nat)

  datatype State = State(now: nat, lock: Option<Lock>, pcs: map<Pid, Pc>)
  {
    function At(p: Pid): Pc { if p in pcs then pcs[p] else Idle }

    function Goto(p: Pid, pc: Pc): State { this.(pcs := pcs[p := pc]) }
  }

  const INITIAL := State(0, None, map[])

  datatype Action =
    | Arrive(p: Pid)
    | Mkdir(p: Pid)
    | Stat(p: Pid)
    | Reap(p: Pid)
    | Retry(p: Pid)
    | GiveUp(p: Pid)
    | Release(p: Pid)
    | Die(p: Pid)
    | Tick(elapsed: nat)

  /** The effect of an action, or None when the process is not at that point of its code. */
  function Step(s: State, a: Action): Option<State> {
    match a
    case Arrive(p) =>
      if s.At(p) == Idle then Some(s.Goto(p, Trying)) else None
    case Mkdir(p) =>
      if s.At(p) != Trying then None
      else if s.lock.None? then Some(s.Goto(p, Inside(s.now)).(lock := Some(Lock(p, s.now))))
      else Some(s.Goto(p, Blocked))
    case Stat(p) =>
      if s.At(p) != Blocked then None
      else if s.lock.Some? && s.now - s.lock.value.mtime > STALE_AFTER then Some(s.Goto(p, Reaping))
      else Some(s.Goto(p, Waiting))
    case Reap(p) =>
      if s.At(p) == Reaping then Some(s.Goto(p, Trying).(lock := None)) else None
    case Retry(p) =>
      if s.At(p) == Waiting then Some(s.Goto(p, Trying)) else None
    case GiveUp(p) =>
      if s.At(p) == Waiting then Some(s.Goto(p, Idle)) else None
    case Release(p) =>
      if s.At(p).Inside? then Some(s.Goto(p, Idle).(lock := None)) else None
    case Die(p) =>
      if s.At(p).Inside? then Some(s.Goto(p, Dead)) else None
    case Tick(elapsed) =>
      Some(s.(now := s.now + elapsed))
  }

  ghost predicate Run(states: seq<State>, actions: seq<Action>) {
    && |states| == |actions| + 1
    && states[0] == INITIAL
    && forall i :: 0 <= i < |actions| ==> Step(states[i], actions[i]) == Some(states[i + 1])
  }

  /** No critical section, release included, is ever older than `bound`. */
  ghost predicate TimelyRun(states: seq<State>, bound: nat) {
    forall i :: 0 <= i < |states| ==> Timely(states[i], bound)
  }

  ghost predicate Timely(s: State, bound: nat) {
    forall p :: s.At(p).Inside? ==> s.now - s.At(p).since <= bound
  }

  ghost predicate NoneDead(s: State) { forall p :: s.At(p) != Dead }

  ghost predicate AllAlive(states: seq<State>) { forall i :: 0 <= i < |states| ==> NoneDead(states[i]) }

  /** Every holder finishes within `bound`: it neither overstays nor dies. */
  ghost predicate WithinBound(states: seq<State>, bound: nat) {
    TimelyRun(states, bound) && AllAlive(states)
  }

  ghost predicate OneInside(s: State) {
    forall p, q :: s.At(p).Inside? && s.At(q).Inside? ==> p == q
  }

  /** The action removes a lock directory that another process made. */
  ghost predicate RemovesForeignLock(s: State, a: Action) {
    (a.Reap? || a.Release?) && s.lock.Some? && s.lock.value.owner != a.p
  }

  ghost predicate Safe(states: seq<State>, actions: seq<Action>)
    requires |states| == |actions| + 1
  {
    && (forall i :: 0 <= i < |states| ==> OneInside(states[i]))
    && (forall i :: 0 <= i < |actions| ==> !RemovesForeignLock(states[i], actions[i]))
  }

  /** The lock exists exactly while its maker is inside, with the time it entered, and nobody is reaping. */
  ghost predicate Inv(s: State) {
    && (forall p :: s.At(p).Inside? ==> s.lock == Some(Lock(p, s.At(p).since)))
    && (s.lock.Some? ==> s.At(s.lock.value.owner) == Inside(s.lock.value.mtime))
    && (forall p :: s.At(p) != Reaping)
  }

  lemma StepKeepsInv(s: State, a: Action, t: State)
    requires Inv(s) && Timely(s, STALE_AFTER) && Step(s, a) == Some(t) && NoneDead(t)
    ensures Inv(t) && !RemovesForeignLock(s, a)
  {
    if a.Tick? {
      assert forall p :: t.At(p) == s.At(p);
    } else {
      assert forall p :: p != a.p ==> t.At(p) == s.At(p);
    }
  }

  lemma {:induction false} InvAlongRun(states: seq<State>, actions: seq<Action>, i: nat)
    requires Run(states, actions) && WithinBound(states, STALE_AFTER) && i < |states|
    ensures Inv(states[i])
  {
    if i > 0 {
      InvAlongRun(states, actions, i - 1);
      assert Timely(states[i - 1], STALE_AFTER);
      StepKeepsInv(states[i - 1], actions[i - 1], states[i]);
    }
  }

  /** Mutual exclusion: with timely holders at most one process is inside and every removal is of one's own lock. */
  lemma MutualExclusion(states: seq<State>, actions: seq<Action>, bound: nat)
    requires Run(states, actions) && WithinBound(states, bound) && bound <= STALE_AFTER
    ensures Safe(states, actions)
  {
    forall i | 0 <= i < |states| ensures OneInside(states[i]) { InvAlongRun(states, actions, i); }
    forall i | 0 <= i < |actions| ensures !RemovesForeignLock(states[i], actions[i]) {
      InvAlongRun(states, actions, i);
      assert Timely(states[i], STALE_AFTER);
      StepKeepsInv(states[i], actions[i], states[i + 1]);
    }
  }

  function Last(states: seq<State>): State
    requires states != []
  {
    states[|states| - 1]
  }

  /** A timely run goes on with any step that leaves its holders timely. */
  lemma GoOn(states: seq<State>, actions: seq<Action>, a: Action, t: State, bound: nat)
    returns (more: seq<State>, done: seq<Action>)
    requires Run(states, actions) && TimelyRun(states, bound)
    requires Step(Last(states), a) == Some(t) && Timely(t, bound)
    ensures more == states + [t] && done == actions + [a] && Last(more) == t
    ensures Run(more, done) && TimelyRun(more, bound) && (AllAlive(states) && NoneDead(t) ==> AllAlive(more))
  {
    more, done := states + [t], actions + [a];
  }

  /** A move to a place outside the critical section. */
  lemma MoveKeeps(s: State, p: Pid, pc: Pc, bound: nat)
    requires Timely(s, bound) && !pc.Inside?
    ensures Timely(s.Goto(p, pc), bound) && (NoneDead(s) && pc != Dead ==> NoneDead(s.Goto(p, pc)))
  {
    assert forall q :: q != p ==> s.Goto(p, pc).At(q) == s.At(q);
  }

  /** Process 0 enters an untouched batch. */
  lemma FirstEnters(bound: nat) returns (states: seq<State>, actions: seq<Action>)
    ensures Run(states, actions) && TimelyRun(states, bound) && AllAlive(states)
    ensures Last(states) == State(0, Some(Lock(0, 0)), map[0 := Inside(0)])
  {
    states, actions := [INITIAL], [];
    var arrived, entered := INITIAL.Goto(0, Trying), State(0, Some(Lock(0, 0)), map[0 := Inside(0)]);
    assert entered == arrived.Goto(0, Inside(0)).(lock := Some(Lock(0, 0)));
    states, actions := GoOn(states, actions, Arrive(0), arrived, bound);
    states, actions := GoOn(states, actions, Mkdir(0), entered, bound);
  }

  /** A waiter meets a lock that has grown stale and makes ready to remove it. */
  lemma WaiterReaps(states: seq<State>, actions: seq<Action>, p: Pid, bound: nat)
    returns (more: seq<State>, done: seq<Action>)
    requires Run(states, actions) && TimelyRun(states, bound)
    requires var s := Last(states);
             s.At(p) == Idle && s.lock.Some? && s.now - s.lock.value.mtime > STALE_AFTER
    ensures Run(more, done) && TimelyRun(more, bound) && Last(more) == Last(states).Goto(p, Reaping)
    ensures AllAlive(states) ==> AllAlive(more)
  {
    var s := Last(states);
    var trying, blocked, reaping := s.Goto(p, Trying), s.Goto(p, Blocked), s.Goto(p, Reaping);
    assert trying.Goto(p, Blocked) == blocked && blocked.Goto(p, Reaping) == reaping;
    MoveKeeps(s, p, Trying, bound);
    MoveKeeps(s, p, Blocked, bound);
    MoveKeeps(s, p, Reaping, bound);
    more, done := GoOn(states, actions, Arrive(p), trying, bound);
    more, done := GoOn(more, done, Mkdir(p), blocked, bound);
    more, done := GoOn(more, done, Stat(p), reaping, bound);
  }

  /** A holder that overstays by a millisecond lets a waiter remove its lock and walk in beside it. */
  lemma OverstayBreaksExclusion(bound: nat) returns (states: seq<State>, actions: seq<Action>)
    requires bound > STALE_AFTER
    ensures Run(states, actions) && WithinBound(states, bound)
    ensures exists i :: 0 <= i < |states| && !OneInside(states[i])
    ensures exists i :: 0 <= i < |actions| && RemovesForeignLock(states[i], actions[i])
  {
    var late := STALE_AFTER + 1;
    states, actions := FirstEnters(bound);
    states, actions := GoOn(states, actions, Tick(late), Last(states).(now := late), bound);
    states, actions := WaiterReaps(states, actions, 1, bound);
    var s, n := Last(states), |actions|;
    var removed, inside := s.Goto(1, Trying).(lock := None), s.Goto(1, Inside(late)).(lock := Some(Lock(1, late)));
    assert removed.Goto(1, Inside(late)).(lock := Some(Lock(1, late))) == inside;
    assert RemovesForeignLock(s, Reap(1));
    states, actions := GoOn(states, actions, Reap(1), removed, bound);
    states, actions := GoOn(states, actions, Mkdir(1), inside, bound);
    assert RemovesForeignLock(states[n], actions[n]);
    assert inside.At(0).Inside? && inside.At(1).Inside?;
    assert !OneInside(states[n + 2]);
  }

  /** The lock protects every run with holding times up to `bound` if and only if `bound` is at most 300 s. */
  lemma SafeExactlyUpToStaleLimit(bound: nat)
    ensures (forall states, actions :: Run(states, actions) && WithinBound(states, bound) ==> Safe(states, actions))
            <==> bound <= STALE_AFTER
  {
    if bound <= STALE_AFTER {
      forall states, actions | Run(states, actions) && WithinBound(states, bound) ensures Safe(states, actions) {
        MutualExclusion(states, actions, bound);
      }
    } else {
      var states, actions := OverstayBreaksExclusion(bound);
      assert !Safe(states, actions);
    }
  }

  // ------------------------------------------------------------------ holders that die

  /** At most one process has judged a lock stale and is about to remove it. */
  ghost predicate OneReaper(s: State) {
    forall p, q :: s.At(p) == Reaping && s.At(q) == Reaping ==> p == q
  }

  /** The action removes the lock of another process that is still inside. */
  ghost predicate RemovesLiveLock(s: State, a: Action) {
    RemovesForeignLock(s, a) && s.At(s.lock.value.owner).Inside?
  }

  /** A live holder owns the lock, a lock belongs to a live or a dead holder, and a reaper faces a dead one's. */
  ghost predicate DeathInv(s: State) {
    && (forall p :: s.At(p).Inside? ==> s.lock == Some(Lock(p, s.At(p).since)))
    && (s.lock.Some? ==> s.At(s.lock.value.owner) in {Inside(s.lock.value.mtime), Dead})
    && (forall p :: s.At(p) == Reaping ==> s.lock.Some? && s.At(s.lock.value.owner) == Dead)
  }

  lemma StepKeepsDeathInv(s: State, a: Action, t: State)
    requires DeathInv(s) && Timely(s, STALE_AFTER) && OneReaper(s) && Step(s, a) == Some(t)
    ensures DeathInv(t) && !RemovesLiveLock(s, a)
  {
    if a.Tick? {
      assert forall p :: t.At(p) == s.At(p);
    } else {
      assert forall p :: p != a.p ==> t.At(p) == s.At(p);
    }
  }

  lemma {:induction false} DeathInvAlongRun(states: seq<State>, actions: seq<Action>, i: nat)
    requires Run(states, actions) && TimelyRun(states, STALE_AFTER) && i < |states|
    requires forall k :: 0 <= k < |states| ==> OneReaper(states[k])
    ensures DeathInv(states[i])
  {
    if i > 0 {
      DeathInvAlongRun(states, actions, i - 1);
      StepKeepsDeathInv(states[i - 1], actions[i - 1], states[i]);
    }
  }

  /** Holders may die, but if the living are timely and no two waiters are ever about to reap at once, at most one
      process is inside and no live holder loses its lock. */
  lemma LoneReaperIsSafe(states: seq<State>, actions: seq<Action>)
    requires Run(states, actions) && TimelyRun(states, STALE_AFTER)
    requires forall k :: 0 <= k < |states| ==> OneReaper(states[k])
    ensures forall i :: 0 <= i < |states| ==> OneInside(states[i])
    ensures forall i :: 0 <= i < |actions| ==> !RemovesLiveLock(states[i], actions[i])
  {
    forall i | 0 <= i < |states| ensures OneInside(states[i]) { DeathInvAlongRun(states, actions, i); }
    forall i | 0 <= i < |actions| ensures !RemovesLiveLock(states[i], actions[i]) {
      DeathInvAlongRun(states, actions, i);
      StepKeepsDeathInv(states[i], actions[i], states[i + 1]);
    }
  }

  /** Whenever two waiters are about to reap, four steps in which no time passes bring both inside, the second by
      removing the first one's live lock. */
  lemma TwoReapersCollide(s: State, p: Pid, q: Pid) returns (s1: State, s2: State, s3: State, s4: State)
    requires p != q && s.At(p) == s.At(q) == Reaping
    ensures Step(s, Reap(p)) == Some(s1) && Step(s1, Mkdir(p)) == Some(s2)
    ensures Step(s2, Reap(q)) == Some(s3) && Step(s3, Mkdir(q)) == Some(s4)
    ensures s4.now == s.now && RemovesLiveLock(s2, Reap(q)) && !OneInside(s4)
  {
    s1 := s.Goto(p, Trying).(lock := None);
    s2 := s1.Goto(p, Inside(s.now)).(lock := Some(Lock(p, s.now)));
    s3 := s2.Goto(q, Trying).(lock := None);
    s4 := s3.Goto(q, Inside(s.now)).(lock := Some(Lock(q, s.now)));
    assert s4.At(p).Inside? && s4.At(q).Inside?;
  }

  /** And it comes to that: a holder dies, its lock grows stale, and two waiters judge it so before either removes
      it. */
  lemma DeadLockDrawsTwoReapers() returns (states: seq<State>, actions: seq<Action>)
    ensures Run(states, actions) && TimelyRun(states, 0)
    ensures Last(states).At(1) == Last(states).At(2) == Reaping
  {
    var late := STALE_AFTER + 1;
    states, actions := FirstEnters(0);
    states, actions := GoOn(states, actions, Die(0), Last(states).Goto(0, Dead), 0);
    states, actions := GoOn(states, actions, Tick(late), Last(states).(now := late), 0);
    states, actions := WaiterReaps(states, actions, 1, 0);
    states, actions := WaiterReaps(states, actions, 2, 0);
  }
}
