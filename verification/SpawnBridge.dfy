/**
 The browser bridge's single-flight spawn. Callers of EnsureSession share one spawn task per
 instance through a map of channels; the task's deferred function removes the entry and closes
 the channel in one critical section. Each step below is one atomic action; a run is any
 interleaving of any number of callers, spawn tasks and writers of session rows. Spawns and
 their channels are numbered in the order of their creation.
 */
module SpawnBridge {
  import opened Common

  /** Every status but "running" is answered with an error. */
  datatype Row = Running | NotRunning

  type Rows = map<nat, Row>

  /** A write of a whole row; a failed write is ignored. */
  function Upsert(rows: Rows, instance: nat, row: Row, stored: bool): Rows {
    if stored then rows[instance := row] else rows
  }

  /** A write of the status column only: it does nothing when there is no row. */
  function SetStatus(rows: Rows, instance: nat, row: Row, stored: bool): Rows {
    if stored && instance in rows then rows[instance := row] else rows
  }

  predicate SaysRunning(rows: Rows, instance: nat) {
    instance in rows && rows[instance] == Running
  }

  datatype Phase =
    | Created                  // entry and channel exist, the task does not
    | Checking                 // the task runs its checks, nothing is written yet
    | Starting                 // past the "starting" row
    | Probed                   // the CDP probe has passed, the row is not yet written
    | Finished(ready: bool)    // doSpawn has returned
    | Settled(ready: bool)     // entry removed, channel closed

  datatype Spawn = Spawn(
    instance: nat,
    phase: Phase,
    closes: nat,               // how often its channel was closed
    stale: bool,               // the entry was made on a stale claim that the session runs
    seenBefore: nat)           // how often the session had been seen running by then

  datatype Caller = Launching(spawn: nat) | Waiting(spawn: nat)

  /** An answer to a waiting caller; `ok` is a nil error. */
  datatype Answer = Answer(spawn: nat, ok: bool)

  datatype State = State(
    inflight: map<nat, nat>,
    spawns: seq<Spawn>,
    callers: map<nat, Caller>,
    refreshes: map<nat, nat>,  // callers whose fast path saw the instance running and has not written its row
    rows: Rows,
    seen: map<nat, nat>,       // per instance: fast paths and CDP probes that found it running
    answers: seq<Answer>)
  {
    function Seen(instance: nat): nat {
      if instance in seen then seen[instance] else 0
    }

    function See(instance: nat): map<nat, nat> {
      seen[instance := Seen(instance) + 1]
    }

    /** The row says running, or a fast path is about to write that it does. */
    predicate Stale(instance: nat) {
      SaysRunning(rows, instance) || instance in refreshes.Values
    }

    function InPhase(n: nat, phase: Phase): seq<Spawn>
      requires n < |spawns|
    {
      spawns[n := spawns[n].(phase := phase)]
    }
  }

  datatype Step =
    | FastSee(t: nat, instance: nat)            // the provider reports a running session
    | FastStore(t: nat, stored: bool)
    | Enter(t: nat, instance: nat)
    | Launch(t: nat)
    | FailChecks(n: nat)
    | MarkStarting(n: nat, stored: bool)
    | FailSpawn(n: nat, writes: bool, stored: bool)   // a canceled spawn writes nothing
    | Probe(n: nat)
    | Succeed(n: nat, stored: bool)
    | Settle(n: nat)
    | Wake(t: nat)
    | Abandon(t: nat)
    | StopRow(instance: nat, row: Option<Row>)  // reaper, rollback, migration, deletion

  predicate In(s: State, n: nat, phase: Phase) {
    n < |s.spawns| && s.spawns[n].phase == phase
  }

  predicate Free(s: State, t: nat) {
    t !in s.callers && t !in s.refreshes
  }

  predicate Enabled(s: State, step: Step) {
    match step
    case FastSee(t, _) => Free(s, t)
    case FastStore(t, _) => t in s.refreshes
    case Enter(t, _) => Free(s, t)
    case Launch(t) => t in s.callers && s.callers[t].Launching? && In(s, s.callers[t].spawn, Created)
    case FailChecks(n) => In(s, n, Checking)
    case MarkStarting(n, _) => In(s, n, Checking)
    case FailSpawn(n, _, _) => In(s, n, Starting)
    case Probe(n) => In(s, n, Starting)
    case Succeed(n, _) => In(s, n, Probed)
    case Settle(n) => n < |s.spawns| && s.spawns[n].phase.Finished?
    case Wake(t) => t in s.callers && s.callers[t].Waiting? && s.callers[t].spawn < |s.spawns|
                    && s.spawns[s.callers[t].spawn].closes > 0
    case Abandon(t) => t in s.callers && s.callers[t].Waiting?
    case StopRow(_, row) => row != Some(Running)
  }

  function Apply(s: State, step: Step): State
    requires Enabled(s, step)
  {
    match step
    case FastSee(t, i) => s.(refreshes := s.refreshes[t := i], seen := s.See(i))
    case FastStore(t, stored) =>
      s.(refreshes := s.refreshes - {t}, rows := Upsert(s.rows, s.refreshes[t], Running, stored))
    case Enter(t, i) =>
      if i in s.inflight then s.(callers := s.callers[t := Waiting(s.inflight[i])])
      else
        var n := |s.spawns|;
        s.(inflight := s.inflight[i := n],
           spawns := s.spawns + [Spawn(i, Created, 0, s.Stale(i), s.Seen(i))],
           callers := s.callers[t := Launching(n)])
    case Launch(t) =>
      var n := s.callers[t].spawn;
      s.(spawns := s.InPhase(n, Checking), callers := s.callers[t := Waiting(n)])
    case FailChecks(n) => s.(spawns := s.InPhase(n, Finished(false)))
    case MarkStarting(n, stored) =>
      s.(spawns := s.InPhase(n, Starting), rows := Upsert(s.rows, s.spawns[n].instance, NotRunning, stored))
    case FailSpawn(n, writes, stored) =>
      s.(spawns := s.InPhase(n, Finished(false)),
         rows := SetStatus(s.rows, s.spawns[n].instance, NotRunning, writes && stored))
    case Probe(n) => s.(spawns := s.InPhase(n, Probed), seen := s.See(s.spawns[n].instance))
    case Succeed(n, stored) =>
      s.(spawns := s.InPhase(n, Finished(true)),
         rows := SetStatus(s.rows, s.spawns[n].instance, Running, stored))
    case Settle(n) =>
      var sp := s.spawns[n];
      s.(inflight := s.inflight - {sp.instance},
         spawns := s.spawns[n := sp.(phase := Settled(sp.phase.ready), closes := sp.closes + 1)])
    case Wake(t) =>
      var n := s.callers[t].spawn;
      s.(callers := s.callers - {t},
         answers := s.answers + [Answer(n, SaysRunning(s.rows, s.spawns[n].instance))])
    case Abandon(t) => s.(callers := s.callers - {t})
    case StopRow(i, row) => s.(rows := if row.Some? then s.rows[i := row.value] else s.rows - {i})
  }

  predicate Legal(s: State, steps: seq<Step>)
    decreases |steps|
  {
    steps == [] || (Enabled(s, steps[0]) && Legal(Apply(s, steps[0]), steps[1..]))
  }

  function Run(s: State, steps: seq<Step>): State
    requires Legal(s, steps)
    decreases |steps|
  {
    if steps == [] then s else Run(Apply(s, steps[0]), steps[1..])
  }

  /** Nothing is in flight; the rows of an earlier process may say anything. */
  predicate Initial(s: State) {
    s == State(map[], [], map[], map[], s.rows, map[], [])
  }

  // ----- The invariant ---------------------------------------------------------------------------

  /** An instance has an entry exactly when it has an unsettled spawn, which the entry names. */
  predicate SingleFlight(s: State) {
    && (forall i <- s.inflight ::
          s.inflight[i] < |s.spawns| && s.spawns[s.inflight[i]].instance == i
          && !s.spawns[s.inflight[i]].phase.Settled?)
    && (forall n :: 0 <= n < |s.spawns| && !s.spawns[n].phase.Settled? ==>
          s.spawns[n].instance in s.inflight && s.inflight[s.spawns[n].instance] == n)
  }

  predicate ClosedOnce(s: State) {
    forall sp <- s.spawns :: sp.closes == if sp.phase.Settled? then 1 else 0
  }

  predicate IsLauncher(callers: map<nat, Caller>, t: nat, n: nat) {
    t in callers && callers[t] == Launching(n)
  }

  /** Callers know existing spawns, and a spawn not yet launched has one launcher, which is at work. */
  ghost predicate CallersOk(s: State) {
    && (forall t <- s.callers :: s.callers[t].spawn < |s.spawns|)
    && (forall t, n :: IsLauncher(s.callers, t, n) ==> In(s, n, Created))
    && (forall t, u, n :: IsLauncher(s.callers, t, n) && IsLauncher(s.callers, u, n) ==> t == u)
    && (forall n :: In(s, n, Created) ==> exists t :: IsLauncher(s.callers, t, n))
  }

  /** The session was seen running since the spawn's entry was made, or a claim of that was stale by then. */
  predicate Witnessed(s: State, sp: Spawn) {
    s.Seen(sp.instance) > sp.seenBefore || sp.stale
  }

  /** The row says running, or a fast path or the spawn in flight is about to write that. */
  predicate Claimed(s: State, i: nat) {
    s.Stale(i) || (i in s.inflight && In(s, s.inflight[i], Probed))
  }

  predicate RowsJustified(s: State) {
    && (forall sp <- s.spawns :: sp.seenBefore <= s.Seen(sp.instance))
    && (forall sp <- s.spawns :: Claimed(s, sp.instance) ==> Witnessed(s, sp))
    && (forall a <- s.answers :: a.spawn < |s.spawns| && (a.ok ==> Witnessed(s, s.spawns[a.spawn])))
  }

  /** No spawn has been added or settled; phases may have changed. */
  predicate SameFlights(s: State, after: State) {
    && after.inflight == s.inflight && |after.spawns| == |s.spawns|
    && forall n :: 0 <= n < |s.spawns| ==>
         && after.spawns[n].instance == s.spawns[n].instance
         && after.spawns[n].closes == s.spawns[n].closes
         && (after.spawns[n].phase.Settled? <==> s.spawns[n].phase.Settled?)
         && after.spawns[n].stale == s.spawns[n].stale
         && after.spawns[n].seenBefore == s.spawns[n].seenBefore
  }

  predicate ChangesFlights(s: State, step: Step) {
    step.Settle? || (step.Enter? && step.instance !in s.inflight)
  }

  lemma FlightsStay(s: State, step: Step)
    requires Enabled(s, step) && !ChangesFlights(s, step)
    ensures SameFlights(s, Apply(s, step))
  {
    hide SaysRunning, Upsert, SetStatus, State.Stale, State.Seen, State.See;
  }

  lemma SettleKeepsFlights(s: State, n: nat)
    requires SingleFlight(s) && Enabled(s, Settle(n))
    ensures SingleFlight(Apply(s, Settle(n)))
  {
    var after := Apply(s, Settle(n));
    forall m | 0 <= m < |after.spawns| && !after.spawns[m].phase.Settled?
      ensures after.spawns[m].instance in after.inflight && after.inflight[after.spawns[m].instance] == m
    {
      assert after.spawns[m] == s.spawns[m] && s.spawns[m].instance != s.spawns[n].instance;
    }
  }

  lemma EnterKeepsFlights(s: State, t: nat, i: nat)
    requires SingleFlight(s) && Enabled(s, Enter(t, i)) && i !in s.inflight
    ensures SingleFlight(Apply(s, Enter(t, i)))
  {
    var after := Apply(s, Enter(t, i));
    forall n | 0 <= n < |after.spawns| && !after.spawns[n].phase.Settled?
      ensures after.spawns[n].instance in after.inflight && after.inflight[after.spawns[n].instance] == n
    {
      assert n < |s.spawns| ==> after.spawns[n] == s.spawns[n] && s.spawns[n].instance != i;
    }
  }

  lemma SingleFlightStep(s: State, step: Step)
    requires SingleFlight(s) && Enabled(s, step)
    ensures SingleFlight(Apply(s, step))
  {
    hide Apply;
    if step.Settle? {
      SettleKeepsFlights(s, step.n);
    } else if ChangesFlights(s, step) {
      EnterKeepsFlights(s, step.t, step.instance);
    } else {
      FlightsStay(s, step);
    }
  }

  lemma ClosedOnceStep(s: State, step: Step)
    requires ClosedOnce(s) && Enabled(s, step)
    ensures ClosedOnce(Apply(s, step))
  {
    var after := Apply(s, step);
    if !ChangesFlights(s, step) {
      FlightsStay(s, step);
      hide Apply;
      forall n | 0 <= n < |after.spawns|
        ensures after.spawns[n].closes == if after.spawns[n].phase.Settled? then 1 else 0
      {
        assert s.spawns[n] in s.spawns;
      }
    }
  }

  lemma CallersStay(s: State, step: Step)
    requires CallersOk(s) && Enabled(s, step)
    requires !step.Enter? && !step.Launch? && !step.Wake? && !step.Abandon?
    ensures CallersOk(Apply(s, step))
  {
    var after := Apply(s, step);
    assert after.callers == s.callers && |after.spawns| == |s.spawns|;
    forall n: nat ensures In(after, n, Created) <==> In(s, n, Created) {}
    hide Apply, IsLauncher, In;
  }

  lemma LauncherMoves(s: State, after: State, t: nat)
    requires CallersOk(s) && |s.spawns| <= |after.spawns|
    requires forall u <- after.callers :: u == t || (u in s.callers && after.callers[u] == s.callers[u])
    requires forall u <- s.callers :: u != t ==> u in after.callers
    requires t in after.callers ==> after.callers[t].spawn < |after.spawns|
    requires t in s.callers && s.callers[t].Launching? ==> !In(after, s.callers[t].spawn, Created)
    requires forall n: nat :: !IsLauncher(s.callers, t, n) ==>
               (In(after, n, Created) <==> In(s, n, Created) || IsLauncher(after.callers, t, n))
    requires forall n :: IsLauncher(after.callers, t, n) ==> !In(s, n, Created) && t !in s.callers
    ensures CallersOk(after)
  {
    forall u, n | IsLauncher(after.callers, u, n) ensures In(after, n, Created) {
      if u != t {
        assert IsLauncher(s.callers, u, n);
      }
    }
    forall u, v, n | IsLauncher(after.callers, u, n) && IsLauncher(after.callers, v, n) ensures u == v {
      if u != t {
        assert IsLauncher(s.callers, u, n);
      }
      if v != t {
        assert IsLauncher(s.callers, v, n);
      }
    }
    forall n | In(after, n, Created) ensures exists u :: IsLauncher(after.callers, u, n) {
      if !IsLauncher(after.callers, t, n) {
        var u :| IsLauncher(s.callers, u, n);
        assert u != t ==> IsLauncher(after.callers, u, n);
      }
    }
  }

  /** Only the caller of Enter, Launch, Wake or Abandon moves. */
  lemma CallersStep(s: State, step: Step)
    requires SingleFlight(s) && CallersOk(s) && Enabled(s, step)
    ensures CallersOk(Apply(s, step))
  {
    if step.Enter? || step.Launch? || step.Wake? || step.Abandon? {
      LauncherMoves(s, Apply(s, step), step.t);
    } else {
      CallersStay(s, step);
    }
  }

  /** A stale claim that newly arises comes from a look of the same step or from a probed spawn. */
  lemma StaleAfter(s: State, step: Step, i: nat)
    requires Enabled(s, step) && SingleFlight(s)
    ensures Apply(s, step).Stale(i) ==> Claimed(s, i) || Apply(s, step).Seen(i) > s.Seen(i)
  {}

  lemma SeenGrows(s: State, step: Step, i: nat)
    requires Enabled(s, step)
    ensures Apply(s, step).Seen(i) >= s.Seen(i)
  {}

  /** A claim that newly arises has been witnessed by the same step. */
  lemma SeenAfter(s: State, step: Step, i: nat)
    requires Enabled(s, step) && SingleFlight(s)
    ensures Apply(s, step).Seen(i) >= s.Seen(i)
    ensures Claimed(Apply(s, step), i) ==> Claimed(s, i) || Apply(s, step).Seen(i) > s.Seen(i)
  {
    SeenGrows(s, step, i);
    StaleAfter(s, step, i);
    hide State.Stale, SaysRunning, Upsert, SetStatus;
  }

  /** What a spawn was created with stays; a new spawn notes the claim and the count it starts from. */
  lemma OriginsStay(s: State, step: Step)
    requires Enabled(s, step)
    ensures var after := Apply(s, step);
            && |s.spawns| <= |after.spawns|
            && (forall n :: 0 <= n < |s.spawns| ==>
                  && after.spawns[n].instance == s.spawns[n].instance
                  && after.spawns[n].stale == s.spawns[n].stale
                  && after.spawns[n].seenBefore == s.spawns[n].seenBefore)
            && (forall n :: |s.spawns| <= n < |after.spawns| ==>
                  var sp := after.spawns[n];
                  sp.stale == s.Stale(sp.instance) && sp.seenBefore == s.Seen(sp.instance) && sp.phase == Created
                  && after.Stale(sp.instance) == s.Stale(sp.instance) && after.inflight == s.inflight[sp.instance := n])
  {
    hide SaysRunning, Upsert, SetStatus, State.Seen, State.See;
  }

  lemma AnswersAfter(s: State, step: Step)
    requires Enabled(s, step)
    ensures forall a <- Apply(s, step).answers :: a in s.answers ||
              (a.spawn < |s.spawns| && a.ok == SaysRunning(s.rows, s.spawns[a.spawn].instance))
  {}

  lemma RowsStep(s: State, step: Step)
    requires SingleFlight(s) && RowsJustified(s) && Enabled(s, step)
    ensures RowsJustified(Apply(s, step))
  {
    hide Apply, Enabled, SaysRunning, State.Stale, State.Seen, SingleFlight;
    var after := Apply(s, step);
    OriginsStay(s, step);
    forall sp | sp in after.spawns
      ensures sp.seenBefore <= after.Seen(sp.instance)
      ensures Claimed(after, sp.instance) ==> Witnessed(after, sp)
    {
      SeenAfter(s, step, sp.instance);
      var n :| 0 <= n < |after.spawns| && after.spawns[n] == sp;
      if n < |s.spawns| {
        assert s.spawns[n] in s.spawns;
      }
    }
    forall a | a in after.answers
      ensures a.spawn < |after.spawns| && (a.ok ==> Witnessed(after, after.spawns[a.spawn]))
    {
      AnswerStep(s, step, a);
    }
  }

  lemma AnswerStep(s: State, step: Step, a: Answer)
    requires SingleFlight(s) && RowsJustified(s) && Enabled(s, step) && a in Apply(s, step).answers
    ensures var after := Apply(s, step);
            a.spawn < |after.spawns| && (a.ok ==> Witnessed(after, after.spawns[a.spawn]))
  {
    OriginsStay(s, step);
    AnswersAfter(s, step);
    hide Apply, Enabled, SaysRunning, State.Seen, SingleFlight;
    assert a.spawn < |s.spawns|;
    assert s.spawns[a.spawn] in s.spawns;
    SeenAfter(s, step, s.spawns[a.spawn].instance);
  }

  ghost predicate Invariant(s: State) {
    SingleFlight(s) && ClosedOnce(s) && CallersOk(s) && RowsJustified(s)
  }

  lemma {:induction false} InvariantHolds(s: State, steps: seq<Step>)
    requires Invariant(s) && Legal(s, steps)
    ensures Invariant(Run(s, steps))
    decreases |steps|
  {
    hide Apply, Enabled, SingleFlight, ClosedOnce, CallersOk, RowsJustified;
    if steps != [] {
      SingleFlightStep(s, steps[0]);
      ClosedOnceStep(s, steps[0]);
      CallersStep(s, steps[0]);
      RowsStep(s, steps[0]);
      InvariantHolds(Apply(s, steps[0]), steps[1..]);
    }
  }

  lemma Begins(s: State)
    requires Initial(s)
    ensures Invariant(s)
  {
    forall t, n ensures !IsLauncher(s.callers, t, n) && !In(s, n, Created) {}
  }

  // ----- The theorems ----------------------------------------------------------------------------

  predicate Unsettled(s: State, n: nat, instance: nat) {
    n < |s.spawns| && s.spawns[n].instance == instance && !s.spawns[n].phase.Settled?
  }

  /**
   At every point of every run an instance has an entry exactly when it has an unsettled spawn,
   never two of them, and a channel is closed once by settling and never again.
   */
  lemma NeverTwoSpawns(start: State, steps: seq<Step>, i: nat)
    requires Initial(start) && Legal(start, steps)
    ensures var s := Run(start, steps);
            && (i in s.inflight <==> exists n :: Unsettled(s, n, i))
            && (forall n, m :: Unsettled(s, n, i) && Unsettled(s, m, i) ==> n == m == s.inflight[i])
            && (forall sp <- s.spawns :: sp.closes == if sp.phase.Settled? then 1 else 0)
  {
    Begins(start);
    InvariantHolds(start, steps);
    var s := Run(start, steps);
    if i in s.inflight {
      assert Unsettled(s, s.inflight[i], i);
    }
  }

  /** The step that brings a spawn closer to being settled; its launcher makes the first one. */
  function Onward(sp: Spawn, n: nat, launcher: nat): Step
    requires !sp.phase.Settled?
  {
    match sp.phase
    case Created => Launch(launcher)
    case Checking => FailChecks(n)
    case Starting => FailSpawn(n, true, true)
    case Probed => Succeed(n, true)
    case Finished(_) => Settle(n)
  }

  /** A waiting caller can read its answer, or the spawn it waits for can go on. */
  lemma NoWaiterIsOrphaned(start: State, steps: seq<Step>, t: nat)
    requires Initial(start) && Legal(start, steps)
    requires t in Run(start, steps).callers && Run(start, steps).callers[t].Waiting?
    ensures var s := Run(start, steps);
            var n := s.callers[t].spawn;
            && n < |s.spawns|
            && (Enabled(s, Wake(t)) || exists u :: !s.spawns[n].phase.Settled? && Enabled(s, Onward(s.spawns[n], n, u)))
  {
    hide Apply, Run, Legal, RowsJustified, SingleFlight;
    Begins(start);
    InvariantHolds(start, steps);
    var s := Run(start, steps);
    var n := s.callers[t].spawn;
    assert s.spawns[n] in s.spawns;
    if s.spawns[n].phase.Created? {
      assert In(s, n, Created);
      var u :| IsLauncher(s.callers, u, n);
      assert Enabled(s, Onward(s.spawns[n], n, u));
    } else if !s.spawns[n].phase.Settled? {
      assert Enabled(s, Onward(s.spawns[n], n, t));
    }
  }

  /**
   A waiting caller is told of success only if the session was seen running (by a fast path or
   a spawn's CDP probe) after the entry it waits on was made, or the claim was stale: the row
   already said so then, or a fast path that had seen it before was still to write the row.
   */
  lemma SuccessIsWitnessed(start: State, steps: seq<Step>, a: Answer)
    requires Initial(start) && Legal(start, steps) && a in Run(start, steps).answers && a.ok
    ensures var s := Run(start, steps); a.spawn < |s.spawns| && Witnessed(s, s.spawns[a.spawn])
  {
    Begins(start);
    InvariantHolds(start, steps);
  }

  // ----- Success without a witness ---------------------------------------------------------------

  /** A call enters in `s`, its spawn fails, nobody sees a session run any more, and it still gets nil. */
  ghost predicate Misleads(s: State, t: nat, i: nat, rest: seq<Step>) {
    Enabled(s, Enter(t, i)) && Legal(Apply(s, Enter(t, i)), rest) &&
    var end := Run(Apply(s, Enter(t, i)), rest);
    && |s.spawns| < |end.spawns| && end.spawns[|s.spawns|].phase == Settled(false)
    && Answer(|s.spawns|, true) in end.answers
    && end.Seen(i) == s.Seen(i)
  }

  /**
   Of a call that makes a new entry, exactly this decides whether it can be misled: that the
   row says running or a fast path is still to write that, at the moment of the entry.
   */
  lemma MisledIffStale(start: State, before: seq<Step>, t: nat, i: nat)
    requires Initial(start) && Legal(start, before)
    requires var s := Run(start, before); Free(s, t) && i !in s.inflight
    ensures var s := Run(start, before); s.Stale(i) <==> exists rest :: Misleads(s, t, i, rest)
  {
    Begins(start);
    InvariantHolds(start, before);
    var s := Run(start, before);
    if s.Stale(i) {
      if SaysRunning(s.rows, i) {
        MisledCall(s, t, i, []);
      } else {
        var u :| u in s.refreshes && s.refreshes[u] == i;
        MisledCall(s, t, i, [FastStore(u, true)]);
      }
    }
    if rest :| Misleads(s, t, i, rest) {
      MisledMeansStale(s, t, i, rest);
    }
  }

  lemma {:induction false} OriginsHold(s: State, steps: seq<Step>, n: nat)
    requires Legal(s, steps) && n < |s.spawns|
    ensures var end := Run(s, steps);
            && n < |end.spawns| && end.spawns[n].instance == s.spawns[n].instance
            && end.spawns[n].stale == s.spawns[n].stale && end.spawns[n].seenBefore == s.spawns[n].seenBefore
    decreases |steps|
  {
    hide Apply, Enabled;
    if steps != [] {
      OriginsStay(s, steps[0]);
      OriginsHold(Apply(s, steps[0]), steps[1..], n);
    }
  }

  lemma MisledMeansStale(s: State, t: nat, i: nat, rest: seq<Step>)
    requires Invariant(s) && i !in s.inflight && Misleads(s, t, i, rest)
    ensures s.Stale(i)
  {
    var entered := Apply(s, Enter(t, i));
    assert entered.spawns[|s.spawns|] == Spawn(i, Created, 0, s.Stale(i), s.Seen(i));
    SingleFlightStep(s, Enter(t, i));
    ClosedOnceStep(s, Enter(t, i));
    CallersStep(s, Enter(t, i));
    RowsStep(s, Enter(t, i));
    hide Apply, Enabled, SingleFlight, ClosedOnce, CallersOk, State.Stale, State.Seen;
    InvariantHolds(entered, rest);
    OriginsHold(entered, rest, |s.spawns|);
  }

  /** The call whose spawn fails its checks; `late` is the refresh that comes in between, if one must. */
  function MisledSteps(t: nat, n: nat, late: seq<Step>): seq<Step> {
    [Launch(t), FailChecks(n)] + late + [Settle(n), Wake(t)]
  }

  lemma MisledCall(s: State, t: nat, i: nat, late: seq<Step>)
    requires Free(s, t) && i !in s.inflight
    requires if late == [] then SaysRunning(s.rows, i)
             else |late| == 1 && late[0].FastStore? && late[0].stored
                  && late[0].t in s.refreshes && s.refreshes[late[0].t] == i
    ensures Misleads(s, t, i, MisledSteps(t, |s.spawns|, late))
  {
    var n := |s.spawns|;
    var entered := Apply(s, Enter(t, i));
    var failed := CallFails(s, t, i);
    var claimed := LateClaim(failed, i, late);
    CallAnswers(claimed, t, n, i);
    hide Apply, Enabled;
    RunConcat(entered, [Launch(t), FailChecks(n)], late);
    RunConcat(entered, [Launch(t), FailChecks(n)] + late, [Settle(n), Wake(t)]);
  }

  lemma CallFails(s: State, t: nat, i: nat) returns (failed: State)
    requires Free(s, t) && i !in s.inflight
    ensures var n := |s.spawns|;
            var entered := Apply(s, Enter(t, i));
            && Legal(entered, [Launch(t), FailChecks(n)])
            && failed == Run(entered, [Launch(t), FailChecks(n)])
            && failed == s.(inflight := s.inflight[i := n], callers := s.callers[t := Waiting(n)],
                            spawns := s.spawns + [Spawn(i, Finished(false), 0, s.Stale(i), s.Seen(i))])
  {
    var n := |s.spawns|;
    var entered := Apply(s, Enter(t, i));
    var launched := Apply(entered, Launch(t));
    assert launched.spawns == s.spawns + [Spawn(i, Checking, 0, s.Stale(i), s.Seen(i))];
    failed := Apply(launched, FailChecks(n));
    Prepend(launched, FailChecks(n), []);
    Prepend(entered, Launch(t), [FailChecks(n)]);
    assert [Launch(t)] + [FailChecks(n)] == [Launch(t), FailChecks(n)];
    assert [FailChecks(n)] + [] == [FailChecks(n)];
  }

  lemma LateClaim(s: State, i: nat, late: seq<Step>) returns (claimed: State)
    requires if late == [] then SaysRunning(s.rows, i)
             else |late| == 1 && late[0].FastStore? && late[0].stored
                  && late[0].t in s.refreshes && s.refreshes[late[0].t] == i
    ensures Legal(s, late) && claimed == Run(s, late) && SaysRunning(claimed.rows, i)
    ensures claimed == s.(rows := claimed.rows, refreshes := claimed.refreshes)
  {
    claimed := s;
    if late != [] {
      assert late == [late[0]] + [];
      claimed := Apply(s, late[0]);
      Prepend(s, late[0], []);
    }
  }

  lemma CallAnswers(s: State, t: nat, n: nat, i: nat)
    requires n < |s.spawns| && s.spawns[n].phase == Finished(false) && s.spawns[n].instance == i
    requires t in s.callers && s.callers[t] == Waiting(n) && SaysRunning(s.rows, i)
    ensures var end := [Settle(n), Wake(t)];
            && Legal(s, end) && |Run(s, end).spawns| == |s.spawns|
            && Run(s, end).spawns[n].phase == Settled(false)
            && Answer(n, true) in Run(s, end).answers && Run(s, end).Seen(i) == s.Seen(i)
  {
    var settled := Apply(s, Settle(n));
    assert settled.spawns[n].closes > 0;
    assert [Settle(n)] + [Wake(t)] == [Settle(n), Wake(t)];
    assert [Wake(t)] + [] == [Wake(t)];
    Prepend(settled, Wake(t), []);
    Prepend(s, Settle(n), [Wake(t)]);
  }

  /** Both claims occur: the row of an earlier process, and a refresh that comes late. */
  const OldRow: State := State(map[], [], map[], map[], map[0 := Running], map[], [])
  const NoRow: State := State(map[], [], map[], map[], map[], map[], [])

  lemma FailedSpawnCanAnswerNil()
    ensures Initial(OldRow) && Misleads(OldRow, 0, 0, MisledSteps(0, 0, []))
  {
    MisledCall(OldRow, 0, 0, []);
  }

  /** No row says running when the call enters, and the refresh belongs to an earlier look. */
  lemma LateRefreshCanAnswerNil()
    ensures Initial(NoRow) && Enabled(NoRow, FastSee(9, 0))
    ensures Misleads(Apply(NoRow, FastSee(9, 0)), 0, 0, MisledSteps(0, 0, [FastStore(9, true)]))
  {
    MisledCall(Apply(NoRow, FastSee(9, 0)), 0, 0, [FastStore(9, true)]);
  }

  lemma Prepend(s: State, step: Step, rest: seq<Step>)
    requires Enabled(s, step) && Legal(Apply(s, step), rest)
    ensures Legal(s, [step] + rest) && Run(s, [step] + rest) == Run(Apply(s, step), rest)
  {
    assert ([step] + rest)[1..] == rest;
  }

  lemma {:induction false} RunConcat(s: State, first: seq<Step>, second: seq<Step>)
    requires Legal(s, first) && Legal(Run(s, first), second)
    ensures Legal(s, first + second) && Run(s, first + second) == Run(Run(s, first), second)
    decreases |first|
  {
    hide Apply, Enabled;
    if first == [] {
      assert first + second == second;
    } else {
      assert (first + second)[1..] == first[1..] + second;
      RunConcat(Apply(s, first[0]), first[1..], second);
    }
  }

  // ----- One call without interference --------------------------------------------------------

  /** How a spawn fares: its checks, the provider, the CDP probe, and the writes of its row. */
  datatype Attempt = Attempt(
    checks: bool, startStored: bool, canceled: bool, provider: bool, cdp: bool, endStored: bool)
  {
    predicate Ready() {
      checks && !canceled && provider && cdp
    }
  }

  function RowsAfter(rows: Rows, instance: nat, a: Attempt): Rows {
    if !a.checks then rows
    else
      var started := Upsert(rows, instance, NotRunning, a.startStored);
      if a.canceled then started
      else SetStatus(started, instance, if a.provider && a.cdp then Running else NotRunning, a.endStored)
  }

  /** The steps of a spawn that fares so. */
  function SpawnSteps(n: nat, a: Attempt): seq<Step> {
    if !a.checks then [FailChecks(n)]
    else if a.canceled then [MarkStarting(n, a.startStored), FailSpawn(n, false, false)]
    else if !a.provider || !a.cdp then [MarkStarting(n, a.startStored), FailSpawn(n, true, a.endStored)]
    else [MarkStarting(n, a.startStored), Probe(n), Succeed(n, a.endStored)]
  }

  /** A spawn's steps, with nothing in between, do what its body does as a whole. */
  lemma SpawnStepsSpawn(s: State, n: nat, a: Attempt)
    requires In(s, n, Checking)
    ensures Legal(s, SpawnSteps(n, a))
    ensures var end := Run(s, SpawnSteps(n, a));
            In(end, n, Finished(a.Ready())) && end.rows == RowsAfter(s.rows, s.spawns[n].instance, a)
  {
    if !a.checks {
      LastStep(s, FailChecks(n));
    } else {
      var first := MarkStarting(n, a.startStored);
      var started, rest := Apply(s, first), SpawnSteps(n, a)[1..];
      assert SpawnSteps(n, a) == [first] + rest;
      if a.Ready() {
        ReadySpawn(started, n, a.endStored);
      } else {
        FailingSpawn(started, n, !a.canceled, a.endStored);
      }
      hide Apply, Enabled, Upsert, SetStatus;
      Prepend(s, first, rest);
    }
  }

  lemma ReadySpawn(s: State, n: nat, stored: bool)
    requires In(s, n, Starting)
    ensures var steps := [Probe(n), Succeed(n, stored)];
            && Legal(s, steps) && In(Run(s, steps), n, Finished(true))
            && Run(s, steps).rows == SetStatus(s.rows, s.spawns[n].instance, Running, stored)
  {
    var probed := Apply(s, Probe(n));
    LastStep(probed, Succeed(n, stored));
    assert [Probe(n)] + [Succeed(n, stored)] == [Probe(n), Succeed(n, stored)];
    Prepend(s, Probe(n), [Succeed(n, stored)]);
  }

  lemma FailingSpawn(s: State, n: nat, writes: bool, stored: bool)
    requires In(s, n, Starting)
    ensures var steps := [if writes then FailSpawn(n, true, stored) else FailSpawn(n, false, false)];
            && Legal(s, steps) && In(Run(s, steps), n, Finished(false))
            && Run(s, steps).rows ==
               if writes then SetStatus(s.rows, s.spawns[n].instance, NotRunning, stored) else s.rows
  {
    LastStep(s, if writes then FailSpawn(n, true, stored) else FailSpawn(n, false, false));
  }

  lemma LastStep(s: State, step: Step)
    requires Enabled(s, step)
    ensures Legal(s, [step]) && Run(s, [step]) == Apply(s, step)
  {
    assert [step] + [] == [step];
    Prepend(s, step, []);
  }

  class BrowserBridge {
    var inflight: map<nat, nat>
    var channels: nat
    var closed: set<nat>
    var rows: Rows

    constructor (rows: Rows)
      ensures inflight == map[] && channels == 0 && closed == {} && this.rows == rows
    {
      inflight, channels, closed := map[], 0, {};
      this.rows := rows;
    }

    /** The entry's channel, made here unless another caller has made one. */
    method Join(instance: nat) returns (ch: nat, mine: bool)
      modifies this`inflight, this`channels
      ensures mine <==> instance !in old(inflight)
      ensures inflight == (if mine then old(inflight)[instance := ch] else old(inflight))
      ensures if mine then ch == old(channels) && channels == ch + 1
              else ch == inflight[instance] && channels == old(channels)
    {
      if instance in inflight {
        return inflight[instance], false;
      }
      ch := channels;
      channels := channels + 1;
      inflight := inflight[instance := ch];
      mine := true;
    }

    /** The spawn task's deferred function. */
    method Depart(instance: nat, ch: nat)
      requires ch !in closed
      modifies this`inflight, this`closed
      ensures inflight == old(inflight) - {instance} && closed == old(closed) + {ch}
    {
      inflight := inflight - {instance};
      closed := closed + {ch};
    }

    method DoSpawn(instance: nat, a: Attempt) returns (ready: bool)
      modifies this`rows
      ensures ready == a.Ready() && rows == RowsAfter(old(rows), instance, a)
      ensures forall i :: i != instance ==> (SaysRunning(rows, i) <==> SaysRunning(old(rows), i))
      ensures a.startStored && a.endStored ==>
                (SaysRunning(rows, instance) <==> ready || (!a.checks && SaysRunning(old(rows), instance)))
      ensures SaysRunning(rows, instance) <==>
                if ready && a.endStored then a.startStored || instance in old(rows)
                else SaysRunning(old(rows), instance)
                     && (!a.checks || (!a.startStored && (ready || a.canceled || !a.endStored)))
    {
      if !a.checks {
        return false;
      }
      rows := Upsert(rows, instance, NotRunning, a.startStored);
      if a.canceled {
        return false;
      }
      if !a.provider || !a.cdp {
        rows := SetStatus(rows, instance, NotRunning, a.endStored);
        return false;
      }
      rows := SetStatus(rows, instance, Running, a.endStored);
      return true;
    }

    /**
     A call for an instance without a spawn in flight, with nothing else going on. As long as
     the row's writes succeed it returns nil exactly when a session runs, or the spawn failed
     its checks while an old row still said running.
     */
    method EnsureSession(instance: nat, running: bool, refreshed: bool, a: Attempt) returns (ok: bool)
      requires instance !in inflight && forall ch <- closed :: ch < channels
      modifies this
      ensures inflight == old(inflight)
      ensures if running then channels == old(channels) && closed == old(closed)
              else channels == old(channels) + 1 && closed == old(closed) + {old(channels)}
      ensures a.startStored && a.endStored ==>
                (ok <==> running || a.Ready() || (!a.checks && SaysRunning(old(rows), instance)))
      ensures !running ==> (ok <==> SaysRunning(rows, instance))
      ensures running && refreshed ==> SaysRunning(rows, instance)
      ensures forall i :: i != instance ==> (SaysRunning(rows, i) <==> SaysRunning(old(rows), i))
    {
      if running {
        rows := Upsert(rows, instance, Running, refreshed);
        return true;
      }
      var ch, mine := Join(instance);
      var ready := DoSpawn(instance, a);
      Depart(instance, ch);
      ok := SaysRunning(rows, instance);
    }
  }
}
