/**
 Rotation of the global SSH key pair over a list of instances. Every step of the main
 goroutine, of the per-instance goroutines and of each file operation is a transition that
 may fail; a crash is simply a run that stops. `Old` is the key in use at the start, `New`
 the generated one.

 A failing remote command may or may not have taken effect before it failed, and the final
 rewrite of authorized_keys truncates the file before it writes it.
 */
module KeyRotation {

  datatype Key = Old | New | Foreign(id: nat)

  /** A key file; `Garbage` is a truncated or partly written one. */
  datatype File = Absent | Garbage | Holds(key: Key)

  datatype Disk = Disk(priv: File, pub: File, privBackup: File, pubBackup: File) {
    /** The private key can be read from ssh_key or from ssh_key.old. */
    predicate Keeps(key: Key) {
      priv == Holds(key) || privBackup == Holds(key)
    }
  }

  /** Where one instance's goroutine stands. `Passed` is the Success status, `Errored` the Error one. */
  datatype Progress = Listed | Appended | Errored | Located | Tested | Truncated | Passed

  datatype Instance = Instance(
    progress: Progress,
    keys: set<Key>,          // what its authorized_keys accepts
    acceptedOld: bool,       // it accepted the old key when the rotation began
    wiped: bool              // the final rewrite failed after truncating
  ) {
    predicate Emptied() {
      progress.Truncated? || wiped
    }
  }

  datatype Phase =
    | Generate | Append
    | BackupPriv | BackupPrivCopy | BackupPub | BackupPubCopy | DropBackup
    | SavePriv | SavePrivWrite | SavePub | SavePubWrite
    | RestorePriv | RestorePrivCopy | RestorePrivDrop | RestorePub | RestorePubCopy | RestorePubDrop
    | Reload | Verify | RemovePriv | RemovePub
    | Succeeded(full: bool) | Failed

  datatype State = State(phase: Phase, disk: Disk, signer: Key, instances: seq<Instance>)

  datatype Step =
    | Advance(ok: bool)                              // the main goroutine's next action
    | AppendExec(i: nat, landed: bool, reported: bool)
    | Address(i: nat, ok: bool)
    | Test(i: nat, ok: bool)
    | FinalizeSkip(i: nat)                           // failed before touching the file
    | FinalizeTruncate(i: nat)
    | FinalizeWrite(i: nat)
    | FinalizeAbort(i: nat)                          // failed after truncating the file

  predicate AllPassed(instances: seq<Instance>) {
    forall v <- instances :: v.progress.Passed?
  }

  predicate Initial(s: State) {
    && s.phase.Generate? && s.signer == Old
    && s.disk.priv == Holds(Old) && s.disk.pub == Holds(Old)
    && forall v <- s.instances :: v.progress.Listed? && !v.wiped && (v.acceptedOld <==> Old in v.keys)
  }

  predicate Enabled(s: State, step: Step) {
    match step
    case Advance(ok) =>
      (match s.phase
       case Append => forall v <- s.instances :: v.progress.Appended? || v.progress.Errored?
       case Verify => forall v <- s.instances :: v.progress.Passed? || v.progress.Errored?
       case Succeeded(_) => false
       case Failed => false
       case _ => true)
    case AppendExec(i, _, _) => s.phase.Append? && At(s, i, Listed)
    case Address(i, _) => s.phase.Verify? && At(s, i, Appended)
    case Test(i, ok) => s.phase.Verify? && At(s, i, Located) && (ok ==> New in s.instances[i].keys)
    case FinalizeSkip(i) => s.phase.Verify? && At(s, i, Tested)
    case FinalizeTruncate(i) => s.phase.Verify? && At(s, i, Tested)
    case FinalizeWrite(i) => s.phase.Verify? && At(s, i, Truncated)
    case FinalizeAbort(i) => s.phase.Verify? && At(s, i, Truncated)
  }

  predicate At(s: State, i: nat, progress: Progress) {
    i < |s.instances| && s.instances[i].progress == progress
  }

  /** The next action of the main goroutine, which succeeds or fails as `ok` says. */
  function Main(s: State, ok: bool): State {
    var d := s.disk;
    match s.phase
    case Generate => s.(phase := if ok then Append else Failed)
    case Append => s.(phase := BackupPriv)
    case BackupPriv =>
      if ok then s.(phase := BackupPrivCopy, disk := d.(privBackup := Garbage))
      else s.(phase := Failed)
    case BackupPrivCopy => if ok then s.(phase := BackupPub, disk := d.(privBackup := d.priv)) else s.(phase := Failed)
    case BackupPub =>
      if ok then s.(phase := BackupPubCopy, disk := d.(pubBackup := Garbage))
      else s.(phase := DropBackup)
    case BackupPubCopy => if ok then s.(phase := SavePriv, disk := d.(pubBackup := d.pub)) else s.(phase := DropBackup)
    case DropBackup => s.(phase := Failed, disk := if ok then d.(privBackup := Absent) else d)
    case SavePriv => if ok then s.(phase := SavePrivWrite, disk := d.(priv := Garbage)) else s.(phase := RestorePriv)
    case SavePrivWrite => if ok then s.(phase := SavePub, disk := d.(priv := Holds(New))) else s.(phase := RestorePriv)
    case SavePub => if ok then s.(phase := SavePubWrite, disk := d.(pub := Garbage)) else s.(phase := RestorePriv)
    case SavePubWrite => if ok then s.(phase := Reload, disk := d.(pub := Holds(New))) else s.(phase := RestorePriv)
    case RestorePriv =>
      if ok then s.(phase := RestorePrivCopy, disk := d.(priv := Garbage))
      else s.(phase := RestorePub)
    case RestorePrivCopy =>
      if ok then s.(phase := RestorePrivDrop, disk := d.(priv := d.privBackup))
      else s.(phase := RestorePub)
    case RestorePrivDrop => s.(phase := RestorePub, disk := if ok then d.(privBackup := Absent) else d)
    case RestorePub => if ok then s.(phase := RestorePubCopy, disk := d.(pub := Garbage)) else s.(phase := Failed)
    case RestorePubCopy =>
      if ok then s.(phase := RestorePubDrop, disk := d.(pub := d.pubBackup))
      else s.(phase := Failed)
    case RestorePubDrop => s.(phase := Failed, disk := if ok then d.(pubBackup := Absent) else d)
    case Reload => s.(phase := Verify, signer := New)
    case Verify => s.(phase := if AllPassed(s.instances) then RemovePriv else Succeeded(false))
    case RemovePriv => s.(phase := RemovePub, disk := if ok then d.(privBackup := Absent) else d)
    case RemovePub => s.(phase := Succeeded(true), disk := if ok then d.(pubBackup := Absent) else d)
    case Succeeded(_) => s
    case Failed => s
  }

  /** One instance after its own step. */
  function Progressed(v: Instance, step: Step): Instance {
    match step
    case AppendExec(_, landed, reported) =>
      v.(keys := v.keys + if landed then {New} else {}, progress := if reported then Appended else Errored)
    case Address(_, ok) => v.(progress := if ok then Located else Errored)
    case Test(_, ok) => v.(progress := if ok then Tested else Errored)
    case FinalizeSkip(_) => v.(progress := Passed)
    case FinalizeTruncate(_) => v.(progress := Truncated, keys := {})
    case FinalizeWrite(_) => v.(progress := Passed, keys := {New})
    case FinalizeAbort(_) => v.(progress := Passed, wiped := true)
    case Advance(_) => v
  }

  function Apply(s: State, step: Step): State
    requires Enabled(s, step)
  {
    if step.Advance? then Main(s, step.ok)
    else s.(instances := s.instances[step.i := Progressed(s.instances[step.i], step)])
  }

  predicate Legal(s: State, steps: seq<Step>)
    decreases |steps|
  {
    steps == [] || (Enabled(s, steps[0]) && Legal(Apply(s, steps[0]), steps[1..]))
  }

  function Run(s: State, steps: seq<Step>): State
    requires Legal(s, steps)
    decreases |steps|
  {
    if steps == [] then s else Run(Apply(s, steps[0]), steps[1..])
  }

  // ----- The invariant -------------------------------------------------------------------

  /** What the key files hold in each phase. */
  predicate DiskOk(phase: Phase, d: Disk) {
    match phase
    case Generate | Append | BackupPriv | BackupPrivCopy => d.priv == d.pub == Holds(Old)
    case BackupPub | BackupPubCopy => d.priv == d.privBackup == d.pub == Holds(Old)
    case DropBackup => d.priv == d.pub == Holds(Old)
    case SavePriv => d.priv == d.privBackup == d.pub == d.pubBackup == Holds(Old)
    case SavePrivWrite | RestorePriv | RestorePrivCopy => d.privBackup == d.pubBackup == Holds(Old)
    case RestorePrivDrop => d.priv == d.privBackup == d.pubBackup == Holds(Old)
    case RestorePub | RestorePubCopy => d.Keeps(Old) && d.pubBackup == Holds(Old)
    case RestorePubDrop => d.Keeps(Old) && d.pub == d.pubBackup == Holds(Old)
    case Failed => d.Keeps(Old) && (d.pub == Holds(Old) || d.pubBackup == Holds(Old))
    case SavePub | SavePubWrite => d.priv == Holds(New) && d.privBackup == d.pubBackup == Holds(Old)
    case Reload | Verify | RemovePriv => d.priv == d.pub == Holds(New) && d.privBackup == d.pubBackup == Holds(Old)
    case RemovePub => d.priv == d.pub == Holds(New) && d.pubBackup == Holds(Old)
    case Succeeded(full) => d.priv == d.pub == Holds(New) && (full || d.privBackup == d.pubBackup == Holds(Old))
  }

  /** The new key is on disk and loaded, and instances may be finalized. */
  predicate Verifying(phase: Phase) {
    phase.Verify? || phase.RemovePriv? || phase.RemovePub? || phase.Succeeded?
  }

  /** What an instance accepts, by its progress. */
  predicate InstanceOk(v: Instance, phase: Phase) {
    && (v.Emptied() ==> v.keys == {})
    && (v.wiped ==> v.progress.Passed?)
    && (!(v.progress.Truncated? || v.progress.Passed?) ==> (v.acceptedOld ==> Old in v.keys))
    && ((v.progress.Tested? || v.progress.Passed?) && !v.wiped ==> New in v.keys)
    && (!Verifying(phase) ==> v.progress.Listed? || v.progress.Appended? || v.progress.Errored?)
    && ((phase.RemovePriv? || phase.RemovePub? || phase == Succeeded(true)) ==> v.progress.Passed?)
    && (phase == Succeeded(false) ==> v.progress.Passed? || v.progress.Errored?)
  }

  predicate Invariant(s: State) {
    && DiskOk(s.phase, s.disk)
    && (s.signer == New <==> Verifying(s.phase)) && (s.signer == Old || s.signer == New)
    && (forall v <- s.instances :: InstanceOk(v, s.phase))
    && (s.phase == Succeeded(false) ==> !AllPassed(s.instances))
  }

  lemma DiskStep(s: State, ok: bool)
    requires DiskOk(s.phase, s.disk)
    ensures DiskOk(Main(s, ok).phase, Main(s, ok).disk)
  {}

  lemma InstancesStep(s: State, ok: bool, v: Instance)
    requires v in s.instances && InstanceOk(v, s.phase) && Enabled(s, Advance(ok))
    ensures InstanceOk(v, Main(s, ok).phase)
  {
    hide DiskOk;
  }

  lemma MainStep(s: State, ok: bool)
    requires Invariant(s) && Enabled(s, Advance(ok))
    ensures Invariant(Apply(s, Advance(ok)))
  {
    hide DiskOk, InstanceOk;
    DiskStep(s, ok);
    forall v | v in s.instances ensures InstanceOk(v, Main(s, ok).phase) {
      InstancesStep(s, ok, v);
    }
  }

  lemma InstanceStep(s: State, step: Step)
    requires Invariant(s) && Enabled(s, step) && !step.Advance?
    ensures Invariant(Apply(s, step))
  {
    var after := Apply(s, step);
    assert InstanceOk(s.instances[step.i], s.phase);
    assert InstanceOk(after.instances[step.i], s.phase);
    forall v | v in after.instances ensures InstanceOk(v, s.phase) {
      assert v == after.instances[step.i] || v in s.instances;
    }
  }

  lemma {:induction false} InvariantHolds(s: State, steps: seq<Step>)
    requires Invariant(s) && Legal(s, steps)
    ensures Invariant(Run(s, steps))
    ensures |Run(s, steps).instances| == |s.instances|
    ensures forall i :: 0 <= i < |s.instances| ==> Run(s, steps).instances[i].acceptedOld == s.instances[i].acceptedOld
    decreases |steps|
  {
    if steps != [] {
      if steps[0].Advance? {
        MainStep(s, steps[0].ok);
      } else {
        InstanceStep(s, steps[0]);
      }
      InvariantHolds(Apply(s, steps[0]), steps[1..]);
    }
  }

  // ----- The theorems, for every run and hence every crash point ---------------------------

  /** The instance accepted the old key and now accepts no key held in ssh_key or ssh_key.old. */
  predicate LockedOut(s: State, v: Instance) {
    v.acceptedOld && forall key <- v.keys :: !s.disk.Keeps(key)
  }

  /**
   An instance that accepted the old key at the start is locked out exactly while, or because,
   the final rewrite has emptied its authorized_keys.
   */
  lemma LockedOutIffEmptied(start: State, steps: seq<Step>, i: nat)
    requires Initial(start) && Legal(start, steps) && i < |start.instances| && Old in start.instances[i].keys
    ensures i < |Run(start, steps).instances|
    ensures var s := Run(start, steps);
            LockedOut(s, s.instances[i]) <==> s.instances[i].Emptied()
  {
    InvariantHolds(start, steps);
    var s := Run(start, steps);
    var v := s.instances[i];
    assert start.instances[i].acceptedOld;
    assert InstanceOk(v, s.phase);
  }

  /** No run without an aborted rewrite wipes an instance; none is locked out outside a rewrite. */
  lemma {:induction false} OnlyAbortsWipe(s: State, steps: seq<Step>)
    requires Legal(s, steps)
    requires forall step <- steps :: !step.FinalizeAbort?
    requires forall v <- s.instances :: !v.wiped
    ensures forall v <- Run(s, steps).instances :: !v.wiped
    decreases |steps|
  {
    if steps != [] {
      var next := Apply(s, steps[0]);
      forall v | v in next.instances ensures !v.wiped {
        assert v in s.instances || (!steps[0].Advance? && v == Progressed(s.instances[steps[0].i], steps[0]));
      }
      OnlyAbortsWipe(next, steps[1..]);
    }
  }

  lemma NobodyIsLockedOut(start: State, steps: seq<Step>, i: nat)
    requires Initial(start) && Legal(start, steps) && i < |start.instances| && Old in start.instances[i].keys
    requires forall step <- steps :: !step.FinalizeAbort?
    ensures i < |Run(start, steps).instances|
    ensures var s := Run(start, steps);
            !s.instances[i].progress.Truncated? ==>
              exists key :: key in s.instances[i].keys && s.disk.Keeps(key)
  {
    OnlyAbortsWipe(start, steps);
    LockedOutIffEmptied(start, steps, i);
    InvariantHolds(start, steps);
    assert Run(start, steps).instances[i] in Run(start, steps).instances;
  }

  /** The old private key stays on disk until every instance has passed the new-key test. */
  lemma OldKeyIsKeptUntilAllPass(start: State, steps: seq<Step>)
    requires Initial(start) && Legal(start, steps)
    ensures var s := Run(start, steps); s.disk.Keeps(Old) || AllPassed(s.instances)
    ensures var s := Run(start, steps); s.signer == New ==> s.disk.priv == Holds(New)
  {
    InvariantHolds(start, steps);
  }

  /** Full success means every instance passed, and all but the wiped ones accept the new key. */
  lemma ResultTellsTheTruth(start: State, steps: seq<Step>)
    requires Initial(start) && Legal(start, steps) && Run(start, steps).phase.Succeeded?
    ensures var s := Run(start, steps);
            && (s.phase.full <==> AllPassed(s.instances))
            && s.signer == New && s.disk.priv == s.disk.pub == Holds(New)
            && (!s.phase.full ==> s.disk.privBackup == s.disk.pubBackup == Holds(Old))
            && (forall v <- s.instances ::
                  if v.progress.Passed? then v.wiped || New in v.keys
                  else v.progress.Errored? && (v.acceptedOld ==> Old in v.keys))
  {
    InvariantHolds(start, steps);
    var s := Run(start, steps);
    forall v <- s.instances ensures InstanceOk(v, s.phase) {}
  }

  /** A rotation that returns an error leaves the old key usable everywhere and still loaded. */
  lemma FailureIsHarmless(start: State, steps: seq<Step>)
    requires Initial(start) && Legal(start, steps) && Run(start, steps).phase.Failed?
    ensures var s := Run(start, steps);
            && s.signer == Old && s.disk.Keeps(Old)
            && (s.disk.pub == Holds(Old) || s.disk.pubBackup == Holds(Old))
            && forall v <- s.instances :: v.acceptedOld ==> Old in v.keys
  {
    InvariantHolds(start, steps);
    var s := Run(start, steps);
    forall v <- s.instances ensures InstanceOk(v, s.phase) {}
  }

  // ----- What becomes of an instance's keys --------------------------------------------------

  /** One instance at two points of a run, by the steps in between. */
  ghost predicate Traced(v: Instance, w: Instance, steps: seq<Step>, i: nat) {
    && (FinalizeWrite(i) in steps ==> w.progress.Passed? && w.keys == {New})
    && (FinalizeAbort(i) in steps ==> w.progress.Passed? && w.keys == {})
    && (FinalizeSkip(i) in steps ==> w.progress.Passed? && v.keys <= w.keys <= v.keys + {New})
    && (w.progress.Passed? ==>
          v.progress.Passed? || FinalizeWrite(i) in steps || FinalizeAbort(i) in steps || FinalizeSkip(i) in steps)
    && (v.progress.Passed? ==> w == v && FinalizeWrite(i) !in steps && FinalizeAbort(i) !in steps)
    && (v.progress.Passed? || v.progress.Truncated? ==> FinalizeSkip(i) !in steps)
  }

  lemma {:induction false} KeysAreTraced(s: State, steps: seq<Step>, i: nat)
    requires Invariant(s) && Legal(s, steps) && i < |s.instances|
    ensures |Run(s, steps).instances| == |s.instances|
    ensures Traced(s.instances[i], Run(s, steps).instances[i], steps, i)
    decreases |steps|
  {
    hide Apply, Enabled, Invariant;
    if steps != [] {
      InvariantHolds(s, steps[..1]);
      OneStep(s, steps);
      TraceStep(s, steps[0], i);
      KeysAreTraced(Apply(s, steps[0]), steps[1..], i);
      assert forall step :: step in steps <==> step == steps[0] || step in steps[1..];
    }
  }

  /** What one step does to instance `i`, and where that instance stands before its own steps. */
  lemma TraceStep(s: State, step: Step, i: nat)
    requires Invariant(s) && Enabled(s, step) && i < |s.instances|
    ensures |Apply(s, step).instances| == |s.instances|
    ensures var v := s.instances[i];
            && Apply(s, step).instances[i] == (if step.Advance? || step.i != i then v else Progressed(v, step))
            && (v.progress.Truncated? ==> v.keys == {})
            && (!step.Advance? && step.i == i ==>
                  && !v.progress.Passed?
                  && (v.progress.Truncated? <==> step.FinalizeWrite? || step.FinalizeAbort?))
  {
    assert InstanceOk(s.instances[i], s.phase);
    hide DiskOk;
  }

  lemma OneStep(s: State, steps: seq<Step>)
    requires Legal(s, steps) && steps != []
    ensures Legal(s, steps[..1]) && Run(s, steps[..1]) == Apply(s, steps[0])
  {
    assert steps[..1] == [steps[0]] && steps[..1][1..] == [];
  }
  /**
   An instance whose rewrite was completed accepts the new key and nothing else. An instance
   that passed accepts some other key if and only if its rewrite was skipped and it accepted
   such a key when the rotation began.
   */
  lemma OldKeyIsTakenAway(start: State, steps: seq<Step>, i: nat)
    requires Initial(start) && Legal(start, steps) && i < |start.instances|
    ensures i < |Run(start, steps).instances|
    ensures FinalizeWrite(i) in steps ==> Run(start, steps).instances[i].keys == {New}
    ensures var (v, w) := (start.instances[i], Run(start, steps).instances[i]);
            w.progress.Passed? ==>
              ((exists key <- w.keys :: key != New) <==>
               FinalizeSkip(i) in steps && exists key <- v.keys :: key != New)
  {
    hide Apply, Enabled, Run, Legal;
    assert Invariant(start);
    KeysAreTraced(start, steps, i);
    assert start.instances[i] in start.instances;
  }

  /** The steps an instance has behind it when it stands at `progress`. */
  function Behind(progress: Progress): nat {
    match progress
    case Listed => 0
    case Appended => 1
    case Located => 2
    case _ => 3
  }

  /**
   An instance's file is rewritten, or the rewrite tried, only after the append was reported
   done, its address was found and the new key's connection test succeeded, all in this run.
   */
  lemma {:induction false} RewriteNeedsTest(s: State, steps: seq<Step>, i: nat)
    requires Legal(s, steps) && i < |s.instances| && (FinalizeTruncate(i) in steps || FinalizeSkip(i) in steps)
    ensures !s.instances[i].progress.Errored?
    ensures Behind(s.instances[i].progress) < 3 ==> Test(i, true) in steps
    ensures Behind(s.instances[i].progress) < 2 ==> Address(i, true) in steps
    ensures Behind(s.instances[i].progress) < 1 ==>
              AppendExec(i, true, true) in steps || AppendExec(i, false, true) in steps
    decreases |steps|
  {
    hide DiskOk, Main;
    if steps[0].Advance? {
      MainKeepsInstances(s, steps[0].ok);
    }
    assert forall step :: step in steps <==> step == steps[0] || step in steps[1..];
    if FinalizeTruncate(i) in steps[1..] || FinalizeSkip(i) in steps[1..] {
      RewriteNeedsTest(Apply(s, steps[0]), steps[1..], i);
    }
  }

  lemma MainKeepsInstances(s: State, ok: bool)
    ensures Main(s, ok).instances == s.instances
  {}

  /** The append step, once it has landed, makes the instance accept the new key beside its own. */
  lemma {:induction false} AppendAddsTheNewKey(s: State, steps: seq<Step>, i: nat)
    requires Legal(s, steps) && i < |s.instances|
    ensures |Run(s, steps).instances| == |s.instances|
    ensures var (v, w) := (s.instances[i], Run(s, steps).instances[i]);
            && (!v.progress.Listed? ==> AppendExec(i, true, true) !in steps && AppendExec(i, true, false) !in steps)
            && (v.progress.Truncated? || v.progress.Passed? ==> w.progress.Truncated? || w.progress.Passed?)
            && (!w.progress.Truncated? && !w.progress.Passed? ==>
                  w.keys == if AppendExec(i, true, true) in steps || AppendExec(i, true, false) in steps
                            then v.keys + {New} else v.keys)
    decreases |steps|
  {
    hide DiskOk, Main;
    if steps != [] {
      if steps[0].Advance? {
        MainKeepsInstances(s, steps[0].ok);
      }
      AppendAddsTheNewKey(Apply(s, steps[0]), steps[1..], i);
      assert forall step :: step in steps <==> step == steps[0] || step in steps[1..];
    }
  }

  /** A removal that succeeds leaves no backup: after errors, after restoring and after full success. */
  lemma RemovalsRemove(s: State)
    ensures s.phase == DropBackup || s.phase == RestorePrivDrop || s.phase == RemovePriv ==>
              Main(s, true).disk == s.disk.(privBackup := Absent)
    ensures s.phase == RestorePubDrop || s.phase == RemovePub ==>
              Main(s, true).disk == s.disk.(pubBackup := Absent)
  {}

  // ----- The rewrite that fails half-way ---------------------------------------------------

  /** One instance; every action succeeds except the final rewrite, which stops after truncating. */
  const Appending: seq<Step> := [Advance(true), AppendExec(0, true, true), Advance(true)]
  const BackingUp: seq<Step> := [Advance(true), Advance(true), Advance(true), Advance(true)]
  const Saving: seq<Step> := [
    Advance(true), Advance(true), Advance(true), Advance(true), Advance(true)]
  const Rewriting: seq<Step> := [Address(0, true), Test(0, true), FinalizeTruncate(0), FinalizeAbort(0)]
  const Finishing: seq<Step> := [Advance(true), Advance(true), Advance(true)]

  const Single: State := State(Generate, Disk(Holds(Old), Holds(Old), Absent, Absent), Old,
                        [Instance(Listed, {Old}, true, false)])

  /** The rotation then reports full success, drops the backups and has locked the instance out. */
  lemma FullSuccessCanLockOut()
    ensures Initial(Single) && Legal(Single, (((Appending + BackingUp) + Saving) + Rewriting) + Finishing)
    ensures var s := Run(Single, (((Appending + BackingUp) + Saving) + Rewriting) + Finishing);
            && s.phase == Succeeded(true) && s.disk.privBackup == Absent
            && |s.instances| == 1 && LockedOut(s, s.instances[0])
  {
    hide Apply, Enabled;
    AppendingRuns();
    BackingUpRuns();
    SavingRuns();
    RewritingRuns();
    FinishingRuns();
    RunConcat(Single, Appending, BackingUp);
    RunConcat(Single, Appending + BackingUp, Saving);
    RunConcat(Single, (Appending + BackingUp) + Saving, Rewriting);
    RunConcat(Single, ((Appending + BackingUp) + Saving) + Rewriting, Finishing);
  }

  const Joined := Instance(Appended, {Old, New}, true, false)
  const Prepared: State := State(SavePriv, Disk(Holds(Old), Holds(Old), Holds(Old), Holds(Old)), Old, [Joined])
  const Rewritten: State := Saved.(instances := [Instance(Passed, {}, true, true)])
  const Saved: State := State(Verify, Disk(Holds(New), Holds(New), Holds(Old), Holds(Old)), New, [Joined])

  lemma AppendingRuns()
    ensures Legal(Single, Appending) && Run(Single, Appending) == Single.(phase := BackupPriv, instances := [Joined])
  {
    var s1 := Apply(Single, Appending[0]);
    var s2 := Apply(s1, Appending[1]);
    assert {Old} + {New} == {Old, New};
    assert s2.instances[0] == Joined;
    Prepend(s2, Appending[2], []);
    Prepend(s1, Appending[1], Appending[2..]);
    Prepend(Single, Appending[0], Appending[1..]);
  }

  lemma BackingUpRuns()
    ensures var s := Single.(phase := BackupPriv, instances := [Joined]);
            Legal(s, BackingUp) && Run(s, BackingUp) == Prepared
  {
    var s0 := Single.(phase := BackupPriv, instances := [Joined]);
    var s1 := Apply(s0, BackingUp[0]);
    var s2 := Apply(s1, BackingUp[1]);
    var s3 := Apply(s2, BackingUp[2]);
    Prepend(s3, BackingUp[3], []);
    Prepend(s2, BackingUp[2], BackingUp[3..]);
    Prepend(s1, BackingUp[1], BackingUp[2..]);
    Prepend(s0, BackingUp[0], BackingUp[1..]);
  }

  lemma SavingRuns()
    ensures Legal(Prepared, Saving) && Run(Prepared, Saving) == Saved
  {
    var s1 := Apply(Prepared, Saving[0]);
    var s2 := Apply(s1, Saving[1]);
    var s3 := Apply(s2, Saving[2]);
    var s4 := Apply(s3, Saving[3]);
    Prepend(s4, Saving[4], []);
    Prepend(s3, Saving[3], Saving[4..]);
    Prepend(s2, Saving[2], Saving[3..]);
    Prepend(s1, Saving[1], Saving[2..]);
    Prepend(Prepared, Saving[0], Saving[1..]);
  }

  lemma RewritingRuns()
    ensures Legal(Saved, Rewriting) && Run(Saved, Rewriting) == Rewritten
  {
    var s1 := Apply(Saved, Rewriting[0]);
    var s2 := Apply(s1, Rewriting[1]);
    var s3 := Apply(s2, Rewriting[2]);
    var s4 := Apply(s3, Rewriting[3]);
    assert s4.instances[0] == Instance(Passed, {}, true, true);
    Prepend(s3, Rewriting[3], []);
    Prepend(s2, Rewriting[2], Rewriting[3..]);
    Prepend(s1, Rewriting[1], Rewriting[2..]);
    Prepend(Saved, Rewriting[0], Rewriting[1..]);
  }

  lemma FinishingRuns()
    ensures Legal(Rewritten, Finishing)
    ensures Run(Rewritten, Finishing) ==
            Rewritten.(phase := Succeeded(true), disk := Disk(Holds(New), Holds(New), Absent, Absent))
  {
    var s1 := Apply(Rewritten, Finishing[0]);
    assert s1 == Rewritten.(phase := RemovePriv);
    var s2 := Apply(s1, Finishing[1]);
    assert s2 == s1.(phase := RemovePub, disk := Disk(Holds(New), Holds(New), Absent, Holds(Old)));
    Prepend(s2, Finishing[2], []);
    Prepend(s1, Finishing[1], Finishing[2..]);
    Prepend(Rewritten, Finishing[0], Finishing[1..]);
  }

  lemma Prepend(s: State, step: Step, rest: seq<Step>)
    requires Enabled(s, step) && Legal(Apply(s, step), rest)
    ensures Legal(s, [step] + rest) && Run(s, [step] + rest) == Run(Apply(s, step), rest)
  {
    assert ([step] + rest)[1..] == rest;
  }

  lemma {:induction false} RunConcat(s: State, first: seq<Step>, second: seq<Step>)
    requires Legal(s, first) && Legal(Run(s, first), second)
    ensures Legal(s, first + second) && Run(s, first + second) == Run(Run(s, first), second)
    decreases |first|
  {
    hide Apply, Enabled;
    if first == [] {
      assert first + second == second;
    } else {
      assert (first + second)[1..] == first[1..] + second;
      RunConcat(Apply(s, first[0]), first[1..], second);
    }
  }
}
