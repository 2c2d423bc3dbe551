/**
 Shared folders are mounted into the instances listed in the folder and into those of its
 teams. Updating a folder restarts a computed set of instances; the theorems compare that
 set with the instances whose mounts really change. Database tables are sequences of rows.
 */
module SharedFolders {
  import opened Common

  datatype Instance = Instance(id: nat, team: nat)

  datatype Folder = Folder(id: nat, name: string, path: string, instanceIDs: seq<nat>, teamIDs: seq<nat>)

  /** The fields an update request may carry. */
  datatype Update = Update(
    name: Option<string>, path: Option<string>,
    instanceIDs: Option<seq<nat>>, teamIDs: Option<seq<nat>>)

  datatype Target = Target(instance: nat, title: string)

  const ADDING := "Adding shared folder"
  const DELETING := "Deleting shared folder"

  predicate DistinctIDs(instances: seq<Instance>) {
    forall j, k :: 0 <= j < k < |instances| ==> instances[j].id != instances[k].id
  }

  predicate DistinctFolders(folders: seq<Folder>) {
    forall j, k :: 0 <= j < k < |folders| ==> folders[j].id != folders[k].id
  }

  predicate NoDuplicates<T(==)>(s: seq<T>) {
    forall j, k :: 0 <= j < k < |s| ==> s[j] != s[k]
  }

  // ----- What an instance mounts -------------------------------------------------------------

  /** The instance's team, or 0 when there is no such row. */
  function TeamOf(instances: seq<Instance>, id: nat): nat {
    if instances == [] then 0
    else if instances[0].id == id then instances[0].team
    else TeamOf(instances[1..], id)
  }

  predicate Covers(f: Folder, id: nat, team: nat) {
    id in f.instanceIDs || (team != 0 && team in f.teamIDs)
  }

  method GetSharedFoldersForInstance(folders: seq<Folder>, instances: seq<Instance>, id: nat)
    returns (result: seq<Folder>)
    ensures forall f :: f in result <==> f in folders && Covers(f, id, TeamOf(instances, id))
    ensures (set f <- result :: (f.id, f.path)) == Mounts(folders, id, TeamOf(instances, id))
  {
    var team := TeamOf(instances, id);
    result := [];
    for k := 0 to |folders|
      invariant forall f :: f in result <==> f in folders[..k] && Covers(f, id, team)
    {
      var f := folders[k];
      var covered := false;
      for j := 0 to |f.instanceIDs|
        invariant !covered && id !in f.instanceIDs[..j]
      {
        if f.instanceIDs[j] == id {
          covered := true;
          break;
        }
      }
      assert covered <==> id in f.instanceIDs;
      if !covered && team != 0 {
        for j := 0 to |f.teamIDs|
          invariant !covered && team !in f.teamIDs[..j]
        {
          if f.teamIDs[j] == team {
            covered := true;
            break;
          }
        }
      }
      assert covered <==> Covers(f, id, team);
      assert folders[..k + 1] == folders[..k] + [f];
      if covered {
        result := result + [f];
      }
    }
    assert folders[..|folders|] == folders;
  }

  /** The (folder, path) pairs that an instance of that team mounts. */
  ghost function Mounts(folders: seq<Folder>, id: nat, team: nat): set<(nat, string)> {
    set f <- folders | Covers(f, id, team) :: (f.id, f.path)
  }

  // ----- Which instances restart -------------------------------------------------------------

  /** Explicit instances and, from the table, those whose team column is listed. */
  predicate Effective(instances: seq<Instance>, instanceIDs: seq<nat>, teamIDs: seq<nat>, id: nat) {
    id in instanceIDs || exists v <- instances :: v.id == id && v.team in teamIDs
  }

  method ExpandFolderEffectiveInstances(instances: seq<Instance>, instanceIDs: seq<nat>, teamIDs: seq<nat>)
    returns (out: seq<nat>)
    ensures NoDuplicates(out)
    ensures forall id :: id in out <==> Effective(instances, instanceIDs, teamIDs, id)
  {
    var seen: set<nat> := {};
    out := [];
    for k := 0 to |instanceIDs|
      invariant NoDuplicates(out)
      invariant forall id :: id in out <==> id in seen
      invariant forall id :: id in seen <==> id in instanceIDs[..k]
    {
      var id := instanceIDs[k];
      if id !in seen {
        seen := seen + {id};
        out := out + [id];
      }
    }
    assert instanceIDs[..|instanceIDs|] == instanceIDs;
    if |teamIDs| > 0 {
      for k := 0 to |instances|
        invariant NoDuplicates(out)
        invariant forall id :: id in out <==> id in seen
        invariant forall id :: id in seen <==> Effective(instances[..k], instanceIDs, teamIDs, id)
      {
        EffectiveSnoc(instances[..k], instances[k], instanceIDs, teamIDs);
        assert instances[..k + 1] == instances[..k] + [instances[k]];
        var v := instances[k];
        if v.team in teamIDs && v.id !in seen {
          seen := seen + {v.id};
          out := out + [v.id];
        }
      }
      assert instances[..|instances|] == instances;
    }
  }

  lemma EffectiveSnoc(instances: seq<Instance>, v: Instance, instanceIDs: seq<nat>, teamIDs: seq<nat>)
    ensures forall id :: Effective(instances + [v], instanceIDs, teamIDs, id) <==>
              Effective(instances, instanceIDs, teamIDs, id) || (id == v.id && v.team in teamIDs)
  {
    forall id | id == v.id && v.team in teamIDs
      ensures Effective(instances + [v], instanceIDs, teamIDs, id)
    {
      assert v in instances + [v];
    }
    forall id | Effective(instances, instanceIDs, teamIDs, id)
      ensures Effective(instances + [v], instanceIDs, teamIDs, id)
    {
      if id !in instanceIDs {
        var w :| w in instances && w.id == id && w.team in teamIDs;
        assert w in instances + [v];
      }
    }
  }

  function Elements(s: seq<nat>): set<nat> {
    set x <- s
  }

  /** A set's elements in the arbitrary order in which a map is ranged over. */
  method InSomeOrder(s: set<nat>) returns (out: seq<nat>)
    ensures NoDuplicates(out) && Elements(out) == s
  {
    out := [];
    var rest := s;
    while rest != {}
      invariant NoDuplicates(out) && Elements(out) !! rest && Elements(out) + rest == s
      decreases rest
    {
      var x :| x in rest;
      assert x !in Elements(out);
      out := out + [x];
      rest := rest - {x};
    }
  }

  method SymmetricDiff(a: seq<nat>, b: seq<nat>) returns (result: seq<nat>)
    ensures NoDuplicates(result)
    ensures forall x :: x in result <==> ((x in a) != (x in b))
  {
    var onlyA := InSomeOrder(Elements(a) - Elements(b));
    var onlyB := InSomeOrder(Elements(b) - Elements(a));
    assert Elements(onlyA) !! Elements(onlyB);
    forall x ensures x in onlyA + onlyB <==> ((x in a) != (x in b)) {
      assert x in onlyA <==> x in Elements(onlyA);
      assert x in onlyB <==> x in Elements(onlyB);
    }
    forall j, k | 0 <= j < |onlyA| && 0 <= k < |onlyB| ensures onlyA[j] != onlyB[k] {
      assert onlyA[j] in Elements(onlyA) && onlyB[k] in Elements(onlyB);
    }
    result := onlyA + onlyB;
  }

  method MergeSets(a: seq<nat>, b: seq<nat>) returns (result: seq<nat>)
    ensures NoDuplicates(result)
    ensures forall x :: x in result <==> x in a || x in b
  {
    result := InSomeOrder(Elements(a) + Elements(b));
    forall x ensures x in result <==> x in a || x in b {
      assert x in result <==> x in Elements(result);
    }
  }

  /** An instance is targeted when it is mapped at all, or when its being mapped changes. */
  predicate Targeted(wasEffective: bool, isEffective: bool, pathChanged: bool, membershipChanged: bool) {
    if pathChanged then wasEffective || isEffective
    else membershipChanged && wasEffective != isEffective
  }

  method ComputeFolderUpdateRestartTargets(oldIDs: seq<nat>, newIDs: seq<nat>,
                                           pathChanged: bool, membershipChanged: bool)
    returns (out: seq<Target>)
    ensures forall j, k :: 0 <= j < k < |out| ==> out[j].instance != out[k].instance
    ensures forall t <- out ::
              t.title == if t.instance in newIDs then "Adding shared folder" else "Deleting shared folder"
    ensures forall id :: (exists t <- out :: t.instance == id) <==>
              Targeted(id in oldIDs, id in newIDs, pathChanged, membershipChanged)
  {
    out := [];
    if !pathChanged && !membershipChanged {
      return;
    }
    var newSet := Elements(newIDs);
    var ids;
    if pathChanged {
      ids := MergeSets(oldIDs, newIDs);
    } else {
      ids := SymmetricDiff(oldIDs, newIDs);
    }
    for k := 0 to |ids|
      invariant |out| == k
      invariant forall j :: 0 <= j < k ==>
                  out[j] == Target(ids[j], if ids[j] in newIDs then ADDING else DELETING)
    {
      var title := ADDING;
      if ids[k] !in newSet {
        title := DELETING;
      }
      out := out + [Target(ids[k], title)];
    }
    forall id ensures (exists t <- out :: t.instance == id) <==> id in ids {
      if id in ids {
        var k :| 0 <= k < |ids| && ids[k] == id;
        assert out[k] in out;
      }
    }
  }

  // ----- Updating a folder ---------------------------------------------------------------------

  const RESERVED: seq<string> := ["/home/claworc", "/home/linuxbrew", "/dev/shm"]

  predicate IsValidMountPath(path: string) {
    "/" <= path && forall r <- RESERVED :: path != r && !(r + "/" <= path)
  }

  predicate MountPathTaken(folders: seq<Folder>, path: string, exclude: nat) {
    exists f <- folders :: f.path == path && f.id != exclude
  }

  predicate HasFields(u: Update) {
    (u.name.Some? && u.name.value != "") || u.path.Some? || u.instanceIDs.Some? || u.teamIDs.Some?
  }

  function Or<T>(field: Option<T>, default: T): T {
    match field case None => default case Some(v) => v
  }

  function Updated(f: Folder, u: Update): Folder {
    f.(name := if Or(u.name, "") == "" then f.name else u.name.value,
       path := Or(u.path, f.path),
       instanceIDs := Or(u.instanceIDs, f.instanceIDs),
       teamIDs := Or(u.teamIDs, f.teamIDs))
  }

  datatype Outcome = NotFound | Forbidden | InvalidPath | PathTaken | NoFields | Done

  /** The position of the row with that id, or the length when there is none. */
  function IndexOf(folders: seq<Folder>, id: nat): (k: nat)
    ensures k <= |folders| && (k < |folders| ==> folders[k].id == id)
    ensures k == |folders| ==> forall f <- folders :: f.id != id
  {
    if folders == [] || folders[0].id == id then 0 else 1 + IndexOf(folders[1..], id)
  }

  /** Which answer a request gets; `mayEdit` and `mayAttach` stand for the access checks. */
  function Verdict(folders: seq<Folder>, id: nat, u: Update, mayEdit: bool, mayAttach: bool): Outcome {
    if IndexOf(folders, id) == |folders| then NotFound
    else if !mayEdit then Forbidden
    else if u.path.Some? && !IsValidMountPath(u.path.value) then InvalidPath
    else if u.path.Some? && MountPathTaken(folders, u.path.value, id) then PathTaken
    else if !mayAttach then Forbidden
    else if !HasFields(u) then NoFields
    else Done
  }

  /** When each answer is given, by what the request carries and what the table holds. */
  ghost predicate Answers(outcome: Outcome, folders: seq<Folder>, id: nat, u: Update, mayEdit: bool, mayAttach: bool) {
    var found := exists f <- folders :: f.id == id;
    var badPath := u.path.Some? && !IsValidMountPath(u.path.value);
    var taken := u.path.Some? && exists f <- folders :: f.id != id && f.path == u.path.value;
    var empty := (u.name.Some? ==> u.name.value == "") && u.path.None? && u.instanceIDs.None? && u.teamIDs.None?;
    && (outcome == NotFound <==> !found)
    && (outcome == Forbidden <==> found && (!mayEdit || (!badPath && !taken && !mayAttach)))
    && (outcome == InvalidPath <==> found && mayEdit && badPath)
    && (outcome == PathTaken <==> found && mayEdit && !badPath && taken)
    && (outcome == NoFields <==> found && mayEdit && !badPath && !taken && mayAttach && empty)
    && (outcome == Done <==> found && mayEdit && !badPath && !taken && mayAttach && !empty)
  }

  lemma VerdictAnswers(folders: seq<Folder>, id: nat, u: Update, mayEdit: bool, mayAttach: bool)
    ensures Answers(Verdict(folders, id, u, mayEdit, mayAttach), folders, id, u, mayEdit, mayAttach)
  {
    var k := IndexOf(folders, id);
    if k < |folders| {
      assert folders[k] in folders;
    }
  }

  /** A mount path is absolute and neither one of three reserved directories nor below one. */
  lemma ValidMountPathIs(path: string)
    ensures IsValidMountPath(path) <==>
            && "/" <= path
            && path != "/home/claworc" && !("/home/claworc/" <= path)
            && path != "/home/linuxbrew" && !("/home/linuxbrew/" <= path)
            && path != "/dev/shm" && !("/dev/shm/" <= path)
  {
    var (a, b, c) := (RESERVED[0], RESERVED[1], RESERVED[2]);
    assert a == "/home/claworc" && b == "/home/linuxbrew" && c == "/dev/shm";
    assert a + "/" == "/home/claworc/" && b + "/" == "/home/linuxbrew/" && c + "/" == "/dev/shm/";
    assert a in RESERVED && b in RESERVED && c in RESERVED;
    forall r <- RESERVED ensures r == a || r == b || r == c {
      var k :| 0 <= k < |RESERVED| && RESERVED[k] == r;
    }
  }

  /** Each field carried by the request is replaced, an empty name excepted; all others stay. */
  predicate RowUpdated(f: Folder, g: Folder, u: Update) {
    && g.id == f.id
    && (if u.name.Some? && u.name.value != "" then g.name == u.name.value else g.name == f.name)
    && (if u.path.Some? then g.path == u.path.value else g.path == f.path)
    && (if u.instanceIDs.Some? then g.instanceIDs == u.instanceIDs.value else g.instanceIDs == f.instanceIDs)
    && (if u.teamIDs.Some? then g.teamIDs == u.teamIDs.value else g.teamIDs == f.teamIDs)
  }

  lemma UpdatesRow(f: Folder, u: Update)
    ensures RowUpdated(f, Updated(f, u), u)
  {}

  /** How replacing folder `f` by `g` changes what an instance of that team mounts. */
  predicate MountsChange(f: Folder, g: Folder, id: nat, team: nat) {
    if f.path != g.path then Covers(f, id, team) || Covers(g, id, team)
    else Covers(f, id, team) != Covers(g, id, team)
  }

  lemma MountsDifferIff(folders: seq<Folder>, k: nat, g: Folder, id: nat, team: nat)
    requires DistinctFolders(folders) && k < |folders| && g.id == folders[k].id
    ensures Mounts(folders, id, team) != Mounts(folders[k := g], id, team) <==>
            MountsChange(folders[k], g, id, team)
  {
    var f := folders[k];
    var after := folders[k := g];
    var was, now := Mounts(folders, id, team), Mounts(after, id, team);
    forall path ensures (f.id, path) in was <==> path == f.path && Covers(f, id, team) {
      assert folders[k] in folders;
    }
    forall path ensures (f.id, path) in now <==> path == g.path && Covers(g, id, team) {
      assert after[k] in after;
    }
    assert (f.id, f.path) in was <==> Covers(f, id, team);
    assert (f.id, g.path) in now <==> Covers(g, id, team);
    assert (f.id, f.path) in now <==> f.path == g.path && Covers(g, id, team);
    assert (f.id, g.path) in was <==> f.path == g.path && Covers(f, id, team);
    if !MountsChange(f, g, id, team) {
      forall m ensures m in was <==> m in now {
        OtherMountsStay(folders, k, g, id, team, m);
      }
    }
  }

  lemma OtherMountsStay(folders: seq<Folder>, k: nat, g: Folder, id: nat, team: nat, m: (nat, string))
    requires DistinctFolders(folders) && k < |folders| && g.id == folders[k].id
    ensures m.0 != g.id ==>
              (m in Mounts(folders, id, team) <==> m in Mounts(folders[k := g], id, team))
  {
    var after := folders[k := g];
    if m.0 != g.id && m in Mounts(folders, id, team) {
      var j :| 0 <= j < |folders| && Covers(folders[j], id, team) && m == (folders[j].id, folders[j].path);
      assert after[j] == folders[j] && after[j] in after;
    }
    if m.0 != g.id && m in Mounts(after, id, team) {
      var j :| 0 <= j < |after| && Covers(after[j], id, team) && m == (after[j].id, after[j].path);
      assert folders[j] == after[j] && folders[j] in folders;
    }
  }

  lemma EffectiveIsCoverage(instances: seq<Instance>, v: Instance, f: Folder)
    requires DistinctIDs(instances) && v in instances
    ensures Effective(instances, f.instanceIDs, f.teamIDs, v.id) <==> v.id in f.instanceIDs || v.team in f.teamIDs
    ensures v.team != 0 ==>
              (Effective(instances, f.instanceIDs, f.teamIDs, v.id) <==> Covers(f, v.id, v.team))
    ensures TeamOf(instances, v.id) == v.team
  {
    TeamOfRow(instances, v);
  }

  lemma {:induction false} TeamOfRow(instances: seq<Instance>, v: Instance)
    requires DistinctIDs(instances) && v in instances
    ensures TeamOf(instances, v.id) == v.team
  {
    if instances[0] != v {
      assert v in instances[1..];
      TeamOfRow(instances[1..], v);
    }
  }

  /** Whether an update of `f` restarts a live instance of that team. */
  predicate Restarted(f: Folder, u: Update, id: nat, team: nat) {
    var g := Updated(f, u);
    Targeted(id in f.instanceIDs || team in f.teamIDs, id in g.instanceIDs || team in g.teamIDs,
             f.path != g.path, u.instanceIDs.Some? || u.teamIDs.Some?)
  }

  /** With a team, being restarted and having other mounts are the same. */
  lemma RestartedMeansChanged(folders: seq<Folder>, k: nat, u: Update, v: Instance)
    requires DistinctFolders(folders) && k < |folders|
    ensures v.team != 0 ==>
              (Restarted(folders[k], u, v.id, v.team) <==>
               Mounts(folders, v.id, v.team) != Mounts(folders[k := Updated(folders[k], u)], v.id, v.team))
  {
    hide Mounts;
    MountsDifferIff(folders, k, Updated(folders[k], u), v.id, v.team);
  }

  class Database {
    var folders: seq<Folder>
    var instances: seq<Instance>

    constructor (folders: seq<Folder>, instances: seq<Instance>)
      ensures this.folders == folders && this.instances == instances
    {
      this.folders, this.instances := folders, instances;
    }

    /**
     Every request that is not answered `Done` changes nothing. Otherwise the row is updated
     and, for each live instance that belongs to a team, it is restarted exactly when its
     mounts have changed.
     */
    method UpdateSharedFolder(id: nat, u: Update, mayEdit: bool, mayAttach: bool)
      returns (outcome: Outcome, restarts: seq<Target>)
      requires DistinctFolders(folders) && DistinctIDs(instances)
      modifies this`folders
      ensures outcome == Verdict(old(folders), id, u, mayEdit, mayAttach)
      ensures Answers(outcome, old(folders), id, u, mayEdit, mayAttach)
      ensures !outcome.Done? ==> folders == old(folders) && restarts == []
      ensures outcome.Done? ==>
                var k := IndexOf(old(folders), id); folders == old(folders)[k := Updated(old(folders)[k], u)]
      ensures outcome.Done? ==> |folders| == |old(folders)| && forall k :: 0 <= k < |folders| ==>
                if folders[k].id == id then RowUpdated(old(folders)[k], folders[k], u)
                else folders[k] == old(folders)[k]
      ensures outcome.Done? ==> forall v <- instances ::
                ((exists t <- restarts :: t.instance == v.id) <==>
                 Restarted(old(folders)[IndexOf(old(folders), id)], u, v.id, v.team))
      ensures outcome.Done? ==> forall v <- instances :: v.team != 0 ==>
                ((exists t <- restarts :: t.instance == v.id) <==>
                 Mounts(old(folders), v.id, v.team) != Mounts(folders, v.id, v.team))
      ensures forall j, k :: 0 <= j < k < |restarts| ==> restarts[j].instance != restarts[k].instance
    {
      restarts := [];
      outcome := Verdict(folders, id, u, mayEdit, mayAttach);
      VerdictAnswers(folders, id, u, mayEdit, mayAttach);
      if !outcome.Done? {
        return;
      }
      var k := IndexOf(folders, id);
      assert k < |folders|;
      hide Answers, Verdict, RowUpdated;
      var f := folders[k];
      UpdatesRow(f, u);
      folders := folders[k := Updated(f, u)];
      restarts := RestartTargets(f, u);
      hide Mounts, Restarted, Updated, DistinctFolders, DistinctIDs;
      forall v <- instances ensures v.team != 0 ==>
          (Restarted(f, u, v.id, v.team) <==> Mounts(old(folders), v.id, v.team) != Mounts(folders, v.id, v.team))
      {
        RestartedMeansChanged(old(folders), k, u, v);
      }
    }

    /** The end of UpdateSharedFolder: which live instances an update of `f` restarts. */
    method RestartTargets(f: Folder, u: Update) returns (restarts: seq<Target>)
      requires DistinctIDs(instances)
      ensures forall v <- instances ::
                ((exists t <- restarts :: t.instance == v.id) <==> Restarted(f, u, v.id, v.team))
      ensures forall j, k :: 0 <= j < k < |restarts| ==> restarts[j].instance != restarts[k].instance
    {
      var g := Updated(f, u);
      var pathChanged := u.path.Some? && u.path.value != f.path;
      var membershipChanged := u.instanceIDs.Some? || u.teamIDs.Some?;
      var oldEffective := ExpandFolderEffectiveInstances(instances, f.instanceIDs, f.teamIDs);
      var newEffective := ExpandFolderEffectiveInstances(instances, g.instanceIDs, g.teamIDs);
      var targets := ComputeFolderUpdateRestartTargets(oldEffective, newEffective, pathChanged, membershipChanged);
      restarts := OnlyLive(targets);
      forall v <- instances
        ensures (exists t <- restarts :: t.instance == v.id) <==> Restarted(f, u, v.id, v.team)
      {
        EffectiveIsCoverage(instances, v, f);
        EffectiveIsCoverage(instances, v, g);
        assert (exists t <- restarts :: t.instance == v.id) <==> (exists t <- targets :: t.instance == v.id);
      }
    }

    /** Targets without an instance row are skipped. */
    method OnlyLive(targets: seq<Target>) returns (live: seq<Target>)
      requires forall j, k :: 0 <= j < k < |targets| ==> targets[j].instance != targets[k].instance
      ensures forall t :: t in live <==> t in targets && exists v <- instances :: v.id == t.instance
      ensures forall j, k :: 0 <= j < k < |live| ==> live[j].instance != live[k].instance
    {
      live := [];
      for j := 0 to |targets|
        invariant forall t :: t in live <==> t in targets[..j] && exists v <- instances :: v.id == t.instance
        invariant forall i, k :: 0 <= i < k < |live| ==> live[i].instance != live[k].instance
      {
        assert targets[..j + 1] == targets[..j] + [targets[j]];
        if exists v <- instances :: v.id == targets[j].instance {
          forall i | 0 <= i < |live| ensures live[i].instance != targets[j].instance {
            assert live[i] in targets[..j];
          }
          live := live + [targets[j]];
        }
      }
      assert targets[..|targets|] == targets;
    }
  }

  // ----- Team 0 ----------------------------------------------------------------------------------

  /**
   Over all instances that could be live, those restarted are those whose mounts change if and
   only if team 0 (no team) is in neither team list, or is in both while neither the path nor
   the set of explicit instances changes.
   */
  lemma RestartsAreExactIff(f: Folder, u: Update)
    ensures var g := Updated(f, u);
            (forall id: nat, team: nat :: Restarted(f, u, id, team) <==> MountsChange(f, g, id, team)) <==>
            ((0 !in f.teamIDs && 0 !in g.teamIDs)
             || (0 in f.teamIDs && 0 in g.teamIDs && f.path == g.path
                 && forall id :: id in f.instanceIDs <==> id in g.instanceIDs))
  {
    var g := Updated(f, u);
    if 0 in f.teamIDs || 0 in g.teamIDs {
      var unlisted := Unlisted(f.instanceIDs + g.instanceIDs);
      assert forall x <- f.instanceIDs :: x in f.instanceIDs + g.instanceIDs;
      assert forall x <- g.instanceIDs :: x in f.instanceIDs + g.instanceIDs;
      assert unlisted !in f.instanceIDs && unlisted !in g.instanceIDs;
      if f.path != g.path || !(0 in f.teamIDs && 0 in g.teamIDs) {
        assert Restarted(f, u, unlisted, 0) && !MountsChange(f, g, unlisted, 0);
      } else {
        forall id: nat | (id in f.instanceIDs) != (id in g.instanceIDs)
          ensures !Restarted(f, u, id, 0) && MountsChange(f, g, id, 0) {}
      }
    }
  }

  lemma {:induction false} Unlisted(ids: seq<nat>) returns (id: nat)
    ensures forall other <- ids :: other < id
  {
    if ids == [] {
      id := 0;
    } else {
      var rest := Unlisted(ids[1..]);
      id := if ids[0] < rest then rest else ids[0] + 1;
      assert forall other <- ids :: other == ids[0] || other in ids[1..];
    }
  }
}
