/**
 The per-instance registry of connected desktop viewers. The head of an instance's list
 is its primary viewer; when it leaves, the next-oldest viewer is promoted and its last
 SetDesktopSize is replayed through a bounded inject queue.
 */
module DesktopViewers {
  import opened Common

  /** Capacity of the channel that carries replayed messages upstream. */
  const INJECT_CAPACITY: nat := 4

  /** The queue after a replay of `size`, if a size was recorded and there is a way to inject it. */
  function AfterReplay<T>(queue: seq<T>, recorded: bool, ready: bool, size: T): seq<T> {
    if recorded && ready && |queue| < INJECT_CAPACITY then queue + [size] else queue
  }

  class ViewerSession {
    ghost const instance: nat          // the instance it views
    ghost const joined: nat            // position in the order of all joins
    var primary: bool
    var lastSetDesktopSize: Bytes      // empty until the first SetDesktopSize
    var injectReady: bool              // the relay has installed its inject function
    var injectQueue: seq<Bytes>        // replayed messages not yet written upstream

    constructor (ghost instance: nat, ghost joined: nat)
      ensures this.instance == instance && this.joined == joined
      ensures !primary && !injectReady
      ensures lastSetDesktopSize == [] && injectQueue == []
    {
      this.instance, this.joined := instance, joined;
      primary, injectReady := false, false;
      lastSetDesktopSize, injectQueue := [], [];
    }

    method RecordSetDesktopSize(msg: Bytes)
      modifies this`lastSetDesktopSize
      ensures lastSetDesktopSize == msg
    {
      lastSetDesktopSize := msg;
    }

    /** A full queue silently drops the message, as the non-blocking channel send does. */
    method ReplaySetDesktopSize()
      modifies this`injectQueue
      ensures injectQueue ==
              if old(lastSetDesktopSize != [] && injectReady && |injectQueue| < 4)
              then old(injectQueue) + [old(lastSetDesktopSize)] else old(injectQueue)
      ensures injectQueue ==
              old(AfterReplay(injectQueue, lastSetDesktopSize != [], injectReady, lastSetDesktopSize))
    {
      if |lastSetDesktopSize| == 0 || !injectReady {
        return;
      }
      if |injectQueue| < INJECT_CAPACITY {
        injectQueue := injectQueue + [lastSetDesktopSize];
      }
    }
  }

  /** The list without the first occurrence of `s`. */
  function Without<T(==)>(list: seq<T>, s: T): (rest: seq<T>)
  {
    if list == [] then []
    else if list[0] == s then list[1..]
    else [list[0]] + Without(list[1..], s)
  }

  lemma {:induction false} WithoutAt<T>(list: seq<T>, idx: nat)
    requires idx < |list| && list[idx] !in list[..idx]
    ensures Without(list, list[idx]) == list[..idx] + list[idx + 1..]
  {
    if idx > 0 {
      WithoutAt(list[1..], idx - 1);
      assert list[1..][..idx - 1] == list[1..idx];
      assert list[..idx] == [list[0]] + list[1..idx];
    }
  }

  lemma {:induction false} WithoutAbsent<T>(list: seq<T>, s: T)
    requires s !in list
    ensures Without(list, s) == list
  {
    if list != [] {
      WithoutAbsent(list[1..], s);
    }
  }

  /** The lists after `s` leaves instance `id`; an emptied list loses its entry. */
  function AfterLeave<T(==)>(lists: map<nat, seq<T>>, id: nat, s: T): map<nat, seq<T>> {
    if id !in lists || s !in lists[id] then lists
    else
      var rest := Without(lists[id], s);
      if rest == [] then lists - {id} else lists[id := rest]
  }

  /** The viewer that `s` leaving instance `id` promotes, if any. */
  function Promoted<T(==)>(lists: map<nat, seq<T>>, id: nat, s: T): Option<T> {
    if id in lists && |lists[id]| >= 2 && lists[id][0] == s then Some(lists[id][1]) else None
  }

  function AfterJoin<T>(lists: map<nat, seq<T>>, id: nat, s: T): map<nat, seq<T>> {
    lists[id := (if id in lists then lists[id] else []) + [s]]
  }

  /** Lists are non-empty, hold only their own instance's viewers, and are in join order. */
  ghost predicate WellOrdered(lists: map<nat, seq<ViewerSession>>, joins: nat) {
    && (forall id <- lists :: lists[id] != [])
    && (forall id, k :: id in lists && 0 <= k < |lists[id]|
          ==> lists[id][k].instance == id && lists[id][k].joined < joins)
    && (forall id, j, k :: id in lists && 0 <= j < k < |lists[id]|
          ==> lists[id][j].joined < lists[id][k].joined)
  }

  ghost predicate HeadsArePrimary(lists: map<nat, seq<ViewerSession>>)
    reads MembersOf(lists)
  {
    forall id, k :: id in lists && 0 <= k < |lists[id]| ==> (lists[id][k].primary <==> k == 0)
  }

  ghost function MembersOf(lists: map<nat, seq<ViewerSession>>): set<ViewerSession> {
    set id, k | id in lists && 0 <= k < |lists[id]| :: lists[id][k]
  }

  lemma LeaveCutsOut(lists: map<nat, seq<ViewerSession>>, id: nat, idx: nat)
    requires id in lists && idx < |lists[id]| && lists[id][idx] !in lists[id][..idx]
    ensures var list := lists[id];
            AfterLeave(lists, id, list[idx]) ==
            (if |list| == 1 then lists - {id} else lists[id := list[..idx] + list[idx + 1..]])
  {
    WithoutAt(lists[id], idx);
  }

  lemma LeaveAddsNobody(lists: map<nat, seq<ViewerSession>>, id: nat, idx: nat)
    requires id in lists && idx < |lists[id]| && lists[id][idx] !in lists[id][..idx]
    ensures MembersOf(AfterLeave(lists, id, lists[id][idx])) <= MembersOf(lists)
  {
    LeaveCutsOut(lists, id, idx);
    hide AfterLeave;
  }

  /** Where the viewer now at position `k` of `other` stood before the removal. */
  lemma ShiftedFrom(lists: map<nat, seq<ViewerSession>>, id: nat, idx: nat, other: nat, k: nat) returns (was: nat)
    requires id in lists && idx < |lists[id]| && lists[id][idx] !in lists[id][..idx]
    requires var after := AfterLeave(lists, id, lists[id][idx]); other in after && k < |after[other]|
    ensures other in lists && was < |lists[other]|
    ensures AfterLeave(lists, id, lists[id][idx])[other][k] == lists[other][was]
    ensures was == if other == id && idx <= k then k + 1 else k
  {
    WithoutAt(lists[id], idx);
    was := if other == id && idx <= k then k + 1 else k;
  }

  /** Removing one viewer keeps the order and only shifts the viewers behind it. */
  lemma LeaveKeepsOrder(lists: map<nat, seq<ViewerSession>>, id: nat, idx: nat, joins: nat)
    requires WellOrdered(lists, joins) && id in lists && idx < |lists[id]|
    ensures var list := lists[id];
            var after := AfterLeave(lists, id, list[idx]);
            && WellOrdered(after, joins)
            && MembersOf(after) <= MembersOf(lists)
            && after == (if |list| == 1 then lists - {id} else lists[id := list[..idx] + list[idx + 1..]])
  {
    WithoutAt(lists[id], idx);
    hide AfterLeave, Without, MembersOf;
    LeaveCutsOut(lists, id, idx);
    LeaveAddsNobody(lists, id, idx);
    var after: map<nat, seq<ViewerSession>> := AfterLeave(lists, id, lists[id][idx]);
    forall other: nat, k: nat | other in after && k < |after[other]|
      ensures after[other][k].instance == other && after[other][k].joined < joins
    {
      var was := ShiftedFrom(lists, id, idx, other, k);
    }
    forall other: nat, j: nat, k: nat | other in after && j < k < |after[other]|
      ensures after[other][j].joined < after[other][k].joined
    {
      var wasJ := ShiftedFrom(lists, id, idx, other, j);
      var wasK := ShiftedFrom(lists, id, idx, other, k);
    }
  }

  /** A promoted viewer was listed, and no other instance lists it. */
  lemma PromotedBehindHead(lists: map<nat, seq<ViewerSession>>, id: nat, s: ViewerSession)
    ensures var promoted := Promoted(lists, id, s);
            promoted.Some? ==> promoted.value in MembersOf(lists)
  {
    if Promoted(lists, id, s).Some? {
      assert lists[id][1] in MembersOf(lists);
    }
  }

  /** When only the promoted viewer's flag is set, the heads are again the primaries. */
  lemma HeadsStayPrimary(lists: map<nat, seq<ViewerSession>>, joins: nat, id: nat, idx: nat,
                         primaries: set<ViewerSession>)
    requires WellOrdered(lists, joins)
    requires id in lists && idx < |lists[id]| && lists[id][idx] !in lists[id][..idx]
    requires forall other, k :: other in lists && 0 <= k < |lists[other]| ==> (lists[other][k] in primaries <==> k == 0)
    requires forall v <- MembersOf(lists) ::
               v.primary <==> v in primaries || Promoted(lists, id, lists[id][idx]) == Some(v)
    ensures HeadsArePrimary(AfterLeave(lists, id, lists[id][idx]))
  {
    var after: map<nat, seq<ViewerSession>> := AfterLeave(lists, id, lists[id][idx]);
    forall other: nat, k: nat | other in after && 0 <= k < |after[other]|
      ensures after[other][k].primary <==> k == 0
    {
      var was := ShiftedFrom(lists, id, idx, other, k);
      var v := after[other][k];
      assert v in MembersOf(lists);
      assert Promoted(lists, id, lists[id][idx]) == Some(v) <==> other == id && idx == 0 && k == 0;
    }
  }

  /** A viewer that joins last, is new and is primary exactly when alone, keeps order and heads. */
  lemma JoinKeepsOrder(lists: map<nat, seq<ViewerSession>>, id: nat, s: ViewerSession, joins: nat)
    requires WellOrdered(lists, joins) && HeadsArePrimary(lists)
    requires s.instance == id && s.joined == joins && (s.primary <==> id !in lists)
    ensures WellOrdered(AfterJoin(lists, id, s), joins + 1) && HeadsArePrimary(AfterJoin(lists, id, s))
  {
    var after: map<nat, seq<ViewerSession>> := AfterJoin(lists, id, s);
    forall other: nat, k: nat | other in after && k < |after[other]|
      ensures after[other][k].primary <==> k == 0
    {
      assert other != id || (id in lists && k < |lists[id]|) ==> after[other][k] == lists[other][k];
    }
  }

  class ViewerRegistry {
    var perInst: map<nat, seq<ViewerSession>>
    ghost var joins: nat               // number of Join calls so far

    ghost predicate Valid()
      reads this, MembersOf(perInst)
    {
      WellOrdered(perInst, joins) && HeadsArePrimary(perInst)
    }

    constructor ()
      ensures Valid() && perInst == map[]
    {
      perInst := map[];
      joins := 0;
    }

    method Join(id: nat) returns (s: ViewerSession)
      requires Valid()
      modifies this
      ensures Valid() && fresh(s)
      ensures perInst == AfterJoin(old(perInst), id, s)
      ensures s.primary <==> id !in old(perInst)
      ensures s.lastSetDesktopSize == [] && s.injectQueue == [] && !s.injectReady
      ensures s.joined == old(joins) && s.instance == id
    {
      assert id in perInst ==> perInst[id] != [];
      hide WellOrdered;
      s := new ViewerSession(id, joins);
      joins := joins + 1;
      var list := (if id in perInst then perInst[id] else []) + [s];
      perInst := perInst[id := list];
      if perInst[id][0] == s {
        s.primary := true;
      }
      JoinKeepsOrder(old(perInst), id, s, joins - 1);
    }

    method Leave(id: nat, s: ViewerSession)
      requires Valid()
      modifies this`perInst, MembersOf(perInst)
      ensures Valid()
      ensures perInst == AfterLeave(old(perInst), id, s)
      ensures forall v <- MembersOf(old(perInst)) ::
                if Promoted(old(perInst), id, s) == Some(v)
                then v.primary && !old(v.primary)
                     && v.injectQueue ==
                        (if old(v.lastSetDesktopSize != [] && v.injectReady && |v.injectQueue| < 4)
                         then old(v.injectQueue) + [old(v.lastSetDesktopSize)] else old(v.injectQueue))
                     && unchanged(v`lastSetDesktopSize) && unchanged(v`injectReady)
                else unchanged(v)
    {
      var list := if id in perInst then perInst[id] else [];
      var idx := 0;
      while idx < |list| && list[idx] != s
        invariant idx <= |list|
        invariant s !in list[..idx]
      {
        idx := idx + 1;
      }
      if idx == |list| {
        return;
      }
      LeaveKeepsOrder(perInst, id, idx, joins);
      assert id in perInst && idx < |perInst[id]|;
      ghost var primaries := set v <- MembersOf(perInst) | v.primary;
      hide WellOrdered, Without;
      var wasPrimary := idx == 0;
      list := list[..idx] + list[idx + 1..];
      if |list| == 0 {
        perInst := perInst - {id};
      } else {
        perInst := perInst[id := list];
        if wasPrimary {
          PromotedBehindHead(old(perInst), id, s);
          list[0].primary := true;
          list[0].ReplaySetDesktopSize();
        }
      }
      HeadsStayPrimary(old(perInst), joins, id, idx, primaries);
    }
  }
}
