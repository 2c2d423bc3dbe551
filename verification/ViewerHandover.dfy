/**
 The hand-over between a viewer's filter goroutine, which records a SetDesktopSize and then
 checks the primary flag, and the registry, which publishes the flag and then reads and
 replays the recorded size. Every step below is one atomic action of the program; a run is
 any interleaving of such steps by any number of viewers and Leave calls.

 Sizes are numbered per session: size `n` is the `n`-th SetDesktopSize its filter recorded.
 */
module ViewerHandover {
  import opened Common
  import opened DesktopViewers

  /** Where a session's filter goroutine stands inside its parse loop. */
  datatype FilterPc = Idle | Recorded(size: nat)

  /** What was true of a session at the step that promoted it. */
  datatype Promotion = Promotion(latest: nat, unchecked: bool)

  datatype Session = Session(
    instance: nat,
    primary: bool,
    injectReady: bool,         // set before the filter goroutine starts
    recorded: nat,             // number of the last recorded size, 0 for none
    pc: FilterPc,
    forwarded: set<nat>,       // sizes the filter forwarded
    queued: seq<nat>,          // replayed sizes waiting in the inject channel
    written: seq<nat>,         // replayed sizes written upstream
    promotion: Option<Promotion>,
    replayed: Option<nat>      // the size the replay read, once it has read it
  ) {
    predicate Delivered(size: nat) {
      size in forwarded || size in queued || size in written
    }
  }

  /** A Leave call that promoted `sid` and still has to replay its size. */
  datatype Replay = ToRead(sid: nat) | ToInject(sid: nat, size: nat)

  datatype State = State(
    lists: map<nat, seq<nat>>,     // session numbers per instance, head first
    sessions: map<nat, Session>,
    replays: map<nat, Replay>,     // outstanding replays by ticket
    joins: nat,
    tickets: nat,
    overflows: nat                 // replays dropped by a full inject channel
  )

  const Start := State(map[], map[], map[], 0, 0, 0)

  datatype Step =
    | Join(instance: nat)
    | InstallInject(sid: nat)
    | FilterRecord(sid: nat)
    | FilterCheck(sid: nat)
    | Leave(instance: nat, sid: nat)
    | ReplayRead(ticket: nat)
    | ReplayInject(ticket: nat)
    | WriteInjected(sid: nat)

  predicate Enabled(s: State, step: Step) {
    match step
    case Join(_) => true
    case InstallInject(sid) => sid in s.sessions && !s.sessions[sid].injectReady
    case FilterRecord(sid) => sid in s.sessions && s.sessions[sid].injectReady && s.sessions[sid].pc.Idle?
    case FilterCheck(sid) => sid in s.sessions && s.sessions[sid].pc.Recorded?
    case Leave(_, _) => true
    case ReplayRead(t) => t in s.replays && s.replays[t].ToRead? && s.replays[t].sid in s.sessions
    case ReplayInject(t) => t in s.replays && s.replays[t].ToInject? && s.replays[t].sid in s.sessions
    case WriteInjected(sid) => sid in s.sessions && s.sessions[sid].queued != []
  }

  function Update(s: State, sid: nat, session: Session): State {
    s.(sessions := s.sessions[sid := session])
  }

  function Apply(s: State, step: Step): State
    requires Enabled(s, step)
  {
    match step
    case Join(instance) =>
      var sid := s.joins;
      var lists := AfterJoin(s.lists, instance, sid);
      var session := Session(instance, lists[instance][0] == sid, false, 0, Idle, {}, [], [], None, None);
      s.(lists := lists, sessions := s.sessions[sid := session], joins := s.joins + 1)
    case InstallInject(sid) =>
      Update(s, sid, s.sessions[sid].(injectReady := true))
    case FilterRecord(sid) =>
      var v := s.sessions[sid];
      Update(s, sid, v.(recorded := v.recorded + 1, pc := Recorded(v.recorded + 1)))
    case FilterCheck(sid) =>
      var v := s.sessions[sid];
      Update(s, sid, v.(pc := Idle, forwarded := v.forwarded + if v.primary then {v.pc.size} else {}))
    case Leave(instance, sid) =>
      var after := s.(lists := AfterLeave(s.lists, instance, sid));
      match Promoted(s.lists, instance, sid) {
        case None => after
        case Some(next) =>
          if next !in s.sessions then after
          else
            var v := s.sessions[next];
            var promotion := Promotion(v.recorded, v.pc == Recorded(v.recorded));
            Update(after, next, v.(primary := true, promotion := Some(promotion)))
              .(replays := s.replays[s.tickets := ToRead(next)], tickets := s.tickets + 1)
      }
    case ReplayRead(t) =>
      var sid := s.replays[t].sid;
      var v := s.sessions[sid];
      var read := Update(s, sid, v.(replayed := Some(v.recorded)));
      if v.recorded == 0 || !v.injectReady then read.(replays := s.replays - {t})
      else read.(replays := s.replays[t := ToInject(sid, v.recorded)])
    case ReplayInject(t) =>
      var sid := s.replays[t].sid;
      var v := s.sessions[sid];
      var done := s.(replays := s.replays - {t});
      if |v.queued| < INJECT_CAPACITY then Update(done, sid, v.(queued := v.queued + [s.replays[t].size]))
      else done.(overflows := s.overflows + 1)
    case WriteInjected(sid) =>
      var v := s.sessions[sid];
      Update(s, sid, v.(queued := v.queued[1..], written := v.written + v.queued[..1]))
  }

  predicate Legal(s: State, steps: seq<Step>)
    decreases |steps|
  {
    steps == [] || (Enabled(s, steps[0]) && Legal(Apply(s, steps[0]), steps[1..]))
  }

  function Run(s: State, steps: seq<Step>): State
    requires Legal(s, steps)
    decreases |steps|
  {
    if steps == [] then s else Run(Apply(s, steps[0]), steps[1..])
  }

  // ----- The invariant -------------------------------------------------------------------

  /** An outstanding replay of `sid` has read `size` or will still read what is recorded. */
  ghost predicate WillReplay(replays: map<nat, Replay>, sid: nat, size: nat) {
    exists t :: t in replays && (replays[t] == ToRead(sid) || replays[t] == ToInject(sid, size))
  }

  /** Lists hold known sessions of their own instance, in join order. */
  ghost predicate ListsOrdered(s: State) {
    && (forall i <- s.lists :: s.lists[i] != [])
    && (forall i, k :: i in s.lists && 0 <= k < |s.lists[i]|
          ==> s.lists[i][k] in s.sessions && s.sessions[s.lists[i][k]].instance == i)
    && (forall i, j, k :: i in s.lists && 0 <= j < k < |s.lists[i]| ==> s.lists[i][j] < s.lists[i][k])
    && (forall sid <- s.sessions :: sid < s.joins)
  }

  /** Among the listed viewers of an instance exactly the head is primary. */
  ghost predicate HeadsPrimary(s: State)
    requires ListsOrdered(s)
  {
    forall i, k :: i in s.lists && 0 <= k < |s.lists[i]| ==> (s.sessions[s.lists[i][k]].primary <==> k == 0)
  }

  /** What holds of a session on its own. */
  predicate SessionOk(v: Session) {
    && (!v.injectReady ==> v.recorded == 0)
    && (v.pc.Recorded? ==> v.pc.size == v.recorded > 0)
    && (!v.primary ==> v.forwarded == {} && v.promotion == None)
    && (v.promotion == None ==> v.replayed == None)
    && (v.replayed == None ==> v.queued == v.written == [])
    && |v.queued| + |v.written| <= 1
    && (v.promotion.Some? ==>
          var p := v.promotion.value;
          && p.latest <= v.recorded
          && (v.replayed.Some? ==> p.latest <= v.replayed.value <= v.recorded)
          && (p.unchecked ==> p.latest > 0 && (p.latest in v.forwarded || v.pc == Recorded(p.latest)))
          && (!p.unchecked && p.latest > 0 ==> p.latest !in v.forwarded && v.pc != Recorded(p.latest)))
  }

  /** An outstanding replay fits the state of the promoted session it belongs to. */
  predicate ReplayFits(r: Replay, v: Session) {
    && v.promotion.Some?
    && v.queued == v.written == []
    && v.replayed == (if r.ToRead? then None else Some(r.size))
    && (r.ToInject? ==> 0 < r.size)
  }

  /** A primary's latest size is delivered or on its way; so is the size its replay read. */
  ghost predicate NothingLost(v: Session, replays: map<nat, Replay>, sid: nat) {
    && (v.primary && v.recorded > 0 ==>
          v.Delivered(v.recorded) || v.pc == Recorded(v.recorded) || WillReplay(replays, sid, v.recorded))
    && (v.promotion.Some? && v.replayed == None ==> WillReplay(replays, sid, 0))
    && (v.replayed.Some? && v.replayed.value > 0 ==>
          v.queued + v.written == [v.replayed.value] || WillReplay(replays, sid, v.replayed.value))
  }

  /** Tickets are fresh and no session has two outstanding replays. */
  ghost predicate TicketsOk(s: State) {
    && (forall t <- s.replays :: t < s.tickets && s.replays[t].sid in s.sessions)
    && (forall t, u :: t in s.replays && u in s.replays && s.replays[t].sid == s.replays[u].sid ==> t == u)
    && s.overflows == 0
  }

  ghost predicate SessionsOk(s: State)
    requires TicketsOk(s)
  {
    && (forall sid <- s.sessions :: SessionOk(s.sessions[sid]) && NothingLost(s.sessions[sid], s.replays, sid))
    && (forall t <- s.replays :: ReplayFits(s.replays[t], s.sessions[s.replays[t].sid]))
  }

  ghost predicate Invariant(s: State) {
    ListsOrdered(s) && HeadsPrimary(s) && TicketsOk(s) && SessionsOk(s)
  }

  /** Replays of a session that the step leaves alone still count. */
  lemma ReplaysCarryOver(before: map<nat, Replay>, after: map<nat, Replay>, sid: nat)
    requires forall t <- before :: before[t].sid == sid ==> t in after && after[t] == before[t]
    ensures forall size :: WillReplay(before, sid, size) ==> WillReplay(after, sid, size)
  {
    forall size | WillReplay(before, sid, size) ensures WillReplay(after, sid, size) {
      var t :| t in before && (before[t] == ToRead(sid) || before[t] == ToInject(sid, size));
      assert after[t] == before[t];
    }
  }

  /** Changing one session's own fields keeps the lists and heads as they are. */
  lemma ListsUntouched(s: State, after: State)
    requires ListsOrdered(s) && HeadsPrimary(s)
    requires after.lists == s.lists && after.joins == s.joins && after.sessions.Keys == s.sessions.Keys
    requires forall sid <- s.sessions :: after.sessions[sid].instance == s.sessions[sid].instance
               && after.sessions[sid].primary == s.sessions[sid].primary
    ensures ListsOrdered(after) && HeadsPrimary(after)
  {}

  /** A step that changes one session and that session's replays only. */
  lemma OneSessionChanged(s: State, after: State, sid: nat, v: Session)
    requires Invariant(s) && sid in s.sessions
    requires ListsOrdered(after) && HeadsPrimary(after) && TicketsOk(after)
    requires after.sessions == s.sessions[sid := v]
    requires forall t <- s.replays :: s.replays[t].sid != sid ==> t in after.replays && after.replays[t] == s.replays[t]
    requires forall t <- after.replays ::
               after.replays[t].sid != sid ==> t in s.replays && after.replays[t] == s.replays[t]
    requires SessionOk(v) && NothingLost(v, after.replays, sid)
    requires forall t <- after.replays :: after.replays[t].sid == sid ==> ReplayFits(after.replays[t], v)
    ensures Invariant(after)
  {
    hide WillReplay, SessionOk, ReplayFits, ListsOrdered, HeadsPrimary;
    forall other <- s.sessions | other != sid
      ensures NothingLost(after.sessions[other], after.replays, other)
    {
      ReplaysCarryOver(s.replays, after.replays, other);
    }
  }

  /** A step that only changes session `sid`, keeping its place and its replay fields. */
  lemma LocalStep(s: State, sid: nat, v: Session)
    requires Invariant(s) && sid in s.sessions
    requires var was := s.sessions[sid];
             && v.instance == was.instance && v.primary == was.primary
             && v.promotion == was.promotion && v.replayed == was.replayed
             && v.queued + v.written == was.queued + was.written
             && SessionOk(v)
             && (v.primary && v.recorded > 0 ==>
                   v.pc == Recorded(v.recorded) || v.recorded in v.forwarded
                   || (v.recorded == was.recorded && v.forwarded == was.forwarded && v.pc == was.pc))
    ensures Invariant(Update(s, sid, v))
  {
    hide WillReplay, SessionOk, ListsOrdered, HeadsPrimary, ReplayFits;
    var was := s.sessions[sid];
    ListsUntouched(s, Update(s, sid, v));
    assert NothingLost(was, s.replays, sid);
    SameDelivered(was, v);
    forall t | t in s.replays && s.replays[t].sid == sid ensures ReplayFits(s.replays[t], v) {
      FitsStill(s.replays[t], was, v);
    }
    OneSessionChanged(s, Update(s, sid, v), sid, v);
  }

  lemma FitsStill(r: Replay, was: Session, v: Session)
    requires ReplayFits(r, was) && v.promotion == was.promotion && v.replayed == was.replayed
    requires v.queued + v.written == was.queued + was.written
    ensures ReplayFits(r, v)
  {
    assert |v.queued + v.written| == |v.queued| + |v.written| == 0;
  }

  /** Moving a replay from the queue to the wire delivers the same sizes. */
  lemma SameDelivered(was: Session, v: Session)
    requires v.queued + v.written == was.queued + was.written
    ensures was.queued == was.written == [] ==> v.queued == v.written == []
    ensures forall n :: (n in was.queued || n in was.written) ==> (n in v.queued || n in v.written)
  {
    assert |v.queued + v.written| == |v.queued| + |v.written|;
    forall n | n in was.queued || n in was.written ensures n in v.queued || n in v.written {
      assert n in was.queued + was.written;
    }
  }

  lemma JoinKeepsLists(s: State, instance: nat)
    requires ListsOrdered(s) && HeadsPrimary(s)
    ensures s.joins !in s.sessions
    ensures var after := Apply(s, Join(instance)); ListsOrdered(after) && HeadsPrimary(after)
  {}

  lemma JoinStep(s: State, instance: nat)
    requires Invariant(s)
    ensures Invariant(Apply(s, Join(instance)))
  {
    hide WillReplay, ListsOrdered, HeadsPrimary, ReplayFits;
    var after := Apply(s, Join(instance));
    JoinKeepsLists(s, instance);
    var v := after.sessions[s.joins];
    assert SessionOk(v) && NothingLost(v, s.replays, s.joins);
  }

  /** Where a listed viewer stands in its list. */
  lemma PositionOf(s: State, instance: nat, sid: nat) returns (idx: nat)
    requires ListsOrdered(s) && instance in s.lists && sid in s.lists[instance]
    ensures idx < |s.lists[instance]| && s.lists[instance][idx] == sid
    ensures var list := s.lists[instance];
            AfterLeave(s.lists, instance, sid) ==
            if |list| == 1 then s.lists - {instance} else s.lists[instance := list[..idx] + list[idx + 1..]]
  {
    var list := s.lists[instance];
    idx :| idx < |list| && list[idx] == sid;
    WithoutAt(list, idx);
  }

  /** Lists stay ordered when the viewer at `idx` is cut out; those behind it move up. */
  lemma CutOut(s: State, instance: nat, idx: nat, after: map<nat, seq<nat>>)
    requires ListsOrdered(s) && instance in s.lists && idx < |s.lists[instance]|
    requires var list := s.lists[instance];
             after == if |list| == 1 then s.lists - {instance} else s.lists[instance := list[..idx] + list[idx + 1..]]
    ensures ListsOrdered(s.(lists := after))
    ensures forall i, k :: i in after && 0 <= k < |after[i]| ==>
              && i in s.lists
              && var was := if i == instance && idx <= k then k + 1 else k;
                 was < |s.lists[i]| && after[i][k] == s.lists[i][was]
  {}

  lemma LeaveWithoutPromotion(s: State, instance: nat, sid: nat)
    requires Invariant(s) && Promoted(s.lists, instance, sid) == None
    ensures Invariant(s.(lists := AfterLeave(s.lists, instance, sid)))
  {
    hide WillReplay, SessionOk, NothingLost, ReplayFits;
    if instance in s.lists && sid in s.lists[instance] {
      var idx := PositionOf(s, instance, sid);
      CutOut(s, instance, idx, AfterLeave(s.lists, instance, sid));
    }
  }

  /** The promoted viewer, once flagged primary, is the new head of its list. */
  lemma PromotionMovesTheHead(s: State, instance: nat, sid: nat, next: nat, v: Session, after: State)
    requires ListsOrdered(s) && HeadsPrimary(s) && Promoted(s.lists, instance, sid) == Some(next)
    requires next in s.sessions && v.primary && v.instance == s.sessions[next].instance
    requires after.lists == AfterLeave(s.lists, instance, sid)
    requires after.sessions == s.sessions[next := v] && after.joins == s.joins
    ensures ListsOrdered(after) && HeadsPrimary(after)
  {
    hide AfterLeave;
    var idx := PositionOf(s, instance, sid);
    var lists := after.lists;
    CutOut(s, instance, idx, lists);
    assert ListsOrdered(s.(lists := lists));
    forall i, k | i in lists && 0 <= k < |lists[i]|
      ensures after.sessions[lists[i][k]].primary <==> k == 0
    {
      HeadAfterCut(s, instance, i, k, lists, next);
    }
  }

  /** After the old head is cut out, the first of the list is the one promoted. */
  lemma HeadAfterCut(s: State, instance: nat, i: nat, k: nat, lists: map<nat, seq<nat>>, next: nat)
    requires ListsOrdered(s) && HeadsPrimary(s) && instance in s.lists && |s.lists[instance]| > 1
    requires i in lists && k < |lists[i]| && i in s.lists
    requires var was := if i == instance then k + 1 else k;
             was < |s.lists[i]| && lists[i][k] == s.lists[i][was]
    requires next == s.lists[instance][1]
    ensures lists[i][k] == next <==> i == instance && k == 0
    ensures lists[i][k] in s.sessions && (s.sessions[lists[i][k]].primary <==> k == 0 && i != instance)
  {
    var was := if i == instance then k + 1 else k;
    assert s.sessions[s.lists[i][was]].instance == i && s.sessions[next].instance == instance;
  }

  lemma PromotedIsListed(s: State, instance: nat, sid: nat, next: nat)
    requires ListsOrdered(s) && HeadsPrimary(s) && Promoted(s.lists, instance, sid) == Some(next)
    ensures next in s.sessions && !s.sessions[next].primary
  {
    assert next == s.lists[instance][1];
  }

  lemma LeaveWithPromotion(s: State, instance: nat, sid: nat, next: nat)
    requires Invariant(s) && Promoted(s.lists, instance, sid) == Some(next)
    ensures Invariant(Apply(s, Leave(instance, sid)))
  {
    hide AfterLeave, WillReplay, ListsOrdered, HeadsPrimary;
    var after := Apply(s, Leave(instance, sid));
    PromotedIsListed(s, instance, sid, next);
    PromotionMovesTheHead(s, instance, sid, next, after.sessions[next], after);
    assert SessionOk(s.sessions[next]);
    assert after.replays[s.tickets] == ToRead(next);
    forall t <- s.replays ensures s.replays[t].sid != next && after.replays[t] == s.replays[t] {
      assert ReplayFits(s.replays[t], s.sessions[s.replays[t].sid]);
    }
    NewReplayCounts(s.replays, s.tickets, next, 0);
    NewReplayCounts(s.replays, s.tickets, next, s.sessions[next].recorded);
    OneSessionChanged(s, after, next, after.sessions[next]);
  }

  lemma NewReplayCounts(replays: map<nat, Replay>, ticket: nat, sid: nat, size: nat)
    ensures WillReplay(replays[ticket := ToRead(sid)], sid, size)
  {
    assert replays[ticket := ToRead(sid)][ticket] == ToRead(sid);
  }

  lemma ReadReplayCounts(replays: map<nat, Replay>, ticket: nat, sid: nat, size: nat)
    ensures WillReplay(replays[ticket := ToInject(sid, size)], sid, size)
  {
    assert replays[ticket := ToInject(sid, size)][ticket] == ToInject(sid, size);
  }

  lemma ReplayReadStep(s: State, t: nat)
    requires Invariant(s) && Enabled(s, ReplayRead(t))
    ensures Invariant(Apply(s, ReplayRead(t)))
  {
    hide WillReplay, ListsOrdered, HeadsPrimary, SessionOk, NothingLost;
    var after := Apply(s, ReplayRead(t));
    var sid := s.replays[t].sid;
    var v := s.sessions[sid];
    assert ReplayFits(s.replays[t], v);
    assert SessionOk(v) && NothingLost(v, s.replays, sid);
    ReadOutcome(v, s.replays, t, sid);
    ListsUntouched(s, after);
    OneSessionChanged(s, after, sid, v.(replayed := Some(v.recorded)));
  }

  /** What the promoted session keeps when its replay reads the recorded size. */
  lemma ReadOutcome(v: Session, replays: map<nat, Replay>, t: nat, sid: nat)
    requires SessionOk(v) && ReplayFits(ToRead(sid), v)
    ensures SessionOk(v.(replayed := Some(v.recorded)))
    ensures var read := v.(replayed := Some(v.recorded));
            if v.recorded == 0 || !v.injectReady then NothingLost(read, replays - {t}, sid)
            else NothingLost(read, replays[t := ToInject(sid, v.recorded)], sid)
                 && ReplayFits(ToInject(sid, v.recorded), read)
  {
    ReadReplayCounts(replays, t, sid, v.recorded);
  }

  lemma ReplayInjectStep(s: State, t: nat)
    requires Invariant(s) && Enabled(s, ReplayInject(t))
    ensures Invariant(Apply(s, ReplayInject(t)))
  {
    hide WillReplay, ListsOrdered, HeadsPrimary, SessionOk, NothingLost;
    var after := Apply(s, ReplayInject(t));
    var sid := s.replays[t].sid;
    var v := s.sessions[sid];
    assert ReplayFits(s.replays[t], v);
    assert SessionOk(v) && NothingLost(v, s.replays, sid);
    InjectedIsKept(s, t);
    InjectOutcome(v, s.replays, t, sid);
    ListsUntouched(s, after);
    OneSessionChanged(s, after, sid, v.(queued := [s.replays[t].size]));
  }

  lemma InjectOutcome(v: Session, replays: map<nat, Replay>, t: nat, sid: nat)
    requires t in replays && replays[t].ToInject? && SessionOk(v) && ReplayFits(replays[t], v)
    requires NothingLost(v, replays, sid)
    requires forall size :: WillReplay(replays, sid, size) ==> size == replays[t].size
    ensures v.(queued := v.queued + [replays[t].size]) == v.(queued := [replays[t].size])
    ensures SessionOk(v.(queued := [replays[t].size]))
    ensures NothingLost(v.(queued := [replays[t].size]), replays - {t}, sid)
  {
    hide WillReplay;
    assert v.queued + [replays[t].size] == [replays[t].size];
    assert [replays[t].size] + v.written == [replays[t].size];
  }

  /** The replay's size was the only one its session had outstanding. */
  lemma InjectedIsKept(s: State, t: nat)
    requires Invariant(s) && Enabled(s, ReplayInject(t))
    ensures forall size :: WillReplay(s.replays, s.replays[t].sid, size) ==> size == s.replays[t].size
  {}

  lemma InvariantStep(s: State, step: Step)
    requires Invariant(s) && Enabled(s, step)
    ensures Invariant(Apply(s, step))
  {
    hide Invariant;
    match step
    case Join(instance) => JoinStep(s, instance);
    case InstallInject(sid) => InstallStep(s, sid);
    case FilterRecord(sid) => RecordStep(s, sid);
    case FilterCheck(sid) => CheckStep(s, sid);
    case WriteInjected(sid) => WriteStep(s, sid);
    case Leave(instance, sid) => LeaveStep(s, instance, sid);
    case ReplayRead(t) => ReplayReadStep(s, t);
    case ReplayInject(t) => ReplayInjectStep(s, t);
  }

  lemma InstallStep(s: State, sid: nat)
    requires Invariant(s) && Enabled(s, InstallInject(sid))
    ensures Invariant(Apply(s, InstallInject(sid)))
  {
    hide ListsOrdered, HeadsPrimary, TicketsOk, NothingLost, ReplayFits;
    LocalStep(s, sid, s.sessions[sid].(injectReady := true));
  }

  lemma RecordStep(s: State, sid: nat)
    requires Invariant(s) && Enabled(s, FilterRecord(sid))
    ensures Invariant(Apply(s, FilterRecord(sid)))
  {
    hide ListsOrdered, HeadsPrimary, TicketsOk, NothingLost, ReplayFits;
    var v := s.sessions[sid];
    assert SessionOk(v);
    LocalStep(s, sid, v.(recorded := v.recorded + 1, pc := Recorded(v.recorded + 1)));
  }

  lemma CheckStep(s: State, sid: nat)
    requires Invariant(s) && Enabled(s, FilterCheck(sid))
    ensures Invariant(Apply(s, FilterCheck(sid)))
  {
    hide ListsOrdered, HeadsPrimary, TicketsOk, NothingLost, ReplayFits;
    assert SessionOk(s.sessions[sid]);
    LocalStep(s, sid, Apply(s, FilterCheck(sid)).sessions[sid]);
  }

  lemma WriteStep(s: State, sid: nat)
    requires Invariant(s) && Enabled(s, WriteInjected(sid))
    ensures Invariant(Apply(s, WriteInjected(sid)))
  {
    hide ListsOrdered, HeadsPrimary, TicketsOk, NothingLost, ReplayFits;
    assert SessionOk(s.sessions[sid]);
    LocalStep(s, sid, Apply(s, WriteInjected(sid)).sessions[sid]);
  }

  lemma LeaveStep(s: State, instance: nat, sid: nat)
    requires Invariant(s)
    ensures Invariant(Apply(s, Leave(instance, sid)))
  {
    match Promoted(s.lists, instance, sid)
    case None => LeaveWithoutPromotion(s, instance, sid);
    case Some(next) => LeaveWithPromotion(s, instance, sid, next);
  }

  lemma {:induction false} InvariantHolds(s: State, steps: seq<Step>)
    requires Invariant(s) && Legal(s, steps)
    ensures Invariant(Run(s, steps))
    decreases |steps|
  {
    hide Invariant, Apply, Enabled;
    if steps != [] {
      InvariantStep(s, steps[0]);
      InvariantHolds(Apply(s, steps[0]), steps[1..]);
    }
  }

  // ----- The theorems, for every run -----------------------------------------------------

  /** Every viewer list is non-empty and in join order, and exactly its head is primary. */
  lemma HeadIsThePrimary(steps: seq<Step>, instance: nat)
    requires Legal(Start, steps) && instance in Run(Start, steps).lists
    ensures var s := Run(Start, steps);
            var list := s.lists[instance];
            && list != []
            && (forall j, k :: 0 <= j < k < |list| ==> list[j] < list[k])
            && (forall k :: 0 <= k < |list| ==>
                  list[k] in s.sessions && (s.sessions[list[k]].primary <==> k == 0))
  {
    InvariantHolds(Start, steps);
  }

  /** A session is replayed to at most once, so the inject channel never drops a replay. */
  lemma NoReplayIsDropped(steps: seq<Step>)
    requires Legal(Start, steps)
    ensures var s := Run(Start, steps);
            && s.overflows == 0
            && (forall sid <- s.sessions :: |s.sessions[sid].queued| + |s.sessions[sid].written| <= 1)
            && (forall t, u :: t in s.replays && u in s.replays && s.replays[t].sid == s.replays[u].sid ==> t == u)
  {
    InvariantHolds(Start, steps);
  }

  /** The session's filter is between messages and no replay to it is outstanding. */
  ghost predicate Quiet(s: State, sid: nat)
    requires sid in s.sessions
  {
    s.sessions[sid].pc.Idle? && forall t <- s.replays :: s.replays[t].sid != sid
  }

  /** Once things are quiet, a primary's latest size has been forwarded or replayed. */
  lemma LatestSizeIsNeverLost(steps: seq<Step>, sid: nat)
    requires Legal(Start, steps) && sid in Run(Start, steps).sessions
    requires var s := Run(Start, steps);
             Quiet(s, sid) && s.sessions[sid].primary && s.sessions[sid].recorded > 0
    ensures var v := Run(Start, steps).sessions[sid]; v.Delivered(v.recorded)
  {
    InvariantHolds(Start, steps);
    var s := Run(Start, steps);
    assert NothingLost(s.sessions[sid], s.replays, sid);
  }

  /** The steps that finish an outstanding replay, once nothing comes in between. */
  function ReplaySteps(s: State, t: nat): seq<Step>
    requires Enabled(s, ReplayRead(t))
  {
    if t in Apply(s, ReplayRead(t)).replays then [ReplayRead(t), ReplayInject(t)] else [ReplayRead(t)]
  }

  /** Taken together they do to the queue what a session's replay method does. */
  lemma ReplayStepsReplay(s: State, t: nat)
    requires Enabled(s, ReplayRead(t))
    ensures Legal(s, ReplaySteps(s, t))
    ensures var (sid, end) := (s.replays[t].sid, Run(s, ReplaySteps(s, t)));
            && sid in end.sessions && t !in end.replays
            && var v := s.sessions[sid];
               end.sessions[sid].queued == AfterReplay(v.queued, v.recorded > 0, v.injectReady, v.recorded)
  {
    var read := Apply(s, ReplayRead(t));
    if t in read.replays {
      assert [ReplayRead(t)] + [ReplayInject(t)] == [ReplayRead(t), ReplayInject(t)];
      assert [ReplayInject(t)] + [] == [ReplayInject(t)];
      Prepend(read, ReplayInject(t), []);
      Prepend(s, ReplayRead(t), [ReplayInject(t)]);
    } else {
      assert [ReplayRead(t)] + [] == [ReplayRead(t)];
      Prepend(s, ReplayRead(t), []);
    }
  }

  // ----- The schedule of a promotion ------------------------------------------------------

  lemma {:induction false} PrefixRuns(s: State, steps: seq<Step>, k: nat)
    requires Legal(s, steps) && k <= |steps|
    ensures Legal(s, steps[..k])
    ensures k < |steps| ==>
              && Enabled(Run(s, steps[..k]), steps[k]) && Legal(s, steps[..k + 1])
              && Run(s, steps[..k + 1]) == Apply(Run(s, steps[..k]), steps[k])
    decreases |steps|
  {
    hide Apply, Enabled;
    if k == 0 {
      if steps != [] {
        assert steps[..1] == [steps[0]] && steps[..1][1..] == [];
      }
    } else {
      PrefixRuns(Apply(s, steps[0]), steps[1..], k - 1);
      assert steps[..k][1..] == steps[1..][..k - 1];
      if k < |steps| {
        assert steps[..k + 1][1..] == steps[1..][..k];
      }
    }
  }

  /** The state after the first `k` steps of a run. */
  ghost function At(steps: seq<Step>, k: nat): State
    requires Legal(Start, steps) && k <= |steps|
  {
    PrefixRuns(Start, steps, k);
    Run(Start, steps[..k])
  }

  lemma AtStep(steps: seq<Step>, k: nat)
    requires Legal(Start, steps) && k <= |steps|
    ensures Invariant(At(steps, k))
    ensures k < |steps| ==> Enabled(At(steps, k), steps[k]) && At(steps, k + 1) == Apply(At(steps, k), steps[k])
    ensures k == |steps| ==> At(steps, k) == Run(Start, steps)
  {
    hide Invariant, Apply, Enabled;
    StartIsOk();
    PrefixRuns(Start, steps, k);
    InvariantHolds(Start, steps[..k]);
    assert steps[..|steps|] == steps;
  }

  predicate PromotesNow(s: State, step: Step, sid: nat) {
    step.Leave? && Promoted(s.lists, step.instance, step.sid) == Some(sid)
  }

  predicate ReadsNow(s: State, step: Step, sid: nat) {
    step.ReplayRead? && step.ticket in s.replays && s.replays[step.ticket].sid == sid
  }

  /** Step number `k` is the Leave that promotes the session. */
  ghost predicate Promotes(steps: seq<Step>, k: nat, sid: nat)
    requires Legal(Start, steps)
  {
    k < |steps| && sid in At(steps, k).sessions && PromotesNow(At(steps, k), steps[k], sid)
  }

  /** Step number `k` is the replay's reading of the session's size. */
  ghost predicate Reads(steps: seq<Step>, k: nat, sid: nat)
    requires Legal(Start, steps)
  {
    k < |steps| && sid in At(steps, k).sessions && ReadsNow(At(steps, k), steps[k], sid)
  }

  /** What one step does to the record, the promotion and the replay of a session. */
  ghost predicate Recounts(s: State, step: Step, sid: nat, v: Session, w: Session) {
    && w.recorded == v.recorded + (if step == FilterRecord(sid) then 1 else 0)
    && (if PromotesNow(s, step, sid)
        then v.promotion == None && w.promotion == Some(Promotion(v.recorded, v.pc.Recorded?))
        else w.promotion == v.promotion)
    && (if ReadsNow(s, step, sid)
        then v.promotion.Some? && w.replayed == Some(v.recorded)
        else w.replayed == v.replayed)
  }

  lemma LeaveHistory(s: State, step: Step, sid: nat)
    requires Invariant(s) && step.Leave? && sid in s.sessions
    ensures sid in Apply(s, step).sessions && Recounts(s, step, sid, s.sessions[sid], Apply(s, step).sessions[sid])
  {
    hide WillReplay, NothingLost, ReplayFits;
    assert SessionOk(s.sessions[sid]);
    if PromotesNow(s, step, sid) {
      PromotedIsListed(s, step.instance, step.sid, sid);
    }
    hide ListsOrdered, HeadsPrimary;
  }

  lemma ReadHistory(s: State, step: Step, sid: nat)
    requires Invariant(s) && Enabled(s, step) && step.ReplayRead? && sid in s.sessions
    ensures sid in Apply(s, step).sessions && Recounts(s, step, sid, s.sessions[sid], Apply(s, step).sessions[sid])
  {
    hide WillReplay, NothingLost, SessionOk, ListsOrdered, HeadsPrimary;
    assert ReplayFits(s.replays[step.ticket], s.sessions[s.replays[step.ticket].sid]);
  }

  lemma OtherHistory(s: State, step: Step, sid: nat)
    requires Enabled(s, step) && !step.Leave? && !step.ReplayRead? && sid in s.sessions
    requires forall other <- s.sessions :: other < s.joins
    ensures sid in Apply(s, step).sessions && Recounts(s, step, sid, s.sessions[sid], Apply(s, step).sessions[sid])
  {}

  lemma NewSessionHistory(s: State, step: Step, sid: nat)
    requires Enabled(s, step) && sid !in s.sessions && sid in Apply(s, step).sessions
    ensures Apply(s, step).sessions[sid].promotion == None && Apply(s, step).sessions[sid].replayed == None
  {}

  lemma HistoryStep(s: State, step: Step, sid: nat)
    requires Invariant(s) && Enabled(s, step)
    ensures sid in s.sessions ==>
              sid in Apply(s, step).sessions && Recounts(s, step, sid, s.sessions[sid], Apply(s, step).sessions[sid])
    ensures sid !in s.sessions && sid in Apply(s, step).sessions ==>
              Apply(s, step).sessions[sid].promotion == None && Apply(s, step).sessions[sid].replayed == None
  {
    hide Apply, Enabled, Recounts, HeadsPrimary, SessionsOk;
    if sid !in s.sessions {
      if sid in Apply(s, step).sessions {
        NewSessionHistory(s, step, sid);
      }
    } else if step.Leave? {
      LeaveHistory(s, step, sid);
    } else if step.ReplayRead? {
      ReadHistory(s, step, sid);
    } else {
      OtherHistory(s, step, sid);
    }
  }

  /** The steps at which a session was promoted and its size was read, if that has happened. */
  lemma {:induction false} FindSchedule(steps: seq<Step>, n: nat, sid: nat) returns (a: nat, b: nat)
    requires Legal(Start, steps) && n <= |steps| && sid in At(steps, n).sessions
    ensures At(steps, n).sessions[sid].promotion.Some? ==>
              && a < n && Promotes(steps, a, sid)
              && var v := At(steps, a).sessions[sid];
                 At(steps, n).sessions[sid].promotion.value == Promotion(v.recorded, v.pc.Recorded?)
    ensures At(steps, n).sessions[sid].replayed.Some? ==>
              && a < b < n && Reads(steps, b, sid)
              && At(steps, n).sessions[sid].replayed.value == At(steps, b).sessions[sid].recorded
  {
    hide Apply, Enabled, Invariant, PromotesNow, ReadsNow;
    a, b := 0, 0;
    if n > 0 {
      var s := At(steps, n - 1);
      AtStep(steps, n - 1);
      AtStep(steps, n);
      HistoryStep(s, steps[n - 1], sid);
      if sid in s.sessions {
        ReplayedIsPromoted(s, sid);
        a, b := FindSchedule(steps, n - 1, sid);
        if PromotesNow(s, steps[n - 1], sid) {
          a := n - 1;
        }
        if ReadsNow(s, steps[n - 1], sid) {
          b := n - 1;
        }
      }
    }
  }

  lemma ReplayedIsPromoted(s: State, sid: nat)
    requires Invariant(s) && sid in s.sessions
    ensures s.sessions[sid].replayed.Some? ==> s.sessions[sid].promotion.Some?
  {
    hide WillReplay, NothingLost, ReplayFits, ListsOrdered, HeadsPrimary;
    assert SessionOk(s.sessions[sid]);
  }

  /** Between two points of a run the last recorded size is the same iff nothing was recorded. */
  lemma {:induction false} RecordedBetween(steps: seq<Step>, a: nat, b: nat, sid: nat)
    requires Legal(Start, steps) && a <= b <= |steps| && sid in At(steps, a).sessions
    ensures sid in At(steps, b).sessions
    ensures At(steps, a).sessions[sid].recorded <= At(steps, b).sessions[sid].recorded
    ensures At(steps, a).sessions[sid].recorded == At(steps, b).sessions[sid].recorded <==>
            forall j :: a <= j < b ==> steps[j] != FilterRecord(sid)
    ensures At(steps, a).sessions[sid].promotion.Some? ==>
              At(steps, b).sessions[sid].promotion == At(steps, a).sessions[sid].promotion
    decreases b
  {
    hide Apply, Enabled, Invariant, PromotesNow, ReadsNow;
    if a < b {
      RecordedBetween(steps, a, b - 1, sid);
      AtStep(steps, b - 1);
      HistoryStep(At(steps, b - 1), steps[b - 1], sid);
    }
  }

  /** Each session is promoted at most once. */
  lemma PromotedOnce(steps: seq<Step>, a: nat, c: nat, sid: nat)
    requires Legal(Start, steps) && Promotes(steps, a, sid) && Promotes(steps, c, sid)
    ensures a == c
  {
    if a < c {
      NotPromotedAgain(steps, a, c, sid);
    } else if c < a {
      NotPromotedAgain(steps, c, a, sid);
    }
  }

  lemma NotPromotedAgain(steps: seq<Step>, a: nat, c: nat, sid: nat)
    requires Legal(Start, steps) && Promotes(steps, a, sid) && a < c < |steps|
    ensures !Promotes(steps, c, sid)
  {
    hide Apply, Enabled, Invariant, PromotesNow;
    AtStep(steps, a);
    HistoryStep(At(steps, a), steps[a], sid);
    RecordedBetween(steps, a + 1, c, sid);
    AtStep(steps, c);
    HistoryStep(At(steps, c), steps[c], sid);
  }

  /**
   The size that was the latest at the Leave that promoted its session is, once things are
   quiet, delivered if and only if its own check was still ahead at that Leave or the filter
   recorded nothing between that Leave and the step `b` at which the replay read the size.
   Otherwise the newer size that the replay read has been delivered.
   */
  lemma FateOfTheSizeAtPromotion(steps: seq<Step>, sid: nat, a: nat) returns (b: nat)
    requires Legal(Start, steps) && Promotes(steps, a, sid) && At(steps, a).sessions[sid].recorded > 0
    requires sid in Run(Start, steps).sessions ==> Quiet(Run(Start, steps), sid)
    ensures a < b < |steps| && Reads(steps, b, sid) && sid in Run(Start, steps).sessions
    ensures var (v, w) := (At(steps, a).sessions[sid], At(steps, b).sessions[sid]);
            var end := Run(Start, steps).sessions[sid];
            && (end.Delivered(v.recorded) <==>
                v.pc.Recorded? || forall j :: a < j < b ==> steps[j] != FilterRecord(sid))
            && (!end.Delivered(v.recorded) ==> v.recorded < w.recorded && end.Delivered(w.recorded))
  {
    hide Apply, Enabled, Invariant, PromotesNow, ReadsNow;
    AtStep(steps, a);
    HistoryStep(At(steps, a), steps[a], sid);
    RecordedBetween(steps, a, |steps|, sid);
    RecordedBetween(steps, a + 1, |steps|, sid);
    AtStep(steps, |steps|);
    QuietOutcome(Run(Start, steps), sid);
    var a';
    a', b := FindSchedule(steps, |steps|, sid);
    PromotedOnce(steps, a, a', sid);
    RecordedBetween(steps, a, b, sid);
    LeaveIsNoRecord(steps, a, sid);
  }

  lemma LeaveIsNoRecord(steps: seq<Step>, a: nat, sid: nat)
    requires Legal(Start, steps) && Promotes(steps, a, sid)
    ensures steps[a] != FilterRecord(sid)
  {}

  /** What has become of the size at promotion, in terms of what the replay has read. */
  lemma QuietOutcome(s: State, sid: nat)
    requires Invariant(s) && sid in s.sessions && Quiet(s, sid)
    requires s.sessions[sid].promotion.Some? && s.sessions[sid].promotion.value.latest > 0
    ensures var v := s.sessions[sid];
            var p := v.promotion.value;
            && v.replayed.Some? && p.latest <= v.replayed.value && v.Delivered(v.replayed.value)
            && (v.Delivered(p.latest) <==> p.unchecked || v.replayed == Some(p.latest))
  {
    hide ListsOrdered, HeadsPrimary, WillReplay;
    var v := s.sessions[sid];
    assert SessionOk(v) && NothingLost(v, s.replays, sid);
    QuietHasNoReplay(s, sid);
    var w := v.(queued := [v.replayed.value], written := []);
    assert w.queued + w.written == [v.replayed.value];
    SameDelivered(w, v);
    assert v.replayed.value in v.queued + v.written;
  }

  lemma StartIsOk()
    ensures Invariant(Start)
  {}

  lemma QuietHasNoReplay(s: State, sid: nat)
    requires sid in s.sessions && Quiet(s, sid)
    ensures forall size :: !WillReplay(s.replays, sid, size)
  {}

  /** Two viewers join. */
  const Arrival: seq<Step> := [Join(7), Join(7)]

  /** The second viewer tries to resize, and then the first one leaves. */
  const Attempt: seq<Step> := [InstallInject(1), FilterRecord(1), FilterCheck(1), Leave(7, 0)]

  /** A newer size is recorded between the promotion and the replay's read. */
  const Overtaking: seq<Step> :=
    [FilterRecord(1), ReplayRead(0), FilterCheck(1), ReplayInject(0)]

  const Hopeful := Session(7, true, true, 1, Idle, {}, [], [], Some(Promotion(1, false)), None)

  /** In that run the size that was the latest at the promotion is never delivered. */
  lemma OvertakenSizeIsLost()
    ensures Legal(Start, (Arrival + Attempt) + Overtaking)
    ensures var s := Run(Start, (Arrival + Attempt) + Overtaking);
            && 1 in s.sessions && Quiet(s, 1)
            && s.sessions[1].promotion == Some(Promotion(1, false))
            && !s.sessions[1].Delivered(1) && s.sessions[1].Delivered(2)
  {
    hide Apply, Enabled;
    ArrivalRuns();
    AttemptRuns(Run(Start, Arrival));
    RunConcat(Start, Arrival, Attempt);
    OvertakingRuns(Run(Start, Arrival + Attempt));
    RunConcat(Start, Arrival + Attempt, Overtaking);
  }

  lemma ArrivalRuns()
    ensures Legal(Start, Arrival)
    ensures var s := Run(Start, Arrival);
            && 1 in s.sessions && s.sessions[1] == Session(7, false, false, 0, Idle, {}, [], [], None, None)
            && s.lists == map[7 := [0, 1]] && s.replays == map[] && s.tickets == 0
  {
    var s1 := Apply(Start, Arrival[0]);
    assert s1.lists[7] == [0];
    var s2 := Apply(s1, Arrival[1]);
    assert s2.lists[7] == [0, 1];
    Prepend(s1, Arrival[1], []);
    Prepend(Start, Arrival[0], Arrival[1..]);
  }

  lemma AttemptRuns(s: State)
    requires 1 in s.sessions && s.sessions[1] == Session(7, false, false, 0, Idle, {}, [], [], None, None)
    requires s.lists == map[7 := [0, 1]] && s.replays == map[] && s.tickets == 0
    ensures Legal(s, Attempt)
    ensures var end := Run(s, Attempt);
            1 in end.sessions && end.sessions[1] == Hopeful && end.replays == map[0 := ToRead(1)]
  {
    var s1 := Apply(s, Attempt[0]);
    var s2 := Apply(s1, Attempt[1]);
    var s3 := Apply(s2, Attempt[2]);
    assert s3.sessions[1] == Session(7, false, true, 1, Idle, {}, [], [], None, None);
    var s4 := Apply(s3, Attempt[3]);
    assert s4.sessions[1] == Hopeful;
    Prepend(s3, Attempt[3], []);
    Prepend(s2, Attempt[2], Attempt[3..]);
    Prepend(s1, Attempt[1], Attempt[2..]);
    Prepend(s, Attempt[0], Attempt[1..]);
  }

  lemma OvertakingRuns(s: State)
    requires 1 in s.sessions && s.sessions[1] == Hopeful && s.replays == map[0 := ToRead(1)]
    ensures Legal(s, Overtaking)
    ensures var end := Run(s, Overtaking);
            && 1 in end.sessions && end.replays == map[]
            && end.sessions[1] == Hopeful.(recorded := 2, forwarded := {2}, queued := [2], replayed := Some(2))
  {
    var s1 := Apply(s, Overtaking[0]);
    var s2 := Apply(s1, Overtaking[1]);
    var s3 := Apply(s2, Overtaking[2]);
    var s4 := Apply(s3, Overtaking[3]);
    Prepend(s3, Overtaking[3], []);
    Prepend(s2, Overtaking[2], Overtaking[3..]);
    Prepend(s1, Overtaking[1], Overtaking[2..]);
    Prepend(s, Overtaking[0], Overtaking[1..]);
  }

  lemma Prepend(s: State, step: Step, rest: seq<Step>)
    requires Enabled(s, step) && Legal(Apply(s, step), rest)
    ensures Legal(s, [step] + rest) && Run(s, [step] + rest) == Run(Apply(s, step), rest)
  {
    assert ([step] + rest)[1..] == rest;
  }

  lemma {:induction false} RunConcat(s: State, first: seq<Step>, second: seq<Step>)
    requires Legal(s, first) && Legal(Run(s, first), second)
    ensures Legal(s, first + second) && Run(s, first + second) == Run(Run(s, first), second)
    decreases |first|
  {
    hide Apply, Enabled;
    if first == [] {
      assert first + second == second;
    } else {
      assert (first + second)[1..] == first[1..] + second;
      RunConcat(Apply(s, first[0]), first[1..], second);
    }
  }
}
