/**
 The cache of SSH clients to browser workloads. Threads look a client up, drop it when it is
 stale, dial a new one outside the lock, and publish it unless another dial was faster. Each
 step below is one atomic action; a run is any interleaving of any number of threads. Clients
 are numbered in the order in which they are created.
 */
module BrowserClients {
  import opened Common
  import opened HostKeys

  /** Where a thread stands; an idle thread has no entry. */
  datatype Thread =
    | Dropping(instance: nat, client: nat)                 // stale, out of the cache, not yet closed
    | Clearing(instance: nat)                              // stale and closed, key not yet cleared
    | Dialing(instance: nat)
    | Undecided(instance: nat, key: Key)                   // the first look found no key
    | Trusting(instance: nat)                              // host key accepted, handshake going on
    | Holding(instance: nat, client: nat)                  // connected, not yet published
    | Losing(instance: nat, client: nat, existing: nat, chosen: nat)  // another dial has published first
    | Detached(client: nat)                                // taken out of the cache to be closed
  {
    /** The client that only this thread can reach. */
    function Held(): Option<nat> {
      if Dropping? || Holding? || Losing? || Detached? then Some(client) else None
    }
  }

  /** A client handed to a caller of ensureBrowserClient, chosen after so many steps of the run. */
  datatype Return = Return(instance: nat, client: nat, chosen: nat)

  datatype State = State(
    clients: map<nat, nat>,          // the cache, by instance
    holder: Option<nat>,             // the thread that keeps the cache's lock between two steps
    threads: map<nat, Thread>,
    created: nat,                     // clients created so far
    closed: seq<nat>,                // calls of Close, in order
    handed: seq<Return>,
    trust: Trust,
    clock: nat)                      // steps taken so far

  const Start := State(map[], None, map[], 0, [], [], Nothing, 0)

  datatype Step =
    | LookUp(t: nat, instance: nat, alive: bool)
    | CloseStale(t: nat)
    | ClearStale(t: nat)
    | Fail(t: nat)
    | Present(t: nat, key: Key)
    | Resolve(t: nat)
    | Connect(t: nat)
    | Publish(t: nat)
    | CloseLoser(t: nat)
    | Take(t: nat, instance: nat)
    | CloseTaken(t: nat)
    | Forget(instance: nat)

  predicate Enabled(s: State, step: Step) {
    match step
    case LookUp(t, _, _) => t !in s.threads && s.holder == None
    case CloseStale(t) => t in s.threads && s.threads[t].Dropping?
    case ClearStale(t) => t in s.threads && s.threads[t].Clearing?
    case Fail(t) => t in s.threads && (s.threads[t].Dialing? || s.threads[t].Trusting?)
    case Present(t, _) => t in s.threads && s.threads[t].Dialing?
    case Resolve(t) => t in s.threads && s.threads[t].Undecided?
    case Connect(t) => t in s.threads && s.threads[t].Trusting?
    case Publish(t) => t in s.threads && s.threads[t].Holding? && s.holder == None
    case CloseLoser(t) => t in s.threads && s.threads[t].Losing?
    case Take(t, _) => t !in s.threads && s.holder == None
    case CloseTaken(t) => t in s.threads && s.threads[t].Detached?
    case Forget(_) => true
  }

  /** The thread moves on to `th`. */
  function Goto(s: State, t: nat, th: Thread): State {
    s.(threads := s.threads[t := th])
  }

  function Idle(s: State, t: nat): State {
    s.(threads := s.threads - {t})
  }

  function Close(s: State, client: nat): State {
    s.(closed := s.closed + [client])
  }

  function Hand(s: State, instance: nat, client: nat, chosen: nat): State {
    s.(handed := s.handed + [Return(instance, client, chosen)])
  }

  /** What follows a verdict on the host key: the handshake goes on, or the dial fails. */
  function Judged(s: State, t: nat, instance: nat, accepted: bool): State {
    if accepted then Goto(s, t, Trusting(instance)) else Idle(s, t)
  }

  function Apply(s: State, step: Step): State
    requires Enabled(s, step)
  {
    Effect(s, step).(clock := s.clock + 1)
  }

  function Effect(s: State, step: Step): State
    requires Enabled(s, step)
  {
    match step
    case LookUp(t, i, alive) =>
      (match Found(s.clients, i, alive)
       case Miss => Goto(s, t, Dialing(i))
       case Hit(c) => Hand(s, i, c, s.clock)
       case Stale(c) => Goto(s, t, Dropping(i, c)).(clients := s.clients - {i}, holder := Some(t)))
    case CloseStale(t) =>
      Close(Goto(s, t, Clearing(s.threads[t].instance)), s.threads[t].client)
    case ClearStale(t) =>
      var i := s.threads[t].instance;
      Goto(s, t, Dialing(i)).(holder := None, trust := Act(s.trust, Clear(i)))
    case Fail(t) => Idle(s, t)
    case Present(t, key) =>
      var i := s.threads[t].instance;
      var after := s.(trust := Act(s.trust, Glance(i, key)));
      (match Glanced(s.trust.keys, i, key)
       case None => Goto(after, t, Undecided(i, key))
       case Some(accepted) => Judged(after, t, i, accepted))
    case Resolve(t) =>
      var (i, key) := (s.threads[t].instance, s.threads[t].key);
      Judged(s.(trust := Act(s.trust, Settle(i, key))), t, i, Settled(s.trust.keys, i, key).1)
    case Connect(t) =>
      Goto(s, t, Holding(s.threads[t].instance, s.created)).(created := s.created + 1)
    case Publish(t) =>
      var (i, c) := (s.threads[t].instance, s.threads[t].client);
      if i in s.clients then Goto(s, t, Losing(i, c, s.clients[i], s.clock))
      else Hand(Idle(s, t), i, c, s.clock + 1).(clients := s.clients[i := c])
    case CloseLoser(t) =>
      var th := s.threads[t];
      Hand(Close(Idle(s, t), th.client), th.instance, th.existing, th.chosen)
    case Take(t, i) =>
      if i in s.clients then Goto(s, t, Detached(s.clients[i])).(clients := s.clients - {i})
      else s
    case CloseTaken(t) => Close(Idle(s, t), s.threads[t].client)
    case Forget(i) => s.(trust := Act(s.trust, Clear(i)))
  }

  predicate Legal(s: State, steps: seq<Step>)
    decreases |steps|
  {
    steps == [] || (Enabled(s, steps[0]) && Legal(Apply(s, steps[0]), steps[1..]))
  }

  function Run(s: State, steps: seq<Step>): State
    requires Legal(s, steps)
    decreases |steps|
  {
    if steps == [] then s else Run(Apply(s, steps[0]), steps[1..])
  }

  // ----- The critical sections -----------------------------------------------------------------

  datatype Lookup = Miss | Hit(client: nat) | Stale(client: nat)

  /** What a look-up finds; `alive` is the answer to the keepalive request. */
  function Found(clients: map<nat, nat>, instance: nat, alive: bool): Lookup {
    if instance !in clients then Miss
    else if alive then Hit(clients[instance])
    else Stale(clients[instance])
  }

  class LocalProvider {
    var browserClients: map<nat, nat>
    var browserHostKeys: map<nat, Key>

    constructor ()
      ensures browserClients == map[] && browserHostKeys == map[]
    {
      browserClients, browserHostKeys := map[], map[];
    }

    /** ensureBrowserClient up to the dial. */
    method LookUpClient(instance: nat, alive: bool) returns (found: Lookup)
      modifies this
      ensures found == Found(old(browserClients), instance, alive)
      ensures instance !in old(browserClients) ==> found == Miss
      ensures instance in old(browserClients) ==>
                found == if alive then Hit(old(browserClients[instance])) else Stale(old(browserClients[instance]))
      ensures instance !in old(browserClients) || alive ==>
                browserClients == old(browserClients) && browserHostKeys == old(browserHostKeys)
      ensures instance in old(browserClients) && !alive ==>
                && browserClients == old(browserClients) - {instance}
                && browserHostKeys == old(browserHostKeys) - {instance}
    {
      found := Miss;
      if instance in browserClients {
        var c := browserClients[instance];
        if alive {
          return Hit(c);
        }
        browserClients := browserClients - {instance};
        found := Stale(c);
        ClearBrowserHostKey(instance);
      }
    }

    /** ensureBrowserClient from the dial's end: the client to return, and whether `client` must be closed. */
    method PublishClient(instance: nat, client: nat) returns (chosen: nat, lost: bool)
      modifies this`browserClients
      ensures lost <==> instance in old(browserClients)
      ensures browserClients == if lost then old(browserClients) else old(browserClients)[instance := client]
      ensures instance in browserClients && chosen == browserClients[instance]
    {
      if instance in browserClients {
        return browserClients[instance], true;
      }
      browserClients := browserClients[instance := client];
      return client, false;
    }

    method CloseBrowserClient(instance: nat) returns (closed: Option<nat>)
      modifies this`browserClients
      ensures browserClients == old(browserClients) - {instance}
      ensures closed == if instance in old(browserClients) then Some(old(browserClients)[instance]) else None
    {
      closed := None;
      if instance in browserClients {
        closed := Some(browserClients[instance]);
        browserClients := browserClients - {instance};
      }
    }

    method FirstLook(instance: nat, key: Key) returns (verdict: Option<bool>)
      ensures verdict == Glanced(browserHostKeys, instance, key)
    {
      if instance !in browserHostKeys {
        return None;
      }
      return Some(browserHostKeys[instance] == key);
    }

    method SecondLook(instance: nat, key: Key) returns (accepted: bool)
      modifies this`browserHostKeys
      ensures (browserHostKeys, accepted) == Settled(old(browserHostKeys), instance, key)
    {
      if instance in browserHostKeys {
        return browserHostKeys[instance] == key;
      }
      browserHostKeys := browserHostKeys[instance := key];
      return true;
    }

    method ClearBrowserHostKey(instance: nat)
      modifies this`browserHostKeys
      ensures browserHostKeys == old(browserHostKeys) - {instance}
    {
      browserHostKeys := browserHostKeys - {instance};
    }
  }

  // ----- Where each client is ------------------------------------------------------------------

  /** The cache, the clients held by one thread each, and the closed ones. */
  datatype Places = Places(cached: map<nat, nat>, held: map<nat, nat>, created: nat, closed: seq<nat>)

  function HeldBy(threads: map<nat, Thread>): map<nat, nat> {
    map t <- threads | threads[t].Held().Some? :: threads[t].Held().value
  }

  function Where(s: State): Places {
    Places(s.clients, HeldBy(s.threads), s.created, s.closed)
  }

  datatype Move =
    | Stay
    | Create(t: nat)
    | Cache(t: nat, instance: nat)
    | Uncache(instance: nat, t: nat)
    | Shut(t: nat)

  predicate CanMove(p: Places, m: Move) {
    match m
    case Stay => true
    case Create(t) => t !in p.held
    case Cache(t, i) => t in p.held && i !in p.cached
    case Uncache(i, t) => i in p.cached && t !in p.held
    case Shut(t) => t in p.held
  }

  function Moved(p: Places, m: Move): Places
    requires CanMove(p, m)
  {
    match m
    case Stay => p
    case Create(t) => p.(held := p.held[t := p.created], created := p.created + 1)
    case Cache(t, i) => p.(cached := p.cached[i := p.held[t]], held := p.held - {t})
    case Uncache(i, t) => p.(cached := p.cached - {i}, held := p.held[t := p.cached[i]])
    case Shut(t) => p.(held := p.held - {t}, closed := p.closed + [p.held[t]])
  }

  predicate Injective(m: map<nat, nat>) {
    forall i, j :: i in m && j in m && i != j ==> m[i] != m[j]
  }

  /** No client is in two places at once, and every client that was created is somewhere. */
  ghost predicate Accounted(p: Places) {
    && Injective(p.cached) && Injective(p.held)
    && p.cached.Values !! p.held.Values
    && (forall j, k :: 0 <= j < k < |p.closed| ==> p.closed[j] != p.closed[k])
    && (forall c <- p.closed :: c !in p.cached.Values && c !in p.held.Values)
    && (forall c: nat :: c < p.created <==> c in p.closed || c in p.cached.Values || c in p.held.Values)
  }

  lemma ValuesOfAdded(m: map<nat, nat>, k: nat, v: nat)
    requires Injective(m) && k !in m && v !in m.Values
    ensures Injective(m[k := v]) && m[k := v].Values == m.Values + {v}
  {
    forall x | x in m ensures m[x] in m[k := v].Values {
      assert m[k := v][x] == m[x];
    }
    assert m[k := v][k] in m[k := v].Values;
  }

  lemma ValuesOfRemoved(m: map<nat, nat>, k: nat)
    requires Injective(m) && k in m
    ensures Injective(m - {k}) && (m - {k}).Values == m.Values - {m[k]}
  {
    forall x | x in m && x != k ensures m[x] in (m - {k}).Values && m[x] != m[k] {
      assert (m - {k})[x] == m[x];
    }
  }

  lemma MoveKeeps(p: Places, m: Move)
    requires Accounted(p) && CanMove(p, m)
    ensures Accounted(Moved(p, m))
  {
    hide Injective;
    match m
    case Stay =>
    case Create(t) =>
      ValuesOfAdded(p.held, t, p.created);
    case Cache(t, i) =>
      ValuesOfAdded(p.cached, i, p.held[t]);
      ValuesOfRemoved(p.held, t);
    case Uncache(i, t) =>
      ValuesOfRemoved(p.cached, i);
      ValuesOfAdded(p.held, t, p.cached[i]);
    case Shut(t) =>
      ValuesOfRemoved(p.held, t);
      assert p.held[t] in p.held.Values;
      assert forall c :: c in p.closed + [p.held[t]] <==> c in p.closed || c == p.held[t];
  }

  /** What a step does to the clients. */
  function MoveOf(s: State, step: Step): Move
    requires Enabled(s, step)
  {
    match step
    case LookUp(t, i, alive) => if Found(s.clients, i, alive).Stale? then Uncache(i, t) else Stay
    case CloseStale(t) => Shut(t)
    case Connect(t) => Create(t)
    case Publish(t) => if s.threads[t].instance in s.clients then Stay else Cache(t, s.threads[t].instance)
    case CloseLoser(t) => Shut(t)
    case Take(t, i) => if i in s.clients then Uncache(i, t) else Stay
    case CloseTaken(t) => Shut(t)
    case _ => Stay
  }

  lemma HeldAfterGoto(threads: map<nat, Thread>, t: nat, th: Thread)
    ensures HeldBy(threads[t := th]) ==
            if th.Held().Some? then HeldBy(threads)[t := th.Held().value] else HeldBy(threads) - {t}
    ensures t in HeldBy(threads) <==> t in threads && threads[t].Held().Some?
    ensures t in HeldBy(threads) ==> HeldBy(threads)[t] == threads[t].Held().value
  {}

  lemma HeldAfterIdle(threads: map<nat, Thread>, t: nat)
    ensures HeldBy(threads - {t}) == HeldBy(threads) - {t}
    ensures t in HeldBy(threads) <==> t in threads && threads[t].Held().Some?
    ensures t in HeldBy(threads) ==> HeldBy(threads)[t] == threads[t].Held().value
    ensures t !in HeldBy(threads) ==> HeldBy(threads) - {t} == HeldBy(threads)
  {}

  predicate InDial(step: Step) {
    step.Forget? || step.ClearStale? || step.Fail? || step.Present? || step.Resolve? || step.Connect?
  }

  lemma DialStepMoves(s: State, step: Step)
    requires Enabled(s, step) && InDial(step)
    ensures CanMove(Where(s), MoveOf(s, step)) && Where(Apply(s, step)) == Moved(Where(s), MoveOf(s, step))
  {
    hide Act, HeldBy, Glanced, Settled;
    match step
    case Forget(_) =>
    case ClearStale(t) =>
      HeldAfterIdle(s.threads, t);
      HeldAfterGoto(s.threads, t, Dialing(s.threads[t].instance));
    case Fail(t) => HeldAfterIdle(s.threads, t);
    case Present(t, key) =>
      HeldAfterIdle(s.threads, t);
      HeldAfterGoto(s.threads, t, Undecided(s.threads[t].instance, key));
      HeldAfterGoto(s.threads, t, Trusting(s.threads[t].instance));
    case Resolve(t) =>
      HeldAfterIdle(s.threads, t);
      HeldAfterGoto(s.threads, t, Trusting(s.threads[t].instance));
    case Connect(t) => HeldAfterGoto(s.threads, t, Holding(s.threads[t].instance, s.created));
  }

  lemma CacheStepMoves(s: State, step: Step)
    requires Enabled(s, step) && !InDial(step)
    ensures CanMove(Where(s), MoveOf(s, step)) && Where(Apply(s, step)) == Moved(Where(s), MoveOf(s, step))
  {
    hide HeldBy;
    HeldAfterIdle(s.threads, step.t);
    match step
    case LookUp(t, i, alive) =>
      HeldAfterGoto(s.threads, t, if i in s.clients then Dropping(i, s.clients[i]) else Dialing(i));
    case CloseStale(t) => HeldAfterGoto(s.threads, t, Clearing(s.threads[t].instance));
    case Publish(t) =>
      var (i, c) := (s.threads[t].instance, s.threads[t].client);
      HeldAfterGoto(s.threads, t, Losing(i, c, if i in s.clients then s.clients[i] else c, s.clock));
      assert HeldBy(s.threads)[t := c] == HeldBy(s.threads);
    case Take(t, i) =>
      if i in s.clients {
        HeldAfterGoto(s.threads, t, Detached(s.clients[i]));
      }
    case _ =>
  }

  lemma {:induction false} AccountedHolds(s: State, steps: seq<Step>)
    requires Accounted(Where(s)) && Legal(s, steps)
    ensures Accounted(Where(Run(s, steps)))
    decreases |steps|
  {
    hide Accounted, Apply, Enabled, Where, Moved, CanMove;
    if steps != [] {
      if InDial(steps[0]) {
        DialStepMoves(s, steps[0]);
      } else {
        CacheStepMoves(s, steps[0]);
      }
      MoveKeeps(Where(s), MoveOf(s, steps[0]));
      AccountedHolds(Apply(s, steps[0]), steps[1..]);
    }
  }

  // ----- The theorems ----------------------------------------------------------------------------

  function Open(s: State): set<nat> {
    set c | 0 <= c < s.created && c !in s.closed
  }

  /**
   In every reachable state the clients not yet closed are the cached ones and those held by one
   thread each, no client is in two places, and none is closed twice.
   */
  lemma OpenClientsAreAccounted(steps: seq<Step>)
    requires Legal(Start, steps)
    ensures var s := Run(Start, steps);
            && Open(s) == s.clients.Values + Where(s).held.Values
            && s.clients.Values !! Where(s).held.Values
            && Injective(s.clients) && Injective(Where(s).held)
            && (forall j, k :: 0 <= j < k < |s.closed| ==> s.closed[j] != s.closed[k])
            && (forall c <- s.closed :: c < s.created)
  {
    AccountedHolds(Start, steps);
  }

  /** When no thread is at work, exactly the cached clients are open, one per instance. */
  lemma NothingLeaks(steps: seq<Step>)
    requires Legal(Start, steps) && Run(Start, steps).threads == map[]
    ensures var s := Run(Start, steps); Open(s) == s.clients.Values && Injective(s.clients)
  {
    OpenClientsAreAccounted(steps);
    assert Where(Run(Start, steps)).held == map[];
  }

  /** The step that took the lock releases it: whoever waits for the lock waits for an enabled step. */
  ghost predicate LockOk(s: State) {
    forall t :: s.holder == Some(t) <==> t in s.threads && (s.threads[t].Dropping? || s.threads[t].Clearing?)
  }

  /** Some step of the thread's operation that needs no lock, or the step that waits for it. */
  function NextStep(th: Thread, t: nat): Step {
    match th
    case Dropping(_, _) => CloseStale(t)
    case Clearing(_) => ClearStale(t)
    case Dialing(_) => Fail(t)
    case Undecided(_, _) => Resolve(t)
    case Trusting(_) => Fail(t)
    case Holding(_, _) => Publish(t)
    case Losing(_, _, _, _) => CloseLoser(t)
    case Detached(_) => CloseTaken(t)
  }

  lemma {:induction false} LockHolds(s: State, steps: seq<Step>)
    requires LockOk(s) && Legal(s, steps)
    ensures LockOk(Run(s, steps))
    decreases |steps|
  {
    hide Act, Glanced, Settled;
    if steps != [] {
      LockStep(s, steps[0]);
      LockHolds(Apply(s, steps[0]), steps[1..]);
    }
  }

  lemma LockStep(s: State, step: Step)
    requires LockOk(s) && Enabled(s, step)
    ensures LockOk(Apply(s, step))
  {
    hide Act, Glanced, Settled;
  }

  /** No thread is stuck: it can step, or it waits for a lock whose holder can step. */
  lemma NobodyIsStuck(steps: seq<Step>, t: nat)
    requires Legal(Start, steps) && t in Run(Start, steps).threads
    ensures var s := Run(Start, steps);
            || Enabled(s, NextStep(s.threads[t], t))
            || (s.holder.Some? && s.holder.value in s.threads
                && Enabled(s, NextStep(s.threads[s.holder.value], s.holder.value)))
  {
    LockHolds(Start, steps);
  }

  // ----- Where a returned client comes from ---------------------------------------------------

  /** After `k` steps the client is the cached one for the instance. */
  ghost predicate CachedAfter(steps: seq<Step>, k: nat, instance: nat, client: nat) {
    k <= |steps| && Legal(Start, steps[..k]) &&
    var s := Run(Start, steps[..k]); instance in s.clients && s.clients[instance] == client
  }

  lemma {:induction false} LegalSnoc(s: State, steps: seq<Step>, k: nat)
    requires Legal(s, steps) && k < |steps|
    ensures Legal(s, steps[..k]) && Enabled(Run(s, steps[..k]), steps[k])
    ensures Legal(s, steps[..k + 1])
    ensures Run(s, steps[..k + 1]) == Apply(Run(s, steps[..k]), steps[k])
    decreases |steps|
  {
    hide Apply, Enabled;
    if k == 0 {
      assert steps[..1] == [steps[0]];
      assert steps[..1][1..] == [];
    } else {
      LegalSnoc(Apply(s, steps[0]), steps[1..], k - 1);
      assert steps[..k][1..] == steps[1..][..k - 1];
      assert steps[..k + 1][1..] == steps[1..][..k];
    }
  }

  /** The clients that have been returned, or that a losing dial is going to return. */
  ghost predicate Justified(s: State, steps: seq<Step>) {
    && (forall r <- s.handed :: CachedAfter(steps, r.chosen, r.instance, r.client))
    && (forall t <- s.threads :: s.threads[t].Losing? ==>
          CachedAfter(steps, s.threads[t].chosen, s.threads[t].instance, s.threads[t].existing))
  }

  predicate CachedNow(s: State, instance: nat, client: nat, chosen: nat) {
    chosen == s.clock && instance in s.clients && s.clients[instance] == client
  }

  /** A step hands out the client cached before or after it, or the one its losing dial chose. */
  lemma JustifiedStep(s: State, step: Step)
    requires Enabled(s, step)
    ensures var after := Apply(s, step);
            && (forall r <- after.handed :: r in s.handed
                  || CachedNow(s, r.instance, r.client, r.chosen) || CachedNow(after, r.instance, r.client, r.chosen)
                  || exists t <- s.threads :: s.threads[t].Losing?
                       && r == Return(s.threads[t].instance, s.threads[t].existing, s.threads[t].chosen))
            && (forall t <- after.threads :: after.threads[t].Losing? ==>
                  var th := after.threads[t];
                  (t in s.threads && s.threads[t] == th) || CachedNow(s, th.instance, th.existing, th.chosen))
  {
    hide Act, Glanced, Settled;
  }

  lemma {:induction false} JustifiedHolds(steps: seq<Step>, k: nat)
    requires Legal(Start, steps) && k <= |steps|
    ensures Legal(Start, steps[..k]) && Run(Start, steps[..k]).clock == k
    ensures Justified(Run(Start, steps[..k]), steps)
  {
    if k > 0 {
      JustifiedHolds(steps, k - 1);
      LegalSnoc(Start, steps, k - 1);
      var s, after := Run(Start, steps[..k - 1]), Run(Start, steps[..k]);
      JustifiedStep(s, steps[k - 1]);
      hide Effect, Enabled;
      forall i, c: nat, chosen | CachedNow(s, i, c, chosen) || CachedNow(after, i, c, chosen)
        ensures CachedAfter(steps, chosen, i, c) {}
    }
  }

  /** A returned client was the cached one for its instance, and open, at the step that chose it. */
  lemma ReturnedWasCached(steps: seq<Step>, r: Return)
    requires Legal(Start, steps) && r in Run(Start, steps).handed
    ensures r.chosen <= |steps| && Legal(Start, steps[..r.chosen])
    ensures var s := Run(Start, steps[..r.chosen]);
            r.instance in s.clients && s.clients[r.instance] == r.client && r.client in Open(s)
  {
    JustifiedHolds(steps, |steps|);
    assert steps[..|steps|] == steps;
    OpenClientsAreAccounted(steps[..r.chosen]);
  }

  // ----- What a keepalive's answer decides -----------------------------------------------------

  /** The state after the first `k` steps of a run. */
  ghost function At(steps: seq<Step>, k: nat): State
    requires Legal(Start, steps) && k <= |steps|
  {
    PrefixIsLegal(steps, k);
    Run(Start, steps[..k])
  }

  lemma PrefixIsLegal(steps: seq<Step>, k: nat)
    requires Legal(Start, steps) && k <= |steps|
    ensures Legal(Start, steps[..k])
  {
    if k < |steps| {
      LegalSnoc(Start, steps, k);
    } else {
      assert steps[..k] == steps;
    }
  }

  lemma AtStep(steps: seq<Step>, k: nat)
    requires Legal(Start, steps) && k < |steps|
    ensures Enabled(At(steps, k), steps[k]) && At(steps, k + 1) == Apply(At(steps, k), steps[k])
  {
    hide Apply, Enabled;
    LegalSnoc(Start, steps, k);
  }

  /**
   A look-up hands out the cached client exactly when that client answers its keepalive, and
   takes it out of the cache exactly when it does not.
   */
  lemma LookUpGoesByKeepalive(steps: seq<Step>, k: nat)
    requires Legal(Start, steps) && k < |steps| && steps[k].LookUp?
    ensures var (s, after) := (At(steps, k), At(steps, k + 1));
            var (t, i, alive) := (steps[k].t, steps[k].instance, steps[k].alive);
            && (i !in s.clients ==> after.handed == s.handed && after.clients == s.clients)
            && (i in s.clients && alive ==>
                  && after.handed == s.handed + [Return(i, s.clients[i], k)]
                  && after.clients == s.clients && t !in after.threads)
            && (i in s.clients && !alive ==>
                  && after.handed == s.handed && after.clients == s.clients - {i}
                  && t in after.threads && after.threads[t] == Dropping(i, s.clients[i]))
  {
    JustifiedHolds(steps, k);
    AtStep(steps, k);
  }

  /** A client is being dropped as stale only after a keepalive it did not answer. */
  lemma {:induction false} DroppedWasDead(steps: seq<Step>, k: nat, t: nat) returns (j: nat)
    requires Legal(Start, steps) && k <= |steps|
    requires t in At(steps, k).threads && At(steps, k).threads[t].Dropping?
    ensures var th := At(steps, k).threads[t];
            && j < k && steps[j] == LookUp(t, th.instance, false)
            && th.instance in At(steps, j).clients && At(steps, j).clients[th.instance] == th.client
    decreases k
  {
    j := 0;
    if k > 0 {
      AtStep(steps, k - 1);
      var s := At(steps, k - 1);
      DropBegins(s, steps[k - 1], t);
      hide Apply, Enabled;
      if t in s.threads && s.threads[t] == At(steps, k).threads[t] {
        j := DroppedWasDead(steps, k - 1, t);
      } else {
        j := k - 1;
      }
    }
  }

  lemma DropBegins(s: State, step: Step, t: nat)
    requires Enabled(s, step) && t in Apply(s, step).threads && Apply(s, step).threads[t].Dropping?
    ensures var th := Apply(s, step).threads[t];
            || (t in s.threads && s.threads[t] == th)
            || (step == LookUp(t, th.instance, false)
                && th.instance in s.clients && s.clients[th.instance] == th.client)
  {
    hide Act, Glanced, Settled;
  }

  /** The three steps of a stale drop do together what the look-up's critical section does. */
  lemma StaleDropForgets(s: State, t: nat, i: nat)
    requires t !in s.threads && s.holder == None && i in s.clients
    ensures var steps := [LookUp(t, i, false), CloseStale(t), ClearStale(t)];
            && Legal(s, steps)
            && var end := Run(s, steps);
               && end.clients == s.clients - {i} && end.trust.keys == s.trust.keys - {i}
               && end.closed == s.closed + [s.clients[i]] && end.handed == s.handed
               && end.holder == None && end.threads == s.threads[t := Dialing(i)]
  {
    var dropped := Apply(s, LookUp(t, i, false));
    var closed := Apply(dropped, CloseStale(t));
    Prepend(closed, ClearStale(t), []);
    Prepend(dropped, CloseStale(t), [ClearStale(t)]);
    Prepend(s, LookUp(t, i, false), [CloseStale(t), ClearStale(t)]);
    assert [ClearStale(t)] + [] == [ClearStale(t)];
    assert [CloseStale(t)] + [ClearStale(t)] == [CloseStale(t), ClearStale(t)];
    var steps := [LookUp(t, i, false), CloseStale(t), ClearStale(t)];
    assert [LookUp(t, i, false)] + [CloseStale(t), ClearStale(t)] == steps;
  }

  lemma Prepend(s: State, step: Step, rest: seq<Step>)
    requires Enabled(s, step) && Legal(Apply(s, step), rest)
    ensures Legal(s, [step] + rest) && Run(s, [step] + rest) == Run(Apply(s, step), rest)
  {
    assert ([step] + rest)[1..] == rest;
  }

  // ----- Host keys ------------------------------------------------------------------------------

  lemma {:induction false} TrustHolds(s: State, steps: seq<Step>)
    requires Good(s.trust) && Legal(s, steps)
    ensures Good(Run(s, steps).trust)
    decreases |steps|
  {
    if steps != [] {
      TrustStep(s, steps[0]);
      TrustHolds(Apply(s, steps[0]), steps[1..]);
    }
  }

  lemma TrustStep(s: State, step: Step)
    requires Good(s.trust) && Enabled(s, step)
    ensures Good(Apply(s, step).trust)
  {
    hide Act, Good, Glanced, Settled;
    match step
    case ClearStale(t) => ActStep(s.trust, Clear(s.threads[t].instance));
    case Present(t, key) => ActStep(s.trust, Glance(s.threads[t].instance, key));
    case Resolve(t) => ActStep(s.trust, Settle(s.threads[t].instance, s.threads[t].key));
    case Forget(i) => ActStep(s.trust, Clear(i));
    case _ =>
  }

  /** Whatever dials, drops and clears interleave, an epoch of an instance has one accepted key. */
  lemma RunsTrustOneKey(steps: seq<Step>)
    requires Legal(Start, steps)
    ensures OneKeyPerEpoch(Run(Start, steps).trust)
  {
    TrustHolds(Start, steps);
    GoodMeansOneKey(Run(Start, steps).trust);
  }

  /** The verdict that thread `t` got in a step, if it got one. */
  ghost predicate Verdict(s: State, step: Step, t: nat, accepted: bool)
    requires Enabled(s, step)
  {
    && (step.Present? || step.Resolve?) && step.t == t && t in s.threads
    && |Apply(s, step).trust.decisions| == |s.trust.decisions| + 1
    && var d := Apply(s, step).trust.decisions[|s.trust.decisions|];
       d.instance == s.threads[t].instance && d.accepted == accepted
  }

  /** A rejected host key ends the dial. */
  lemma RejectionEndsTheDial(s: State, step: Step, t: nat)
    requires Enabled(s, step) && Verdict(s, step, t, false)
    ensures t !in Apply(s, step).threads && Apply(s, step).created == s.created
  {}

  lemma TrustBegins(s: State, step: Step, t: nat)
    requires Enabled(s, step) && t in Apply(s, step).threads && Apply(s, step).threads[t].Trusting?
    ensures (t in s.threads && s.threads[t] == Apply(s, step).threads[t])
            || (Verdict(s, step, t, true) && s.threads[t].instance == Apply(s, step).threads[t].instance)
  {}

  /** A handshake goes on, and only then can a client come of it, after the host key was accepted. */
  lemma {:induction false} TrustedWasAccepted(steps: seq<Step>, k: nat, t: nat) returns (j: nat)
    requires Legal(Start, steps) && k <= |steps|
    requires t in At(steps, k).threads && At(steps, k).threads[t].Trusting?
    ensures j < k && Enabled(At(steps, j), steps[j]) && Verdict(At(steps, j), steps[j], t, true)
    ensures At(steps, j).threads[t].instance == At(steps, k).threads[t].instance
    decreases k
  {
    j := 0;
    if k > 0 {
      AtStep(steps, k - 1);
      var s := At(steps, k - 1);
      TrustBegins(s, steps[k - 1], t);
      hide Apply, Enabled, Verdict;
      if t in s.threads && s.threads[t] == At(steps, k).threads[t] {
        j := TrustedWasAccepted(steps, k - 1, t);
      } else {
        j := k - 1;
      }
    }
  }

  /** A client is created only by a thread whose dial's host key was accepted for its instance. */
  lemma ClientsComeFromTrust(steps: seq<Step>, k: nat) returns (j: nat)
    requires Legal(Start, steps) && k < |steps| && At(steps, k + 1).created != At(steps, k).created
    ensures steps[k].Connect? && j < k
    ensures Enabled(At(steps, j), steps[j]) && Verdict(At(steps, j), steps[j], steps[k].t, true)
  {
    AtStep(steps, k);
    j := TrustedWasAccepted(steps, k, steps[k].t);
  }
}
