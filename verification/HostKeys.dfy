/**
 Trust on first use for the host keys of browser workloads. Any number of callbacks and clears
 run concurrently; each action below is one critical section of the key map's lock.
 */
module HostKeys {
  import opened Common

  type Key = Bytes

  /** A callback's verdict on a presented key; `epoch` counts the earlier clears of its instance. */
  datatype Decision = Decision(instance: nat, epoch: nat, key: Key, accepted: bool)

  datatype Trust = Trust(keys: map<nat, Key>, clears: map<nat, nat>, decisions: seq<Decision>) {
    function Epoch(instance: nat): nat {
      if instance in clears then clears[instance] else 0
    }

    function Known(instance: nat): Option<Key> {
      if instance in keys then Some(keys[instance]) else None
    }

    function Decide(instance: nat, key: Key, accepted: bool): Trust {
      this.(decisions := decisions + [Decision(instance, Epoch(instance), key, accepted)])
    }
  }

  const Nothing := Trust(map[], map[], [])

  datatype Action =
    | Glance(instance: nat, key: Key)   // under the read lock
    | Settle(instance: nat, key: Key)   // under the write lock, after a glance that found no key
    | Clear(instance: nat)

  /** The verdict of a callback's first look, if that look finds a key. */
  function Glanced(keys: map<nat, Key>, instance: nat, key: Key): Option<bool> {
    if instance in keys then Some(keys[instance] == key) else None
  }

  /** The key map and the verdict after the second look. */
  function Settled(keys: map<nat, Key>, instance: nat, key: Key): (map<nat, Key>, bool) {
    if instance in keys then (keys, keys[instance] == key) else (keys[instance := key], true)
  }

  function Act(t: Trust, a: Action): Trust {
    match a
    case Glance(i, key) =>
      (match Glanced(t.keys, i, key) case None => t case Some(accepted) => t.Decide(i, key, accepted))
    case Settle(i, key) =>
      var (keys, accepted) := Settled(t.keys, i, key);
      t.Decide(i, key, accepted).(keys := keys)
    case Clear(i) =>
      t.(keys := t.keys - {i}, clears := t.clears[i := t.Epoch(i) + 1])
  }

  function Acts(t: Trust, actions: seq<Action>): Trust
    decreases |actions|
  {
    if actions == [] then t else Acts(Act(t, actions[0]), actions[1..])
  }

  /** The key presented by the first callback that decides in an epoch of an instance. */
  function FirstKey(decisions: seq<Decision>, instance: nat, epoch: nat): Option<Key> {
    if decisions == [] then None
    else if decisions[0].instance == instance && decisions[0].epoch == epoch then Some(decisions[0].key)
    else FirstKey(decisions[1..], instance, epoch)
  }

  lemma {:induction false} FirstKeySnoc(decisions: seq<Decision>, d: Decision, instance: nat, epoch: nat)
    ensures FirstKey(decisions + [d], instance, epoch) ==
            if FirstKey(decisions, instance, epoch).Some? then FirstKey(decisions, instance, epoch)
            else if d.instance == instance && d.epoch == epoch then Some(d.key) else None
  {
    if decisions != [] {
      assert (decisions + [d])[1..] == decisions[1..] + [d];
      FirstKeySnoc(decisions[1..], d, instance, epoch);
    }
  }

  /** Epochs are not ahead, the recorded key is the current epoch's first, verdicts follow the first key. */
  ghost predicate Good(t: Trust) {
    && (forall i, e :: t.Epoch(i) < e ==> FirstKey(t.decisions, i, e) == None)
    && (forall i :: t.Known(i) == FirstKey(t.decisions, i, t.Epoch(i)))
    && (forall d <- t.decisions :: d.accepted <==> FirstKey(t.decisions, d.instance, d.epoch) == Some(d.key))
    && (forall d <- t.decisions :: FirstKey(t.decisions, d.instance, d.epoch).Some?)
  }

  lemma DecideStep(t: Trust, i: nat, key: Key, keys: map<nat, Key>)
    requires Good(t)
    requires keys == if i in t.keys then t.keys else t.keys[i := key]
    ensures Good(t.Decide(i, key, keys[i] == key).(keys := keys))
  {
    var d := Decision(i, t.Epoch(i), key, keys[i] == key);
    var after := t.Decide(i, key, keys[i] == key).(keys := keys);
    forall j, e
      ensures FirstKey(after.decisions, j, e) ==
              if FirstKey(t.decisions, j, e).Some? then FirstKey(t.decisions, j, e)
              else if i == j && e == t.Epoch(i) then Some(key) else None
    {
      FirstKeySnoc(t.decisions, d, j, e);
    }
    assert t.Known(i) == FirstKey(t.decisions, i, t.Epoch(i));
    forall j ensures after.Known(j) == FirstKey(after.decisions, j, after.Epoch(j)) {
      assert t.Known(j) == FirstKey(t.decisions, j, t.Epoch(j));
      assert after.Epoch(j) == t.Epoch(j);
    }
    forall j, e | after.Epoch(j) < e ensures FirstKey(after.decisions, j, e) == None {
      assert t.Epoch(j) < e;
    }
    forall c | c in after.decisions
      ensures FirstKey(after.decisions, c.instance, c.epoch).Some?
      ensures c.accepted <==> FirstKey(after.decisions, c.instance, c.epoch) == Some(c.key)
    {
      assert c in t.decisions || c == d;
    }
  }

  lemma ActStep(t: Trust, a: Action)
    requires Good(t)
    ensures Good(Act(t, a))
  {
    match a
    case Glance(i, key) =>
      if i in t.keys {
        DecideStep(t, i, key, t.keys);
      }
    case Settle(i, key) =>
      DecideStep(t, i, key, if i in t.keys then t.keys else t.keys[i := key]);
    case Clear(i) =>
      var after := Act(t, a);
      forall j ensures after.Known(j) == FirstKey(after.decisions, j, after.Epoch(j)) {
        assert t.Known(j) == FirstKey(t.decisions, j, t.Epoch(j));
        assert j == i ==> t.Epoch(i) < after.Epoch(i);
      }
      forall j, e | after.Epoch(j) < e ensures FirstKey(after.decisions, j, e) == None {
        assert t.Epoch(j) < e;
      }
  }

  lemma {:induction false} GoodHolds(t: Trust, actions: seq<Action>)
    requires Good(t)
    ensures Good(Acts(t, actions))
    decreases |actions|
  {
    if actions != [] {
      ActStep(t, actions[0]);
      GoodHolds(Act(t, actions[0]), actions[1..]);
    }
  }

  /**
   Between two consecutive clears of an instance, the callbacks that accept are exactly those
   presented with one and the same key, which is the first presented to a deciding callback,
   and is the recorded key as long as no further clear comes.
   */
  ghost predicate OneKeyPerEpoch(t: Trust) {
    && (forall d <- t.decisions :: d.accepted <==> FirstKey(t.decisions, d.instance, d.epoch) == Some(d.key))
    && (forall d, e ::
          d in t.decisions && e in t.decisions && d.instance == e.instance && d.epoch == e.epoch ==>
            d.accepted ==> (e.accepted <==> e.key == d.key))
    && (forall d <- t.decisions :: d.accepted && d.epoch == t.Epoch(d.instance) ==> t.Known(d.instance) == Some(d.key))
  }

  lemma GoodMeansOneKey(t: Trust)
    requires Good(t)
    ensures OneKeyPerEpoch(t)
  {}

  lemma OneKeyHolds(actions: seq<Action>)
    ensures OneKeyPerEpoch(Acts(Nothing, actions))
  {
    GoodHolds(Nothing, actions);
    GoodMeansOneKey(Acts(Nothing, actions));
  }
}
