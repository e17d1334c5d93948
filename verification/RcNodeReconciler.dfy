/**
 The handlers of the RcNode reconciler as the source writes them, call by call, against an API server on
 which anything may happen before any call. Every run of them is a run of the state machine.
 */
module RcNodeReconciler {
  import opened Options
  import opened RcNode

  /** What becomes of a write: it is made and acknowledged, it is not made (an error, or somebody wrote in
      between), or it is made and the acknowledgement is lost. */
  datatype Outcome = Done | Refused | Lost

  function EventOf(o: Outcome, delay: int): Event {
    match o
    case Done => Step(true, delay)
    case Refused => Step(false, delay)
    case Lost => LostReply
  }

  predicate IsCall(e: Event) {
    e.Step? || e.LostReply?
  }

  /** How many reconcile passes the events begin: a call made while idle begins one. */
  ghost function PassesBegun(s: State, events: seq<Event>): nat {
    if events == [] then 0
    else
      var k := |events| - 1;
      PassesBegun(s, events[..k]) + if IsCall(events[k]) && RunFrom(s, events[..k]).worker.Idle? then 1 else 0
  }

  /** The object a write of the spec and the finalizers leaves: one that waited for its last finalizer to
      go is removed. */
  function SpecWritten(s: State, rc: RcObject): State
    requires s.store.Some?
  {
    var stored := s.store.value.(desired := rc.desired, finalizer := rc.finalizer);
    if stored.deleting && !stored.finalizer then s.(store := None, nextVersion := s.nextVersion + 1)
    else Written(s, stored, s.worker)
  }

  /** A write of the status subresource leaves everything else alone. */
  function StatusWritten(s: State, rc: RcObject): State
    requires s.store.Some?
  {
    Written(s, s.store.value.(current := rc.current, lastBoot := rc.lastBoot), s.worker)
  }

  class Cluster {
    var store: Option<RcObject>
    var nodeExists: bool
    var now: int
    var nextVersion: nat

    /** Where the state machine stands, and everything that has happened since the start. */
    ghost var worker: Worker
    ghost var history: seq<Event>
    ghost const start: int
    ghost const shortest: nat

    ghost function View(): State
      reads this
    {
      State(store, nodeExists, now, nextVersion, worker)
    }

    ghost predicate Was(s: State)
      reads this
    {
      s == RunFrom(Initial(start), history) && Inv(s, shortest) && s.worker == worker
    }

    ghost predicate Valid()
      reads this
    {
      Was(View())
    }

    ghost function Passes(): nat
      reads this
    {
      PassesBegun(Initial(start), history)
    }

    constructor (start: int, ghost shortest: nat)
      ensures Valid() && history == [] && worker.Idle? && this.start == start && this.shortest == shortest
    {
      this.store, this.nodeExists, this.now, this.nextVersion := None, false, start, 0;
      this.worker, this.history, this.start, this.shortest := Idle, [], start, shortest;
    }

    /** Account for what has just happened. */
    ghost method Record(before: State, e: Event)
      requires Was(before) && Drawn(e, shortest) && Next(before, e).(worker := worker) == View()
      modifies this`worker, this`history
      ensures Valid() && worker == Next(before, e).worker && history == old(history) + [e]
      ensures Passes() == old(Passes()) + if IsCall(e) && before.worker.Idle? then 1 else 0
    {
      StepKeepsInv(before, e, shortest);
      assert (history + [e])[..|history + [e]| - 1] == history;
      worker, history := Next(before, e).worker, history + [e];
    }

    /** Users edit, create and delete, somebody deletes the Node, time passes: any of it, any number of
        times. */
    method Others()
      requires Valid()
      modifies this
      ensures Valid() && worker == old(worker) && Passes() == old(Passes()) && old(history) <= history
    {
      var times: int := *;
      while times > 0
        invariant Valid() && worker == old(worker) && Passes() == old(Passes()) && old(history) <= history
      {
        var e: Event := *;
        if !IsCall(e) && !e.Restart? {
          Happen(e);
        }
        times := times - 1;
      }
    }

    method Happen(e: Event)
      requires Valid() && !IsCall(e) && !e.Restart?
      modifies this
      ensures Valid() && worker == old(worker) && Passes() == old(Passes()) && history == old(history) + [e]
    {
      ghost var before := View();
      match e {
        case EditDesired(phase) =>
          if store.Some? {
            store, nextVersion := Some(store.value.(desired := phase, version := nextVersion)), nextVersion + 1;
          }
        case CreateRcNode(phase) =>
          if store.None? {
            store, nextVersion := Some(RcObject(phase, Unset, None, false, false, nextVersion)), nextVersion + 1;
          }
        case DeleteRcNode =>
          if store.Some? && store.value.finalizer {
            store, nextVersion := Some(store.value.(deleting := true, version := nextVersion)), nextVersion + 1;
          } else {
            store := None;
          }
        case DeleteNodeExternally =>
          nodeExists := false;
        case Wait(time) =>
          now := now + time;
        case _ =>
      }
      Record(before, e);
    }

    method GetRcNode() returns (ok: bool, found: Option<RcObject>)
      requires Valid()
      modifies this
      ensures Valid() && worker == old(worker) && Passes() == old(Passes()) && old(history) <= history
      ensures found == store
    {
      Others();
      ok, found := *, store;
    }

    method GetNode() returns (ok: bool, found: bool)
      requires Valid()
      modifies this
      ensures Valid() && worker == old(worker) && Passes() == old(Passes()) && old(history) <= history
      ensures found == nodeExists
    {
      Others();
      ok, found := *, nodeExists;
    }

    /** Write the spec and the finalizers, unless the copy is stale. */
    method Update(rc: RcObject) returns (outcome: Outcome, ghost before: State)
      requires Valid()
      modifies this
      ensures Was(before) && worker == old(worker) && Passes() == old(Passes()) && old(history) <= history
      ensures outcome.Refused? ==> View() == before
      ensures !outcome.Refused? ==> Accepted(before, rc, true) && View() == SpecWritten(before, rc)
    {
      Others();
      before := View();
      outcome := *;
      if store.None? || store.value.version != rc.version {
        outcome := Refused;
      }
      if outcome != Refused {
        var stored := store.value.(desired := rc.desired, finalizer := rc.finalizer, version := nextVersion);
        store := if stored.deleting && !stored.finalizer then None else Some(stored);
        nextVersion := nextVersion + 1;
      }
    }

    /** Write the status, unless the copy is stale. */
    method UpdateStatus(rc: RcObject) returns (outcome: Outcome, ghost before: State)
      requires Valid()
      modifies this
      ensures Was(before) && worker == old(worker) && Passes() == old(Passes()) && old(history) <= history
      ensures outcome.Refused? ==> View() == before
      ensures !outcome.Refused? ==> Accepted(before, rc, true) && View() == StatusWritten(before, rc)
    {
      Others();
      before := View();
      outcome := *;
      if store.None? || store.value.version != rc.version {
        outcome := Refused;
      }
      if outcome != Refused {
        store := Some(store.value.(current := rc.current, lastBoot := rc.lastBoot, version := nextVersion));
        nextVersion := nextVersion + 1;
      }
    }

    method PutNode(exists': bool) returns (outcome: Outcome, ghost before: State)
      requires Valid()
      modifies this
      ensures Was(before) && worker == old(worker) && Passes() == old(Passes()) && old(history) <= history
      ensures View() == if outcome.Refused? then before else before.(nodeExists := exists')
    {
      Others();
      before := View();
      outcome := *;
      if outcome != Refused {
        nodeExists := exists';
      }
    }
  }

  class Reconciler {
    const cluster: Cluster

    constructor (cluster: Cluster)
      ensures this.cluster == cluster
    {
      this.cluster := cluster;
    }

    /** One pass, whatever fails and whatever happens meanwhile: the machine makes exactly one pass, to
        its end. `delay` is the boot delay drawn. */
    method Reconcile(delay: int)
      requires cluster.Valid() && cluster.worker.Idle? && delay >= cluster.shortest
      modifies cluster
      ensures cluster.Valid() && cluster.worker.Idle? && old(cluster.history) <= cluster.history
      ensures cluster.Passes() == old(cluster.Passes()) + 1
      ensures Safe(cluster.View(), cluster.shortest)
    {
      var ok, found := cluster.GetRcNode();
      cluster.Record(cluster.View(), Step(ok, delay));
      if !ok || found.None? {
        return;
      }
      var rc := found.value;
      if rc.deleting {
        HandleDeletion(rc, delay);
        return;
      }

      if !rc.finalizer {
        ok, rc := AddFinalizer(rc, delay);
        if !ok {
          return;
        }
      }
      Transition(rc, delay);
    }

    /** Write the finalizer and read the object again. */
    method AddFinalizer(rc: RcObject, delay: int) returns (ok: bool, newest: RcObject)
      requires cluster.Valid() && delay >= cluster.shortest
      requires cluster.worker == Worker.AddFinalizer(rc)
      modifies cluster
      ensures cluster.Valid() && old(cluster.history) <= cluster.history
      ensures cluster.Passes() == old(cluster.Passes())
      ensures cluster.worker == if ok then Dispatch(newest, cluster.now, delay) else Idle
    {
      newest := rc;
      var outcome; ghost var before;
      outcome, before := cluster.Update(rc.(finalizer := true));
      cluster.Record(before, EventOf(outcome, delay));
      if outcome != Done {
        return false, newest;
      }
      var found;
      ok, found := cluster.GetRcNode();
      cluster.Record(cluster.View(), Step(ok, delay));
      if !ok || found.None? {
        return false, newest;
      }
      newest := found.value;
    }

    method Transition(rc: RcObject, delay: int)
      requires cluster.Valid() && delay >= cluster.shortest
      requires cluster.worker == Dispatch(rc, cluster.now, delay)
      modifies cluster
      ensures cluster.Valid() && cluster.worker.Idle? && old(cluster.history) <= cluster.history
      ensures cluster.Passes() == old(cluster.Passes())
    {
      var desired, current := rc.desired, rc.current;
      if desired == Booting && (current == Unset || current == Offline) {
        StartBooting(rc, delay);
      } else if desired == Booting && current == Booting {
        CheckBootComplete(rc, delay);
      } else if desired == Online && current == Booting {
        CheckBootComplete(rc, delay);
      } else if desired == Online && (current == Unset || current == Offline) {
        StartBooting(rc, delay);
      } else if desired == Online && current == Online {
        EnsureNodeExists(rc, delay);
      } else if desired == Offline && (current == Online || current == Booting) {
        ShutdownNode(rc, delay);
      } else if desired == Offline && (current == Unset || current == Offline) {
        if current == Unset {
          SetStatus(rc, Offline, delay);
        }
      }
    }

    method StartBooting(rc: RcObject, delay: int)
      requires cluster.Valid() && delay >= cluster.shortest
      requires cluster.worker == Worker.StartBooting(rc, cluster.now)
      modifies cluster
      ensures cluster.Valid() && cluster.worker.Idle? && old(cluster.history) <= cluster.history
      ensures cluster.Passes() == old(cluster.Passes())
    {
      var now := cluster.now;
      var outcome; ghost var before;
      outcome, before := cluster.UpdateStatus(rc.(current := Booting, lastBoot := Some(now)));
      cluster.Record(before, EventOf(outcome, delay));
    }

    method CheckBootComplete(rc: RcObject, delay: int)
      requires cluster.Valid() && delay >= cluster.shortest
      requires cluster.worker == CheckBoot(rc, cluster.now, delay)
      modifies cluster
      ensures cluster.Valid() && cluster.worker.Idle? && old(cluster.history) <= cluster.history
      ensures cluster.Passes() == old(cluster.Passes())
    {
      if rc.lastBoot == None {
        StartBooting(rc, delay);
        return;
      }
      var elapsed := cluster.now - rc.lastBoot.value;
      var remaining := delay - elapsed;
      if remaining > 0 {
        return;
      }

      var outcome; ghost var before;
      outcome, before := cluster.PutNode(true);
      cluster.Record(before, EventOf(outcome, delay));
      if outcome != Done {
        return;
      }
      if rc.desired == Booting {
        var ok, newest := Promote(rc, delay);
        if ok {
          SetStatus(newest, Online, delay);
        }
      } else {
        SetStatus(rc, Online, delay);
      }
    }

    /** Desire what has been reached, and read the object again. */
    method Promote(rc: RcObject, delay: int) returns (ok: bool, newest: RcObject)
      requires cluster.Valid() && delay >= cluster.shortest
      requires cluster.worker == Worker.Promote(rc)
      modifies cluster
      ensures cluster.Valid() && old(cluster.history) <= cluster.history
      ensures cluster.Passes() == old(cluster.Passes())
      ensures cluster.worker == if ok then SetOnline(newest) else Idle
    {
      newest := rc;
      var outcome; ghost var before;
      outcome, before := cluster.Update(rc.(desired := Online));
      cluster.Record(before, EventOf(outcome, delay));
      if outcome != Done {
        return false, newest;
      }
      var found;
      ok, found := cluster.GetRcNode();
      cluster.Record(cluster.View(), Step(ok, delay));
      if !ok || found.None? {
        return false, newest;
      }
      newest := found.value;
    }

    method EnsureNodeExists(rc: RcObject, delay: int)
      requires cluster.Valid() && delay >= cluster.shortest && cluster.worker == CheckNode(rc)
      modifies cluster
      ensures cluster.Valid() && cluster.worker.Idle? && old(cluster.history) <= cluster.history
      ensures cluster.Passes() == old(cluster.Passes())
    {
      var ok, found := cluster.GetNode();
      cluster.Record(cluster.View(), Step(ok, delay));
      if ok && !found {
        var outcome; ghost var before;
        outcome, before := cluster.PutNode(true);
        cluster.Record(before, EventOf(outcome, delay));
      }
    }

    method ShutdownNode(rc: RcObject, delay: int)
      requires cluster.Valid() && delay >= cluster.shortest && cluster.worker == DeleteForShutdown(rc)
      modifies cluster
      ensures cluster.Valid() && cluster.worker.Idle? && old(cluster.history) <= cluster.history
      ensures cluster.Passes() == old(cluster.Passes())
    {
      var outcome; ghost var before;
      outcome, before := cluster.PutNode(false);
      cluster.Record(before, EventOf(outcome, delay));
      if outcome != Done {
        return;
      }
      SetStatus(rc, Offline, delay);
    }

    /** Written last, once what the status says is true. */
    method SetStatus(rc: RcObject, phase: Phase, delay: int)
      requires cluster.Valid() && delay >= cluster.shortest
      requires phase == Online || phase == Offline
      requires cluster.worker == if phase == Online then SetOnline(rc) else SetOffline(rc)
      modifies cluster
      ensures cluster.Valid() && cluster.worker.Idle? && old(cluster.history) <= cluster.history
      ensures cluster.Passes() == old(cluster.Passes())
    {
      var outcome; ghost var before;
      outcome, before := cluster.UpdateStatus(rc.(current := phase));
      cluster.Record(before, EventOf(outcome, delay));
    }

    method HandleDeletion(rc: RcObject, delay: int)
      requires cluster.Valid() && delay >= cluster.shortest
      requires cluster.worker == if rc.finalizer then DeleteForCleanup(rc) else Idle
      modifies cluster
      ensures cluster.Valid() && cluster.worker.Idle? && old(cluster.history) <= cluster.history
      ensures cluster.Passes() == old(cluster.Passes())
    {
      if rc.finalizer {
        var outcome; ghost var before;
        outcome, before := cluster.PutNode(false);
        cluster.Record(before, EventOf(outcome, delay));
        if outcome != Done {
          return;
        }
        RemoveFinalizer(rc, delay);
      }
    }

    method RemoveFinalizer(rc: RcObject, delay: int)
      requires cluster.Valid() && delay >= cluster.shortest
      requires cluster.worker == Worker.RemoveFinalizer(rc)
      modifies cluster
      ensures cluster.Valid() && cluster.worker.Idle? && old(cluster.history) <= cluster.history
      ensures cluster.Passes() == old(cluster.Passes())
    {
      var outcome; ghost var before;
      outcome, before := cluster.Update(rc.(finalizer := false));
      cluster.Record(before, EventOf(outcome, delay));
    }
  }

  /* ------------------------------- An undisturbed pass ------------------------------- */

  /** That many successful calls, and nothing else. */
  ghost function Quiet(delay: int, n: nat): seq<Event> {
    seq(n, _ => Step(true, delay))
  }

  lemma QuietNothing(before: seq<Event>, delay: int)
    ensures before + Quiet(delay, 0) == before
  {
  }

  lemma {:induction false} PassesGrow(s: State, before: seq<Event>, events: seq<Event>)
    ensures PassesBegun(s, before) <= PassesBegun(s, before + events)
  {
    if events == [] {
      assert before + events == before;
    } else {
      var k := |events| - 1;
      PassesGrow(s, before, events[..k]);
      assert (before + events)[..|before + events| - 1] == before + events[..k];
    }
  }

  lemma OneMore(s: State, before: seq<Event>, e: Event)
    ensures RunFrom(s, before + [e]) == Next(RunFrom(s, before), e)
    ensures PassesBegun(s, before + [e])
         == PassesBegun(s, before) + if IsCall(e) && RunFrom(s, before).worker.Idle? then 1 else 0
  {
    assert (before + [e])[..|before + [e]| - 1] == before;
  }

  lemma QuietNext(before: seq<Event>, delay: int, n: nat)
    requires n > 0
    ensures before + Quiet(delay, n) == before + Quiet(delay, n - 1) + [Step(true, delay)]
    ensures before + Quiet(delay, n) == before + [Step(true, delay)] + Quiet(delay, n - 1)
  {
  }

  /** Within one pass, once it has begun, the reconciler is not idle before the next call. */
  lemma BusyUntilLast(s: State, before: seq<Event>, delay: int, n: nat)
    requires n > 1 && RunFrom(s, before).worker.Idle?
    requires PassesBegun(s, before + Quiet(delay, n)) <= PassesBegun(s, before) + 1
    ensures !RunFrom(s, before + Quiet(delay, n - 1)).worker.Idle?
    ensures PassesBegun(s, before + Quiet(delay, n - 1)) <= PassesBegun(s, before) + 1
  {
    var quiet := before + Quiet(delay, n - 1);
    QuietNext(before, delay, n);
    QuietNext(before, delay, n - 1);
    OneMore(s, quiet, Step(true, delay));
    OneMore(s, before, Step(true, delay));
    PassesGrow(s, before + [Step(true, delay)], Quiet(delay, n - 2));
  }

  /** Successful calls with nothing in between, within one pass, are a prefix of the undisturbed pass. */
  lemma {:induction false} QuietPrefix(s: State, before: seq<Event>, delay: int, n: nat)
    requires n > 0 && RunFrom(s, before).worker.Idle?
    requires PassesBegun(s, before + Quiet(delay, n)) <= PassesBegun(s, before) + 1
    ensures Finished(RunFrom(s, before + Quiet(delay, n)), delay) == Pass(RunFrom(s, before), 0, delay)
    decreases n
  {
    var quiet, start := before + Quiet(delay, n - 1), RunFrom(s, before);
    QuietNext(before, delay, n);
    OneMore(s, quiet, Step(true, delay));
    if n == 1 {
      assert start == start.(now := start.now + 0, worker := Idle);
      QuietNothing(before, delay);
    } else {
      BusyUntilLast(s, before, delay, n);
      QuietPrefix(s, before, delay, n - 1);
      FinishedStep(RunFrom(s, quiet), delay);
    }
  }

  /** When every call succeeds and nothing else happens, the one pass that `Reconcile` makes is the pass
      the convergence results are about. */
  lemma QuietPass(s: State, before: seq<Event>, delay: int, n: nat)
    requires RunFrom(s, before).worker.Idle?
    requires var after := before + Quiet(delay, n);
      RunFrom(s, after).worker.Idle? && PassesBegun(s, after) == PassesBegun(s, before) + 1
    ensures RunFrom(s, before + Quiet(delay, n)) == Pass(RunFrom(s, before), 0, delay)
  {
    QuietNothing(before, delay);
    if n > 0 {
      QuietPrefix(s, before, delay, n);
    }
  }
}
