/**
 The RcNode reconciler against one API server. Every API call is one step that may fail; between any two
 of them users may edit the desired phase, create or delete the RcNode, delete the Kubernetes Node
 behind the reconciler's back, and time passes. Writes of the RcNode carry the resource version that was
 read and are rejected when it is stale.
 */
module RcNode {
  import opened Options

  datatype Phase = Unset | Online | Offline | Booting | ShuttingDown | Error

  /** An RcNode as stored, with the version of its last write. */
  datatype RcObject = RcObject(
    desired: Phase, current: Phase, lastBoot: Option<int>, finalizer: bool, deleting: bool, version: nat)

  /** Where the reconciler stands; `rc` is its own copy of the object, `clock` the boot time it is about
      to write. */
  datatype Worker =
    | Idle
    | AddFinalizer(rc: RcObject)
    | Refetch
    | StartBooting(rc: RcObject, clock: int)
    | CreateNode(rc: RcObject)
    | Promote(rc: RcObject)
    | RefetchPromoted
    | SetOnline(rc: RcObject)
    | CheckNode(rc: RcObject)
    | RecreateNode(rc: RcObject)
    | DeleteForShutdown(rc: RcObject)
    | SetOffline(rc: RcObject)
    | DeleteForCleanup(rc: RcObject)
    | RemoveFinalizer(rc: RcObject)

  /** The store and the reconciler. `nextVersion` exceeds every version in use. */
  datatype State = State(store: Option<RcObject>, nodeExists: bool, now: int, nextVersion: nat, worker: Worker)

  /** What may happen next. A reconciler step carries whether the API call succeeds and, for the boot
      check, the delay drawn. A call may also take effect without the reconciler hearing of it, and the
      reconciler may be restarted: either ends its pass. */
  datatype Event =
    | Step(ok: bool, delay: int)
    | LostReply
    | Restart
    | EditDesired(phase: Phase)
    | CreateRcNode(phase: Phase)
    | DeleteRcNode
    | DeleteNodeExternally
    | Wait(time: nat)

  /* ------------------------------------ Boot delay ------------------------------------ */

  const DEFAULT_BOOT_SECONDS := 30

  /** The configured boot time: the parsed feature when it is a positive number, else the default. */
  function BootSeconds(feature: Option<int>): (s: int)
    ensures s > 0
  {
    if feature.Some? && feature.value > 0 then feature.value else DEFAULT_BOOT_SECONDS
  }

  /** A random number in [0, 1) spread over [-jitter, jitter). */
  function Offset(random: real, jitter: real): (offset: real)
    requires 0.0 <= random < 1.0 && jitter >= 0.0
    ensures -jitter <= offset <= jitter
  {
    Scaled(random * 2.0 - 1.0, jitter);
    (random * 2.0 - 1.0) * jitter
  }

  lemma Scaled(spread: real, jitter: real)
    requires -1.0 <= spread <= 1.0 && jitter >= 0.0
    ensures -jitter <= spread * jitter <= jitter
  {
  }

  function Clamped(r: real): int {
    (if r < 1.0 then 1.0 else r).Floor
  }

  /** The delay drawn for a random number in [0, 1): within a fifth of the configured time, at least one
      second, cut to whole seconds. */
  function BootDelay(seconds: int, random: real): int
    requires seconds > 0 && 0.0 <= random < 1.0
  {
    Clamped(seconds as real + Offset(random, seconds as real * 0.2))
  }

  function Max(a: int, b: int): int { if a > b then a else b }

  function Shortest(seconds: int): int { Max(1, (seconds as real * 0.8).Floor) }

  function Longest(seconds: int): int { Max(1, (seconds as real * 1.2).Floor) }

  /** Every delay ever drawn lies between the two. */
  lemma BootDelayInRange(seconds: int, random: real)
    requires seconds > 0 && 0.0 <= random < 1.0
    ensures 1 <= Shortest(seconds) <= BootDelay(seconds, random) <= Longest(seconds)
  {
    var base := seconds as real;
    var drawn := base + Offset(random, base * 0.2);
    ClampedFloor(base * 0.8, drawn);
    ClampedFloor(drawn, base * 1.2);
  }

  /** The ends are four and six fifths of the configured time, and the lower is drawn. */
  lemma BootDelayReaches(seconds: int)
    requires seconds > 0
    ensures Shortest(seconds) == Max(1, seconds * 4 / 5) && Longest(seconds) == Max(1, seconds * 6 / 5)
    ensures BootDelay(seconds, 0.0) == Shortest(seconds)
  {
    var base := seconds as real;
    FloorOfFifths(seconds, 4, base * 0.8);
    FloorOfFifths(seconds, 6, base * 1.2);
    assert Offset(0.0, base * 0.2) == -(base * 0.2);
    ClampedFloor(base * 0.8, base - base * 0.2);
  }

  lemma FloorOfFifths(seconds: int, n: int, x: real)
    requires x * 5.0 == (seconds * n) as real
    ensures x.Floor == seconds * n / 5
  {
    var whole := seconds * n / 5;
    assert whole * 5 <= seconds * n < whole * 5 + 5;
    assert (whole * 5) as real <= x * 5.0 < (whole * 5 + 5) as real;
  }

  lemma ClampedFloor(a: real, b: real)
    requires a <= b
    ensures Max(1, a.Floor) == Clamped(a) <= Clamped(b) == Max(1, b.Floor)
  {
  }

  /* ------------------------------------- The steps ------------------------------------- */

  /** A write of the RcNode goes through when the call succeeds and nobody wrote in between. */
  predicate Accepted(s: State, rc: RcObject, ok: bool) {
    ok && s.store.Some? && s.store.value.version == rc.version
  }

  /** Where the state machine goes for a freshly read object. */
  function Dispatch(rc: RcObject, now: int, delay: int): Worker {
    match (rc.desired, rc.current)
    case (Booting, Unset) => StartBooting(rc, now)
    case (Booting, Offline) => StartBooting(rc, now)
    case (Online, Unset) => StartBooting(rc, now)
    case (Online, Offline) => StartBooting(rc, now)
    case (Booting, Booting) => CheckBoot(rc, now, delay)
    case (Online, Booting) => CheckBoot(rc, now, delay)
    case (Online, Online) => CheckNode(rc)
    case (Offline, Online) => DeleteForShutdown(rc)
    case (Offline, Booting) => DeleteForShutdown(rc)
    case (Offline, Unset) => SetOffline(rc)
    case _ => Idle
  }

  function CheckBoot(rc: RcObject, now: int, delay: int): Worker {
    if rc.lastBoot.None? then StartBooting(rc, now)
    else if Remaining(rc.lastBoot.value, now, delay) > 0 then Idle
    else CreateNode(rc)
  }

  /** How long to wait before the next check when this one comes too early. */
  function Remaining(lastBoot: int, now: int, delay: int): int {
    delay - (now - lastBoot)
  }

  /** The boot check never passes before the lower end, always passes from the upper end on, and when it
      comes too early asks to be repeated no later than the upper end. That end is six fifths of the configured
      time if it is positive, of 30 seconds otherwise. */
  lemma BootEndsInTime(rc: RcObject, now: int, feature: Option<int>, random: real)
    requires rc.lastBoot.Some? && 0.0 <= random < 1.0
    ensures var seconds, booted := BootSeconds(feature), rc.lastBoot.value;
      var delay := BootDelay(seconds, random);
      && (now - booted < Shortest(seconds) ==> CheckBoot(rc, now, delay) == Idle)
      && (now - booted >= Longest(seconds) ==> CheckBoot(rc, now, delay) == CreateNode(rc))
      && (CheckBoot(rc, now, delay) == Idle ==> now < now + Remaining(booted, now, delay) <= booted + Longest(seconds))
    ensures var since, delay := now - rc.lastBoot.value, BootDelay(BootSeconds(feature), random);
      && (feature.Some? && feature.value > 0 && since >= Max(1, feature.value * 6 / 5) ==>
            CheckBoot(rc, now, delay) == CreateNode(rc))
      && (feature.None? || feature.value <= 0 ==> since >= 36 ==> CheckBoot(rc, now, delay) == CreateNode(rc))
  {
    BootDelayInRange(BootSeconds(feature), random);
    BootDelayReaches(BootSeconds(feature));
  }

  function Fetch(s: State, delay: int): Worker {
    if s.store.None? then Idle
    else
      var rc := s.store.value;
      if rc.deleting then if rc.finalizer then DeleteForCleanup(rc) else Idle
      else if !rc.finalizer then AddFinalizer(rc)
      else Dispatch(rc, s.now, delay)
  }

  /** Store a new value of the object under a new version. */
  function Written(s: State, rc: RcObject, next: Worker): State {
    s.(store := Some(rc.(version := s.nextVersion)), nextVersion := s.nextVersion + 1, worker := next)
  }

  /** One step of the reconciler: a read or a write, and the local decision that follows. */
  function WorkerStep(s: State, ok: bool, delay: int): State {
    match s.worker
    case Idle => if ok then s.(worker := Fetch(s, delay)) else s
    case AddFinalizer(rc) =>
      if Accepted(s, rc, ok) then Written(s, s.store.value.(desired := rc.desired, finalizer := true), Refetch)
      else s.(worker := Idle)
    case Refetch =>
      // The deletion mark is not looked at again here.
      if ok && s.store.Some? then s.(worker := Dispatch(s.store.value, s.now, delay)) else s.(worker := Idle)
    case StartBooting(rc, clock) =>
      if Accepted(s, rc, ok) then Written(s, s.store.value.(current := Booting, lastBoot := Some(clock)), Idle)
      else s.(worker := Idle)
    case CreateNode(rc) =>
      if !ok then s.(worker := Idle)
      else s.(nodeExists := true, worker := if rc.desired == Booting then Promote(rc) else SetOnline(rc))
    case Promote(rc) =>
      if Accepted(s, rc, ok) then Written(s, s.store.value.(desired := Online), RefetchPromoted)
      else s.(worker := Idle)
    case RefetchPromoted =>
      if ok && s.store.Some? then s.(worker := SetOnline(s.store.value)) else s.(worker := Idle)
    case SetOnline(rc) =>
      if Accepted(s, rc, ok) then Written(s, s.store.value.(current := Online), Idle)
      else s.(worker := Idle)
    case CheckNode(rc) =>
      s.(worker := if ok && !s.nodeExists then RecreateNode(rc) else Idle)
    case RecreateNode(rc) =>
      if ok then s.(nodeExists := true, worker := Idle) else s.(worker := Idle)
    case DeleteForShutdown(rc) =>
      if ok then s.(nodeExists := false, worker := SetOffline(rc)) else s.(worker := Idle)
    case SetOffline(rc) =>
      if Accepted(s, rc, ok) then Written(s, s.store.value.(current := Offline), Idle)
      else s.(worker := Idle)
    case DeleteForCleanup(rc) =>
      if ok then s.(nodeExists := false, worker := RemoveFinalizer(rc)) else s.(worker := Idle)
    case RemoveFinalizer(rc) =>
      // The object was only waiting for its finalizer.
      if Accepted(s, rc, ok) then s.(store := None, nextVersion := s.nextVersion + 1, worker := Idle)
      else s.(worker := Idle)
  }

  function Next(s: State, e: Event): State {
    match e
    case Step(ok, delay) => WorkerStep(s, ok, delay)
    case LostReply => WorkerStep(s, true, 0).(worker := Idle)
    case Restart => s.(worker := Idle)
    case EditDesired(phase) =>
      if s.store.Some? then Written(s, s.store.value.(desired := phase), s.worker) else s
    case CreateRcNode(phase) =>
      if s.store.None? then Written(s, RcObject(phase, Unset, None, false, false, 0), s.worker) else s
    case DeleteRcNode =>
      if s.store.None? then s
      else if s.store.value.finalizer then Written(s, s.store.value.(deleting := true), s.worker)
      else s.(store := None)
    case DeleteNodeExternally => s.(nodeExists := false)
    case Wait(time) => s.(now := s.now + time)
  }

  function RunFrom(s: State, events: seq<Event>): State {
    if events == [] then s else Next(RunFrom(s, events[..|events| - 1]), events[|events| - 1])
  }

  /* ---------------------------------- Lifecycle safety ---------------------------------- */

  /** A Kubernetes Node exists only while its RcNode does, with the finalizer, and is booting or
      online; and not before the shortest boot delay has passed. */
  ghost predicate Safe(s: State, shortest: int) {
    s.nodeExists ==>
      && s.store.Some? && s.store.value.finalizer
      && (s.store.value.current == Booting || s.store.value.current == Online)
      && s.store.value.lastBoot.Some? && s.now >= s.store.value.lastBoot.value + shortest
  }

  /** While a pass is under way the stored object keeps its finalizer, status and boot time as read:
      only the reconciler writes those. */
  ghost predicate Holds(s: State, rc: RcObject) {
    && s.store.Some? && s.store.value.finalizer
    && s.store.value.current == rc.current && s.store.value.lastBoot == rc.lastBoot
    && rc.version < s.nextVersion
    && (s.store.value.version == rc.version ==> s.store.value == rc)
  }

  ghost predicate Booted(rc: RcObject, now: int, shortest: int) {
    rc.lastBoot.Some? && now >= rc.lastBoot.value + shortest
  }

  ghost predicate WorkerInv(s: State, shortest: int) {
    match s.worker
    case Idle => true
    case AddFinalizer(rc) =>
      && rc.version < s.nextVersion && !rc.deleting
      && (s.store.Some? && s.store.value.version == rc.version ==> s.store.value == rc)
    case Refetch => s.store.Some? && s.store.value.finalizer
    case StartBooting(rc, clock) => Holds(s, rc) && !s.nodeExists && clock <= s.now
    case CreateNode(rc) => Holds(s, rc) && rc.current == Booting && Booted(rc, s.now, shortest)
    case Promote(rc) =>
      Holds(s, rc) && rc.desired == Booting && rc.current == Booting && Booted(rc, s.now, shortest)
    case RefetchPromoted =>
      && s.store.Some? && s.store.value.finalizer && s.store.value.current == Booting
      && Booted(s.store.value, s.now, shortest)
    case SetOnline(rc) => Holds(s, rc) && rc.current == Booting && Booted(rc, s.now, shortest)
    case CheckNode(rc) => Holds(s, rc) && rc.current == Online && Booted(rc, s.now, shortest)
    case RecreateNode(rc) => Holds(s, rc) && rc.current == Online && Booted(rc, s.now, shortest)
    case DeleteForShutdown(rc) => Holds(s, rc)
    case SetOffline(rc) => Holds(s, rc) && !s.nodeExists
    case DeleteForCleanup(rc) => Holds(s, rc) && rc.deleting
    case RemoveFinalizer(rc) => Holds(s, rc) && rc.deleting && !s.nodeExists
  }

  ghost predicate Inv(s: State, shortest: int) {
    && Safe(s, shortest) && WorkerInv(s, shortest)
    && (s.store.Some? ==>
          && s.store.value.version < s.nextVersion
          && (s.store.value.lastBoot.Some? ==> s.store.value.lastBoot.value <= s.now)
          && (s.store.value.current == Online ==> Booted(s.store.value, s.now, shortest))
          && (s.store.value.current == Online || s.store.value.current == Booting ==>
                s.store.value.finalizer && s.store.value.lastBoot.Some?))
  }

  /** Delays are drawn no shorter than the shortest. */
  predicate Drawn(e: Event, shortest: int) {
    e.Step? ==> e.delay >= shortest
  }

  function Initial(now: int): State {
    State(None, false, now, 0, Idle)
  }

  lemma CallKeepsInv(s: State, ok: bool, delay: int, shortest: int)
    requires Inv(s, shortest) && delay >= shortest >= 0
    ensures Inv(WorkerStep(s, ok, delay), shortest)
  {
    if s.worker.Idle? || s.worker.Refetch? {
      DispatchKeepsInv(s, delay, shortest);
    } else if TouchesNode(s.worker) {
      NodeCallKeepsInv(s, ok, delay, shortest);
    } else {
      RcNodeCallKeepsInv(s, ok, delay, shortest);
    }
  }

  /** The next call is about the Kubernetes Node, not the RcNode. */
  predicate TouchesNode(w: Worker) {
    w.CreateNode? || w.CheckNode? || w.RecreateNode? || w.DeleteForShutdown? || w.DeleteForCleanup?
  }

  lemma NodeCallKeepsInv(s: State, ok: bool, delay: int, shortest: int)
    requires Inv(s, shortest) && delay >= shortest >= 0 && TouchesNode(s.worker)
    ensures Inv(WorkerStep(s, ok, delay), shortest)
  {
  }

  lemma RcNodeCallKeepsInv(s: State, ok: bool, delay: int, shortest: int)
    requires Inv(s, shortest) && delay >= shortest >= 0
    requires !TouchesNode(s.worker) && !s.worker.Idle? && !s.worker.Refetch?
    ensures Inv(WorkerStep(s, ok, delay), shortest)
  {
  }

  /** Whatever the reconciler read before, no call of it overrides what is desired now, but for the promotion
      of a boot that is still desired. */
  lemma CallKeepsWish(s: State, ok: bool, delay: int, shortest: int)
    requires Inv(s, shortest)
    ensures var r := WorkerStep(s, ok, delay);
      s.store.Some? && r.store.Some? && r.store.value.desired != s.store.value.desired ==>
        && s.worker.Promote? && s.store.value == s.worker.rc
        && s.store.value.desired == Booting && s.store.value.current == Booting && r.store.value.desired == Online
  {
  }

  lemma OthersKeepInv(s: State, e: Event, shortest: int)
    requires Inv(s, shortest) && !e.Step? && !e.LostReply? && shortest >= 0
    ensures Inv(Next(s, e), shortest)
  {
  }

  /** Whether or not the reconciler hears of it, a call has the same effect. */
  lemma LostKeepsInv(s: State, shortest: int)
    requires Inv(s, shortest) && shortest >= 0
    ensures Inv(Next(s, LostReply), shortest)
  {
    CallKeepsInv(s, true, shortest, shortest);
    assert WorkerStep(s, true, 0).(worker := Idle) == WorkerStep(s, true, shortest).(worker := Idle);
  }

  lemma StepKeepsInv(s: State, e: Event, shortest: int)
    requires Inv(s, shortest) && Drawn(e, shortest) && shortest >= 0
    ensures Inv(Next(s, e), shortest)
  {
    if e.Step? {
      CallKeepsInv(s, e.ok, e.delay, shortest);
    } else if e.LostReply? {
      LostKeepsInv(s, shortest);
    } else {
      OthersKeepInv(s, e, shortest);
    }
  }

  lemma DispatchKeepsInv(s: State, delay: int, shortest: int)
    requires Inv(s, shortest) && delay >= shortest >= 0
    ensures Inv(s.(worker := Fetch(s, delay)), shortest)
    ensures s.store.Some? && s.store.value.finalizer ==>
      Inv(s.(worker := Dispatch(s.store.value, s.now, delay)), shortest)
  {
  }

  /** Over every run, however API calls fail and whatever users do in between, the node lifecycle is
      safe at every point. */
  lemma {:induction false} AlwaysSafe(now: int, events: seq<Event>, shortest: int)
    requires shortest >= 0 && forall i | 0 <= i < |events| :: Drawn(events[i], shortest)
    ensures Inv(RunFrom(Initial(now), events), shortest)
  {
    if events != [] {
      AlwaysSafe(now, events[..|events| - 1], shortest);
      StepKeepsInv(RunFrom(Initial(now), events[..|events| - 1]), events[|events| - 1], shortest);
    }
  }

  /** The delays of the run are those drawn for this configured boot time. */
  ghost predicate DrawnFor(events: seq<Event>, feature: Option<int>) {
    forall i | 0 <= i < |events| && events[i].Step? ::
      exists random: real :: 0.0 <= random < 1.0 && events[i].delay == BootDelay(BootSeconds(feature), random)
  }

  lemma DrawnForIsDrawn(events: seq<Event>, feature: Option<int>)
    requires DrawnFor(events, feature)
    ensures forall i | 0 <= i < |events| :: Drawn(events[i], Shortest(BootSeconds(feature)))
  {
    var seconds := BootSeconds(feature);
    forall i | 0 <= i < |events| ensures Drawn(events[i], Shortest(seconds)) {
      if events[i].Step? {
        var random: real :| 0.0 <= random < 1.0 && events[i].delay == BootDelay(seconds, random);
        BootDelayInRange(seconds, random);
      }
    }
  }

  /** In particular: an offline or fresh RcNode has no Node, and a deleted one leaves no orphan. */
  lemma NoOrphans(now: int, events: seq<Event>, feature: Option<int>)
    requires DrawnFor(events, feature)
    ensures var s, seconds := RunFrom(Initial(now), events), BootSeconds(feature);
      && (s.store.None? ==> !s.nodeExists)
      && (s.store.Some? && s.store.value.current in {Unset, Offline} ==> !s.nodeExists)
      && (s.store.Some? && !s.store.value.finalizer ==> !s.nodeExists)
      && (s.nodeExists || (s.store.Some? && s.store.value.current == Online) ==>
            s.store.value.lastBoot.Some? && s.now - s.store.value.lastBoot.value >= Shortest(seconds))
  {
    DrawnForIsDrawn(events, feature);
    AlwaysSafe(now, events, Shortest(BootSeconds(feature)));
  }

  /* ------------------------------- How long booting takes ------------------------------- */

  /** Down: there is no object, or it has never run, or it is off; and no boot is about to be recorded. */
  predicate Down(s: State) {
    && (s.store.Some? ==> s.store.value.current == Unset || s.store.value.current == Offline)
    && !s.worker.StartBooting?
  }

  /** Up: the Kubernetes Node is there, or the object says so. */
  predicate Up(s: State) {
    s.nodeExists || (s.store.Some? && s.store.value.current == Online)
  }

  /** What is booting or online began to boot no earlier than at time t, and so will what is about to. */
  ghost predicate BootedSince(s: State, t: int) {
    && s.now >= t
    && (s.store.Some? && (s.store.value.current == Booting || s.store.value.current == Online) ==>
          s.store.value.lastBoot.Some? && s.store.value.lastBoot.value >= t)
    && (s.worker.StartBooting? ==> s.worker.clock >= t)
  }

  lemma CallKeepsBootedSince(s: State, ok: bool, delay: int, shortest: int, t: int)
    requires Inv(s, shortest) && BootedSince(s, t)
    ensures BootedSince(WorkerStep(s, ok, delay), t)
  {
  }

  lemma StepKeepsBootedSince(s: State, e: Event, shortest: int, t: int)
    requires Inv(s, shortest) && BootedSince(s, t)
    ensures BootedSince(Next(s, e), t)
  {
    if e.Step? {
      CallKeepsBootedSince(s, e.ok, e.delay, shortest, t);
    } else if e.LostReply? {
      CallKeepsBootedSince(s, true, 0, shortest, t);
    }
  }

  lemma {:induction false} RunKeepsBootedSince(s: State, events: seq<Event>, shortest: int, t: int)
    requires Inv(s, shortest) && BootedSince(s, t) && shortest >= 0
    requires forall i | 0 <= i < |events| :: Drawn(events[i], shortest)
    ensures Inv(RunFrom(s, events), shortest) && BootedSince(RunFrom(s, events), t)
  {
    if events != [] {
      var k := |events| - 1;
      RunKeepsBootedSince(s, events[..k], shortest, t);
      StepKeepsInv(RunFrom(s, events[..k]), events[k], shortest);
      StepKeepsBootedSince(RunFrom(s, events[..k]), events[k], shortest, t);
    }
  }

  lemma UpTakesAsLong(s: State, shortest: int, t: int)
    requires Inv(s, shortest) && BootedSince(s, t) && Up(s)
    ensures s.now - t >= shortest
  {
  }

  lemma {:induction false} RunsCompose(s: State, before: seq<Event>, after: seq<Event>)
    ensures RunFrom(s, before + after) == RunFrom(RunFrom(s, before), after)
  {
    if after == [] {
      assert before + after == before;
    } else {
      var k := |after| - 1;
      RunsCompose(s, before, after[..k]);
      assert (before + after)[..|before + after| - 1] == before + after[..k];
    }
  }

  /** From the moment a node is down, in any run, at least four fifths of its boot time pass before it is up:
      of the configured time if that is positive, of 30 seconds otherwise, and at least one second. */
  lemma BootingTakesTime(now: int, before: seq<Event>, after: seq<Event>, feature: Option<int>)
    requires DrawnFor(before + after, feature)
    requires Down(RunFrom(Initial(now), before)) && Up(RunFrom(Initial(now), before + after))
    ensures var elapsed := RunFrom(Initial(now), before + after).now - RunFrom(Initial(now), before).now;
      && elapsed >= 1
      && (feature.Some? && feature.value > 0 ==> elapsed >= feature.value * 4 / 5)
      && (feature.None? || feature.value <= 0 ==> elapsed >= 24)
  {
    var s, seconds := RunFrom(Initial(now), before), BootSeconds(feature);
    var all := before + after;
    DrawnForIsDrawn(all, feature);
    BootDelayReaches(seconds);
    forall i | 0 <= i < |before| ensures Drawn(before[i], Shortest(seconds)) {
      assert all[i] == before[i];
    }
    forall i | 0 <= i < |after| ensures Drawn(after[i], Shortest(seconds)) {
      assert all[|before| + i] == after[i];
    }
    AlwaysSafe(now, before, Shortest(seconds));
    RunKeepsBootedSince(s, after, Shortest(seconds), s.now);
    RunsCompose(Initial(now), before, after);
    UpTakesAsLong(RunFrom(s, after), Shortest(seconds), s.now);
  }

  /* ------------------------------------- Convergence ------------------------------------- */

  /** How many more calls the pass under way makes at most. */
  function CallsLeft(w: Worker): nat {
    match w
    case Idle => 0
    case StartBooting(_, _) => 1
    case SetOnline(_) => 1
    case RecreateNode(_) => 1
    case SetOffline(_) => 1
    case RemoveFinalizer(_) => 1
    case RefetchPromoted => 2
    case CheckNode(_) => 2
    case DeleteForShutdown(_) => 2
    case DeleteForCleanup(_) => 2
    case Promote(_) => 3
    case CreateNode(_) => 4
    case Refetch => 5
    case AddFinalizer(_) => 6
  }

  /** Finish the pass under way, every call succeeding and nobody interfering. */
  function Finished(s: State, delay: int): State
    decreases CallsLeft(s.worker)
  {
    if s.worker.Idle? then s else Finished(WorkerStep(s, true, delay), delay)
  }

  /** Wait, then run one whole undisturbed reconcile pass. */
  function Pass(s: State, wait: nat, delay: int): State {
    Finished(WorkerStep(s.(now := s.now + wait, worker := Idle), true, delay), delay)
  }

  /** The goal is reached: online with its Node, or offline without. */
  predicate Settled(s: State) {
    && s.store.Some?
    && match (s.store.value.desired, s.store.value.current)
       case (Online, Online) => s.nodeExists
       case (Offline, Offline) => !s.nodeExists
       case _ => false
  }

  /** The combinations the state machine has no transition for. */
  predicate DeadEnd(desired: Phase, current: Phase) {
    || desired in {Unset, ShuttingDown, Error}
    || current in {ShuttingDown, Error}
    || (desired == Booting && current == Online)
  }

  lemma PassFromFinalized(s: State, wait: nat, delay: int, shortest: int)
    requires Inv(s, shortest) && s.worker.Idle? && s.store.Some?
    requires s.store.value.finalizer && !s.store.value.deleting && wait >= delay >= shortest >= 0
    ensures var rc, r := s.store.value, Pass(s, wait, delay);
      && r.store.Some? && r.worker.Idle? && r.store.value.finalizer && !r.store.value.deleting
      && (match (rc.desired, rc.current)
          case (Booting, Booting) => Settled(r)
          case (Online, Booting) => Settled(r)
          case (Online, Online) => Settled(r)
          case (Offline, Online) => Settled(r)
          case (Offline, Booting) => Settled(r)
          case (Offline, Unset) => Settled(r)
          case (Offline, Offline) => Settled(r)
          case (Booting, Unset) => r.store.value.desired == Booting && r.store.value.current == Booting
          case (Booting, Offline) => r.store.value.desired == Booting && r.store.value.current == Booting
          case (Online, Unset) => r.store.value.desired == Online && r.store.value.current == Booting
          case (Online, Offline) => r.store.value.desired == Online && r.store.value.current == Booting
          case _ => r.store.value.desired == rc.desired && r.store.value.current == rc.current)
  {
    var s1 := WorkerStep(s.(now := s.now + wait, worker := Idle), true, delay);
    var s2 := WorkerStep(s1, true, delay);
    var s3 := WorkerStep(s2, true, delay);
    var s4 := WorkerStep(s3, true, delay);
    FinishedStep(s1, delay);
    FinishedStep(s2, delay);
    FinishedStep(s3, delay);
    FinishedStep(s4, delay);
  }

  lemma FinishedStep(s: State, delay: int)
    ensures Finished(s, delay) == if s.worker.Idle? then s else Finished(WorkerStep(s, true, delay), delay)
  {
  }

  /** A pass is some run of the reconciler, so it keeps every invariant of the runs. */
  lemma {:induction false} FinishedKeepsInv(s: State, delay: int, shortest: int)
    requires Inv(s, shortest) && delay >= shortest >= 0
    ensures Inv(Finished(s, delay), shortest) && Finished(s, delay).worker.Idle?
    decreases CallsLeft(s.worker)
  {
    if !s.worker.Idle? {
      StepKeepsInv(s, Step(true, delay), shortest);
      FinishedKeepsInv(WorkerStep(s, true, delay), delay, shortest);
    }
  }

  lemma PassKeepsInv(s: State, wait: nat, delay: int, shortest: int)
    requires Inv(s, shortest) && s.worker.Idle? && delay >= shortest >= 0
    ensures Inv(Pass(s, wait, delay), shortest) && Pass(s, wait, delay).worker.Idle?
  {
    var waited := s.(now := s.now + wait);
    StepKeepsInv(s, Wait(wait), shortest);
    assert waited.(worker := Idle) == waited;
    StepKeepsInv(waited, Step(true, delay), shortest);
    FinishedKeepsInv(WorkerStep(waited, true, delay), delay, shortest);
  }

  /** A first pass adds the finalizer and goes on as if it had been there. */
  lemma PassAddsFinalizer(s: State, wait: nat, delay: int, shortest: int)
    requires Inv(s, shortest) && s.worker.Idle? && s.store.Some? && !s.store.value.deleting && !s.store.value.finalizer
    ensures var added := s.(store := Some(s.store.value.(finalizer := true, version := s.nextVersion)),
                            nextVersion := s.nextVersion + 1);
      Inv(added, shortest) && Pass(s, wait, delay) == Pass(added, wait, delay)
  {
    var s1 := WorkerStep(s.(now := s.now + wait, worker := Idle), true, delay);
    var s2 := WorkerStep(s1, true, delay);
    var s3 := WorkerStep(s2, true, delay);
    FinishedStep(s1, delay);
    FinishedStep(s2, delay);
    var added := s.(store := Some(s.store.value.(finalizer := true, version := s.nextVersion)),
                    nextVersion := s.nextVersion + 1);
    assert s3 == WorkerStep(added.(now := s.now + wait, worker := Idle), true, delay);
  }

  /** An object on its way out is gone after one undisturbed pass, and so is its Node; without our finalizer
      it goes at once. */
  lemma DeletionCompletes(s: State, wait: nat, delay: int, shortest: int)
    requires Inv(s, shortest) && s.worker.Idle? && s.store.Some?
    ensures var asked := Next(s, DeleteRcNode);
      && (!s.store.value.finalizer ==> asked.store.None? && !asked.nodeExists)
      && (s.store.value.finalizer ==>
            && asked.store.Some? && asked.store.value.deleting
            && Pass(asked, wait, delay).store.None? && !Pass(asked, wait, delay).nodeExists)
  {
    var asked := Next(s, DeleteRcNode);
    if s.store.value.finalizer {
      MarkedIsRemoved(asked, wait, delay);
    }
  }

  /** Whatever phase it is in, and whenever it was marked. */
  lemma MarkedIsRemoved(s: State, wait: nat, delay: int)
    requires s.worker.Idle? && s.store.Some? && s.store.value.deleting && s.store.value.finalizer
    ensures var r := Pass(s, wait, delay); r.store.None? && !r.nodeExists && r.worker.Idle?
  {
    var s1 := WorkerStep(s.(now := s.now + wait, worker := Idle), true, delay);
    var s2 := WorkerStep(s1, true, delay);
    FinishedStep(s1, delay);
    FinishedStep(s2, delay);
  }

  /** Two undisturbed passes, each after the longest boot delay, reach the goal exactly when the
      desired and current phases were not a dead end; and then every further pass stays there. */
  lemma TwoPassesSettle(s: State, wait1: nat, delay1: int, wait2: nat, delay2: int, shortest: int)
    requires Inv(s, shortest) && s.worker.Idle? && s.store.Some? && !s.store.value.deleting && shortest >= 0
    requires wait1 >= delay1 >= shortest && wait2 >= delay2 >= shortest
    ensures Settled(Pass(Pass(s, wait1, delay1), wait2, delay2))
       <==> !DeadEnd(s.store.value.desired, s.store.value.current)
  {
    if s.store.value.finalizer {
      TwoPassesFromFinalized(s, wait1, delay1, wait2, delay2, shortest);
    } else {
      PassAddsFinalizer(s, wait1, delay1, shortest);
      var added := s.(store := Some(s.store.value.(finalizer := true, version := s.nextVersion)),
                      nextVersion := s.nextVersion + 1);
      TwoPassesFromFinalized(added, wait1, delay1, wait2, delay2, shortest);
    }
  }

  lemma TwoPassesFromFinalized(s: State, wait1: nat, delay1: int, wait2: nat, delay2: int, shortest: int)
    requires Inv(s, shortest) && s.worker.Idle? && s.store.Some? && shortest >= 0
    requires s.store.value.finalizer && !s.store.value.deleting
    requires wait1 >= delay1 >= shortest && wait2 >= delay2 >= shortest
    ensures Settled(Pass(Pass(s, wait1, delay1), wait2, delay2))
       <==> !DeadEnd(s.store.value.desired, s.store.value.current)
  {
    PassFromFinalized(s, wait1, delay1, shortest);
    PassKeepsInv(s, wait1, delay1, shortest);
    PassFromFinalized(Pass(s, wait1, delay1), wait2, delay2, shortest);
  }

  lemma SettledStays(s: State, wait: nat, delay: int, shortest: int)
    requires Inv(s, shortest) && s.worker.Idle? && Settled(s) && !s.store.value.deleting
    requires wait >= delay >= shortest >= 0
    ensures Settled(Pass(s, wait, delay))
  {
    if s.store.value.finalizer {
      PassFromFinalized(s, wait, delay, shortest);
    } else {
      PassAddsFinalizer(s, wait, delay, shortest);
      var added := s.(store := Some(s.store.value.(finalizer := true, version := s.nextVersion)),
                      nextVersion := s.nextVersion + 1);
      PassFromFinalized(added, wait, delay, shortest);
    }
  }

  /** A node being shut down when a wake is asked for ends in the dead end: running, but never
      refreshed, settled or shut down by any further pass. */
  lemma WakeDuringShutdownSticks(s: State, wait: nat, delay: int, shortest: int)
    requires Inv(s, shortest) && s.worker.Idle? && s.store.Some? && !s.store.value.deleting
    requires s.store.value.desired == Offline && s.store.value.current == Online
    requires wait >= delay >= shortest >= 0
    ensures var woken := Next(s, EditDesired(Booting));
      var r := Pass(woken, wait, delay);
      r.store == woken.store && r.nodeExists == s.nodeExists && !Settled(r)
  {
  }
}
