/** Posting tasks from many threads, web/web_thread_impl.cc.

    Every lock acquisition, every access to a slot and every hand-over is a step of its
    own, and the steps of all threads interleave freely. PostTaskHelper takes the lock
    once to find its own ID and then, when the target outlives the caller, reads the
    target's slots WITHOUT the lock. The theorems say that this elision is sound when
    thread lifetimes are nested as the ID enumeration promises, and that every call is
    linearizable against the atomic `Registry`. */
module WebThreadModel {
  import opened Prelude
  import opened WebThreadRegistry

  /** How a poster reads the target's slots: under the lock, or without it because its
      own ID `current` is at or below the target in the enumeration. */
  datatype Access = Locked | Elided(current: nat)

  datatype LifeOp = Construct(runner: Tid) | Destroy | Reset

  /** One call of PostTaskHelper. `call` names the call and its task, `since` is the
      number of registry operations that had happened when it was made. */
  datatype Call = Call(call: nat, target: nat, since: nat)

  datatype Pc =
    | Idle
    | Exited                                          // the thread has ended and been joined
    | WantScan(c: Call)                               // about to lock for GetCurrentThreadIdentifier
    | Scanning(c: Call, i: nat)                       // in its loop
    | Scanned(c: Call, found: Option<nat>)            // about to leave it
    | WantLock(c: Call)                               // no elision: about to lock
    | ReadState(c: Call, via: Access)
    | ReadRunner(c: Call, via: Access)
    | HandOver(c: Call, via: Access, runner: Option<Tid>)
    | Leaving(c: Call, via: Access, result: bool)
    | WantLife(op: LifeOp, id: nat)                   // constructor, destructor or reset
    | WriteState(op: LifeOp, id: nat)
    | WriteRunner(op: LifeOp, id: nat)
    | UnlockLife(op: LifeOp, id: nat)
  {
    predicate HoldsLock() {
      Scanning? || Scanned? || WriteState? || WriteRunner? || UnlockLife?
      || ((ReadState? || ReadRunner? || HandOver? || Leaving?) && via.Locked?)
    }

    predicate InLifecycle() {
      WantLife? || WriteState? || WriteRunner? || UnlockLife?
    }

    /** About to touch the target's slots, with or without the lock. */
    predicate Reads() {
      ReadState? || ReadRunner? || HandOver?
    }

    /** Inside the part of a call that relies on the elision. */
    predicate InElision() {
      (ReadState? || ReadRunner? || HandOver? || Leaving?) && via.Elided?
    }

    predicate InCall() {
      !Idle? && !Exited? && !InLifecycle()
    }
  }

  /** A finished call: its result, and the operations that happened during it are those
      numbered from `c.since` up to `until`. */
  datatype Done = Done(c: Call, result: bool, until: nat)

  datatype State = State(
    reg: Registry,                    // the two arrays, and the queues behind the runners
    lock: Option<Tid>,
    pcs: map<Tid, Pc>,
    nextCall: nat,
    ops: seq<RegistryOp>,       // the atomic operations, in linearization order
    done: seq<Done>)
  {
    function Pc(t: Tid): Pc {
      if t in pcs then pcs[t] else Idle
    }

    function At(t: Tid, pc: Pc): State {
      this.(pcs := pcs[t := pc])
    }
  }

  function Initial(n: nat): State {
    State(InitialRegistry(n), None, map[], 0, [], [])
  }

  datatype Action =
    | Post(t: Tid, target: nat)
    | Begin(t: Tid, op: LifeOp, id: nat)
    | Advance(t: Tid)
    | Exit(t: Tid)

  /** The DCHECKs of the constructor, the destructor and the reset. */
  predicate LifePre(reg: Registry, t: Tid, op: LifeOp, id: nat)
    requires reg.WellFormed() && id < |reg.states|
  {
    match op
    case Construct(r) => reg.states[id] == UNINITIALIZED && reg.runners[id].None? && (id == 0 ==> r == t)
    case Destroy => reg.states[id] == RUNNING
    case Reset => reg.states[id] == SHUTDOWN
  }

  /** No thread other than `t` is left to run on runner `r`. */
  ghost predicate Gone(s: State, t: Tid, r: Option<Tid>) {
    r.Some? ==> r.value == t || s.Pc(r.value).Exited?
  }

  /** The promise of the ID enumeration, each thread outlives every thread below it:
      IDs are constructed in order; an ID is destroyed on its own thread, after the
      threads below it were destroyed and joined; it is reset after those were reset. */
  ghost predicate LifetimeOrder(s: State, t: Tid, op: LifeOp, id: nat)
    requires s.reg.WellFormed() && id < |s.reg.states|
  {
    match op
    case Construct(_) =>
      && (forall j :: 0 <= j < id ==> s.reg.states[j] == RUNNING)
      && (forall j :: id < j < |s.reg.states| ==> s.reg.states[j] == UNINITIALIZED)
    case Destroy =>
      && s.reg.runners[id] == Some(t)
      && (forall j :: id < j < |s.reg.states| ==> s.reg.states[j] != RUNNING && Gone(s, t, s.reg.runners[j]))
    case Reset =>
      && Gone(s, t, s.reg.runners[id])
      && (forall j :: id < j < |s.reg.states| ==> s.reg.states[j] == UNINITIALIZED)
  }

  /** Lifecycle calls are made one after another. */
  ghost predicate NoLifecycle(s: State) {
    forall u: Tid :: !s.Pc(u).InLifecycle()
  }

  /** `nested` switches the lifetime order on; without it only the DCHECKs remain. */
  ghost predicate Enabled(s: State, a: Action, nested: bool) {
    s.reg.WellFormed() &&
    match a
    case Post(t, target) => s.Pc(t).Idle? && target < |s.reg.states|
    case Begin(t, op, id) =>
      && s.Pc(t).Idle? && id < |s.reg.states| && NoLifecycle(s)
      && LifePre(s.reg, t, op, id)
      && (nested ==> LifetimeOrder(s, t, op, id))
    case Advance(t) =>
      && !s.Pc(t).Idle? && !s.Pc(t).Exited?
      && (s.Pc(t).WantScan? || s.Pc(t).WantLock? || s.Pc(t).WantLife? ==> s.lock.None?)
      && PcInRange(s, s.Pc(t))
    case Exit(t) => s.Pc(t).Idle?
  }

  predicate PcInRange(s: State, pc: Pc)
    requires s.reg.WellFormed()
  {
    && (pc.InCall() ==> pc.c.target < |s.reg.states|)
    && (pc.Scanning? ==> pc.i <= |s.reg.states|)
    && (pc.InLifecycle() ==> pc.id < |s.reg.states|)
  }

  ghost function Next(s: State, a: Action, nested: bool): State
    requires Enabled(s, a, nested)
  {
    match a
    case Post(t, target) =>
      s.At(t, WantScan(Call(s.nextCall, target, |s.ops|))).(nextCall := s.nextCall + 1)
    case Begin(t, op, id) => s.At(t, WantLife(op, id))
    case Exit(t) => s.At(t, Exited)
    case Advance(t) => if s.Pc(t).InLifecycle() then LifeStep(s, t) else CallStep(s, t)
  }

  /** The next step of PostTaskHelper on thread `t`. */
  ghost function CallStep(s: State, t: Tid): State
    requires s.reg.WellFormed() && s.Pc(t).InCall() && PcInRange(s, s.Pc(t))
  {
    match s.Pc(t)
    case WantScan(c) => s.At(t, Scanning(c, 0)).(lock := Some(t))
    case Scanning(c, i) =>
      if i == |s.reg.runners| then s.At(t, Scanned(c, None))
      else if s.reg.runners[i] == Some(t) then s.At(t, Scanned(c, Some(i)))
      else s.At(t, Scanning(c, i + 1))
    case Scanned(c, found) =>
      (if found.Some? && found.value >= c.target then s.At(t, ReadState(c, Elided(found.value)))
       else s.At(t, WantLock(c))).(lock := None)
    case WantLock(c) => s.At(t, ReadState(c, Locked)).(lock := Some(t))
    case ReadState(c, via) =>
      if s.reg.states[c.target] == RUNNING then s.At(t, ReadRunner(c, via))
      else s.At(t, Leaving(c, via, false)).(ops := s.ops + [OpPost(c.target, c.call, false)])
    case ReadRunner(c, via) => s.At(t, HandOver(c, via, s.reg.runners[c.target]))
    case HandOver(c, via, r) =>
      s.At(t, Leaving(c, via, true)).(
        reg := if r.Some? then s.reg.(delivered := s.reg.delivered + [Delivery(c.call, r.value)]) else s.reg,
        ops := s.ops + [OpPost(c.target, c.call, true)])
    case Leaving(c, via, result) =>
      s.At(t, Idle).(
        lock := if via.Locked? then None else s.lock,
        done := s.done + [Done(c, result, |s.ops|)])
    case _ => s
  }

  /** The next step of the constructor, the destructor or the reset on thread `t`. */
  ghost function LifeStep(s: State, t: Tid): State
    requires s.reg.WellFormed() && s.Pc(t).InLifecycle() && PcInRange(s, s.Pc(t))
  {
    match s.Pc(t)
    case WantLife(op, id) => s.At(t, WriteState(op, id)).(lock := Some(t))
    case WriteState(op, id) =>
      (match op
       case Construct(_) => s.At(t, WriteRunner(op, id)).(reg := s.reg.(states := s.reg.states[id := RUNNING]))
       case Destroy =>
         s.At(t, UnlockLife(op, id)).(reg := s.reg.ShutDown(id), ops := s.ops + [OpShutDown(id)])
       case Reset => s.At(t, WriteRunner(op, id)).(reg := s.reg.(states := s.reg.states[id := UNINITIALIZED])))
    case WriteRunner(op, id) =>
      var runner := if op.Construct? then Some(op.runner) else None;
      s.At(t, UnlockLife(op, id)).(
        reg := s.reg.(runners := s.reg.runners[id := runner]),
        ops := s.ops + [if op.Construct? then OpRegister(id, op.runner) else OpClear(id)])
    case UnlockLife(_, _) => s.At(t, Idle).(lock := None)
    case _ => s
  }

  /** The state after a run from `n` empty slots; None if some action was not enabled. */
  ghost function Run(n: nat, h: History<Action>, nested: bool): Option<State> {
    match h
    case Start => Some(Initial(n))
    case Then(before, a) =>
      var s := Run(n, before, nested);
      if s.Some? && Enabled(s.value, a, nested) then Some(Next(s.value, a, nested)) else None
  }

  // ---------------------------------------------------------------------------
  // What every step keeps

  /** The slot `i` is between its two writes. */
  predicate HalfWritten(s: State, i: nat) {
    s.lock.Some? && s.Pc(s.lock.value).WriteRunner? && s.Pc(s.lock.value).id == i
  }

  /** A runner is stored exactly in the states RUNNING and SHUTDOWN, but for a slot that
      is half written under the lock; the IDs in use form a prefix. */
  ghost predicate SlotInv(s: State) {
    && s.reg.WellFormed()
    && (forall i :: 0 <= i < |s.reg.states| ==>
          HalfWritten(s, i) || (s.reg.runners[i].Some? <==> s.reg.states[i] != UNINITIALIZED))
    && (forall i, j :: 0 <= i < j < |s.reg.states| && s.reg.states[i] == UNINITIALIZED ==>
                         s.reg.states[j] == UNINITIALIZED)
  }

  /** A lifecycle call in flight: its DCHECKs hold until its first write, and no live
      thread but its own runs on the slots that it is allowed to disturb. */
  ghost predicate LifeInv(s: State, t: Tid, pc: Pc)
    requires s.reg.WellFormed() && PcInRange(s, pc) && pc.InLifecycle()
  {
    && (pc.WantLife? || pc.WriteState? ==>
          && LifePre(s.reg, t, pc.op, pc.id)
          && forall j :: pc.id <= j < |s.reg.states| ==> Gone(s, t, s.reg.runners[j]))
    && (pc.op.Construct? ==> forall j :: 0 <= j < pc.id ==> s.reg.states[j] == RUNNING)
    && (pc.op.Reset? ==> forall j :: pc.id < j < |s.reg.states| ==> s.reg.states[j] == UNINITIALIZED)
    && (pc.WriteRunner? ==>
          && !pc.op.Destroy?
          && s.reg.states[pc.id] == (if pc.op.Construct? then RUNNING else UNINITIALIZED)
          && (pc.op.Construct? ==> s.reg.runners[pc.id].None?))
  }

  /** A call in flight: what its scan found is true, and what it read about the target
      stays true until it has handed its task over. */
  ghost predicate CallInv(s: State, t: Tid, pc: Pc)
    requires s.reg.WellFormed() && PcInRange(s, pc) && pc.InCall()
  {
    && (pc.Scanning? ==> FirstRunnerOf(s.reg.runners, t, 0) == FirstRunnerOf(s.reg.runners, t, pc.i))
    && (pc.Scanned? ==> pc.found == FirstRunnerOf(s.reg.runners, t, 0))
    && (pc.InElision() ==> pc.c.target <= pc.via.current < |s.reg.runners| && s.reg.runners[pc.via.current] == Some(t))
    && (pc.ReadRunner? || pc.HandOver? ==> s.reg.Accepts(pc.c.target))
    && (pc.HandOver? ==> pc.runner == s.reg.runners[pc.c.target])
  }

  ghost predicate ThreadInv(s: State, t: Tid)
    requires s.reg.WellFormed()
  {
    var pc := s.Pc(t);
    && PcInRange(s, pc)
    && (pc.HoldsLock() <==> s.lock == Some(t))
    && (pc.InLifecycle() ==> LifeInv(s, t, pc))
    && (pc.InCall() ==> CallInv(s, t, pc))
  }

  /** Lifecycle calls do not overlap, and none works on a slot at or below which a
      poster has elided the lock. */
  ghost predicate PairInv(s: State, t: Tid, u: Tid) {
    t != u && s.Pc(u).InLifecycle() ==>
      !s.Pc(t).InLifecycle() && (s.Pc(t).InElision() ==> s.Pc(t).via.current < s.Pc(u).id)
  }

  ghost predicate Inv(s: State) {
    && SlotInv(s)
    && (forall t: Tid :: ThreadInv(s, t))
    && (forall t: Tid, u: Tid :: PairInv(s, t, u))
  }

  lemma GoneStays(s: State, s': State, t: Tid, a: Action)
    requires Enabled(s, a, true) && s' == Next(s, a, true)
    ensures forall r :: Gone(s, t, r) ==> Gone(s', t, r)
  {
  }

  // The thread that steps.

  lemma ThreadInvFrame(s: State, s': State, u: Tid)
    requires s.reg.WellFormed() && ThreadInv(s, u)
    requires s'.reg.states == s.reg.states && s'.reg.runners == s.reg.runners
    requires s'.Pc(u) == s.Pc(u) && (s'.lock == Some(u) <==> s.lock == Some(u))
    requires forall r :: Gone(s, u, r) ==> Gone(s', u, r)
    ensures ThreadInv(s', u)
  {
  }

  /** A call, an exit or a lifecycle call begins: the registry and the lock stay. */
  lemma NewPcOwn(s: State, a: Action)
    requires Inv(s) && Enabled(s, a, true) && !a.Advance?
    ensures ThreadInv(Next(s, a, true), a.t)
  {
    assert ThreadInv(s, a.t);
    if a.Begin? {
      BeginOwn(s, a);
    }
  }

  lemma BeginOwn(s: State, a: Action)
    requires Inv(s) && Enabled(s, a, true) && a.Begin? && ThreadInv(s, a.t)
    ensures ThreadInv(Next(s, a, true), a.t)
  {
    GoneStays(s, Next(s, a, true), a.t, a);
    assert !HalfWritten(s, a.id) by {
      assert s.lock.Some? ==> ThreadInv(s, s.lock.value);
    }
  }

  lemma NewPcOther(s: State, a: Action, u: Tid)
    requires Inv(s) && Enabled(s, a, true) && !a.Advance? && u != a.t
    ensures ThreadInv(Next(s, a, true), u)
  {
    assert ThreadInv(s, u);
    GoneStays(s, Next(s, a, true), u, a);
    ThreadInvFrame(s, Next(s, a, true), u);
  }

  lemma NewPcPair(s: State, a: Action, u: Tid, v: Tid)
    requires Inv(s) && Enabled(s, a, true) && !a.Advance?
    ensures PairInv(Next(s, a, true), u, v)
  {
    assert PairInv(s, u, v) && ThreadInv(s, u);
  }

  lemma NewPcSlots(s: State, a: Action)
    requires Inv(s) && Enabled(s, a, true) && !a.Advance?
    ensures SlotInv(Next(s, a, true))
  {
    assert ThreadInv(s, a.t);
    var s' := Next(s, a, true);
    assert s'.reg == s.reg && s'.lock == s.lock;
    assert s.lock.Some? ==> s'.Pc(s.lock.value) == s.Pc(s.lock.value);
  }

  lemma NewPcStep(s: State, a: Action)
    requires Inv(s) && Enabled(s, a, true) && !a.Advance?
    ensures Inv(Next(s, a, true))
  {
    var s' := Next(s, a, true);
    NewPcSlots(s, a);
    NewPcOwn(s, a);
    forall u: Tid | u != a.t ensures ThreadInv(s', u) { NewPcOther(s, a, u); }
    forall u: Tid, v: Tid ensures PairInv(s', u, v) { NewPcPair(s, a, u, v); }
  }

  lemma CallStepSlots(s: State, t: Tid)
    requires Inv(s) && Enabled(s, Advance(t), true) && s.Pc(t).InCall()
    ensures SlotInv(CallStep(s, t))
  {
    assert ThreadInv(s, t);
    CallStepKeepsSlots(s, t);
  }

  /** The target of a poster that is about to look at it is not half written. */
  lemma TargetIsWhole(s: State, t: Tid)
    requires Inv(s) && s.Pc(t).Reads()
    ensures PcInRange(s, s.Pc(t)) && !HalfWritten(s, s.Pc(t).c.target)
  {
    assert ThreadInv(s, t);
    if s.lock.Some? {
      assert PairInv(s, t, s.lock.value);
    }
  }

  lemma ScanStepOwn(s: State, t: Tid)
    requires Inv(s) && Enabled(s, Advance(t), true)
    requires s.Pc(t).WantScan? || s.Pc(t).Scanning? || s.Pc(t).Scanned? || s.Pc(t).WantLock?
    ensures CallStep(s, t).reg.WellFormed() && ThreadInv(CallStep(s, t), t)
  {
    assert ThreadInv(s, t);
  }

  lemma ReadStepOwn(s: State, t: Tid)
    requires Inv(s) && Enabled(s, Advance(t), true) && (s.Pc(t).Reads() || s.Pc(t).Leaving?)
    ensures CallStep(s, t).reg.WellFormed() && ThreadInv(CallStep(s, t), t)
  {
    assert ThreadInv(s, t);
    if s.Pc(t).Reads() {
      TargetIsWhole(s, t);
    }
  }

  /** A call changes no slot. */
  lemma CallStepKeepsSlots(s: State, t: Tid)
    requires s.reg.WellFormed() && s.Pc(t).InCall() && PcInRange(s, s.Pc(t))
    ensures var s' := CallStep(s, t);
      s'.reg.states == s.reg.states && s'.reg.runners == s.reg.runners && forall u: Tid | u != t :: s'.Pc(u) == s.Pc(u)
  {
  }

  lemma CallStepOther(s: State, t: Tid, u: Tid)
    requires Inv(s) && Enabled(s, Advance(t), true) && s.Pc(t).InCall() && u != t
    ensures ThreadInv(CallStep(s, t), u)
  {
    assert ThreadInv(s, t) && ThreadInv(s, u);
    CallStepKeepsSlots(s, t);
    GoneStays(s, CallStep(s, t), u, Advance(t));
    ThreadInvFrame(s, CallStep(s, t), u);
  }

  /** A poster that elides the lock has not seen an ID that a lifecycle call works on. */
  lemma FoundBelowLifecycle(s: State, t: Tid, v: Tid)
    requires Inv(s) && t != v && s.Pc(t).Scanned? && s.Pc(t).found.Some? && s.Pc(v).InLifecycle()
    ensures s.Pc(t).found.value < s.Pc(v).id
  {
    assert ThreadInv(s, t) && ThreadInv(s, v);
    assert s.Pc(v).WantLife?;
    var found := s.Pc(t).found.value;
    assert s.Pc(v).id <= found ==> Gone(s, v, s.reg.runners[found]);
  }

  lemma CallStepPair(s: State, t: Tid, u: Tid, v: Tid)
    requires Inv(s) && Enabled(s, Advance(t), true) && s.Pc(t).InCall()
    ensures PairInv(CallStep(s, t), u, v)
  {
    assert PairInv(s, u, v);
    CallStepKeepsSlots(s, t);
    if u == t && u != v && s.Pc(t).Scanned? && s.Pc(t).found.Some? && s.Pc(v).InLifecycle() {
      FoundBelowLifecycle(s, t, v);
    }
  }

  lemma LifeStepOwn(s: State, t: Tid)
    requires Inv(s) && Enabled(s, Advance(t), true) && s.Pc(t).InLifecycle()
    ensures SlotInv(LifeStep(s, t)) && ThreadInv(LifeStep(s, t), t)
  {
    assert ThreadInv(s, t);
    GoneStays(s, LifeStep(s, t), t, Advance(t));
  }

  lemma LifeStepOther(s: State, t: Tid, u: Tid)
    requires Inv(s) && Enabled(s, Advance(t), true) && s.Pc(t).InLifecycle() && u != t
    ensures ThreadInv(LifeStep(s, t), u)
  {
    assert ThreadInv(s, t) && ThreadInv(s, u) && PairInv(s, u, t);
  }

  lemma LifeStepPair(s: State, t: Tid, u: Tid, v: Tid)
    requires Inv(s) && Enabled(s, Advance(t), true) && s.Pc(t).InLifecycle()
    ensures PairInv(LifeStep(s, t), u, v)
  {
    assert PairInv(s, u, v);
  }

  lemma AdvanceStep(s: State, t: Tid)
    requires Inv(s) && Enabled(s, Advance(t), true)
    ensures Inv(Next(s, Advance(t), true))
  {
    var s' := Next(s, Advance(t), true);
    if s.Pc(t).InLifecycle() {
      LifeStepOwn(s, t);
      forall u: Tid | u != t ensures ThreadInv(s', u) { LifeStepOther(s, t, u); }
      forall u: Tid, v: Tid ensures PairInv(s', u, v) { LifeStepPair(s, t, u, v); }
    } else {
      CallStepSlots(s, t);
      if s.Pc(t).Reads() || s.Pc(t).Leaving? {
        ReadStepOwn(s, t);
      } else {
        ScanStepOwn(s, t);
      }
      forall u: Tid | u != t ensures ThreadInv(s', u) { CallStepOther(s, t, u); }
      forall u: Tid, v: Tid ensures PairInv(s', u, v) { CallStepPair(s, t, u, v); }
    }
  }

  lemma StepKeepsInv(s: State, a: Action)
    requires Inv(s) && Enabled(s, a, true)
    ensures Inv(Next(s, a, true))
  {
    if a.Advance? {
      AdvanceStep(s, a.t);
    } else {
      NewPcStep(s, a);
    }
  }

  lemma {:induction false} RunKeepsInv(n: nat, h: History<Action>)
    requires Run(n, h, true).Some?
    ensures Inv(Run(n, h, true).value) && |Run(n, h, true).value.reg.states| == n
  {
    match h
    case Start =>
    case Then(before, a) =>
      RunKeepsInv(n, before);
      StepKeepsInv(Run(n, before, true).value, a);
  }

  // ---------------------------------------------------------------------------
  // The elision is sound

  /** Thread `t` is about to read a slot that another thread is about to write. */
  ghost predicate Conflict(s: State, t: Tid, u: Tid) {
    && t != u
    && (s.Pc(u).WriteState? || s.Pc(u).WriteRunner?)
    && ((s.Pc(t).Reads() && s.Pc(t).c.target == s.Pc(u).id) || (s.Pc(t).Scanning? && s.Pc(t).i == s.Pc(u).id))
  }

  /** In every interleaving no slot is read, with or without the lock, while it is written. */
  lemma NoRace(n: nat, h: History<Action>, t: Tid, u: Tid)
    requires Run(n, h, true).Some?
    ensures !Conflict(Run(n, h, true).value, t, u)
  {
    RunKeepsInv(n, h);
    var s := Run(n, h, true).value;
    assert ThreadInv(s, t) && ThreadInv(s, u) && PairInv(s, t, u);
  }

  /** With runners on distinct threads the lock is elided exactly if the caller has an ID at
      or above the target, which then outlives it; otherwise the lock is taken. */
  lemma ElidesIffOutlived(n: nat, h: History<Action>, t: Tid)
    requires Run(n, h, true).Some? && Run(n, h, true).value.Pc(t).Scanned?
    requires DistinctRunners(Run(n, h, true).value.reg.runners)
    ensures var s := Run(n, h, true).value;
      && Enabled(s, Advance(t), true)
      && var c, pc := s.Pc(t).c, Next(s, Advance(t), true).Pc(t);
      && (pc.ReadState? && pc.via.Elided? <==>
            exists i :: c.target <= i < |s.reg.runners| && s.reg.runners[i] == Some(t))
      && (pc.ReadState? || pc == WantLock(c))
  {
    RunKeepsInv(n, h);
    assert ThreadInv(Run(n, h, true).value, t);
  }

  /** The state after running on from `s`. */
  ghost function RunOn(s: State, h: History<Action>): Option<State> {
    match h
    case Start => Some(s)
    case Then(before, a) =>
      var s' := RunOn(s, before);
      if s'.Some? && Enabled(s'.value, a, true) then Some(Next(s'.value, a, true)) else None
  }

  predicate Without(h: History<Action>, t: Tid) {
    match h
    case Start => true
    case Then(before, a) => a.t != t && Without(before, t)
  }

  /** A lifecycle step changes its own slot only. */
  lemma LifeStepKeepsOtherSlots(s: State, u: Tid, id: nat)
    requires s.reg.WellFormed() && s.Pc(u).InLifecycle() && PcInRange(s, s.Pc(u)) && id < |s.reg.states|
    requires s.Pc(u).id != id
    ensures LifeStep(s, u).reg.WellFormed() && |LifeStep(s, u).reg.states| == |s.reg.states|
    ensures LifeStep(s, u).reg.states[id] == s.reg.states[id] && LifeStep(s, u).reg.runners[id] == s.reg.runners[id]
  {
  }

  /** One step of another thread leaves alone the slots that `t` reads without the lock. */
  lemma OthersKeepElidedSlot(s: State, t: Tid, a: Action)
    requires Inv(s) && s.Pc(t).InElision() && Enabled(s, a, true) && a.t != t
    ensures Inv(Next(s, a, true)) && Next(s, a, true).Pc(t) == s.Pc(t)
    ensures PcInRange(s, s.Pc(t)) && PcInRange(Next(s, a, true), s.Pc(t))
    ensures var s', id := Next(s, a, true), s.Pc(t).c.target;
      s'.reg.states[id] == s.reg.states[id] && s'.reg.runners[id] == s.reg.runners[id]
  {
    StepKeepsInv(s, a);
    assert ThreadInv(s, t) && PairInv(s, t, a.t);
    if a.Advance? {
      if s.Pc(a.t).InLifecycle() {
        LifeStepKeepsOtherSlots(s, a.t, s.Pc(t).c.target);
      } else {
        CallStepKeepsSlots(s, a.t);
      }
    }
  }

  /** An unlocked read returns what a locked read would: from the moment the lock is
      elided, whatever the other threads do, and so also at every later moment at which
      the lock is free, the target's slots hold the value they hold now. */
  lemma {:induction false} ElidedReadIsLockedRead(s: State, t: Tid, h: History<Action>)
    requires Inv(s) && s.Pc(t).InElision() && RunOn(s, h).Some? && Without(h, t)
    ensures Inv(RunOn(s, h).value) && RunOn(s, h).value.Pc(t) == s.Pc(t)
    ensures PcInRange(s, s.Pc(t)) && PcInRange(RunOn(s, h).value, s.Pc(t))
    ensures var s', id := RunOn(s, h).value, s.Pc(t).c.target;
      s'.reg.states[id] == s.reg.states[id] && s'.reg.runners[id] == s.reg.runners[id]
  {
    assert ThreadInv(s, t);
    match h
    case Start =>
    case Then(before, a) =>
      ElidedReadIsLockedRead(s, t, before);
      OthersKeepElidedSlot(RunOn(s, before).value, t, a);
  }

  // ---------------------------------------------------------------------------
  // Every call is linearizable

  /** The atomic registry after the operations of `s` is the concrete one, but for the
      slot that is half written; that slot still has its old value there. */
  ghost predicate Refines(s: State, n: nat) {
    && s.reg.WellFormed() && |s.reg.states| == n
    && After(n, s.ops).Some?
    && var atomic := After(n, s.ops).value;
    && atomic.delivered == s.reg.delivered
    && atomic.runners == s.reg.runners
    && forall i :: 0 <= i < n ==>
         atomic.states[i] == if HalfWritten(s, i) then StateBefore(s.Pc(s.lock.value).op) else s.reg.states[i]
  }

  function StateBefore(op: LifeOp): ThreadState {
    if op.Construct? then UNINITIALIZED else if op.Destroy? then RUNNING else SHUTDOWN
  }

  lemma OneMoreOp(n: nat, ops: seq<RegistryOp>, op: RegistryOp)
    ensures var reg := After(n, ops);
      After(n, ops + [op]) == if reg.Some? && Allowed(reg.value, op) then Some(Applied(reg.value, op)) else None
  {
    assert (ops + [op])[..|ops|] == ops;
  }

  lemma CallStepRefines(s: State, t: Tid, n: nat)
    requires Inv(s) && Refines(s, n) && Enabled(s, Advance(t), true) && s.Pc(t).InCall()
    ensures Refines(CallStep(s, t), n)
  {
    assert ThreadInv(s, t);
    CallStepKeepsHalf(s, t);
    if s.Pc(t).Reads() {
      PostRefines(s, t, n);
    }
  }

  /** A step of a call leaves the slot that is half written as it is. */
  lemma CallStepKeepsHalf(s: State, t: Tid)
    requires s.reg.WellFormed() && s.Pc(t).InCall() && PcInRange(s, s.Pc(t)) && ThreadInv(s, t)
    requires s.Pc(t).WantScan? || s.Pc(t).WantLock? ==> s.lock.None?
    ensures forall i {:trigger HalfWritten(CallStep(s, t), i)} :: HalfWritten(CallStep(s, t), i) <==> HalfWritten(s, i)
    ensures s.lock.Some? && s.Pc(s.lock.value).WriteRunner? ==>
              CallStep(s, t).lock == s.lock && CallStep(s, t).Pc(s.lock.value) == s.Pc(s.lock.value)
  {
  }

  /** The registry accepts or refuses a post whose thread is about to act on what it read. */
  lemma ReadIsRight(s: State, t: Tid, n: nat)
    requires Inv(s) && Refines(s, n) && Enabled(s, Advance(t), true) && s.Pc(t).Reads()
    ensures var atomic, pc := After(n, s.ops).value, s.Pc(t);
      && atomic.WellFormed() && pc.c.target < |atomic.states|
      && (pc.ReadState? ==> atomic.states[pc.c.target] == s.reg.states[pc.c.target])
      && (pc.HandOver? ==> atomic.Accepts(pc.c.target) && pc.runner == atomic.runners[pc.c.target])
  {
    assert ThreadInv(s, t);
    TargetIsWhole(s, t);
  }

  /** A post refines the atomic post, or does nothing yet. */
  lemma PostRefines(s: State, t: Tid, n: nat)
    requires Inv(s) && Refines(s, n) && Enabled(s, Advance(t), true) && s.Pc(t).Reads()
    ensures (CallStep(s, t).ops == s.ops && CallStep(s, t).reg == s.reg)
            || After(n, CallStep(s, t).ops) == Some(After(n, s.ops).value.(delivered := CallStep(s, t).reg.delivered))
  {
    ReadIsRight(s, t, n);
    OneMoreOp(n, s.ops, OpPost(s.Pc(t).c.target, s.Pc(t).c.call, s.Pc(t).HandOver?));
  }

  lemma LifeStepRefines(s: State, t: Tid, n: nat)
    requires Inv(s) && Refines(s, n) && Enabled(s, Advance(t), true) && s.Pc(t).InLifecycle()
    ensures Refines(LifeStep(s, t), n)
  {
    assert ThreadInv(s, t);
    var pc := s.Pc(t);
    if pc.WriteState? && pc.op.Destroy? {
      OneMoreOp(n, s.ops, OpShutDown(pc.id));
    } else if pc.WriteRunner? {
      OneMoreOp(n, s.ops, if pc.op.Construct? then OpRegister(pc.id, pc.op.runner) else OpClear(pc.id));
    }
  }

  lemma {:induction false} RunRefines(n: nat, h: History<Action>)
    requires Run(n, h, true).Some?
    ensures Refines(Run(n, h, true).value, n)
  {
    match h
    case Start =>
    case Then(before, a) =>
      RunKeepsInv(n, before);
      RunRefines(n, before);
      var s := Run(n, before, true).value;
      if a.Advance? {
        if s.Pc(a.t).InLifecycle() {
          LifeStepRefines(s, a.t, n);
        } else {
          CallStepRefines(s, a.t, n);
        }
      } else {
        assert ThreadInv(s, a.t);
      }
  }

  /** Call `c` took effect exactly once, with `result`, at an operation numbered from
      `c.since` up to `until`. */
  ghost predicate TookEffect(ops: seq<RegistryOp>, c: Call, result: bool, until: nat) {
    exists k ::
      && c.since <= k < until <= |ops|
      && ops[k] == OpPost(c.target, c.call, result)
      && forall j :: 0 <= j < |ops| && j != k ==> !IsPostOf(ops[j], c.call)
  }

  ghost predicate NoEffectYet(ops: seq<RegistryOp>, c: Call) {
    c.since <= |ops| && forall j :: 0 <= j < |ops| ==> !IsPostOf(ops[j], c.call)
  }

  /** The calls made so far, each in its place between its invocation and its return. */
  ghost predicate CallsInv(s: State) {
    && (forall j :: 0 <= j < |s.ops| && s.ops[j].OpPost? ==> s.ops[j].task < s.nextCall)
    && (forall t: Tid :: s.Pc(t).InCall() ==> CallInFlight(s, s.Pc(t)))
    && (forall t: Tid, u: Tid :: CallsDiffer(s, t, u))
    && (forall i :: 0 <= i < |s.done| ==> CallDone(s, s.done[i]))
  }

  predicate CallsDiffer(s: State, t: Tid, u: Tid) {
    s.Pc(t).InCall() && s.Pc(u).InCall() && t != u ==> s.Pc(t).c.call != s.Pc(u).c.call
  }

  ghost predicate CallInFlight(s: State, pc: Pc)
    requires pc.InCall()
  {
    && pc.c.call < s.nextCall
    && (if pc.Leaving? then TookEffect(s.ops, pc.c, pc.result, |s.ops|) else NoEffectYet(s.ops, pc.c))
  }

  ghost predicate CallDone(s: State, d: Done) {
    d.c.call < s.nextCall && TookEffect(s.ops, d.c, d.result, d.until)
  }

  /** An operation of another call does not disturb a call that took effect. */
  lemma TookEffectStays(ops: seq<RegistryOp>, op: RegistryOp, c: Call, result: bool, until: nat)
    requires TookEffect(ops, c, result, until) && !IsPostOf(op, c.call)
    ensures TookEffect(ops + [op], c, result, until)
  {
    var k :| c.since <= k < until <= |ops| && ops[k] == OpPost(c.target, c.call, result)
             && forall j :: 0 <= j < |ops| && j != k ==> !IsPostOf(ops[j], c.call);
    assert (ops + [op])[k] == ops[k];
  }

  lemma InFlightStays(s: State, s': State, pc: Pc, op: RegistryOp)
    requires pc.InCall() && CallInFlight(s, pc) && !IsPostOf(op, pc.c.call)
    requires s'.ops == s.ops + [op] && s'.nextCall >= s.nextCall
    ensures CallInFlight(s', pc)
  {
    if pc.Leaving? {
      TookEffectStays(s.ops, op, pc.c, pc.result, |s.ops|);
    }
  }

  lemma DoneStays(s: State, s': State, d: Done, op: RegistryOp)
    requires CallDone(s, d) && !IsPostOf(op, d.c.call)
    requires s'.ops == s.ops + [op] && s'.nextCall >= s.nextCall
    ensures CallDone(s', d)
  {
    TookEffectStays(s.ops, op, d.c, d.result, d.until);
  }

  /** The post that a call performs is its first. */
  lemma CallTakesEffect(s: State, c: Call, result: bool)
    requires NoEffectYet(s.ops, c)
    ensures TookEffect(s.ops + [OpPost(c.target, c.call, result)], c, result, |s.ops| + 1)
  {
    var ops := s.ops + [OpPost(c.target, c.call, result)];
    assert ops[|s.ops|] == OpPost(c.target, c.call, result);
  }

  lemma PostKeepsCalls(s: State, a: Action)
    requires CallsInv(s) && Enabled(s, a, true) && a.Post?
    ensures CallsInv(Next(s, a, true))
  {
    var s' := Next(s, a, true);
    forall u: Tid, v: Tid ensures CallsDiffer(s', u, v) {
      assert CallsDiffer(s, u, v);
      assert s.Pc(u).InCall() ==> CallInFlight(s, s.Pc(u));
      assert s.Pc(v).InCall() ==> CallInFlight(s, s.Pc(v));
    }
    forall t: Tid | s'.Pc(t).InCall() ensures CallInFlight(s', s'.Pc(t)) {
      if t != a.t {
        assert CallInFlight(s, s.Pc(t));
      }
    }
    forall i | 0 <= i < |s'.done| ensures CallDone(s', s'.done[i]) {
      assert CallDone(s, s.done[i]);
    }
  }

  /** A step of a lifecycle call is at most one operation, which is no post. */
  lemma LifecycleShape(s: State, a: Action)
    requires Enabled(s, a, true)
    requires a.Begin? || a.Exit? || (a.Advance? && s.Pc(a.t).InLifecycle())
    ensures var s' := Next(s, a, true);
      && s'.nextCall == s.nextCall && s'.done == s.done
      && (forall t: Tid :: s'.Pc(t).InCall() ==> s'.Pc(t) == s.Pc(t))
      && (s'.ops == s.ops
          || (|s'.ops| == |s.ops| + 1 && s'.ops == s.ops + [s'.ops[|s.ops|]] && !s'.ops[|s.ops|].OpPost?))
  {
  }

  lemma LifecycleKeepsCalls(s: State, a: Action)
    requires CallsInv(s) && Enabled(s, a, true)
    requires a.Begin? || a.Exit? || (a.Advance? && s.Pc(a.t).InLifecycle())
    ensures CallsInv(Next(s, a, true))
  {
    LifecycleShape(s, a);
    OtherOpKeepsCalls(s, Next(s, a, true));
  }

  lemma OtherOpKeepsCalls(s: State, s': State)
    requires CallsInv(s) && s'.nextCall == s.nextCall && s'.done == s.done
    requires forall t: Tid :: s'.Pc(t).InCall() ==> s'.Pc(t) == s.Pc(t)
    requires s'.ops == s.ops
             || (|s'.ops| == |s.ops| + 1 && s'.ops == s.ops + [s'.ops[|s.ops|]] && !s'.ops[|s.ops|].OpPost?)
    ensures CallsInv(s')
  {
    forall u: Tid, v: Tid ensures CallsDiffer(s', u, v) {
      assert CallsDiffer(s, u, v);
    }
    forall t: Tid | s'.Pc(t).InCall() ensures CallInFlight(s', s'.Pc(t)) {
      assert CallInFlight(s, s.Pc(t));
      if s'.ops != s.ops {
        InFlightStays(s, s', s.Pc(t), s'.ops[|s.ops|]);
      }
    }
    forall i | 0 <= i < |s'.done| ensures CallDone(s', s'.done[i]) {
      assert CallDone(s, s.done[i]);
      if s'.ops != s.ops {
        DoneStays(s, s', s.done[i], s'.ops[|s.ops|]);
      }
    }
  }

  /** A step of a call that is not its effect: it goes on, or returns if it had its effect. */
  lemma SilentShape(s: State, t: Tid)
    requires s.reg.WellFormed() && s.Pc(t).InCall() && PcInRange(s, s.Pc(t)) && CallStep(s, t).ops == s.ops
    ensures var s', pc := CallStep(s, t), s.Pc(t);
      && s'.nextCall == s.nextCall && (forall u: Tid | u != t :: s'.Pc(u) == s.Pc(u))
      && if pc.Leaving? then s'.Pc(t).Idle? && s'.done == s.done + [Done(pc.c, pc.result, |s.ops|)]
         else s'.Pc(t).InCall() && !s'.Pc(t).Leaving? && s'.Pc(t).c == pc.c && s'.done == s.done
  {
  }

  lemma SilentStepKeepsCalls(s: State, t: Tid)
    requires CallsInv(s) && Enabled(s, Advance(t), true) && s.Pc(t).InCall()
    requires CallStep(s, t).ops == s.ops
    ensures CallsInv(CallStep(s, t))
  {
    var s' := CallStep(s, t);
    SilentShape(s, t);
    assert CallInFlight(s, s.Pc(t));
    forall u: Tid, v: Tid ensures CallsDiffer(s', u, v) {
      assert CallsDiffer(s, u, v);
    }
    forall u: Tid | s'.Pc(u).InCall() ensures CallInFlight(s', s'.Pc(u)) {
      assert CallInFlight(s, s.Pc(u));
    }
    forall i | 0 <= i < |s'.done| ensures CallDone(s', s'.done[i]) {
      if i < |s.done| {
        assert CallDone(s, s.done[i]);
      }
    }
  }

  lemma EffectKeepsCalls(s: State, t: Tid)
    requires CallsInv(s) && Enabled(s, Advance(t), true) && s.Pc(t).InCall()
    requires CallStep(s, t).ops != s.ops
    ensures CallsInv(CallStep(s, t))
  {
    var s' := CallStep(s, t);
    forall u: Tid, v: Tid ensures CallsDiffer(s', u, v) {
      assert CallsDiffer(s, u, v);
    }
    var c, op := s.Pc(t).c, s'.ops[|s.ops|];
    assert CallInFlight(s, s.Pc(t));
    CallTakesEffect(s, c, op.accepted);
    forall u: Tid | s'.Pc(u).InCall() ensures CallInFlight(s', s'.Pc(u)) {
      if u != t {
        assert CallInFlight(s, s.Pc(u)) && CallsDiffer(s, u, t);
        InFlightStays(s, s', s.Pc(u), op);
      }
    }
    forall i | 0 <= i < |s'.done| ensures CallDone(s', s'.done[i]) {
      assert CallDone(s, s.done[i]);
      DoneStays(s, s', s.done[i], op);
    }
  }

  lemma {:induction false} RunKeepsCalls(n: nat, h: History<Action>)
    requires Run(n, h, true).Some?
    ensures CallsInv(Run(n, h, true).value)
  {
    match h
    case Start =>
    case Then(before, a) =>
      RunKeepsCalls(n, before);
      var s := Run(n, before, true).value;
      if a.Post? {
        PostKeepsCalls(s, a);
      } else if !a.Advance? || s.Pc(a.t).InLifecycle() {
        LifecycleKeepsCalls(s, a);
      } else if CallStep(s, a.t).ops == s.ops {
        SilentStepKeepsCalls(s, a.t);
      } else {
        EffectKeepsCalls(s, a.t);
      }
  }

  /** Operation `k` of a legal history is the one post of its task: it says whether the
      registry accepted the task at that point, and the queues hold the task accordingly. */
  lemma OnlyPost(n: nat, ops: seq<RegistryOp>, k: nat)
    requires After(n, ops).Some? && k < |ops| && ops[k].OpPost?
    requires forall j :: 0 <= j < |ops| && j != k ==> !IsPostOf(ops[j], ops[k].task)
    ensures After(n, ops[..k]).Some? && ops[k].id < n
    ensures ops[k].accepted <==> After(n, ops[..k]).value.states[ops[k].id] == RUNNING
    ensures TimesDelivered(After(n, ops).value.delivered, ops[k].task) == if ops[k].accepted then 1 else 0
  {
    AllowedPrefix(n, ops, k + 1);
    assert ops[..k + 1][..k] == ops[..k];
    RegistryFollowsLifecycle(n, ops[..k], ops[k].id);
    DeliveredIffAccepted(n, ops, ops[k].task);
    AcceptedByItsPost(ops, ops[k].task, k);
  }

  /** All that was handed over of a task went to `runner`. */
  predicate HandedTo(delivered: seq<Delivery>, task: nat, runner: Option<Tid>) {
    forall i :: 0 <= i < |delivered| && delivered[i].task == task ==> Some(delivered[i].runner) == runner
  }

  /** It went to the runner that was registered for the target at the post. */
  lemma OnlyRunner(n: nat, ops: seq<RegistryOp>, k: nat)
    requires After(n, ops).Some? && k < |ops| && ops[k].OpPost?
    requires forall j :: 0 <= j < |ops| && j != k ==> !IsPostOf(ops[j], ops[k].task)
    ensures HandedTo(After(n, ops).value.delivered, ops[k].task, LastRunner(ops[..k], ops[k].id))
  {
    var delivered := After(n, ops).value.delivered;
    forall i | 0 <= i < |delivered| && delivered[i].task == ops[k].task
      ensures Some(delivered[i].runner) == LastRunner(ops[..k], ops[k].id)
    {
      var k' := DeliveryHasItsPost(n, ops, i);
    }
  }

  /** The target was RUNNING at operation `k` of the history iff `d` returned true, and what
      was handed over went to the runner registered for it then. */
  ghost predicate LinearizedAt(n: nat, ops: seq<RegistryOp>, d: Done, k: nat) {
    && d.c.since <= k < d.until <= |ops| && After(n, ops).Some?
    && ops[k] == OpPost(d.c.target, d.c.call, d.result)
    && After(n, ops[..k]).Some? && d.c.target < n
    && d.result == (After(n, ops[..k]).value.states[d.c.target] == RUNNING)
    && HandedTo(After(n, ops).value.delivered, d.c.call, LastRunner(ops[..k], d.c.target))
  }

  /** PostTaskHelper is linearizable. Every run corresponds to a legal sequence of
      atomic registry operations that ends in the same queues; a finished call is one
      of them, placed between its invocation and its return; it returned true iff the
      target was RUNNING at that point, and handed over its task once if so, to the
      runner registered for the target at that point, and not at all otherwise. */
  lemma PostTaskIsLinearizable(n: nat, h: History<Action>, i: nat)
    requires Run(n, h, true).Some? && i < |Run(n, h, true).value.done|
    ensures var s := Run(n, h, true).value; var d := s.done[i];
      && After(n, s.ops).Some? && After(n, s.ops).value.delivered == s.reg.delivered
      && (exists k :: LinearizedAt(n, s.ops, d, k))
      && TimesDelivered(s.reg.delivered, d.c.call) == if d.result then 1 else 0
  {
    RunRefines(n, h);
    RunKeepsCalls(n, h);
    var s := Run(n, h, true).value;
    var ops, d := s.ops, s.done[i];
    assert CallDone(s, d);
    var k :| d.c.since <= k < d.until <= |ops| && ops[k] == OpPost(d.c.target, d.c.call, d.result)
             && forall j :: 0 <= j < |ops| && j != k ==> !IsPostOf(ops[j], d.c.call);
    OnlyPost(n, ops, k);
    OnlyRunner(n, ops, k);
    assert LinearizedAt(n, ops, d, k);
  }

  // ---------------------------------------------------------------------------
  // The lifetime order can be kept

  /** Reachable with two IDs, with the lifetime order or when only the DCHECKs are respected. */
  ghost predicate Possible(s: State, nested: bool) {
    exists h :: Run(2, h, nested) == Some(s)
  }

  lemma Follow(s: State, a: Action, nested: bool) returns (s': State)
    requires Possible(s, nested) && Enabled(s, a, nested)
    ensures s' == Next(s, a, nested) && Possible(s', nested)
  {
    s' := Next(s, a, nested);
    var h :| Run(2, h, nested) == Some(s);
    assert Run(2, Then(h, a), nested) == Some(s');
  }

  /** Thread 7 is UI (ID 0), thread 8 is IO (ID 1), no other thread has run. */
  predicate Looks(s: State, reg: Registry, lock: Option<Tid>, ui: Pc, io: Pc) {
    s.reg == reg && s.lock == lock && s.pcs.Keys <= {7, 8} && s.Pc(7) == ui && s.Pc(8) == io
  }

  function UpRegistry(): Registry {
    Registry([RUNNING, RUNNING], [Some(7), Some(8)], [])
  }

  /** The UI thread begins a lifecycle call and takes the lock. */
  lemma Locks(s: State, op: LifeOp, id: nat, io: Pc, nested: bool) returns (s': State)
    requires Possible(s, nested) && Looks(s, s.reg, None, Idle, io) && !io.InLifecycle()
    requires Enabled(s, Begin(7, op, id), nested)
    ensures Possible(s', nested) && Looks(s', s.reg, Some(7), WriteState(op, id), io)
  {
    s' := Follow(s, Begin(7, op, id), nested);
    assert Looks(s', s.reg, None, WantLife(op, id), io);
    s' := Follow(s', Advance(7), nested);
  }

  /** A registration by the UI thread that nobody disturbs. */
  lemma Registers(s: State, runner: Tid, id: nat, nested: bool) returns (s': State)
    requires Possible(s, nested) && Looks(s, s.reg, None, Idle, Idle)
    requires Enabled(s, Begin(7, Construct(runner), id), nested)
    ensures Possible(s', nested) && s'.reg.WellFormed() && Looks(s', s.reg.Register(id, runner), None, Idle, Idle)
  {
    var op := Construct(runner);
    s' := Locks(s, op, id, Idle, nested);
    s' := Follow(s', Advance(7), nested);
    assert Looks(s', s.reg.(states := s.reg.states[id := RUNNING]), Some(7), WriteRunner(op, id), Idle);
    s' := WritesRunner(s', op, id, nested);
    assert s'.reg == s.reg.Register(id, runner);
  }

  lemma WritesRunner(s: State, op: LifeOp, id: nat, nested: bool) returns (s': State)
    requires Possible(s, nested) && s.reg.WellFormed() && id < |s.reg.runners| && op.Construct?
    requires Looks(s, s.reg, Some(7), WriteRunner(op, id), Idle)
    ensures Possible(s', nested) && Looks(s', s.reg.(runners := s.reg.runners[id := Some(op.runner)]), None, Idle, Idle)
  {
    s' := Follow(s, Advance(7), nested);
    var reg := s.reg.(runners := s.reg.runners[id := Some(op.runner)]);
    assert Looks(s', reg, Some(7), UnlockLife(op, id), Idle);
    s' := Follow(s', Advance(7), nested);
  }

  lemma BothUp(nested: bool) returns (s: State)
    ensures Possible(s, nested) && Looks(s, UpRegistry(), None, Idle, Idle)
  {
    s := Initial(2);
    assert Run(2, Start, nested) == Some(s);
    s := Registers(s, 7, 0, nested);
    s := Registers(s, 8, 1, nested);
    assert s.reg == UpRegistry();
  }

  /** IO posts to UI and begins to look for itself. */
  lemma BeginsScan(nested: bool) returns (s: State, c: Call)
    ensures Possible(s, nested) && c.target == 0 && Looks(s, UpRegistry(), Some(8), Idle, Scanning(c, 0))
  {
    s := BothUp(nested);
    s := Follow(s, Post(8, 0), nested);
    c := s.Pc(8).c;
    s := Follow(s, Advance(8), nested);
  }

  lemma Scans(nested: bool) returns (s: State, c: Call)
    ensures Possible(s, nested) && c.target == 0 && Looks(s, UpRegistry(), Some(8), Idle, Scanned(c, Some(1)))
  {
    s, c := BeginsScan(nested);
    s := Follow(s, Advance(8), nested);
    assert Looks(s, UpRegistry(), Some(8), Idle, Scanning(c, 1));
    s := Follow(s, Advance(8), nested);
  }

  /** It finds itself below UI, and elides the lock. */
  lemma Eliding(nested: bool) returns (s: State, c: Call)
    ensures Possible(s, nested) && c.target == 0 && Looks(s, UpRegistry(), None, Idle, ReadState(c, Elided(1)))
  {
    s, c := Scans(nested);
    s := Follow(s, Advance(8), nested);
  }

  /** With the lifetime order kept, a poster gets to read its target without the lock. */
  lemma ElisionHappens()
    ensures exists s :: Possible(s, true) && s.Pc(8).Reads() && s.Pc(8).InElision()
  {
    var s, c := Eliding(true);
  }

  /** A shutdown that nobody disturbs, in the lifetime order: up to its write, */
  lemma BeginsShutDown(s: State, t: Tid, id: nat) returns (s': State)
    requires Possible(s, true) && s.lock.None? && Enabled(s, Begin(t, Destroy, id), true)
    ensures Possible(s', true) && s'.reg == s.reg && s'.lock == Some(t) && s'.Pc(t) == WriteState(Destroy, id)
    ensures forall u: Tid | u != t :: s'.Pc(u) == s.Pc(u)
  {
    s' := Follow(s, Begin(t, Destroy, id), true);
    assert s'.reg == s.reg && s'.lock.None? && s'.Pc(t) == WantLife(Destroy, id);
    s' := Follow(s', Advance(t), true);
  }

  /** and from there on. */
  lemma EndsShutDown(s: State, t: Tid, id: nat) returns (s': State)
    requires Possible(s, true) && s.reg.WellFormed() && id < |s.reg.states|
    requires s.lock == Some(t) && s.Pc(t) == WriteState(Destroy, id)
    ensures Possible(s', true) && s'.reg == s.reg.ShutDown(id) && s'.lock.None? && s'.Pc(t).Idle?
    ensures forall u: Tid | u != t :: s'.Pc(u) == s.Pc(u)
  {
    s' := Follow(s, Advance(t), true);
    assert s'.reg == s.reg.ShutDown(id) && s'.lock == Some(t) && s'.Pc(t) == UnlockLife(Destroy, id);
    s' := Follow(s', Advance(t), true);
  }

  lemma ShutsDown(s: State, t: Tid, id: nat) returns (s': State)
    requires Possible(s, true) && s.lock.None? && Enabled(s, Begin(t, Destroy, id), true)
    ensures Possible(s', true) && s'.reg == s.reg.ShutDown(id) && s'.lock.None?
    ensures forall u: Tid :: s'.Pc(u) == s.Pc(u)
  {
    var s1 := BeginsShutDown(s, t, id);
    s' := EndsShutDown(s1, t, id);
    forall u: Tid ensures s'.Pc(u) == s.Pc(u) {
      assert u != t ==> s1.Pc(u) == s.Pc(u);
    }
  }

  /** IO shuts down on its own thread, which then ends. */
  lemma LowerDown() returns (s: State)
    ensures Possible(s, true) && s.reg == UpRegistry().ShutDown(1) && s.lock.None?
    ensures s.Pc(8).Exited? && forall u: Tid | u != 8 :: s.Pc(u).Idle?
  {
    var s1 := BothUp(true);
    assert forall u: Tid :: s1.Pc(u).Idle?;
    var s2 := ShutsDown(s1, 8, 1);
    s := Follow(s2, Exit(8), true);
    forall u: Tid | u != 8 ensures s.Pc(u).Idle? {
      assert s.Pc(u) == s2.Pc(u) == s1.Pc(u);
    }
  }

  /** With the lifetime order kept, all threads can be shut down. */
  lemma TearDownHappens()
    ensures exists s :: Possible(s, true) && s.reg.states == [SHUTDOWN, SHUTDOWN] && NoLifecycle(s)
  {
    var s := LowerDown();
    s := ShutsDown(s, 7, 0);
    assert s.reg == UpRegistry().ShutDown(1).ShutDown(0);
  }

  // ---------------------------------------------------------------------------
  // The lifetime order is needed

  /** With every DCHECK satisfied but not the lifetime order, UI may shut down under the
      unlocked read: a data race. */
  lemma RaceWithoutLifetimeOrder()
    ensures exists s :: Possible(s, false) && Conflict(s, 8, 7)
  {
    var s, c := Eliding(false);
    s := Locks(s, Destroy, 0, ReadState(c, Elided(1)), false);
    assert Conflict(s, 8, 7);
  }

  /** The next step of thread 8 hands a task over to UI, which has shut down. */
  ghost predicate LateDelivery(s: State) {
    && Enabled(s, Advance(8), false)
    && s.reg.states == [SHUTDOWN, RUNNING]
    && |Next(s, Advance(8), false).reg.delivered| > |s.reg.delivered|
  }

  /** IO has read that UI accepts tasks. */
  lemma ReadyToDeliver() returns (s: State, io: Pc)
    ensures Possible(s, false) && io.HandOver? && io.c.target == 0 && io.runner == Some(7)
    ensures Looks(s, UpRegistry(), None, Idle, io)
  {
    var c;
    s, c := Eliding(false);
    s := Follow(s, Advance(8), false);
    assert Looks(s, UpRegistry(), None, Idle, ReadRunner(c, Elided(1)));
    s := Follow(s, Advance(8), false);
    io := HandOver(c, Elided(1), Some(7));
  }

  /** UI shuts down nevertheless. */
  lemma ShutDownBeforeDelivery() returns (s: State, io: Pc)
    ensures Possible(s, false) && io.HandOver? && io.c.target == 0 && io.runner == Some(7)
    ensures Looks(s, UpRegistry().ShutDown(0), Some(7), UnlockLife(Destroy, 0), io)
  {
    s, io := ReadyToDeliver();
    s := Locks(s, Destroy, 0, io, false);
    s := WritesShutDown(s, io);
  }

  lemma WritesShutDown(s: State, io: Pc) returns (s': State)
    requires Possible(s, false) && Looks(s, UpRegistry(), Some(7), WriteState(Destroy, 0), io)
    ensures Possible(s', false) && Looks(s', UpRegistry().ShutDown(0), Some(7), UnlockLife(Destroy, 0), io)
  {
    s' := Follow(s, Advance(7), false);
  }

  lemma LateDeliveryWithoutLifetimeOrder()
    ensures exists s :: Possible(s, false) && LateDelivery(s)
  {
    var s, io := ShutDownBeforeDelivery();
    assert LateDelivery(s);
  }
}
