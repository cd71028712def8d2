/** The registry of web threads, web/web_thread_impl.cc: the states and task runners of
    the well-known thread IDs.

    `Registry` is the registry as one atomic value, with one function per critical
    section. `WebThreadGlobals` is the object of the source, two arrays that the
    methods update in place. WebThreadModel.dfy refines the same `Registry` by
    interleaved steps of many threads, some of which do not take the lock. */
module WebThreadRegistry {
  import opened Prelude

  datatype ThreadState = UNINITIALIZED | RUNNING | SHUTDOWN

  /** A physical thread. A task runner is identified with the thread it runs tasks on:
      that is what `BelongsToCurrentThread` compares. */
  type Tid = nat

  /** A task handed to the runner of thread `runner`. */
  datatype Delivery = Delivery(task: nat, runner: Tid)

  datatype Registry = Registry(states: seq<ThreadState>, runners: seq<Option<Tid>>, delivered: seq<Delivery>) {

    predicate WellFormed() {
      |states| == |runners|
    }

    /** A runner is stored exactly for the IDs that are RUNNING or SHUTDOWN. */
    predicate Consistent() {
      WellFormed() && forall i :: 0 <= i < |states| ==> (runners[i].Some? <==> states[i] != UNINITIALIZED)
    }

    /** The constructor of WebThreadImpl. */
    function Register(id: nat, runner: Tid): Registry
      requires WellFormed() && id < |states|
    {
      this.(states := states[id := RUNNING], runners := runners[id := Some(runner)])
    }

    /** The destructor of WebThreadImpl: the runner stays. */
    function ShutDown(id: nat): Registry
      requires WellFormed() && id < |states|
    {
      this.(states := states[id := SHUTDOWN])
    }

    /** ResetGlobalsForTesting. */
    function Clear(id: nat): Registry
      requires WellFormed() && id < |states|
    {
      this.(states := states[id := UNINITIALIZED], runners := runners[id := None])
    }

    /** What posting a task to `id` means, done in one step: a RUNNING ID takes it. */
    predicate Accepts(id: nat)
      requires WellFormed() && id < |states|
    {
      states[id] == RUNNING && runners[id].Some?
    }

    function Post(id: nat, task: nat): Registry
      requires WellFormed() && id < |states|
    {
      if Accepts(id) then this.(delivered := delivered + [Delivery(task, runners[id].value)]) else this
    }

    predicate CurrentlyOn(id: nat, current: Tid)
      requires WellFormed() && id < |states|
    {
      runners[id] == Some(current)
    }
  }

  /** The first ID at or after `i` whose runner belongs to thread `current`. */
  function FirstRunnerOf(runners: seq<Option<Tid>>, current: Tid, i: nat): (r: Option<nat>)
    requires i <= |runners|
    ensures r.Some? ==> i <= r.value < |runners| && runners[r.value] == Some(current)
    ensures r.Some? ==> forall j :: i <= j < r.value ==> runners[j] != Some(current)
    ensures r.None? ==> forall j :: i <= j < |runners| ==> runners[j] != Some(current)
    decreases |runners| - i
  {
    if i == |runners| then None
    else if runners[i] == Some(current) then Some(i)
    else FirstRunnerOf(runners, current, i + 1)
  }

  /** Runners of distinct IDs run on distinct threads. */
  predicate DistinctRunners(runners: seq<Option<Tid>>) {
    forall i, j :: 0 <= i < j < |runners| && runners[i].Some? ==> runners[i] != runners[j]
  }

  /** With runners on distinct threads the scan answers `id` exactly on the thread of `id`. */
  lemma ScanAgreesWithCurrentlyOn(reg: Registry, current: Tid, id: nat)
    requires reg.WellFormed() && DistinctRunners(reg.runners) && id < |reg.states|
    ensures FirstRunnerOf(reg.runners, current, 0) == Some(id) <==> reg.CurrentlyOn(id, current)
  {
    var r := FirstRunnerOf(reg.runners, current, 0);
    if reg.CurrentlyOn(id, current) {
      assert r.Some? && r.value <= id;
    }
  }

  /** One critical section on the registry. */
  datatype RegistryOp =
    | OpRegister(id: nat, runner: Tid)
    | OpShutDown(id: nat)
    | OpClear(id: nat)
    | OpPost(id: nat, task: nat, accepted: bool)

  /** The DCHECKs of each critical section; a post also reports whether it was accepted. */
  predicate Allowed(reg: Registry, op: RegistryOp)
    requires reg.WellFormed()
  {
    op.id < |reg.states| &&
    match op
    case OpRegister(id, _) => reg.states[id] == UNINITIALIZED && reg.runners[id].None?
    case OpShutDown(id) => reg.states[id] == RUNNING
    case OpClear(id) => reg.states[id] == SHUTDOWN
    case OpPost(id, _, accepted) => accepted <==> reg.Accepts(id)
  }

  function Applied(reg: Registry, op: RegistryOp): (r: Registry)
    requires reg.WellFormed() && Allowed(reg, op)
    ensures r.WellFormed() && |r.states| == |reg.states|
  {
    match op
    case OpRegister(id, runner) => reg.Register(id, runner)
    case OpShutDown(id) => reg.ShutDown(id)
    case OpClear(id) => reg.Clear(id)
    case OpPost(id, task, _) => reg.Post(id, task)
  }

  function InitialRegistry(n: nat): Registry {
    Registry(seq(n, _ => UNINITIALIZED), seq(n, _ => None), [])
  }

  /** The registry after a history of critical sections; None if one was not allowed. */
  function After(n: nat, h: seq<RegistryOp>): (r: Option<Registry>)
    ensures r.Some? ==> r.value.WellFormed() && |r.value.states| == n
  {
    if h == [] then Some(InitialRegistry(n))
    else
      var reg, op := After(n, h[..|h| - 1]), h[|h| - 1];
      if reg.Some? && Allowed(reg.value, op) then Some(Applied(reg.value, op)) else None
  }

  /** The last lifecycle step that touched `id`, None if there was none. */
  function LastLifecycle(h: seq<RegistryOp>, id: nat): Option<RegistryOp> {
    if h == [] then None
    else if h[|h| - 1].id == id && !h[|h| - 1].OpPost? then Some(h[|h| - 1])
    else LastLifecycle(h[..|h| - 1], id)
  }

  /** The runner given by the last registration of `id`, unless cleared since. */
  function LastRunner(h: seq<RegistryOp>, id: nat): Option<Tid> {
    if h == [] then None
    else if h[|h| - 1].id == id && h[|h| - 1].OpRegister? then Some(h[|h| - 1].runner)
    else if h[|h| - 1].id == id && h[|h| - 1].OpClear? then None
    else LastRunner(h[..|h| - 1], id)
  }

  /** Over all runs the registry is a function of the lifecycle history: each slot is
      what the last step on its ID says, a runner is stored exactly in the states
      RUNNING and SHUTDOWN, and only RUNNING is "initialized". */
  lemma {:induction false} RegistryFollowsLifecycle(n: nat, h: seq<RegistryOp>, id: nat)
    requires After(n, h).Some? && id < n
    ensures var reg, last := After(n, h).value, LastLifecycle(h, id);
      && reg.Consistent()
      && (reg.states[id] == RUNNING <==> last.Some? && last.value.OpRegister?)
      && (reg.states[id] == SHUTDOWN <==> last.Some? && last.value.OpShutDown?)
      && reg.runners[id] == LastRunner(h, id)
  {
    if h != [] {
      RegistryFollowsLifecycle(n, h[..|h| - 1], id);
    }
  }

  lemma {:induction false} AllowedPrefix(n: nat, h: seq<RegistryOp>, k: nat)
    requires After(n, h).Some? && k <= |h|
    ensures After(n, h[..k]).Some?
  {
    if k == |h| {
      assert h[..k] == h;
    } else {
      AllowedPrefix(n, h[..|h| - 1], k);
      assert h[..|h| - 1][..k] == h[..k];
    }
  }

  lemma {:induction false} LastLifecycleIsLater(h: seq<RegistryOp>, i: nat)
    requires i < |h| && !h[i].OpPost?
    ensures LastLifecycle(h, h[i].id).Some?
    ensures LastLifecycle(h, h[i].id) == Some(h[i])
            || exists k :: i < k < |h| && LastLifecycle(h, h[i].id) == Some(h[k])
  {
    if i < |h| - 1 {
      var before := h[..|h| - 1];
      LastLifecycleIsLater(before, i);
      if LastLifecycle(before, h[i].id) != Some(h[i]) {
        var k :| i < k < |before| && LastLifecycle(before, h[i].id) == Some(before[k]);
        assert before[k] == h[k];
      }
    }
  }

  /** No task is handed over after the SHUTDOWN transition of its ID, unless the ID was
      registered again in between. */
  lemma NothingAfterShutDown(n: nat, h: seq<RegistryOp>, i: nat, j: nat)
    requires After(n, h).Some? && i < j < |h|
    requires h[i].OpShutDown? && h[j].OpPost? && h[j].id == h[i].id && h[j].accepted
    ensures exists k :: i < k < j && h[k].OpRegister? && h[k].id == h[i].id
  {
    AllowedPrefix(n, h, j + 1);
    assert h[..j + 1][..j] == h[..j];
    var before := h[..j];
    assert Allowed(After(n, before).value, h[j]);
    RegistryFollowsLifecycle(n, before, h[j].id);
    LastLifecycleIsLater(before, i);
    LastLifecycleHasId(before, h[i].id);
  }

  lemma {:induction false} LastLifecycleHasId(h: seq<RegistryOp>, id: nat)
    ensures LastLifecycle(h, id).Some? ==> LastLifecycle(h, id).value.id == id
  {
    if h != [] {
      LastLifecycleHasId(h[..|h| - 1], id);
    }
  }

  /** Operation `i` registered `id` for `runner`, and no operation after it cleared `id`. */
  predicate RegistersForGood(h: seq<RegistryOp>, i: nat, id: nat, runner: Tid)
    requires i < |h|
  {
    h[i] == OpRegister(id, runner) && forall k :: i < k < |h| ==> !(h[k].OpClear? && h[k].id == id)
  }

  lemma {:induction false} LastRunnerIff(n: nat, h: seq<RegistryOp>, id: nat, runner: Tid)
    requires After(n, h).Some? && id < n
    ensures LastRunner(h, id) == Some(runner) <==> exists i :: 0 <= i < |h| && RegistersForGood(h, i, id, runner)
  {
    if h != [] {
      var before, op := h[..|h| - 1], h[|h| - 1];
      LastRunnerIff(n, before, id, runner);
      RegistryFollowsLifecycle(n, before, id);
      if op == OpRegister(id, runner) {
        assert RegistersForGood(h, |h| - 1, id, runner);
      } else {
        assert forall i :: 0 <= i < |before| ==>
            (RegistersForGood(h, i, id, runner) <==> RegistersForGood(before, i, id, runner) && op != OpClear(id));
      }
    }
  }

  /** Over all histories that give distinct threads to the IDs in use, the scan answers
      `id` on a thread if and only if `id` was registered for it and not reset since: the
      answer survives any posts and the shutdown of `id`. */
  lemma ScanFollowsHistory(n: nat, h: seq<RegistryOp>, id: nat, current: Tid)
    requires After(n, h).Some? && DistinctRunners(After(n, h).value.runners) && id < n
    ensures FirstRunnerOf(After(n, h).value.runners, current, 0) == Some(id) <==>
            exists i :: 0 <= i < |h| && RegistersForGood(h, i, id, current)
  {
    ScanAgreesWithCurrentlyOn(After(n, h).value, current, id);
    RegistryFollowsLifecycle(n, h, id);
    LastRunnerIff(n, h, id, current);
  }

  /** How often a task was handed over. */
  function TimesDelivered(delivered: seq<Delivery>, task: nat): nat {
    if delivered == [] then 0
    else TimesDelivered(delivered[..|delivered| - 1], task) + if delivered[|delivered| - 1].task == task then 1 else 0
  }

  predicate IsPostOf(op: RegistryOp, task: nat) {
    op.OpPost? && op.task == task
  }

  /** The accepted posts of a task. */
  function TimesAccepted(h: seq<RegistryOp>, task: nat): nat {
    if h == [] then 0
    else TimesAccepted(h[..|h| - 1], task) + if IsPostOf(h[|h| - 1], task) && h[|h| - 1].accepted then 1 else 0
  }

  /** The queues hold exactly the accepted posts. */
  lemma {:induction false} DeliveredIffAccepted(n: nat, h: seq<RegistryOp>, task: nat)
    requires After(n, h).Some?
    ensures TimesDelivered(After(n, h).value.delivered, task) == TimesAccepted(h, task)
  {
    if h != [] {
      DeliveredIffAccepted(n, h[..|h| - 1], task);
      DeliveredStep(After(n, h[..|h| - 1]).value, h[|h| - 1], task);
    }
  }

  lemma DeliveredStep(reg: Registry, op: RegistryOp, task: nat)
    requires reg.WellFormed() && Allowed(reg, op)
    ensures TimesDelivered(Applied(reg, op).delivered, task) ==
            TimesDelivered(reg.delivered, task) + if IsPostOf(op, task) && op.accepted then 1 else 0
  {
    var after := Applied(reg, op).delivered;
    if after != reg.delivered {
      assert after[..|after| - 1] == reg.delivered;
    }
  }

  /** What the queues should hold: each accepted post hands its task to the runner that the
      last registration of its ID has given. */
  function Handed(h: seq<RegistryOp>): seq<Delivery> {
    if h == [] then []
    else
      var before, op := h[..|h| - 1], h[|h| - 1];
      Handed(before)
      + if op.OpPost? && op.accepted && LastRunner(before, op.id).Some?
        then [Delivery(op.task, LastRunner(before, op.id).value)] else []
  }

  /** Over all histories the queues hold exactly that, in the order of the posts. */
  lemma {:induction false} DeliveredIsHanded(n: nat, h: seq<RegistryOp>)
    requires After(n, h).Some?
    ensures After(n, h).value.delivered == Handed(h)
  {
    if h != [] {
      var before, op := h[..|h| - 1], h[|h| - 1];
      DeliveredIsHanded(n, before);
      RegistryFollowsLifecycle(n, before, op.id);
    }
  }

  /** Operation `k` posted the task of `d` to an ID, was accepted, and at that point the
      runner of `d` was the one registered for the ID. */
  predicate PostedAs(h: seq<RegistryOp>, k: nat, d: Delivery)
    requires k < |h|
  {
    IsPostOf(h[k], d.task) && h[k].accepted && LastRunner(h[..k], h[k].id) == Some(d.runner)
  }

  /** So each delivery comes from a post to the ID that its runner was registered for. */
  lemma {:induction false} DeliveryHasItsPost(n: nat, h: seq<RegistryOp>, i: nat) returns (k: nat)
    requires After(n, h).Some? && i < |After(n, h).value.delivered|
    ensures k < |h| && PostedAs(h, k, After(n, h).value.delivered[i])
  {
    DeliveredIsHanded(n, h);
    k := HandedByPost(h, i);
  }

  lemma {:induction false} HandedByPost(h: seq<RegistryOp>, i: nat) returns (k: nat)
    requires i < |Handed(h)|
    ensures k < |h| && PostedAs(h, k, Handed(h)[i])
  {
    var before := h[..|h| - 1];
    if i < |Handed(before)| {
      k := HandedByPost(before, i);
      assert before[..k] == h[..k];
    } else {
      k := |h| - 1;
    }
  }

  /** A task that was posted by one operation only was accepted at most once, as that
      operation says. */
  lemma {:induction false} AcceptedByItsPost(h: seq<RegistryOp>, task: nat, k: nat)
    requires forall j :: 0 <= j < |h| && j != k ==> !IsPostOf(h[j], task)
    requires k < |h| ==> IsPostOf(h[k], task)
    ensures TimesAccepted(h, task) == if k < |h| && h[k].accepted then 1 else 0
  {
    if h != [] {
      AcceptedByItsPost(h[..|h| - 1], task, k);
    }
  }

  /** WebThreadGlobals with the critical sections that run under its lock. `delivered`
      stands for the queues behind the stored runners. */
  class WebThreadGlobals {
    var states: array<ThreadState>
    var taskRunners: array<Option<Tid>>
    var delivered: seq<Delivery>

    ghost predicate Valid()
      reads this, states, taskRunners
    {
      states.Length == taskRunners.Length && View().Consistent()
    }

    ghost function View(): Registry
      reads this, states, taskRunners
    {
      Registry(states[..], taskRunners[..], delivered)
    }

    constructor (count: nat)
      ensures Valid() && fresh(states) && fresh(taskRunners)
      ensures View() == InitialRegistry(count)
    {
      states := new ThreadState[count](_ => UNINITIALIZED);
      taskRunners := new Option<Tid>[count](_ => None);
      delivered := [];
    }

    /** WebThreadImpl::WebThreadImpl. */
    method Construct(id: nat, runner: Tid)
      requires Valid() && id < states.Length
      requires states[id] == UNINITIALIZED && taskRunners[id].None?
      modifies states, taskRunners
      ensures Valid() && View() == old(View()).Register(id, runner)
    {
      states[id] := RUNNING;
      taskRunners[id] := Some(runner);
    }

    /** WebThreadImpl::~WebThreadImpl. */
    method Destroy(id: nat)
      requires Valid() && id < states.Length && states[id] == RUNNING
      modifies states
      ensures Valid() && View() == old(View()).ShutDown(id)
    {
      states[id] := SHUTDOWN;
    }

    method ResetGlobalsForTesting(id: nat)
      requires Valid() && id < states.Length && states[id] == SHUTDOWN
      modifies states, taskRunners
      ensures Valid() && View() == old(View()).Clear(id)
    {
      states[id] := UNINITIALIZED;
      taskRunners[id] := None;
    }

    method IsThreadInitialized(id: nat) returns (r: bool)
      requires Valid() && id < states.Length
      ensures r <==> View().Accepts(id)
    {
      r := states[id] == RUNNING;
    }

    method CurrentlyOn(id: nat, current: Tid) returns (r: bool)
      requires Valid() && id < states.Length
      ensures r <==> View().CurrentlyOn(id, current)
    {
      r := taskRunners[id].Some? && taskRunners[id].value == current;
    }

    method GetCurrentThreadIdentifier(current: Tid) returns (r: Option<nat>)
      requires Valid()
      ensures r == FirstRunnerOf(taskRunners[..], current, 0)
    {
      var i := 0;
      while i < taskRunners.Length
        invariant 0 <= i <= taskRunners.Length
        invariant FirstRunnerOf(taskRunners[..], current, 0) == FirstRunnerOf(taskRunners[..], current, i)
      {
        if taskRunners[i].Some? && taskRunners[i].value == current {
          return Some(i);
        }
        i := i + 1;
      }
      return None;
    }

    /** PostTaskHelper run with no other thread inside it. */
    method PostTaskHelper(id: nat, task: nat) returns (accepted: bool)
      requires Valid() && id < states.Length
      modifies this`delivered
      ensures Valid() && View() == old(View()).Post(id, task)
      ensures accepted <==> old(View()).Accepts(id)
    {
      accepted := states[id] == RUNNING;
      if accepted {
        assert View().runners[id].Some?;
        delivered := delivered + [Delivery(task, taskRunners[id].value)];
      }
    }
  }
}
