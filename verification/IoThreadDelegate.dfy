/** The delegate of the IO thread, web/web_sub_thread.cc: it is told when the thread has
    become the IO thread and when it stops being it.

    The owner of the thread starts, registers and stops it; the thread runs its tasks in
    order and then cleans up; delegates may be set by anyone. All of these interleave. */
module IoThreadDelegate {
  import opened Prelude
  import opened WebThreadRegistry

  type Delegate = nat

  datatype Task = CompleteInitialization | Quit | OtherTask

  datatype Owner =
    | Free
    | Registering       // the WebThreadImpl exists, its task is not posted yet
    | Stopping          // Stop() has posted Quit and waits for the thread to end

  datatype SubThread =
    | NotStarted
    | Looping
    | InitFound         // CompleteInitializationOnWebThread has found a delegate
    | CleaningUp        // CleanUp has been entered
    | CleanUpFound      // and has found a delegate
    | Unregistering     // about to drop the WebThreadImpl
    | Ended

  /** A call on the delegate, if there still is one, in the given state of the IO ID. */
  datatype Notice = Init(d: Option<Delegate>, io: ThreadState) | CleanUp(d: Option<Delegate>, io: ThreadState)

  datatype State = State(
    delegate: Option<Delegate>,
    io: ThreadState,
    owner: Owner,
    sub: SubThread,
    tasks: seq<Task>,
    setters: multiset<Option<Delegate>>,     // SetIOThreadDelegate calls that have passed their checks
    notices: seq<Notice>,
    registeredWith: Option<Option<Delegate>>) // the delegate at the time of registration

  function Initial(): State {
    State(None, UNINITIALIZED, Free, NotStarted, [], multiset{}, [], None)
  }

  datatype Action =
    | CheckSet(d: Option<Delegate>)   // the DCHECKs of SetIOThreadDelegate
    | WriteSet(d: Option<Delegate>)   // and its assignment
    | StartThread
    | Register                        // RegisterAsWebThread makes the WebThreadImpl
    | PostInit                        // and posts its task
    | Stop
    | PostOther
    | SubStep

  /** The pending calls of SetIOThreadDelegate would not change the delegate. It holds
      with none pending, as when the setters run on the owner's thread. */
  predicate SettersAgree(s: State) {
    forall d :: d in s.setters ==> d == s.delegate
  }

  /** With `settersAgree` a registration falls between the check and the assignment of a
      SetIOThreadDelegate only if the assignment changes nothing. */
  predicate Enabled(s: State, a: Action, settersAgree: bool) {
    match a
    case CheckSet(d) => s.io != RUNNING && (s.delegate.None? || d.None?)
    case WriteSet(d) => d in s.setters
    case StartThread => s.owner.Free? && s.sub.NotStarted?
    case Register =>
      s.owner.Free? && !s.sub.NotStarted? && s.io == UNINITIALIZED && (settersAgree ==> SettersAgree(s))
    case PostInit => s.owner.Registering?
    case Stop => s.owner.Free? && !s.sub.NotStarted?
    case PostOther => true
    case SubStep => !s.sub.NotStarted? && !s.sub.Ended? && (s.sub.Looping? ==> s.tasks != [])
  }

  function Next(s: State, a: Action): State {
    match a
    case CheckSet(d) => s.(setters := s.setters + multiset{d})
    case WriteSet(d) => s.(setters := s.setters - multiset{d}, delegate := d)
    case StartThread => s.(sub := Looping)
    case Register => s.(io := RUNNING, owner := Registering, registeredWith := Some(s.delegate))
    case PostInit => s.(owner := Free, tasks := s.tasks + [CompleteInitialization])
    case Stop => s.(owner := Stopping, tasks := s.tasks + [Quit])
    case PostOther => s.(tasks := s.tasks + [OtherTask])
    case SubStep => SubNext(s)
  }

  /** The next step of the thread itself. */
  function SubNext(s: State): State {
    match s.sub
    case Looping =>
      if s.tasks == [] then s
      else
        var s' := s.(tasks := s.tasks[1..]);
        (match s.tasks[0]
         case OtherTask => s'
         case Quit => s'.(sub := CleaningUp)
         case CompleteInitialization => if s.delegate.Some? then s'.(sub := InitFound) else s')
    case InitFound => s.(sub := Looping, notices := s.notices + [Init(s.delegate, s.io)])
    case CleaningUp => s.(sub := if s.delegate.Some? then CleanUpFound else Unregistering)
    case CleanUpFound => s.(sub := Unregistering, notices := s.notices + [CleanUp(s.delegate, s.io)])
    case Unregistering => s.(sub := Ended, io := if s.io == RUNNING then SHUTDOWN else s.io)
    case _ => s
  }

  function Run(h: History<Action>, settersAgree: bool): Option<State> {
    match h
    case Start => Some(Initial())
    case Then(before, a) =>
      var s := Run(before, settersAgree);
      if s.Some? && Enabled(s.value, a, settersAgree) then Some(Next(s.value, a)) else None
  }

  /** The value of the last assignment, none if there was none. */
  function LastSet(h: History<Action>): Option<Delegate> {
    match h
    case Start => None
    case Then(before, a) => if a.WriteSet? then a.d else LastSet(before)
  }

  function PostedBy(a: Action): seq<Task> {
    match a
    case PostInit => [CompleteInitialization]
    case Stop => [Quit]
    case PostOther => [OtherTask]
    case _ => []
  }

  /** The tasks that the actions post, in order. */
  function Posted(h: History<Action>): seq<Task> {
    match h
    case Start => []
    case Then(before, a) => Posted(before) + PostedBy(a)
  }

  /** In every history the delegate is the last one that was set. */
  lemma {:induction false} DelegateIsLastSet(h: History<Action>, settersAgree: bool)
    requires Run(h, settersAgree).Some?
    ensures Run(h, settersAgree).value.delegate == LastSet(h)
  {
    match h
    case Start =>
    case Then(before, a) =>
      DelegateIsLastSet(before, settersAgree);
      DelegateStep(Run(before, settersAgree).value, a);
  }

  lemma DelegateStep(s: State, a: Action)
    ensures Next(s, a).delegate == if a.WriteSet? then a.d else s.delegate
  {
    if a.SubStep? {
      SubStepKeepsDelegate(s);
    }
  }

  lemma SubStepKeepsDelegate(s: State)
    ensures SubNext(s).delegate == s.delegate
  {
  }

  /** The task that a step of the thread takes, always the first. */
  function Takes(s: State, a: Action): seq<Task> {
    if a.SubStep? && s.sub.Looping? && s.tasks != [] then s.tasks[..1] else []
  }

  lemma TasksStep(s: State, a: Action)
    ensures Takes(s, a) + Next(s, a).tasks == s.tasks + PostedBy(a)
  {
    match a {
      case SubStep => SubStepTakes(s);
      case _ =>
    }
  }

  lemma SubStepTakes(s: State)
    ensures Takes(s, SubStep) + SubNext(s).tasks == s.tasks
  {
  }

  /** The thread takes its tasks in the order in which they were posted. */
  lemma {:induction false} TasksAreFifo(h: History<Action>, settersAgree: bool) returns (taken: seq<Task>)
    requires Run(h, settersAgree).Some?
    ensures Posted(h) == taken + Run(h, settersAgree).value.tasks
  {
    match h
    case Start => taken := [];
    case Then(before, a) =>
      var s := Run(before, settersAgree).value;
      var was := TasksAreFifo(before, settersAgree);
      taken := was + Takes(s, a);
      TasksStep(s, a);
      Regroup(was, s.tasks, PostedBy(a), Takes(s, a), Next(s, a).tasks);
  }

  lemma Regroup(was: seq<Task>, tasks: seq<Task>, posted: seq<Task>, taken: seq<Task>, rest: seq<Task>)
    requires taken + rest == tasks + posted
    ensures was + tasks + posted == was + taken + rest
  {
    assert was + tasks + posted == was + (tasks + posted);
    assert was + taken + rest == was + (taken + rest);
  }

  // ---------------------------------------------------------------------------
  // What every step keeps

  /** The initialization is due: it will run before the thread cleans up. */
  predicate InitDue(s: State) {
    s.owner.Registering? || CompleteInitialization in s.tasks || s.sub.InitFound?
  }

  predicate BeforeCleanUp(s: State) {
    s.sub.Looping? || s.sub.InitFound?
  }

  /** Nothing is due after Quit, and Quit comes from Stop. */
  predicate TasksInv(s: State) {
    && (forall i, j :: 0 <= i < j < |s.tasks| && s.tasks[i].Quit? ==> s.tasks[j].OtherTask?)
    && (forall i, j :: 0 <= i < j < |s.tasks| && s.tasks[i].CompleteInitialization? ==>
                         !s.tasks[j].CompleteInitialization?)
    && (Quit in s.tasks ==> s.owner.Stopping?)
    && (!s.owner.Stopping? ==> s.sub.NotStarted? || BeforeCleanUp(s))
    && (s.owner.Stopping? && Quit !in s.tasks ==> !BeforeCleanUp(s) && CompleteInitialization !in s.tasks)
    && (s.owner.Stopping? ==> !s.sub.NotStarted?)
    && (!BeforeCleanUp(s) && !s.sub.NotStarted? ==> Quit !in s.tasks)
  }

  function Expected(d: Option<Delegate>, inited: bool, cleaned: bool): seq<Notice> {
    if d.None? then []
    else (if inited then [Init(d, RUNNING)] else []) + (if cleaned then [CleanUp(d, RUNNING)] else [])
  }

  predicate NotRegisteredInv(s: State) {
    && s.io == UNINITIALIZED && !InitDue(s)
    && (BeforeCleanUp(s) || s.sub.NotStarted? || s.sub.CleaningUp? || s.sub.CleanUpFound? ==> s.notices == [])
    && (s.sub.Unregistering? || s.sub.Ended? ==>
          s.notices == [] || (|s.notices| == 1 && s.notices[0].CleanUp? && s.notices[0].io == UNINITIALIZED))
  }

  predicate RegisteredInv(s: State, d: Option<Delegate>) {
    && !s.sub.NotStarted?
    && s.io == (if s.sub.Ended? then SHUTDOWN else RUNNING)
    && (!s.sub.Ended? ==> s.delegate == d && SettersAgree(s))
    && (InitDue(s) ==> BeforeCleanUp(s))
    && (s.sub.InitFound? ==> !s.owner.Registering? && CompleteInitialization !in s.tasks && d.Some?)
    && (s.owner.Registering? ==> CompleteInitialization !in s.tasks)
    && (s.sub.CleanUpFound? ==> d.Some?)
    && s.notices == Expected(d, !InitDue(s), s.sub.Unregistering? || s.sub.Ended?)
  }

  predicate Inv(s: State) {
    && TasksInv(s)
    && (if s.registeredWith.Some? then RegisteredInv(s, s.registeredWith.value) else NotRegisteredInv(s))
  }

  lemma OwnerStep(s: State, a: Action)
    requires Inv(s) && Enabled(s, a, true) && (a.StartThread? || a.Register?)
    ensures Inv(Next(s, a))
  {
  }

  lemma PostingStep(s: State, a: Action)
    requires Inv(s) && Enabled(s, a, true) && (a.PostInit? || a.Stop? || a.PostOther?)
    ensures Inv(Next(s, a))
  {
    var task := if a.PostInit? then CompleteInitialization else if a.Stop? then Quit else OtherTask;
    LastTask(s.tasks, task);
    PostingKeepsTasks(s, a);
  }

  lemma LastTask(tasks: seq<Task>, task: Task)
    ensures CompleteInitialization in tasks + [task] <==>
            CompleteInitialization in tasks || task.CompleteInitialization?
    ensures Quit in tasks + [task] <==> Quit in tasks || task.Quit?
  {
    assert (tasks + [task])[|tasks|] == task;
  }

  lemma PostingKeepsTasks(s: State, a: Action)
    requires Inv(s) && Enabled(s, a, true) && (a.PostInit? || a.Stop? || a.PostOther?)
    ensures TasksInv(Next(s, a))
  {
    var task := if a.PostInit? then CompleteInitialization else if a.Stop? then Quit else OtherTask;
    LastTask(s.tasks, task);
  }

  lemma SetterStep(s: State, a: Action)
    requires Inv(s) && Enabled(s, a, true) && (a.CheckSet? || a.WriteSet?)
    ensures Inv(Next(s, a))
  {
  }

  lemma LoopKeepsTasks(s: State)
    requires Inv(s) && s.sub.Looping? && s.tasks != []
    ensures TasksInv(Next(s, SubStep))
  {
    FirstTask(s);
  }

  lemma FirstTask(s: State)
    requires TasksInv(s) && s.tasks != []
    ensures var rest := s.tasks[1..];
      && (s.tasks[0].Quit? ==> CompleteInitialization !in rest && Quit !in rest)
      && (s.tasks[0].CompleteInitialization? ==> CompleteInitialization !in rest)
      && (CompleteInitialization in s.tasks <==> s.tasks[0].CompleteInitialization? || CompleteInitialization in rest)
      && (Quit in s.tasks <==> s.tasks[0].Quit? || Quit in rest)
  {
    assert s.tasks == [s.tasks[0]] + s.tasks[1..];
  }

  lemma LoopStep(s: State)
    requires Inv(s) && s.sub.Looping? && s.tasks != []
    ensures Inv(Next(s, SubStep))
  {
    LoopKeepsTasks(s);
    FirstTask(s);
    match s.tasks[0] {
      case Quit => assert s.owner.Stopping?;
      case CompleteInitialization => assert InitDue(s) && !s.owner.Registering?;
      case OtherTask =>
    }
  }

  lemma ThreadStep(s: State)
    requires Inv(s) && Enabled(s, SubStep, true)
    ensures Inv(Next(s, SubStep))
  {
    match s.sub {
      case Looping => LoopStep(s);
      case InitFound =>
      case CleaningUp =>
      case CleanUpFound =>
      case Unregistering =>
    }
  }

  lemma {:induction false} RunKeepsInv(h: History<Action>)
    requires Run(h, true).Some?
    ensures Inv(Run(h, true).value)
  {
    match h
    case Start =>
    case Then(before, a) =>
      RunKeepsInv(before);
      var s := Run(before, true).value;
      match a {
        case CheckSet(_) => SetterStep(s, a);
        case WriteSet(_) => SetterStep(s, a);
        case SubStep => ThreadStep(s);
        case StartThread => OwnerStep(s, a);
        case Register => OwnerStep(s, a);
        case _ => PostingStep(s, a);
      }
  }

  /** A delegate that is set when the thread is registered as the IO thread gets Init and
      then CleanUp, once each and both while IO is RUNNING: nothing else at any time, and
      all of it by the time the thread has ended. With no delegate set nobody is told. */
  lemma DelegateIsTold(h: History<Action>)
    requires Run(h, true).Some? && Run(h, true).value.registeredWith.Some?
    ensures var s := Run(h, true).value; var d := s.registeredWith.value;
      && s.notices <= Expected(d, true, true)
      && (s.sub.Ended? ==> s.notices == Expected(d, true, true))
  {
    RunKeepsInv(h);
  }

  /** A thread that is stopped without having been registered never sends Init, and so
      whether its delegate is told properly is exactly whether it was registered. */
  lemma InitIffRegistered(h: History<Action>)
    requires Run(h, true).Some? && Run(h, true).value.sub.Ended?
    ensures var s := Run(h, true).value;
      (exists d :: s.notices == [Init(Some(d), RUNNING), CleanUp(Some(d), RUNNING)]) <==>
      s.registeredWith.Some? && s.registeredWith.value.Some?
  {
    RunKeepsInv(h);
    var s := Run(h, true).value;
    if s.registeredWith.Some? && s.registeredWith.value.Some? {
      var d := s.registeredWith.value.value;
      assert s.notices == [Init(Some(d), RUNNING), CleanUp(Some(d), RUNNING)];
    }
  }

  // ---------------------------------------------------------------------------
  // When a registration is safe

  /** The state after running on from `s`, with registrations at any time. */
  function RunOn(s: State, h: History<Action>): Option<State> {
    match h
    case Start => Some(s)
    case Then(before, a) =>
      var s' := RunOn(s, before);
      if s'.Some? && Enabled(s'.value, a, false) then Some(Next(s'.value, a)) else None
  }

  /** `d` is the delegate, and stays it, as long as IO is RUNNING. */
  predicate FixedAt(s: State, d: Option<Delegate>) {
    s.io != UNINITIALIZED && (s.io == RUNNING ==> s.delegate == d && SettersAgree(s))
  }

  lemma FixedStep(s: State, a: Action, d: Option<Delegate>)
    requires FixedAt(s, d) && Enabled(s, a, false)
    ensures FixedAt(Next(s, a), d)
  {
    match a {
      case SubStep => FixedSubStep(s, d);
      case _ =>
    }
  }

  lemma FixedSubStep(s: State, d: Option<Delegate>)
    requires FixedAt(s, d)
    ensures FixedAt(SubNext(s), d)
  {
    assert SubNext(s).setters == s.setters && SubNext(s).delegate == s.delegate;
  }

  lemma {:induction false} StaysFixed(s: State, d: Option<Delegate>, h: History<Action>)
    requires FixedAt(s, d) && RunOn(s, h).Some?
    ensures FixedAt(RunOn(s, h).value, d)
  {
    match h
    case Start =>
    case Then(before, a) =>
      StaysFixed(s, d, before);
      FixedStep(RunOn(s, before).value, a, d);
  }

  /** In all continuations of `s` the delegate is `d` while IO is RUNNING. */
  ghost predicate FixedWhileRunning(s: State, d: Option<Delegate>) {
    forall h :: RunOn(s, h).Some? && RunOn(s, h).value.io == RUNNING ==> RunOn(s, h).value.delegate == d
  }

  /** After a registration the delegate is fixed while IO is RUNNING, whatever else
      happens, if and only if the pending setters agree with it at the registration. */
  lemma FixedWhileRunningIff(s: State)
    requires Enabled(s, Register, false)
    ensures FixedWhileRunning(Next(s, Register), s.delegate) <==> SettersAgree(s)
  {
    var s1 := Next(s, Register);
    if SettersAgree(s) {
      forall h | RunOn(s1, h).Some? ensures FixedAt(RunOn(s1, h).value, s.delegate) {
        StaysFixed(s1, s.delegate, h);
      }
    } else {
      var d :| d in s.setters && d != s.delegate;
      var h := Then(Start, WriteSet(d));
      assert RunOn(s1, Start) == Some(s1);
      assert RunOn(s1, h) == Some(Next(s1, WriteSet(d)));
      assert RunOn(s1, h).value.io == RUNNING && RunOn(s1, h).value.delegate == d;
    }
  }

  // ---------------------------------------------------------------------------
  // What goes wrong otherwise

  ghost predicate Possible(s: State, settersAgree: bool) {
    exists h :: Run(h, settersAgree) == Some(s)
  }

  lemma Follow(s: State, a: Action, settersAgree: bool) returns (s': State)
    requires Possible(s, settersAgree) && Enabled(s, a, settersAgree)
    ensures s' == Next(s, a) && Possible(s', settersAgree)
  {
    s' := Next(s, a);
    var h :| Run(h, settersAgree) == Some(s);
    assert Run(Then(h, a), settersAgree) == Some(s');
  }

  lemma Begin(settersAgree: bool) returns (s: State)
    ensures s == Initial() && Possible(s, settersAgree)
  {
    s := Initial();
    assert Run(Start, settersAgree) == Some(s);
  }

  lemma StoppedUnregistered() returns (s: State)
    ensures Possible(s, true) && s.sub.Looping? && s.tasks == [Quit]
    ensures s.notices == [] && s.delegate == Some(5) && s.io == UNINITIALIZED
  {
    s := Begin(true);
    s := Follow(s, CheckSet(Some(5)), true);
    s := Follow(s, WriteSet(Some(5)), true);
    s := Follow(s, StartThread, true);
    s := Follow(s, Stop, true);
  }

  lemma CleansUpUnregistered() returns (s: State)
    ensures Possible(s, true) && s.sub.CleanUpFound?
    ensures s.delegate == Some(5) && s.io == UNINITIALIZED && s.notices == []
  {
    s := StoppedUnregistered();
    s := Follow(s, SubStep, true);
    s := Follow(s, SubStep, true);
  }

  /** A thread that was started and stopped but never registered tells its delegate to
      clean up what was never initialized. */
  lemma CleanUpWithoutInit()
    ensures exists s :: Possible(s, true) && s.sub.Ended? && s.notices == [CleanUp(Some(5), UNINITIALIZED)]
  {
    var s := CleansUpUnregistered();
    s := Follow(s, SubStep, true);
    s := Follow(s, SubStep, true);
  }

  /** Two delegates pass the checks, one of them is set, and the thread is registered. */
  lemma RegisteredWithSetter() returns (s: State)
    ensures Possible(s, false) && s.sub.Looping? && s.owner.Free? && s.tasks == [CompleteInitialization]
    ensures s.delegate == Some(5) && Some(6) in s.setters && s.notices == [] && s.io == RUNNING
  {
    s := Begin(false);
    s := Follow(s, CheckSet(Some(6)), false);
    s := Follow(s, CheckSet(Some(5)), false);
    s := Follow(s, WriteSet(Some(5)), false);
    s := Follow(s, StartThread, false);
    s := Follow(s, Register, false);
    s := Follow(s, PostInit, false);
  }

  /** The registered delegate is initialized, and then the other one is assigned. */
  lemma SwappedAfterInit() returns (s: State)
    ensures Possible(s, false) && s.sub.Looping? && s.owner.Free? && s.tasks == []
    ensures s.delegate == Some(6) && s.io == RUNNING && s.notices == [Init(Some(5), RUNNING)]
  {
    s := RegisteredWithSetter();
    s := Follow(s, SubStep, false);
    s := Follow(s, SubStep, false);
    s := Follow(s, WriteSet(Some(6)), false);
  }

  /** If a registration falls between the check and the assignment of SetIOThreadDelegate,
      the delegate is swapped while IO is RUNNING, and the new one is told to clean up
      although the old one was initialized. */
  lemma SwappedWhileRunning()
    ensures exists s :: Possible(s, false) && s.notices == [Init(Some(5), RUNNING), CleanUp(Some(6), RUNNING)]
  {
    var s := SwappedAfterInit();
    s := Follow(s, Stop, false);
    s := Follow(s, SubStep, false);
    assert s.sub.CleaningUp? && s.delegate == Some(6) && s.io == RUNNING && s.notices == [Init(Some(5), RUNNING)];
    s := Follow(s, SubStep, false);
    s := Follow(s, SubStep, false);
  }

  // ---------------------------------------------------------------------------
  // The code

  /** A WebSubThread for WebThread::IO, with the registry and the delegate pointer. Each
      method runs without interference here, and is a sequence of the steps above. */
  class WebSubThread {
    var delegate: Option<Delegate>
    var io: ThreadState
    var owner: Owner
    var sub: SubThread
    var tasks: seq<Task>
    var notices: seq<Notice>
    ghost var registeredWith: Option<Option<Delegate>>

    ghost function View(): State
      reads this
    {
      State(delegate, io, owner, sub, tasks, multiset{}, notices, registeredWith)
    }

    constructor ()
      ensures View() == Initial()
    {
      delegate, io, owner, sub, tasks, notices := None, UNINITIALIZED, Free, NotStarted, [], [];
      registeredWith := None;
    }

    method SetIOThreadDelegate(d: Option<Delegate>)
      requires Enabled(View(), CheckSet(d), true)
      modifies this`delegate
      ensures View() == Next(Next(old(View()), CheckSet(d)), WriteSet(d))
    {
      delegate := d;
      assert multiset{} + multiset{d} - multiset{d} == multiset{};
    }

    method RegisterAsWebThread()
      requires Enabled(View(), Register, true)
      modifies this`io, this`tasks, this`registeredWith
      ensures View() == Next(Next(old(View()), Register), PostInit)
    {
      io := RUNNING;
      registeredWith := Some(delegate);
      tasks := tasks + [CompleteInitialization];
    }

    /** The thread takes CompleteInitializationOnWebThread from its queue. */
    method CompleteInitializationOnWebThread()
      requires sub.Looping? && tasks != [] && tasks[0].CompleteInitialization?
      modifies this`notices, this`tasks
      ensures var s := Next(old(View()), SubStep); View() == if s.sub.InitFound? then Next(s, SubStep) else s
    {
      tasks := tasks[1..];
      if delegate.Some? {
        notices := notices + [Init(delegate, io)];
      }
    }

    /** The delegate is told before the registration is dropped. */
    method CleanUp()
      requires sub.CleaningUp?
      modifies this`notices, this`io, this`sub
      ensures var s := Next(old(View()), SubStep);
        View() == Next(if s.sub.CleanUpFound? then Next(s, SubStep) else s, SubStep)
    {
      if delegate.Some? {
        notices := notices + [Notice.CleanUp(delegate, io)];
      }
      if io == RUNNING {
        io := SHUTDOWN;
      }
      sub := Ended;
    }
  }
}
