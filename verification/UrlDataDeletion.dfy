/** Deferred deletion of reference-counted URL data sources,
    web/webui/url_data_manager_ios.cc and web/webui/url_data_source_ios_impl.{h,cc}.

    A source must die on the UI thread. A last release elsewhere pushes the source onto
    a locked list; the push that finds the list empty posts a task that drains it. The
    model interleaves, for any number of threads: the decrement of a count, the push,
    the post, the drain's swap and each of its deletions, and the check and the bind of
    SendResponse. Threads differ only in being the UI thread or not, so a position that
    many threads can be in is a multiset (or a number) rather than one entry per thread. */
module UrlDataDeletion {
  import opened Prelude

  type Source = nat

  datatype Drain =
    | NotDraining
    | Called                     // DeleteDataSources has been entered, nothing swapped yet
    | Deleting(rest: seq<Source>)

  datatype State = State(
    refs: map<Source, nat>,          // the count of every source created so far
    dataSources: Option<seq<Source>>, // data_sources_, null until the first push
    dropped: multiset<Source>,       // non-UI threads between a last release and its push
    uiDropped: multiset<Source>,     // the UI thread between a last release and its delete
    posting: nat,                    // threads with schedule_delete true, not posted yet
    drainTasks: nat,                 // posted tasks not run yet
    drain: Drain,
    checked: multiset<Source>,       // SendResponse calls between check and bind
    accepting: bool,                 // the UI loop still takes and runs tasks
    deleted: multiset<Source>,
    revived: multiset<Source>)       // binds that found the count at zero
  {
    function Pending(): seq<Source> {
      if dataSources.Some? then dataSources.value else []
    }

    function Rest(): seq<Source> {
      if drain.Deleting? then drain.rest else []
    }

    predicate Created(src: Source) {
      src in refs
    }

    predicate Referenced(src: Source) {
      src in refs && refs[src] > 0
    }
  }

  function Initial(): State {
    State(map[], None, multiset{}, multiset{}, 0, 0, NotDraining, multiset{}, true, multiset{}, multiset{})
  }

  datatype Action =
    | Create(src: Source)               // new URLDataSourceIOSImpl, wrapped in its first reference
    | AddRef(src: Source)               // a reference is copied
    | Release(src: Source, onUi: bool)  // a reference is dropped
    | Push(src: Source)                 // DeleteDataSource off the UI thread, its locked block
    | DeleteNow(src: Source)            // DeleteDataSource on the UI thread
    | PostDrain
    | RunTask                           // the UI loop starts a posted DeleteDataSources
    | CallDirectly                      // DeleteDataSources is called, e.g. during shutdown
    | Swap
    | DeleteNext
    | Check(src: Source)                // SendResponse: IsScheduledForDeletion
    | Bind(src: Source)                 // SendResponse: the posted task takes its reference
    | StopLoop

  predicate Enabled(s: State, a: Action) {
    match a
    case Create(src) => !s.Created(src)
    case AddRef(src) => s.Referenced(src)
    case Release(src, _) => s.Referenced(src)
    case Push(src) => src in s.dropped
    case DeleteNow(src) => src in s.uiDropped
    case PostDrain => s.posting > 0
    case RunTask => s.accepting && s.drainTasks > 0 && s.drain.NotDraining?
    case CallDirectly => s.drain.NotDraining?
    case Swap => s.drain.Called?
    case DeleteNext => s.drain.Deleting?
    case Check(src) => s.Created(src) && src !in s.deleted
    case Bind(src) => src in s.checked && s.Created(src)
    case StopLoop => true
  }

  function Next(s: State, a: Action): State
    requires Enabled(s, a)
  {
    match a
    case Create(src) => s.(refs := s.refs[src := 1])
    case AddRef(src) => s.(refs := s.refs[src := s.refs[src] + 1])
    case Release(src, onUi) =>
      var s' := s.(refs := s.refs[src := s.refs[src] - 1]);
      if s.refs[src] > 1 then s'
      else if onUi then s'.(uiDropped := s.uiDropped + multiset{src})
      else s'.(dropped := s.dropped + multiset{src})
    case Push(src) =>
      s.(dropped := s.dropped - multiset{src},
         dataSources := Some(s.Pending() + [src]),
         posting := if s.Pending() == [] then s.posting + 1 else s.posting)
    case DeleteNow(src) => s.(uiDropped := s.uiDropped - multiset{src}, deleted := s.deleted + multiset{src})
    case PostDrain =>
      s.(posting := s.posting - 1, drainTasks := if s.accepting then s.drainTasks + 1 else s.drainTasks)
    case RunTask => s.(drainTasks := s.drainTasks - 1, drain := Called)
    case CallDirectly => s.(drain := Called)
    case Swap =>
      if s.dataSources.None? then s.(drain := NotDraining)
      else s.(dataSources := Some([]), drain := Deleting(s.Pending()))
    case DeleteNext =>
      if s.Rest() == [] then s.(drain := NotDraining)
      else s.(drain := Deleting(s.Rest()[1..]), deleted := s.deleted + multiset{s.Rest()[0]})
    case Check(src) => if src in s.Pending() then s else s.(checked := s.checked + multiset{src})
    case Bind(src) =>
      s.(checked := s.checked - multiset{src},
         refs := s.refs[src := s.refs[src] + 1],
         revived := if s.refs[src] == 0 then s.revived + multiset{src} else s.revived)
    case StopLoop => s.(accepting := false)
  }

  function Run(h: History<Action>): Option<State> {
    match h
    case Start => Some(Initial())
    case Then(before, a) =>
      var s := Run(before);
      if s.Some? && Enabled(s.value, a) then Some(Next(s.value, a)) else None
  }

  // ---------------------------------------------------------------------------
  // Conservation: deletions done and owed

  /** Deletions of `src` done, or owed by some thread, list or loop. */
  function Owed(s: State, src: Source): nat {
    s.dropped[src] + s.uiDropped[src] + multiset(s.Pending())[src] + multiset(s.Rest())[src] + s.deleted[src]
  }

  /** The number of times that the count of `src` has come down to zero: once more than
      it was revived if it is zero now, else as often. */
  function TimesUnreferenced(s: State, src: Source): nat {
    s.revived[src] + if s.Created(src) && s.refs[src] == 0 then 1 else 0
  }

  /** Every time the count came down to zero is matched by one deletion done or owed. */
  predicate Balanced(s: State, src: Source) {
    && Owed(s, src) == TimesUnreferenced(s, src)
    && (!s.Created(src) ==> src !in s.revived && src !in s.checked)
  }

  /** A source or a reference is made. */
  lemma NewReferenceBalances(s: State, a: Action, src: Source)
    requires Enabled(s, a) && (a.Create? || a.AddRef?)
    requires Balanced(s, src)
    ensures Balanced(Next(s, a), src)
  {
  }

  /** A count that comes down to zero owes a deletion. */
  lemma ReleaseBalances(s: State, a: Action, src: Source)
    requires Enabled(s, a) && a.Release? && Balanced(s, src)
    ensures Balanced(Next(s, a), src)
  {
    if s.refs[a.src] > 1 {
      ReleaseKeepsReference(s, a.src, a.onUi, src);
    } else if a.onUi {
      LastReleaseOnUi(s, a.src, src);
    } else {
      LastReleaseElsewhere(s, a.src, src);
    }
  }

  lemma ReleaseKeepsReference(s: State, x: Source, onUi: bool, src: Source)
    requires s.Referenced(x) && s.refs[x] > 1 && Balanced(s, src)
    ensures Balanced(Next(s, Release(x, onUi)), src)
  {
  }

  /** One more thread owes a deletion of `x`; the rest of what is owed stays. */
  lemma OneMoreOwed(s: State, s': State, x: Source, src: Source)
    requires s'.dataSources == s.dataSources && s'.drain == s.drain && s'.deleted == s.deleted
    requires s'.dropped[src] + s'.uiDropped[src] == s.dropped[src] + s.uiDropped[src] + if x == src then 1 else 0
    ensures Owed(s', src) == Owed(s, src) + if x == src then 1 else 0
  {
  }

  /** A count goes from one to zero. */
  lemma OnceMoreUnreferenced(s: State, s': State, x: Source, src: Source)
    requires s.Referenced(x) && s.refs[x] == 1 && s'.refs == s.refs[x := 0]
    requires s'.revived == s.revived && s'.checked == s.checked
    ensures TimesUnreferenced(s', src) == TimesUnreferenced(s, src) + if x == src then 1 else 0
    ensures s'.Created(src) <==> s.Created(src)
  {
  }

  lemma LastReleaseOnUi(s: State, x: Source, src: Source)
    requires s.Referenced(x) && s.refs[x] == 1 && Balanced(s, src)
    ensures Balanced(Next(s, Release(x, true)), src)
  {
    var s' := Next(s, Release(x, true));
    OneMoreOwed(s, s', x, src);
    OnceMoreUnreferenced(s, s', x, src);
  }

  lemma LastReleaseElsewhere(s: State, x: Source, src: Source)
    requires s.Referenced(x) && s.refs[x] == 1 && Balanced(s, src)
    ensures Balanced(Next(s, Release(x, false)), src)
  {
    var s' := Next(s, Release(x, false));
    OneMoreOwed(s, s', x, src);
    OnceMoreUnreferenced(s, s', x, src);
  }

  lemma OneMoreInList(list: seq<Source>, x: Source, src: Source)
    ensures multiset(list + [x])[src] == multiset(list)[src] + if x == src then 1 else 0
  {
  }

  lemma PushedOwed(s: State, s': State, x: Source, src: Source)
    requires s'.Pending() == s.Pending() + [x] && s'.drain == s.drain && s'.deleted == s.deleted
    requires x in s.dropped && s'.dropped == s.dropped - multiset{x} && s'.uiDropped == s.uiDropped
    ensures Owed(s', src) == Owed(s, src)
  {
    OneMoreInList(s.Pending(), x, src);
    assert s'.dropped[src] == s.dropped[src] - if x == src then 1 else 0;
  }

  lemma SameCount(s: State, s': State, src: Source)
    requires s'.refs == s.refs && s'.revived == s.revived && s'.checked == s.checked
    ensures TimesUnreferenced(s', src) == TimesUnreferenced(s, src)
    ensures s'.Created(src) <==> s.Created(src)
  {
  }

  /** A due deletion goes to the list. */
  lemma PushBalances(s: State, a: Action, src: Source)
    requires Enabled(s, a) && a.Push? && Balanced(s, src)
    ensures Balanced(Next(s, a), src)
  {
    PushedOwed(s, Next(s, a), a.src, src);
    SameCount(s, Next(s, a), src);
  }

  /** A due deletion is done at once. */
  lemma DeleteNowBalances(s: State, a: Action, src: Source)
    requires Enabled(s, a) && a.DeleteNow?
    requires Balanced(s, src)
    ensures Balanced(Next(s, a), src)
  {
  }

  /** The list goes to the drain loop. */
  lemma SwapBalances(s: State, a: Action, src: Source)
    requires Enabled(s, a) && a.Swap?
    requires Balanced(s, src)
    ensures Balanced(Next(s, a), src)
  {
  }

  /** The drain loop. */
  lemma LoopBalances(s: State, a: Action, src: Source)
    requires Enabled(s, a) && a.DeleteNext?
    requires Balanced(s, src)
    ensures Balanced(Next(s, a), src)
  {
    if s.Rest() != [] {
      assert s.Rest() == [s.Rest()[0]] + s.Rest()[1..];
    }
  }

  /** SendResponse: a bind at count zero is a revival. */
  lemma SendBalances(s: State, a: Action, src: Source)
    requires Enabled(s, a) && (a.Check? || a.Bind?)
    requires Balanced(s, src)
    ensures Balanced(Next(s, a), src)
  {
    var s' := Next(s, a);
    assert Owed(s', src) == Owed(s, src);
    if a.Check? {
      assert TimesUnreferenced(s', src) == TimesUnreferenced(s, src);
    } else {
      BindRevives(s, a.src, src);
    }
  }

  lemma BindRevives(s: State, x: Source, src: Source)
    requires Enabled(s, Bind(x)) && Balanced(s, src)
    ensures TimesUnreferenced(Next(s, Bind(x)), src) == TimesUnreferenced(s, src)
    ensures !Next(s, Bind(x)).Created(src) ==> src !in Next(s, Bind(x)).revived && src !in Next(s, Bind(x)).checked
  {
    var s' := Next(s, Bind(x));
    if x == src {
      assert s'.revived[src] == s.revived[src] + if s.refs[src] == 0 then 1 else 0;
    } else {
      assert s'.revived[src] == s.revived[src];
    }
  }

  /** Tasks are posted and run. */
  lemma TasksBalance(s: State, a: Action, src: Source)
    requires Enabled(s, a) && (a.PostDrain? || a.RunTask? || a.CallDirectly? || a.StopLoop?)
    requires Balanced(s, src)
    ensures Balanced(Next(s, a), src)
  {
  }

  /** Over every run, in every interleaving: each time the count of a source comes down
      to zero, exactly one deletion of it becomes due, and it stays due in exactly one
      place until it is done. */
  lemma {:induction false} DeletionsAreConserved(h: History<Action>, src: Source)
    requires Run(h).Some?
    ensures Balanced(Run(h).value, src)
  {
    match h
    case Start =>
    case Then(before, a) =>
      DeletionsAreConserved(before, src);
      var s := Run(before).value;
      match a {
        case Create(_) => NewReferenceBalances(s, a, src);
        case AddRef(_) => NewReferenceBalances(s, a, src);
        case Release(_, _) => ReleaseBalances(s, a, src);
        case Push(_) => PushBalances(s, a, src);
        case DeleteNow(_) => DeleteNowBalances(s, a, src);
        case Swap => SwapBalances(s, a, src);
        case DeleteNext => LoopBalances(s, a, src);
        case Check(_) => SendBalances(s, a, src);
        case Bind(_) => SendBalances(s, a, src);
        case _ => TasksBalance(s, a, src);
      }
  }

  /** A source that no bind has revived is deleted at most once, is never on the list
      (or in any of the other places) twice, and has no references left by then. */
  lemma AtMostOnce(h: History<Action>, src: Source)
    requires Run(h).Some? && src !in Run(h).value.revived
    ensures var s := Run(h).value;
      && s.deleted[src] <= 1
      && multiset(s.Pending())[src] + multiset(s.Rest())[src] + s.deleted[src] <= 1
      && (src in s.Pending() || src in s.Rest() || src in s.deleted ==> !s.Referenced(src))
  {
    DeletionsAreConserved(h, src);
    var s := Run(h).value;
    assert src in s.Pending() ==> src in multiset(s.Pending());
    assert src in s.Rest() ==> src in multiset(s.Rest());
  }

  /** Nothing is left to do for the deletion of sources. */
  predicate Settled(s: State) {
    s.dropped == multiset{} && s.uiDropped == multiset{} && s.Pending() == [] && s.Rest() == []
  }

  /** Once things have settled, an unreferenced source has been deleted exactly once if
      and only if SendResponse never took a reference to it at count zero. */
  lemma ExactlyOnceIff(h: History<Action>, src: Source)
    requires Run(h).Some? && Settled(Run(h).value)
    requires Run(h).value.Created(src) && !Run(h).value.Referenced(src)
    ensures Run(h).value.deleted[src] == 1 + Run(h).value.revived[src]
    ensures Run(h).value.deleted[src] == 1 <==> src !in Run(h).value.revived
  {
    DeletionsAreConserved(h, src);
  }

  // ---------------------------------------------------------------------------
  // Where a source is deleted, from the actions alone

  /** The references that an action makes or drops. */
  function CountChange(a: Action, src: Source): int {
    match a
    case Create(x) => if x == src then 1 else 0
    case AddRef(x) => if x == src then 1 else 0
    case Bind(x) => if x == src then 1 else 0
    case Release(x, _) => if x == src then -1 else 0
    case _ => 0
  }

  /** The references that the actions of `h` have left. */
  function RefCount(h: History<Action>, src: Source): int {
    match h
    case Start => 0
    case Then(before, a) => RefCount(before, src) + CountChange(a, src)
  }

  /** How often the last reference was dropped on the UI thread, or elsewhere. */
  function LastReleases(h: History<Action>, src: Source, onUi: bool): nat {
    match h
    case Start => 0
    case Then(before, a) =>
      LastReleases(before, src, onUi) + if a == Release(src, onUi) && RefCount(before, src) == 1 then 1 else 0
  }

  function Times(h: History<Action>, a: Action): nat {
    match h
    case Start => 0
    case Then(before, last) => Times(before, a) + if last == a then 1 else 0
  }

  /** The sources pushed, in order. */
  function Pushes(h: History<Action>): seq<Source> {
    match h
    case Start => []
    case Then(before, a) => Pushes(before) + if a.Push? then [a.src] else []
  }

  /** The count of a source, zero before it is created. */
  function CountIn(s: State, src: Source): int {
    if s.Created(src) then s.refs[src] else 0
  }

  lemma CountStep(s: State, a: Action, src: Source)
    requires Enabled(s, a)
    ensures CountIn(Next(s, a), src) == CountIn(s, src) + CountChange(a, src)
  {
    match a {
      case Create(_) =>
      case AddRef(_) =>
      case Bind(_) =>
      case Release(_, _) =>
      case _ => OthersKeepCounts(s, a);
    }
  }

  lemma OthersKeepCounts(s: State, a: Action)
    requires Enabled(s, a) && !a.Create? && !a.AddRef? && !a.Bind? && !a.Release?
    ensures Next(s, a).refs == s.refs && Next(s, a).revived == s.revived
  {
    if a.Push? || a.DeleteNow? {
      DeletionKeepsCounts(s, a);
    } else if !a.Check? && !a.StopLoop? {
      DrainKeepsCounts(s, a);
    }
  }

  lemma DeletionKeepsCounts(s: State, a: Action)
    requires Enabled(s, a) && (a.Push? || a.DeleteNow?)
    ensures Next(s, a).refs == s.refs && Next(s, a).revived == s.revived
  {
  }

  lemma DrainKeepsCounts(s: State, a: Action)
    requires Enabled(s, a) && (a.PostDrain? || a.RunTask? || a.CallDirectly? || a.Swap? || a.DeleteNext?)
    ensures Next(s, a).refs == s.refs && Next(s, a).revived == s.revived
  {
  }

  lemma {:induction false} RefCountIsRight(h: History<Action>, src: Source)
    requires Run(h).Some?
    ensures RefCount(h, src) == CountIn(Run(h).value, src)
  {
    match h
    case Start =>
    case Then(before, a) =>
      RefCountIsRight(before, src);
      CountStep(Run(before).value, a, src);
  }

  /** What a step does to the deletions due off the UI thread and on it. */
  lemma DueStepOf(s: State, a: Action, src: Source)
    requires Enabled(s, a)
    ensures Next(s, a).dropped[src] == s.dropped[src] - (if a == Push(src) then 1 else 0)
              + if a == Release(src, false) && s.refs[src] == 1 then 1 else 0
    ensures Next(s, a).uiDropped[src] == s.uiDropped[src] - (if a == DeleteNow(src) then 1 else 0)
              + if a == Release(src, true) && s.refs[src] == 1 then 1 else 0
  {
    if a.Release? {
      ReleaseDue(s, a, src);
    } else if !a.Push? && !a.DeleteNow? {
      OthersKeepDue(s, a);
    }
  }

  lemma ReleaseDue(s: State, a: Action, src: Source)
    requires Enabled(s, a) && a.Release?
    ensures Next(s, a).dropped[src] == s.dropped[src] + if a == Release(src, false) && s.refs[src] == 1 then 1 else 0
    ensures Next(s, a).uiDropped[src] == s.uiDropped[src] + if a == Release(src, true) && s.refs[src] == 1 then 1 else 0
  {
  }

  lemma OthersKeepDue(s: State, a: Action)
    requires Enabled(s, a) && !a.Release? && !a.Push? && !a.DeleteNow?
    ensures Next(s, a).dropped == s.dropped && Next(s, a).uiDropped == s.uiDropped
  {
  }

  /** In every interleaving a source is deleted at once, or about to be, exactly as often as
      its last reference was dropped on the UI thread; and it is pushed, or about to be,
      exactly as often as that happened elsewhere. */
  lemma {:induction false} DeletedWhereReleased(h: History<Action>, src: Source)
    requires Run(h).Some?
    ensures Run(h).value.uiDropped[src] + Times(h, DeleteNow(src)) == LastReleases(h, src, true)
    ensures Run(h).value.dropped[src] + Times(h, Push(src)) == LastReleases(h, src, false)
  {
    match h
    case Start =>
    case Then(before, a) =>
      DeletedWhereReleased(before, src);
      RefCountIsRight(before, src);
      DueStepOf(Run(before).value, a, src);
  }

  /** What a step does to the two parts of the list: the drain takes the first source of its
      part, a push goes to the end, and a swap moves the list to the drain. */
  predicate Moves(rest: seq<Source>, pending: seq<Source>, a: Action, rest': seq<Source>, pending': seq<Source>) {
    if a.DeleteNext? && rest != [] then rest' == rest[1..] && pending' == pending
    else if a.Push? then rest' == rest && pending' == pending + [a.src]
    else rest' + pending' == rest + pending
  }

  lemma ListStep(s: State, a: Action)
    requires Enabled(s, a)
    ensures Moves(s.Rest(), s.Pending(), a, Next(s, a).Rest(), Next(s, a).Pending())
  {
    match a {
      case DeleteNext =>
      case Push(_) =>
      case Swap =>
      case _ => OthersKeepList(s, a);
    }
  }

  lemma OthersKeepList(s: State, a: Action)
    requires Enabled(s, a) && !a.DeleteNext? && !a.Push? && !a.Swap?
    ensures Next(s, a).Rest() == s.Rest() && Next(s, a).Pending() == s.Pending()
  {
    if !a.RunTask? && !a.CallDirectly? {
      assert Next(s, a).drain == s.drain && Next(s, a).dataSources == s.dataSources;
    }
  }

  /** The sources that a step of the drain deletes. */
  function DrainedBy(s: State, a: Action): seq<Source> {
    if a.DeleteNext? && s.Rest() != [] then [s.Rest()[0]] else []
  }

  lemma DeletedStep(s: State, a: Action, src: Source)
    requires Enabled(s, a)
    ensures Next(s, a).deleted[src] ==
            s.deleted[src] + (if a == DeleteNow(src) then 1 else 0) + if DrainedBy(s, a) == [src] then 1 else 0
  {
    match a {
      case DeleteNow(_) =>
      case DeleteNext =>
      case _ => assert Next(s, a).deleted == s.deleted;
    }
  }

  lemma KeepsOrder(drained: seq<Source>, rest: seq<Source>, pending: seq<Source>, a: Action,
                   rest': seq<Source>, pending': seq<Source>)
    requires Moves(rest, pending, a, rest', pending')
    ensures drained + (if a.DeleteNext? && rest != [] then [rest[0]] else []) + rest' + pending' ==
            drained + rest + pending + if a.Push? then [a.src] else []
  {
    if a.DeleteNext? && rest != [] {
      assert rest == [rest[0]] + rest[1..];
    } else if !a.Push? {
      assert drained + rest' + pending' == drained + (rest' + pending');
      assert drained + rest + pending == drained + (rest + pending);
    }
  }

  /** Drains delete the pushed sources in the order of the pushes, and nothing else; every
      other deletion was made at once, on the UI thread. */
  lemma {:induction false} DrainsInOrder(h: History<Action>, src: Source) returns (drained: seq<Source>)
    requires Run(h).Some?
    ensures Pushes(h) == drained + Run(h).value.Rest() + Run(h).value.Pending()
    ensures Run(h).value.deleted[src] == Times(h, DeleteNow(src)) + multiset(drained)[src]
  {
    match h
    case Start => drained := [];
    case Then(before, a) =>
      var s := Run(before).value;
      var was := DrainsInOrder(before, src);
      drained := was + DrainedBy(s, a);
      ListStep(s, a);
      KeepsOrder(was, s.Rest(), s.Pending(), a, Next(s, a).Rest(), Next(s, a).Pending());
      DeletedStep(s, a, src);
      if DrainedBy(s, a) != [] {
        OneMoreInList(was, s.Rest()[0], src);
      } else {
        assert drained == was;
      }
  }

  /** A source whose last reference was never dropped on the UI thread is never deleted at
      once: all its deletions are those of drains. */
  lemma OffUiOnlyDrained(h: History<Action>, src: Source) returns (drained: seq<Source>)
    requires Run(h).Some? && LastReleases(h, src, true) == 0
    ensures Times(h, DeleteNow(src)) == 0
    ensures drained <= Pushes(h) && Run(h).value.deleted[src] == multiset(drained)[src]
  {
    DeletedWhereReleased(h, src);
    drained := DrainsInOrder(h, src);
  }

  /** The binds that found the count at zero. */
  function RevivingBinds(h: History<Action>, src: Source): nat {
    match h
    case Start => 0
    case Then(before, a) => RevivingBinds(before, src) + if a == Bind(src) && RefCount(before, src) == 0 then 1 else 0
  }

  lemma {:induction false} RevivedByBinds(h: History<Action>, src: Source)
    requires Run(h).Some?
    ensures Run(h).value.revived[src] == RevivingBinds(h, src)
  {
    match h
    case Start =>
    case Then(before, a) =>
      RevivedByBinds(before, src);
      RefCountIsRight(before, src);
      RevivedStep(Run(before).value, a, src);
  }

  lemma RevivedStep(s: State, a: Action, src: Source)
    requires Enabled(s, a)
    ensures Next(s, a).revived[src] == s.revived[src] + if a == Bind(src) && s.refs[src] == 0 then 1 else 0
  {
    if !a.Create? && !a.AddRef? && !a.Bind? && !a.Release? {
      OthersKeepCounts(s, a);
    }
  }

  // ---------------------------------------------------------------------------
  // The scheduling that the check in SendResponse relies on

  /** Which of the three assumptions a run respects. */
  datatype Rules = Rules(pushWithRelease: bool, bindWithCheck: bool, notWhileDeleting: bool)

  /** - A last release and its push are one step, as far as SendResponse can see.
      - The check and the bind of SendResponse are one step, as far as releases can see.
      - SendResponse is not called on a source that the drain loop is about to delete. */
  predicate Obeys(s: State, a: Action, r: Rules) {
    && (r.pushWithRelease && a.Check? ==> a.src !in s.dropped && a.src !in s.uiDropped)
    && (r.bindWithCheck && a.Release? && s.Referenced(a.src) && s.refs[a.src] == 1 ==> a.src !in s.checked)
    && (r.notWhileDeleting && a.Check? ==> a.src !in s.Rest())
  }

  predicate RunObeys(h: History<Action>, r: Rules)
    requires Run(h).Some?
  {
    match h
    case Start => true
    case Then(before, a) => RunObeys(before, r) && Obeys(Run(before).value, a, r)
  }

  /** A source that is due for deletion nowhere is still referenced. */
  lemma CheckFindsReference(s: State, src: Source)
    requires Owed(s, src) == TimesUnreferenced(s, src) && s.Created(src)
    requires src !in s.dropped && src !in s.uiDropped && src !in s.Pending() && src !in s.Rest() && src !in s.deleted
    ensures s.Referenced(src)
  {
    assert src !in multiset(s.Pending()) && src !in multiset(s.Rest());
  }

  /** No bind has revived the source, and one that is checked is still referenced. */
  predicate Unrevived(s: State, src: Source) {
    src !in s.revived && (src in s.checked ==> s.Referenced(src))
  }

  lemma UnrevivedStep(s: State, a: Action, src: Source)
    requires Enabled(s, a) && Unrevived(s, src)
    requires a == Check(src) && src !in s.Pending() ==> s.Referenced(src)
    requires a.Release? && a.src == src && src in s.checked ==> s.refs[src] > 1
    ensures Unrevived(Next(s, a), src)
  {
    match a {
      case Bind(x) => assert x == src ==> s.refs[src] > 0;
      case _ =>
    }
  }

  /** With all three, no bind ever revives a source. */
  lemma {:induction false} NothingRevived(h: History<Action>, src: Source)
    requires Run(h).Some? && RunObeys(h, Rules(true, true, true))
    ensures Unrevived(Run(h).value, src)
  {
    match h
    case Start =>
    case Then(before, a) =>
      NothingRevived(before, src);
      var s := Run(before).value;
      if a == Check(src) && src !in s.Pending() {
        DeletionsAreConserved(before, src);
        CheckFindsReference(s, src);
      }
      UnrevivedStep(s, a, src);
  }

  /** So every source is deleted at most once, when unreferenced, and once things have
      settled exactly the unreferenced sources have been deleted. */
  lemma DeletedOnceWhenUnreferenced(h: History<Action>, src: Source)
    requires Run(h).Some? && RunObeys(h, Rules(true, true, true))
    ensures Run(h).value.deleted[src] <= 1 && multiset(Run(h).value.Pending())[src] <= 1
    ensures src in Run(h).value.deleted ==> !Run(h).value.Referenced(src)
    ensures Settled(Run(h).value) && Run(h).value.Created(src) ==>
              (src in Run(h).value.deleted <==> !Run(h).value.Referenced(src))
  {
    NothingRevived(h, src);
    AtMostOnce(h, src);
    DeletionsAreConserved(h, src);
  }

  // Each of the three assumptions is needed.

  ghost predicate Possible(s: State, r: Rules) {
    exists h :: Run(h) == Some(s) && RunObeys(h, r)
  }

  lemma Follow(s: State, a: Action, r: Rules) returns (s': State)
    requires Possible(s, r) && Enabled(s, a) && Obeys(s, a, r)
    ensures s' == Next(s, a) && Possible(s', r)
  {
    s' := Next(s, a);
    var h :| Run(h) == Some(s) && RunObeys(h, r);
    assert Run(Then(h, a)) == Some(s') && RunObeys(Then(h, a), r);
  }

  /** What the examples need to know about source 0. */
  predicate Looks(s: State, count: nat, pending: seq<Source>, dropped: nat, checked: nat, drain: Drain, deleted: nat) {
    && s.Created(0) && s.refs[0] == count && s.Pending() == pending && s.drain == drain
    && s.dropped[0] == dropped && s.uiDropped[0] == 0 && s.checked[0] == checked && s.deleted[0] == deleted
  }

  /** One source, with one reference. */
  lemma OneSource(r: Rules) returns (s: State)
    ensures Possible(s, r) && Looks(s, 1, [], 0, 0, NotDraining, 0)
  {
    assert Run(Start) == Some(Initial()) && RunObeys(Start, r);
    s := Follow(Initial(), Create(0), r);
  }

  /** Its last reference goes away off the UI thread, and it is pushed. */
  lemma Pushed(s: State, r: Rules, pending: seq<Source>, checked: nat, deleted: nat) returns (s': State)
    requires Possible(s, r) && Looks(s, 1, pending, 0, checked, NotDraining, deleted)
    requires r.bindWithCheck ==> checked == 0
    ensures Possible(s', r) && Looks(s', 0, pending + [0], 0, checked, NotDraining, deleted)
  {
    s' := Follow(s, Release(0, false), r);
    assert Looks(s', 0, pending, 1, checked, NotDraining, deleted);
    s' := Follow(s', Push(0), r);
  }

  lemma Swapped(s: State, r: Rules, pending: seq<Source>, deleted: nat) returns (s': State)
    requires Possible(s, r) && Looks(s, 0, pending, 0, 0, NotDraining, deleted) && pending != []
    ensures Possible(s', r) && Looks(s', 0, [], 0, 0, Deleting(pending), deleted)
  {
    s' := Follow(s, CallDirectly, r);
    assert Looks(s', 0, pending, 0, 0, Called, deleted);
    s' := Follow(s', Swap, r);
  }

  lemma DeleteOne(s: State, r: Rules, count: nat, rest: seq<Source>, deleted: nat) returns (s': State)
    requires Possible(s, r) && Looks(s, count, [], 0, 0, Deleting([0] + rest), deleted)
    ensures Possible(s', r) && Looks(s', count, [], 0, 0, Deleting(rest), deleted + 1)
  {
    s' := Follow(s, DeleteNext, r);
    assert ([0] + rest)[1..] == rest;
  }

  lemma LoopEnds(s: State, r: Rules, count: nat, deleted: nat) returns (s': State)
    requires Possible(s, r) && Looks(s, count, [], 0, 0, Deleting([]), deleted)
    ensures Possible(s', r) && Looks(s', count, [], 0, 0, NotDraining, deleted)
  {
    s' := Follow(s, DeleteNext, r);
  }

  lemma Bound(s: State, r: Rules, pending: seq<Source>, dropped: nat, drain: Drain) returns (s': State)
    requires Possible(s, r) && Looks(s, 0, pending, dropped, 1, drain, 0)
    ensures Possible(s', r) && Looks(s', 1, pending, dropped, 0, drain, 0)
  {
    s' := Follow(s, Bind(0), r);
  }

  lemma Checked(s: State, r: Rules, count: nat, dropped: nat, drain: Drain) returns (s': State)
    requires Possible(s, r) && Looks(s, count, [], dropped, 0, drain, 0) && Obeys(s, Check(0), r)
    ensures Possible(s', r) && Looks(s', count, [], dropped, 1, drain, 0)
  {
    s' := Follow(s, Check(0), r);
  }

  /** A source that was revived while it was on the list is pushed a second time. */
  lemma DeletedTwice(s: State, r: Rules) returns (s': State)
    requires Possible(s, r) && Looks(s, 1, [0], 0, 0, NotDraining, 0)
    ensures Possible(s', r) && s'.deleted[0] == 2
  {
    s' := Pushed(s, r, [0], 0, 0);
    s' := Swapped(s', r, [0, 0], 0);
    s' := DeleteOne(s', r, 0, [0], 0);
    s' := DeleteOne(s', r, 0, [], 1);
  }

  /** SendResponse between a last release and its push. */
  lemma PushMustFollowRelease()
    ensures exists s :: Possible(s, Rules(false, true, true)) && s.deleted[0] == 2
  {
    var r := Rules(false, true, true);
    var s := OneSource(r);
    s := Follow(s, Release(0, false), r);
    s := Checked(s, r, 0, 1, NotDraining);
    s := Bound(s, r, [], 1, NotDraining);
    s := Follow(s, Push(0), r);
    s := DeletedTwice(s, r);
  }

  /** A last release between the check and the bind of SendResponse. */
  lemma BindMustFollowCheck()
    ensures exists s :: Possible(s, Rules(true, false, true)) && s.deleted[0] == 2
  {
    var r := Rules(true, false, true);
    var s := OneSource(r);
    s := Checked(s, r, 1, 0, NotDraining);
    s := Pushed(s, r, [], 1, 0);
    s := Bound(s, r, [0], 0, NotDraining);
    s := DeletedTwice(s, r);
  }

  /** SendResponse on a source that was swapped out of the list but not deleted yet: it
      is no longer reported as scheduled. */
  lemma NotWhileDeleting()
    ensures exists s :: Possible(s, Rules(true, true, false)) && s.deleted[0] == 2
  {
    var r := Rules(true, true, false);
    var s := OneSource(r);
    s := Pushed(s, r, [], 0, 0);
    s := Swapped(s, r, [0], 0);
    s := Checked(s, r, 0, 0, Deleting([0]));
    s := Bound(s, r, [], 0, Deleting([0]));
    s := DeleteOne(s, r, 1, [], 0);
    s := LoopEnds(s, r, 1, 1);
    s := Pushed(s, r, [], 0, 1);
    s := Swapped(s, r, [0], 1);
    s := DeleteOne(s, r, 0, [], 1);
  }

  // ---------------------------------------------------------------------------
  // No lost wake-up

  /** Something that will look at the list is under way. */
  predicate WakeUpDue(s: State) {
    s.drainTasks > 0 || s.drain.Called? || s.posting > 0
  }

  lemma WakeUpStep(s: State, a: Action)
    requires Enabled(s, a) && (s.accepting && s.Pending() != [] ==> WakeUpDue(s))
    ensures Next(s, a).accepting && Next(s, a).Pending() != [] ==> WakeUpDue(Next(s, a))
  {
    match a {
      case Push(src) =>
      case Swap =>
      case _ => assert Next(s, a).Pending() == s.Pending();
    }
  }

  /** While the UI loop takes tasks, a non-empty list is never forgotten. */
  lemma {:induction false} NoLostWakeUp(h: History<Action>)
    requires Run(h).Some? && Run(h).value.accepting && Run(h).value.Pending() != []
    ensures WakeUpDue(Run(h).value)
  {
    match h
    case Start =>
    case Then(before, a) =>
      var s := Run(before).value;
      if s.accepting && s.Pending() != [] {
        NoLostWakeUp(before);
      }
      WakeUpStep(s, a);
  }

  // ---------------------------------------------------------------------------
  // Everything is deleted in the end, also at shutdown

  /** The steps that the protocol itself still has to take: nothing new begins. */
  predicate Obligation(s: State, a: Action) {
    (a.Push? || a.DeleteNow? || a.PostDrain? || a.RunTask? || a.Swap? || a.DeleteNext?) && Enabled(s, a)
  }

  /** A due step is an obligation or, once the UI loop has stopped and while something is
      on the list, the direct call of DeleteDataSources that shutdown makes. */
  predicate Due(s: State, a: Action) {
    Obligation(s, a) || (a.CallDirectly? && Enabled(s, a) && !s.accepting && s.Pending() != [])
  }

  /** A bound on the number of due steps left. */
  function Work(s: State): nat {
    10 * |s.dropped| + |s.uiDropped| + 4 * s.posting + 3 * s.drainTasks + |s.Pending()| + |s.Rest()|
    + (if s.Pending() != [] && !s.drain.Called? then 3 else 0)
    + (match s.drain case NotDraining => 0 case Called => 2 case Deleting(_) => 1)
  }

  lemma DueStepsRunOut(s: State, a: Action)
    requires Due(s, a)
    ensures Work(Next(s, a)) < Work(s)
  {
    match a {
      case Push(src) => PushRunsOut(s, src);
      case DeleteNow(src) => DeleteNowRunsOut(s, src);
      case Swap => DrainRunsOut(s, a);
      case DeleteNext => DrainRunsOut(s, a);
      case _ => TaskRunsOut(s, a);
    }
  }

  lemma PushRunsOut(s: State, src: Source)
    requires Enabled(s, Push(src))
    ensures Work(Next(s, Push(src))) < Work(s)
  {
    assert |s.dropped - multiset{src}| == |s.dropped| - 1;
  }

  lemma DeleteNowRunsOut(s: State, src: Source)
    requires Enabled(s, DeleteNow(src))
    ensures Work(Next(s, DeleteNow(src))) < Work(s)
  {
    assert |s.uiDropped - multiset{src}| == |s.uiDropped| - 1;
  }

  lemma TaskRunsOut(s: State, a: Action)
    requires Due(s, a) && (a.PostDrain? || a.RunTask? || a.CallDirectly?)
    ensures Work(Next(s, a)) < Work(s)
  {
  }

  lemma DrainRunsOut(s: State, a: Action)
    requires Enabled(s, a) && (a.Swap? || a.DeleteNext?)
    ensures Work(Next(s, a)) < Work(s)
  {
  }

  /** As long as things have not settled some step is due, whether the UI loop still takes
      tasks or has stopped: with DueStepsRunOut, every source on its way to deletion is
      eventually deleted by due steps, without a further release. */
  lemma AlwaysSomethingDue(h: History<Action>)
    requires Run(h).Some? && !Settled(Run(h).value)
    ensures exists a :: Due(Run(h).value, a)
  {
    var s := Run(h).value;
    if s.dropped != multiset{} {
      var src :| src in s.dropped;
      assert Due(s, Push(src));
    } else if s.uiDropped != multiset{} {
      var src :| src in s.uiDropped;
      assert Due(s, DeleteNow(src));
    } else if s.drain.Deleting? {
      assert Due(s, DeleteNext);
    } else if !s.accepting {
      assert Due(s, Swap) || Due(s, CallDirectly);
    } else {
      NoLostWakeUp(h);
      assert Due(s, PostDrain) || Due(s, Swap) || Due(s, RunTask);
    }
  }

  /** `h'` continues `h` by due steps only. */
  predicate OnlyDue(h: History<Action>, h': History<Action>) {
    h' == h || (h'.Then? && OnlyDue(h, h'.before) && Run(h'.before).Some? && Due(Run(h'.before).value, h'.last))
  }

  lemma {:induction false} DueFirst(h: History<Action>, a: Action, h': History<Action>)
    requires Run(h).Some? && Due(Run(h).value, a) && OnlyDue(Then(h, a), h')
    ensures OnlyDue(h, h')
  {
    if h' != Then(h, a) {
      DueFirst(h, a, h'.before);
    }
  }

  lemma DueKeepsCounts(s: State, a: Action)
    requires Due(s, a)
    ensures Next(s, a).refs == s.refs && Next(s, a).revived == s.revived
  {
    OthersKeepCounts(s, a);
  }

  lemma {:induction false} DueStepsKeepCounts(h: History<Action>, h': History<Action>)
    requires Run(h).Some? && Run(h').Some? && OnlyDue(h, h')
    ensures Run(h').value.refs == Run(h).value.refs && Run(h').value.revived == Run(h).value.revived
  {
    if h' != h {
      DueStepsKeepCounts(h, h'.before);
      DueKeepsCounts(Run(h'.before).value, h'.last);
    }
  }

  /** However the due steps are ordered: when none is left things have settled, and each
      source has been deleted once for every time that its count had come down to zero. */
  lemma SettlesInAnyOrder(h: History<Action>, h': History<Action>)
    requires Run(h).Some? && Run(h').Some? && OnlyDue(h, h')
    requires forall a :: !Due(Run(h').value, a)
    ensures Settled(Run(h').value)
    ensures forall src :: Run(h').value.deleted[src] == TimesUnreferenced(Run(h).value, src)
  {
    if !Settled(Run(h').value) {
      AlwaysSomethingDue(h');
    }
    DueStepsKeepCounts(h, h');
    forall src ensures Run(h').value.deleted[src] == TimesUnreferenced(Run(h).value, src) {
      DeletionsAreConserved(h', src);
    }
  }

  /** Every reachable state settles by due steps alone, after the UI loop has stopped as
      well as before; each source has then been deleted once for every time that its
      count came down to zero. */
  lemma {:induction false} Settles(h: History<Action>) returns (h': History<Action>)
    requires Run(h).Some?
    ensures OnlyDue(h, h') && Run(h').Some? && Settled(Run(h').value)
    ensures forall src :: Run(h').value.deleted[src] == TimesUnreferenced(Run(h).value, src)
    decreases Work(Run(h).value)
  {
    var s := Run(h).value;
    if Settled(s) {
      h' := h;
      forall src ensures s.deleted[src] == TimesUnreferenced(s, src) {
        DeletionsAreConserved(h, src);
      }
    } else {
      AlwaysSomethingDue(h);
      var a :| Due(s, a);
      DueStepsRunOut(s, a);
      DueKeepsCounts(s, a);
      h' := Settles(Then(h, a));
      DueFirst(h, a, h');
    }
  }

  // ---------------------------------------------------------------------------
  // When shutdown needs the direct call

  /** `h'` continues `h` by obligations only. */
  predicate OnlyObligations(h: History<Action>, h': History<Action>) {
    h' == h ||
    (h'.Then? && OnlyObligations(h, h'.before) && Run(h'.before).Some? && Obligation(Run(h'.before).value, h'.last))
  }

  /** `h'` continues `h` without a direct call of DeleteDataSources. */
  predicate WithoutDirectCall(h: History<Action>, h': History<Action>) {
    h' == h || (h'.Then? && !h'.last.CallDirectly? && WithoutDirectCall(h, h'.before))
  }

  lemma {:induction false} ObligationFirst(h: History<Action>, a: Action, h': History<Action>)
    requires Run(h).Some? && Obligation(Run(h).value, a) && OnlyObligations(Then(h, a), h')
    ensures OnlyObligations(h, h')
  {
    if h' != Then(h, a) {
      ObligationFirst(h, a, h'.before);
    }
  }

  lemma {:induction false} ObligationsAreNoCalls(h: History<Action>, h': History<Action>)
    requires OnlyObligations(h, h')
    ensures WithoutDirectCall(h, h')
  {
    if h' != h {
      ObligationsAreNoCalls(h, h'.before);
    }
  }

  /** Some order of steps settles things without a direct call: the UI loop runs tasks, or
      a drain has not looked at the list yet, or nothing is on the list or on its way. */
  predicate MaySettle(s: State) {
    s.accepting || s.drain.Called? || (s.Pending() == [] && s.dropped == multiset{})
  }

  /** Every order of steps does: the UI loop runs tasks, or nothing is on its way to the
      list, and what is on it a drain will find. */
  predicate MustSettle(s: State) {
    s.accepting || (s.dropped == multiset{} && (s.drain.Called? || s.Pending() == []))
  }

  /** Some obligation leads on to a state that may settle. */
  lemma MaySettleStep(h: History<Action>) returns (a: Action)
    requires Run(h).Some? && MaySettle(Run(h).value) && !Settled(Run(h).value)
    ensures Obligation(Run(h).value, a) && MaySettle(Next(Run(h).value, a))
  {
    var s := Run(h).value;
    if s.dropped != multiset{} {
      var src :| src in s.dropped;
      a := Push(src);
    } else if s.uiDropped != multiset{} {
      var src :| src in s.uiDropped;
      a := DeleteNow(src);
    } else if s.drain.Deleting? {
      a := DeleteNext;
    } else if s.drain.Called? {
      a := Swap;
    } else {
      NoLostWakeUp(h);
      a := if s.posting > 0 then PostDrain else RunTask;
    }
  }

  lemma {:induction false} SettlesByObligations(h: History<Action>) returns (h': History<Action>)
    requires Run(h).Some? && MaySettle(Run(h).value)
    ensures OnlyObligations(h, h') && Run(h').Some? && Settled(Run(h').value)
    decreases Work(Run(h).value)
  {
    var s := Run(h).value;
    if Settled(s) {
      h' := h;
    } else {
      var a := MaySettleStep(h);
      DueStepsRunOut(s, a);
      h' := SettlesByObligations(Then(h, a));
      ObligationFirst(h, a, h');
    }
  }

  /** What is left behind when the UI loop stops is never deleted without a direct call,
      whatever else happens. */
  lemma {:induction false} LeftBehind(h: History<Action>, h': History<Action>)
    requires Run(h).Some? && !MaySettle(Run(h).value) && WithoutDirectCall(h, h') && Run(h').Some?
    ensures !MaySettle(Run(h').value) && !Settled(Run(h').value)
  {
    if h' != h {
      LeftBehind(h, h'.before);
      LeftBehindStep(Run(h'.before).value, h'.last);
    }
  }

  lemma LeftBehindStep(s: State, a: Action)
    requires Enabled(s, a) && !a.CallDirectly? && !MaySettle(s)
    ensures !MaySettle(Next(s, a))
  {
  }

  /** A reachable state can settle without a direct call of DeleteDataSources, in some
      continuation, if and only if it may settle; then obligations are enough. */
  lemma MaySettleIff(h: History<Action>)
    requires Run(h).Some?
    ensures MaySettle(Run(h).value) <==>
            exists h' :: WithoutDirectCall(h, h') && Run(h').Some? && Settled(Run(h').value)
  {
    if MaySettle(Run(h).value) {
      var h' := SettlesByObligations(h);
      ObligationsAreNoCalls(h, h');
    } else {
      forall h' | WithoutDirectCall(h, h') && Run(h').Some? ensures !Settled(Run(h').value) {
        LeftBehind(h, h');
      }
    }
  }

  /** No obligation is left. */
  ghost predicate Stuck(s: State) {
    forall a :: !Obligation(s, a)
  }

  /** Every order of the obligations settles things. */
  ghost predicate EveryOrderSettles(h: History<Action>) {
    forall h' :: OnlyObligations(h, h') && Run(h').Some? && Stuck(Run(h').value) ==> Settled(Run(h').value)
  }

  /** The obligations can be taken until none is left. */
  lemma {:induction false} RunDown(h: History<Action>) returns (h': History<Action>)
    requires Run(h).Some?
    ensures OnlyObligations(h, h') && Run(h').Some? && Stuck(Run(h').value)
    decreases Work(Run(h).value)
  {
    var s := Run(h).value;
    if Stuck(s) {
      h' := h;
    } else {
      var a :| Obligation(s, a);
      DueStepsRunOut(s, a);
      h' := RunDown(Then(h, a));
      ObligationFirst(h, a, h');
    }
  }

  lemma MustSettleStep(s: State, a: Action)
    requires Obligation(s, a) && MustSettle(s)
    ensures MustSettle(Next(s, a))
  {
  }

  lemma {:induction false} MustSettleStays(h: History<Action>, h': History<Action>)
    requires Run(h).Some? && MustSettle(Run(h).value) && OnlyObligations(h, h') && Run(h').Some?
    ensures MustSettle(Run(h').value)
  {
    if h' != h {
      MustSettleStays(h, h'.before);
      MustSettleStep(Run(h'.before).value, h'.last);
    }
  }

  /** From a state that need not settle, obligations can lead to one that never does. */
  lemma LeavesBehind(h: History<Action>) returns (h': History<Action>)
    requires Run(h).Some? && !MustSettle(Run(h).value)
    ensures OnlyObligations(h, h') && Run(h').Some? && !MaySettle(Run(h').value)
  {
    h' := h;
    if MaySettle(Run(h).value) {
      assert Obligation(Run(h).value, Swap) && OnlyObligations(h, h);
      h' := Then(h, Swap);
    }
  }

  /** Without a direct call every order of the obligations settles things if and only if
      the UI loop takes tasks, or nothing is on its way to the list and what is on it a
      drain will find: otherwise shutdown has to make the call, or one more. */
  lemma MustSettleIff(h: History<Action>)
    requires Run(h).Some?
    ensures EveryOrderSettles(h) <==> MustSettle(Run(h).value)
  {
    if MustSettle(Run(h).value) {
      forall h' | OnlyObligations(h, h') && Run(h').Some? && Stuck(Run(h').value) ensures Settled(Run(h').value) {
        MustSettleStays(h, h');
        if !Settled(Run(h').value) {
          var a := MaySettleStep(h');
        }
      }
    } else {
      var h1 := LeavesBehind(h);
      var h' := RunDown(h1);
      ObligationsAreNoCalls(h1, h');
      LeftBehind(h1, h');
      ObligationsFollow(h, h1, h');
    }
  }

  lemma {:induction false} ObligationsFollow(h: History<Action>, h1: History<Action>, h': History<Action>)
    requires OnlyObligations(h, h1) && OnlyObligations(h1, h')
    ensures OnlyObligations(h, h')
  {
    if h' != h1 {
      ObligationsFollow(h, h1, h'.before);
    }
  }

  /** A last release while the drain of the shutdown call has not looked at the list yet:
      things may settle, but need not: the push can come after the drain's swap. */
  lemma ReleasedDuringDrain()
    ensures exists h :: Run(h).Some? && RunObeys(h, Rules(true, true, true))
                        && Run(h).value.drain.Called? && Run(h).value.dropped == multiset{0} && !Run(h).value.accepting
                        && MaySettle(Run(h).value) && !EveryOrderSettles(h)
  {
    var r := Rules(true, true, true);
    var s := LoopEnded(r);
    s := Follow(s, CallDirectly, r);
    s := Follow(s, Release(0, false), r);
    assert s.dropped == multiset{0} && !s.accepting && s.drain.Called?;
    var h :| Run(h) == Some(s) && RunObeys(h, r);
    MustSettleIff(h);
  }

  /** Things cannot settle when a last release follows the end of the loop: the source is
      on the list, and the task that should drain it was dropped. */
  lemma ReleasedAfterLoop()
    ensures exists s :: Possible(s, Rules(true, true, true)) && !MaySettle(s)
                        && s.Pending() == [0] && s.posting == 0 && s.drainTasks == 0
  {
    var r := Rules(true, true, true);
    var s := LoopEnded(r);
    s := Follow(s, Release(0, false), r);
    assert s.dropped == multiset{0} && s.Pending() == [] && !s.accepting && s.drainTasks == 0 && s.drain.NotDraining?;
    s := Follow(s, Push(0), r);
    assert s.Pending() == [0] && s.posting == 1 && !s.accepting && s.drainTasks == 0 && s.drain.NotDraining?;
    s := Follow(s, PostDrain, r);
  }

  /** One source, with one reference, when the UI loop stops. */
  lemma LoopEnded(r: Rules) returns (s: State)
    ensures Possible(s, r) && s.refs == map[0 := 1] && s == Initial().(refs := s.refs, accepting := false)
  {
    assert Run(Start) == Some(Initial()) && RunObeys(Start, r);
    s := Follow(Initial(), Create(0), r);
    s := Follow(s, StopLoop, r);
  }

  // ---------------------------------------------------------------------------
  // The code of URLDataManagerIOS, on its static list

  /** What a run of the protocol looks like to the code: the list, the sources deleted so
      far, the tasks posted and not run, and whether the UI loop takes tasks. */
  ghost predicate Shows(h: History<Action>, list: Option<seq<Source>>, deleted: seq<Source>, tasks: nat,
                        accepting: bool, drain: Drain) {
    Run(h).Some? &&
    var s := Run(h).value;
    && s.dataSources == list && s.deleted == multiset(deleted)
    && s.drainTasks == tasks && s.accepting == accepting && s.drain == drain
  }

  lemma ShowsSwap(h: History<Action>, list: Option<seq<Source>>, deleted: seq<Source>,
                  tasks: nat, accepting: bool)
    requires Shows(h, list, deleted, tasks, accepting, NotDraining)
    ensures var h' := Then(Then(h, CallDirectly), Swap);
      if list.None? then Shows(h', list, deleted, tasks, accepting, NotDraining)
      else Shows(h', Some([]), deleted, tasks, accepting, Deleting(list.value))
  {
    var s := Next(Run(h).value, CallDirectly);
    assert Run(Then(h, CallDirectly)) == Some(s) && Enabled(s, Swap);
  }

  lemma ShowsDeletion(h: History<Action>, list: Option<seq<Source>>, deleted: seq<Source>,
                      tasks: nat, accepting: bool, sources: seq<Source>, i: nat)
    requires i < |sources| && Shows(h, list, deleted, tasks, accepting, Deleting(sources[i..]))
    ensures Shows(Then(h, DeleteNext), list, deleted + [sources[i]], tasks, accepting, Deleting(sources[i + 1..]))
  {
    assert sources[i..][1..] == sources[i + 1..];
    assert multiset(deleted + [sources[i]]) == multiset(deleted) + multiset{sources[i]};
  }

  lemma ShowsLoopEnd(h: History<Action>, list: Option<seq<Source>>, deleted: seq<Source>,
                     tasks: nat, accepting: bool)
    requires Shows(h, list, deleted, tasks, accepting, Deleting([]))
    ensures Shows(Then(h, DeleteNext), list, deleted, tasks, accepting, NotDraining)
  {
  }

  lemma ShowsDeletionNow(h: History<Action>, list: Option<seq<Source>>, deleted: seq<Source>,
                         tasks: nat, accepting: bool, src: Source)
    requires Shows(h, list, deleted, tasks, accepting, NotDraining) && src in Run(h).value.uiDropped
    ensures Shows(Then(h, DeleteNow(src)), list, deleted + [src], tasks, accepting, NotDraining)
  {
    assert multiset(deleted + [src]) == multiset(deleted) + multiset{src};
  }

  lemma ShowsPush(h: History<Action>, list: Option<seq<Source>>, deleted: seq<Source>,
                  tasks: nat, accepting: bool, src: Source)
    requires Shows(h, list, deleted, tasks, accepting, NotDraining) && src in Run(h).value.dropped
    ensures var pending, pushed := if list.Some? then list.value else [], Then(h, Push(src));
      && Shows(pushed, Some(pending + [src]), deleted, tasks, accepting, NotDraining)
      && (pending == [] ==> Run(pushed).value.posting > 0)
  {
  }

  lemma ShowsPost(h: History<Action>, list: Option<seq<Source>>, deleted: seq<Source>,
                  tasks: nat, accepting: bool)
    requires Shows(h, list, deleted, tasks, accepting, NotDraining) && Run(h).value.posting > 0
    ensures Shows(Then(h, PostDrain), list, deleted, if accepting then tasks + 1 else tasks, accepting, NotDraining)
  {
  }

  /** Each method runs without interference here, and records the protocol steps that it
      is made of. */
  class UrlDataManager {
    var dataSources: Option<seq<Source>>
    var deleted: seq<Source>
    var drainTasks: nat
    var accepting: bool
    ghost var steps: History<Action>

    ghost predicate Valid()
      reads this
    {
      Shows(steps, dataSources, deleted, drainTasks, accepting, NotDraining)
    }

    ghost function Pending(): seq<Source>
      reads this
    {
      if dataSources.Some? then dataSources.value else []
    }

    constructor ()
      ensures Valid() && steps == Start && accepting
    {
      dataSources := None;
      deleted := [];
      drainTasks, accepting := 0, true;
      steps := Start;
    }

    /** The UI loop ends: from now on it takes and runs no tasks. */
    method StopLoop()
      requires Valid()
      modifies this`accepting, this`steps
      ensures Valid() && !accepting && steps == Then(old(steps), Action.StopLoop)
    {
      steps := Then(steps, Action.StopLoop);
      accepting := false;
    }

    /** Everything on the list is deleted, in order, and the list is empty: also when the
        UI loop has stopped. */
    method DeleteDataSources()
      requires Valid()
      modifies this
      ensures Valid() && Pending() == [] && deleted == old(deleted) + old(Pending())
      ensures drainTasks == old(drainTasks) && accepting == old(accepting)
    {
      ShowsSwap(steps, dataSources, deleted, drainTasks, accepting);
      steps := Then(Then(steps, CallDirectly), Swap);
      if dataSources.None? {
        return;
      }
      var sources := dataSources.value;
      dataSources := Some([]);
      DeleteEach(sources);
    }

    /** The loop of DeleteDataSources. */
    method DeleteEach(sources: seq<Source>)
      requires Shows(steps, dataSources, deleted, drainTasks, accepting, Deleting(sources))
      modifies this`deleted, this`steps
      ensures Valid() && deleted == old(deleted) + sources
    {
      var i := 0;
      while i < |sources|
        invariant 0 <= i <= |sources|
        invariant deleted == old(deleted) + sources[..i]
        invariant Shows(steps, dataSources, deleted, drainTasks, accepting, Deleting(sources[i..]))
      {
        ShowsDeletion(steps, dataSources, deleted, drainTasks, accepting, sources, i);
        steps := Then(steps, DeleteNext);
        deleted := deleted + [sources[i]];
        i := i + 1;
      }
      ShowsLoopEnd(steps, dataSources, deleted, drainTasks, accepting);
      steps := Then(steps, DeleteNext);
    }

    /** What a last release leads to: on the UI thread the source is deleted at once;
        elsewhere it joins the list, and a drain is posted if the list was empty. A UI
        loop that has stopped drops the post. */
    method DeleteDataSource(source: Source, onUi: bool)
      requires Valid()
      requires source in if onUi then Run(steps).value.uiDropped else Run(steps).value.dropped
      modifies this
      ensures Valid() && accepting == old(accepting)
      ensures onUi ==> deleted == old(deleted) + [source] && Pending() == old(Pending())
      ensures onUi ==> drainTasks == old(drainTasks)
      ensures onUi ==> steps == Then(old(steps), DeleteNow(source))
      ensures !onUi ==> deleted == old(deleted) && Pending() == old(Pending()) + [source]
      ensures !onUi ==> drainTasks == old(drainTasks) + if old(Pending()) == [] && accepting then 1 else 0
      ensures !onUi ==> steps == var pushed := Then(old(steps), Push(source));
                                 if old(Pending()) == [] then Then(pushed, PostDrain) else pushed
    {
      if onUi {
        ShowsDeletionNow(steps, dataSources, deleted, drainTasks, accepting, source);
        steps := Then(steps, DeleteNow(source));
        deleted := deleted + [source];
        return;
      }
      ShowsPush(steps, dataSources, deleted, drainTasks, accepting, source);
      steps := Then(steps, Push(source));
      if dataSources.None? {
        dataSources := Some([]);
      }
      var scheduleDelete := dataSources.value == [];
      dataSources := Some(dataSources.value + [source]);
      if scheduleDelete {
        ShowsPost(steps, dataSources, deleted, drainTasks, accepting);
        steps := Then(steps, PostDrain);
        if accepting {
          drainTasks := drainTasks + 1;
        }
      }
    }

    method IsScheduledForDeletion(source: Source) returns (r: bool)
      requires Valid()
      ensures r <==> source in Run(steps).value.Pending()
    {
      r := dataSources.Some? && source in dataSources.value;
    }
  }
}
