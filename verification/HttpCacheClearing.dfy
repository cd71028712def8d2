/** Clearing the HTTP cache, net/http_cache_helper.cc: a chain of a posted task, a call
    of GetBackend and a call of DoomEntriesBetween, each of which may finish at once or
    later, ending in a task on the runner of the client that asked.

    Any number of requests is under way at a time. The two library calls invoke their
    callback once if they return ERR_IO_PENDING and not at all otherwise, in any order;
    posted tasks are not dropped. */
module HttpCacheClearing {
  import opened Prelude
  import opened NetErrors

  type Time = int
  type Client = nat

  /** One call of ClearHttpCache; `id` tells apart calls with equal arguments. */
  datatype Request = Request(id: nat, client: Client, begin: Time, end: Time)

  /** A task posted to the runner of `client`: the callback of `request` bound to `result`. */
  datatype Answer = Answer(client: Client, request: Request, result: int)

  /** A call of DoomEntriesBetween for a request. */
  datatype Doom = Doom(request: Request, begin: Time, end: Time)

  /** What the library does: GetBackend fills in the backend or leaves it null, and
      DoomEntriesBetween, if it gets called, returns `doom`. */
  datatype Library = Library(backend: bool, doom: int)

  datatype State = State(
    issued: set<Request>,
    network: multiset<Request>,   // tasks on the network runners that the calls have named
    inGetBackend: set<Request>,   // callbacks that GetBackend still has to invoke
    inDoom: set<Request>,         // callbacks that DoomEntriesBetween still has to invoke
    answers: seq<Answer>,         // tasks posted to the clients' runners
    dooms: seq<Doom>)

  function Initial(): State {
    State({}, multiset{}, {}, {}, [], [])
  }

  // ---------------------------------------------------------------------------
  // The four functions of the file

  function Answered(s: State, r: Request, result: int): State {
    s.(answers := s.answers + [Answer(r.client, r, result)])
  }

  /** DoomHttpCache. */
  function Doomed(s: State, r: Request, error: int, lib: Library): State {
    if !lib.backend then Answered(s, r, error)
    else
      var s' := WithDoom(s, r);
      if lib.doom == ERR_IO_PENDING then s'.(inDoom := s.inDoom + {r}) else Answered(s', r, lib.doom)
  }

  function WithDoom(s: State, r: Request): State {
    s.(dooms := s.dooms + [Doom(r, r.begin, r.end)])
  }

  datatype Action =
    | Clear(r: Request)                                    // ClearHttpCache
    | RunTask(r: Request, rv: int, lib: Library)           // ClearHttpCacheOnIOThread; GetBackend returns rv
    | BackendReady(r: Request, error: int, lib: Library)   // GetBackend's callback
    | DoomDone(r: Request, rv: int)                        // DoomEntriesBetween's callback

  predicate Enabled(s: State, a: Action) {
    match a
    case Clear(r) => r !in s.issued && r.end != 0
    case RunTask(r, _, _) => r in s.network
    case BackendReady(r, error, _) => r in s.inGetBackend && error != ERR_IO_PENDING
    case DoomDone(r, rv) => r in s.inDoom && rv != ERR_IO_PENDING
  }

  function Next(s: State, a: Action): State
    requires Enabled(s, a)
  {
    match a
    case Clear(r) => s.(issued := s.issued + {r}, network := s.network + multiset{r})
    case RunTask(r, rv, lib) =>
      var s' := s.(network := s.network - multiset{r});
      if rv == ERR_IO_PENDING then s'.(inGetBackend := s.inGetBackend + {r}) else Doomed(s', r, rv, lib)
    case BackendReady(r, error, lib) => Doomed(s.(inGetBackend := s.inGetBackend - {r}), r, error, lib)
    case DoomDone(r, rv) => Answered(s.(inDoom := s.inDoom - {r}), r, rv)
  }

  function Run(h: History<Action>): Option<State> {
    match h
    case Start => Some(Initial())
    case Then(before, a) =>
      var s := Run(before);
      if s.Some? && Enabled(s.value, a) then Some(Next(s.value, a)) else None
  }

  /** The runners, and the functions as they work on them. */
  class Runners {
    var issued: set<Request>
    var network: multiset<Request>
    var inGetBackend: set<Request>
    var inDoom: set<Request>
    var answers: seq<Answer>
    var dooms: seq<Doom>

    ghost function View(): State
      reads this
    {
      State(issued, network, inGetBackend, inDoom, answers, dooms)
    }

    constructor ()
      ensures View() == Initial()
    {
      issued, network, inGetBackend, inDoom, answers, dooms := {}, multiset{}, {}, {}, [], [];
    }

    method PostCallback(r: Request, result: int)
      modifies this`answers
      ensures View() == Answered(old(View()), r, result)
    {
      answers := answers + [Answer(r.client, r, result)];
    }

    method DoomHttpCache(r: Request, error: int, lib: Library)
      modifies this`answers, this`inDoom, this`dooms
      ensures View() == Doomed(old(View()), r, error, lib)
    {
      if lib.backend {
        dooms := dooms + [Doom(r, r.begin, r.end)];
        var rv := lib.doom;
        if rv != ERR_IO_PENDING {
          PostCallback(r, rv);
        } else {
          inDoom := inDoom + {r};
        }
      } else {
        PostCallback(r, error);
      }
    }

    method ClearHttpCacheOnIOThread(r: Request, rv: int, lib: Library)
      requires r in network
      modifies this
      ensures View() == Next(old(View()), RunTask(r, rv, lib))
    {
      network := network - multiset{r};
      if rv != ERR_IO_PENDING {
        DoomHttpCache(r, rv, lib);
      } else {
        inGetBackend := inGetBackend + {r};
      }
    }

    /** The library invokes the callback given to GetBackend. */
    method OnBackendReady(r: Request, error: int, lib: Library)
      requires r in inGetBackend && error != ERR_IO_PENDING
      modifies this
      ensures View() == Next(old(View()), BackendReady(r, error, lib))
    {
      inGetBackend := inGetBackend - {r};
      DoomHttpCache(r, error, lib);
    }

    /** The library invokes the callback given to DoomEntriesBetween. */
    method OnDoomDone(r: Request, rv: int)
      requires r in inDoom && rv != ERR_IO_PENDING
      modifies this
      ensures View() == Next(old(View()), DoomDone(r, rv))
    {
      inDoom := inDoom - {r};
      PostCallback(r, rv);
    }

    method ClearHttpCache(r: Request)
      requires r !in issued && r.end != 0
      modifies this
      ensures View() == Next(old(View()), Clear(r))
    {
      issued := issued + {r};
      network := network + multiset{r};
    }
  }

  // ---------------------------------------------------------------------------
  // Where a request is

  function TimesAnswered(s: seq<Answer>, r: Request): nat {
    if s == [] then 0 else TimesAnswered(s[..|s| - 1], r) + if s[|s| - 1].request == r then 1 else 0
  }

  function TimesDoomed(s: seq<Doom>, r: Request): nat {
    if s == [] then 0 else TimesDoomed(s[..|s| - 1], r) + if s[|s| - 1].request == r then 1 else 0
  }

  /** The number of stages that hold the request. */
  function Places(s: State, r: Request): nat {
    s.network[r]
    + (if r in s.inGetBackend then 1 else 0)
    + (if r in s.inDoom then 1 else 0)
    + TimesAnswered(s.answers, r)
  }

  function Concluded(error: int, lib: Library): Option<int> {
    if !lib.backend then Some(error) else if lib.doom != ERR_IO_PENDING then Some(lib.doom) else None
  }

  /** What a step lets the library conclude. */
  function Conclusion(a: Action): Option<int> {
    match a
    case Clear(_) => None
    case RunTask(_, rv, lib) => if rv == ERR_IO_PENDING then None else Concluded(rv, lib)
    case BackendReady(_, error, lib) => Concluded(error, lib)
    case DoomDone(_, rv) => Some(rv)
  }

  /** What the library has said about a request so far: the result of its doom, or the
      error of GetBackend if that left the backend null. */
  function ResultOf(h: History<Action>, r: Request): Option<int> {
    match h
    case Start => None
    case Then(before, a) => if a.r == r && Conclusion(a).Some? then Conclusion(a) else ResultOf(before, r)
  }

  lemma OneMoreAnswer(s: seq<Answer>, a: Answer, r: Request)
    ensures TimesAnswered(s + [a], r) == TimesAnswered(s, r) + if a.request == r then 1 else 0
  {
    assert (s + [a])[..|s|] == s;
  }

  lemma OneMoreDoom(s: seq<Doom>, d: Doom, r: Request)
    ensures TimesDoomed(s + [d], r) == TimesDoomed(s, r) + if d.request == r then 1 else 0
  {
    assert (s + [d])[..|s|] == s;
  }

  lemma AnsweredMoves(s: State, r: Request, result: int, x: Request)
    ensures var s' := Answered(s, r, result);
      && Places(s', x) == Places(s, x) + (if x == r then 1 else 0)
      && TimesAnswered(s'.answers, x) == TimesAnswered(s.answers, x) + (if x == r then 1 else 0)
  {
    OneMoreAnswer(s.answers, Answer(r.client, r, result), x);
  }

  /** A request goes from `s`, where it has no place any more, to one further stage of
      `s'`; it is answered there iff the library has concluded. */
  predicate Moves(s: State, s': State, r: Request, doomed: bool, concluded: bool, x: Request) {
    && Places(s', x) == Places(s, x) + (if x == r then 1 else 0)
    && TimesDoomed(s'.dooms, x) == TimesDoomed(s.dooms, x) + (if x == r && doomed then 1 else 0)
    && TimesAnswered(s'.answers, x) == TimesAnswered(s.answers, x) + (if x == r && concluded then 1 else 0)
    && (x in s'.inDoom <==> x in s.inDoom || (x == r && !concluded))
    && s'.network == s.network && s'.inGetBackend == s.inGetBackend && s'.issued == s.issued
  }

  lemma WithoutBackend(s: State, r: Request, error: int, x: Request)
    ensures Moves(s, Answered(s, r, error), r, false, true, x)
  {
    AnsweredMoves(s, r, error, x);
  }

  lemma WithDoomMoves(s: State, r: Request, x: Request)
    ensures Places(WithDoom(s, r), x) == Places(s, x)
    ensures TimesDoomed(WithDoom(s, r).dooms, x) == TimesDoomed(s.dooms, x) + if x == r then 1 else 0
  {
    OneMoreDoom(s.dooms, Doom(r, r.begin, r.end), x);
  }

  lemma DoomAnswers(s: State, r: Request, rv: int, x: Request)
    ensures Moves(s, Answered(WithDoom(s, r), r, rv), r, true, true, x)
  {
    WithDoomMoves(s, r, x);
    var s1 := WithDoom(s, r);
    AnsweredMoves(s1, r, rv, x);
    assert s1.answers == s.answers && s1.inDoom == s.inDoom;
    assert Answered(s1, r, rv).dooms == s1.dooms;
  }

  lemma DoomWaits(s: State, r: Request, x: Request)
    requires r !in s.inDoom
    ensures Moves(s, WithDoom(s, r).(inDoom := s.inDoom + {r}), r, true, false, x)
  {
    OneMoreDoom(s.dooms, Doom(r, r.begin, r.end), x);
  }

  /** DoomHttpCache puts its request into exactly one further stage, dooms at most once,
      and answers with what the library has concluded. */
  lemma DoomedMoves(s: State, r: Request, error: int, lib: Library, x: Request)
    requires r !in s.inDoom
    ensures Moves(s, Doomed(s, r, error, lib), r, lib.backend, Concluded(error, lib).Some?, x)
  {
    if !lib.backend {
      WithoutBackend(s, r, error, x);
    } else if lib.doom == ERR_IO_PENDING {
      DoomWaits(s, r, x);
    } else {
      DoomAnswers(s, r, lib.doom, x);
    }
  }

  /** The bookkeeping of request `x` in state `s`, when `result` is its result so far. */
  ghost predicate Sound(s: State, x: Request, result: Option<int>) {
    && Places(s, x) == (if x in s.issued then 1 else 0)
    && TimesAnswered(s.answers, x) == (if result.Some? then 1 else 0)
    && TimesDoomed(s.dooms, x) <= 1
    && (x in s.inDoom ==> TimesDoomed(s.dooms, x) == 1)
    && (x !in s.issued || x in s.network || x in s.inGetBackend ==> TimesDoomed(s.dooms, x) == 0)
  }

  lemma ClearIsSound(s: State, r: Request, x: Request, result: Option<int>)
    requires Enabled(s, Clear(r)) && Sound(s, x, result)
    ensures Sound(Next(s, Clear(r)), x, result)
  {
  }

  lemma TaskIsSound(s: State, r: Request, rv: int, lib: Library, x: Request, result: Option<int>)
    requires Enabled(s, RunTask(r, rv, lib)) && Sound(s, x, result) && Sound(s, r, None)
    ensures Sound(Next(s, RunTask(r, rv, lib)), x,
                  if x == r && rv != ERR_IO_PENDING then Concluded(rv, lib) else result)
  {
    var s1 := s.(network := s.network - multiset{r});
    assert Places(s1, x) == Places(s, x) - if x == r then 1 else 0;
    if rv != ERR_IO_PENDING {
      DoomedMoves(s1, r, rv, lib, x);
    }
  }

  lemma BackendIsSound(s: State, r: Request, error: int, lib: Library, x: Request, result: Option<int>)
    requires Enabled(s, BackendReady(r, error, lib)) && Sound(s, x, result) && Sound(s, r, None)
    ensures Sound(Next(s, BackendReady(r, error, lib)), x, if x == r then Concluded(error, lib) else result)
  {
    var s1 := s.(inGetBackend := s.inGetBackend - {r});
    assert Places(s1, x) == Places(s, x) - if x == r then 1 else 0;
    DoomedMoves(s1, r, error, lib, x);
  }

  lemma DoneIsSound(s: State, r: Request, rv: int, x: Request, result: Option<int>)
    requires Enabled(s, DoomDone(r, rv)) && Sound(s, x, result) && Sound(s, r, None)
    ensures Sound(Next(s, DoomDone(r, rv)), x, if x == r then Some(rv) else result)
  {
    var s1 := s.(inDoom := s.inDoom - {r});
    assert Places(s1, x) == Places(s, x) - if x == r then 1 else 0;
    AnsweredMoves(s1, r, rv, x);
  }

  /** A request in one of the first three stages has no result yet. */
  lemma NoResultYet(s: State, r: Request, result: Option<int>)
    requires Sound(s, r, result) && (r in s.network || r in s.inGetBackend || r in s.inDoom)
    ensures result == None
  {
  }

  lemma {:induction false} RunIsSound(h: History<Action>, x: Request)
    requires Run(h).Some?
    ensures Sound(Run(h).value, x, ResultOf(h, x))
  {
    match h
    case Start =>
    case Then(before, a) =>
      var s := Run(before).value;
      RunIsSound(before, x);
      match a {
        case Clear(r) => ClearIsSound(s, r, x, ResultOf(before, x));
        case RunTask(r, rv, lib) =>
          RunIsSound(before, r);
          NoResultYet(s, r, ResultOf(before, r));
          TaskIsSound(s, r, rv, lib, x, ResultOf(before, x));
        case BackendReady(r, error, lib) =>
          RunIsSound(before, r);
          NoResultYet(s, r, ResultOf(before, r));
          BackendIsSound(s, r, error, lib, x, ResultOf(before, x));
        case DoomDone(r, rv) =>
          RunIsSound(before, r);
          NoResultYet(s, r, ResultOf(before, r));
          DoneIsSound(s, r, rv, x, ResultOf(before, x));
      }
  }

  /** An answer goes to the client that asked and carries what the library concluded about
      its request. */
  predicate AnswerIsRight(h: History<Action>, a: Answer) {
    a.client == a.request.client && ResultOf(h, a.request) == Some(a.result)
  }

  /** DoomHttpCache answers its request at once iff the library has concluded. */
  lemma DoomedAnswers(s: State, r: Request, error: int, lib: Library)
    ensures Doomed(s, r, error, lib).answers == s.answers +
            match Concluded(error, lib) case None => [] case Some(rv) => [Answer(r.client, r, rv)]
  {
  }

  /** A step adds an answer iff it lets the library conclude. */
  lemma NextAnswers(s: State, a: Action)
    requires Enabled(s, a)
    ensures Next(s, a).answers == s.answers +
            match Conclusion(a) case None => [] case Some(rv) => [Answer(a.r.client, a.r, rv)]
  {
    match a {
      case Clear(_) =>
      case RunTask(r, rv, lib) => DoomedAnswers(s.(network := s.network - multiset{r}), r, rv, lib);
      case BackendReady(r, error, lib) => DoomedAnswers(s.(inGetBackend := s.inGetBackend - {r}), r, error, lib);
      case DoomDone(_, _) =>
    }
  }

  /** A doom is for the times that were asked for. */
  predicate DoomIsRight(d: Doom) {
    d.begin == d.request.begin && d.end == d.request.end
  }

  lemma NextDooms(s: State, a: Action, i: nat)
    requires Enabled(s, a) && i < |Next(s, a).dooms|
    ensures if i < |s.dooms| then Next(s, a).dooms[i] == s.dooms[i] else DoomIsRight(Next(s, a).dooms[i])
  {
  }

  /** In every interleaving all answers and all dooms are right. */
  lemma {:induction false} AnswersAreRight(h: History<Action>)
    requires Run(h).Some?
    ensures forall i :: 0 <= i < |Run(h).value.answers| ==> AnswerIsRight(h, Run(h).value.answers[i])
    ensures forall i :: 0 <= i < |Run(h).value.dooms| ==> DoomIsRight(Run(h).value.dooms[i])
  {
    match h
    case Start =>
    case Then(before, a) =>
      AnswersAreRight(before);
      var s, s' := Run(before).value, Run(h).value;
      forall i | 0 <= i < |s'.answers| ensures AnswerIsRight(h, s'.answers[i]) {
        NextAnswers(s, a);
        if i < |s.answers| {
          assert s'.answers[i] == s.answers[i];
          ResultIsFinal(before, a, s.answers[i].request);
        }
      }
      forall i | 0 <= i < |s'.dooms| ensures DoomIsRight(s'.dooms[i]) {
        NextDooms(s, a, i);
      }
  }

  /** A result never changes: its request is in none of the stages that could give it another. */
  lemma ResultIsFinal(h: History<Action>, a: Action, x: Request)
    requires Run(h).Some? && Enabled(Run(h).value, a) && ResultOf(h, x).Some?
    ensures ResultOf(Then(h, a), x) == ResultOf(h, x)
  {
    var s := Run(h).value;
    RunIsSound(h, x);
    if x in s.network || x in s.inGetBackend || x in s.inDoom {
      NoResultYet(s, x, ResultOf(h, x));
    }
  }

  /** Each request is always in exactly one of the four stages: waiting for its task, in
      GetBackend, in DoomEntriesBetween, or answered; it is doomed at most once, and
      answered exactly once as soon as the library has concluded. */
  lemma OneStageOneAnswer(h: History<Action>, r: Request)
    requires Run(h).Some? && r in Run(h).value.issued
    ensures var s := Run(h).value;
      && s.network[r] + (if r in s.inGetBackend then 1 else 0) + (if r in s.inDoom then 1 else 0)
           + TimesAnswered(s.answers, r) == 1
      && TimesAnswered(s.answers, r) == (if ResultOf(h, r).Some? then 1 else 0)
      && TimesDoomed(s.dooms, r) <= 1
  {
    RunIsSound(h, r);
  }

  /** How often the library has provided a backend for a request. */
  function BackendsFor(h: History<Action>, r: Request): nat {
    match h
    case Start => 0
    case Then(before, a) =>
      BackendsFor(before, r)
      + if a.r == r && ((a.RunTask? && a.rv != ERR_IO_PENDING) || a.BackendReady?) && a.lib.backend then 1 else 0
  }

  lemma DoomStep(s: State, a: Action, r: Request)
    requires Enabled(s, a)
    ensures TimesDoomed(Next(s, a).dooms, r) == TimesDoomed(s.dooms, r)
            + if a.r == r && ((a.RunTask? && a.rv != ERR_IO_PENDING) || a.BackendReady?) && a.lib.backend then 1 else 0
  {
    OneMoreDoom(s.dooms, Doom(a.r, a.r.begin, a.r.end), r);
  }

  /** Entries are doomed exactly for the requests that got a backend. */
  lemma {:induction false} DoomedIffBackend(h: History<Action>, r: Request)
    requires Run(h).Some?
    ensures TimesDoomed(Run(h).value.dooms, r) == BackendsFor(h, r)
  {
    match h
    case Start =>
    case Then(before, a) =>
      DoomedIffBackend(before, r);
      DoomStep(Run(before).value, a, r);
  }

  /** When no task and no library callback is outstanding, every request is answered. */
  lemma AllAnswered(h: History<Action>, r: Request)
    requires Run(h).Some? && r in Run(h).value.issued
    requires Run(h).value.network == multiset{} && Run(h).value.inGetBackend == {} && Run(h).value.inDoom == {}
    ensures TimesAnswered(Run(h).value.answers, r) == 1
  {
    RunIsSound(h, r);
  }

  /** Every step that is not a new request brings some request closer to its answer. */
  lemma StepsRunOut(s: State, a: Action)
    requires Enabled(s, a) && !a.Clear?
    ensures Remaining(Next(s, a)) < Remaining(s)
  {
    if a.RunTask? {
      assert a.r in s.inGetBackend || |s.inGetBackend + {a.r}| == |s.inGetBackend| + 1;
    }
  }

  function Remaining(s: State): nat {
    3 * |s.network| + 2 * |s.inGetBackend| + |s.inDoom|
  }
}
