/** Promotions that remember how often they were shown, chrome/browser/notification_promo.cc.
    Times are integers; a first view time of zero means "not viewed yet". */
module NotificationPromo {
  import opened Prelude

  type Time = int
  type PromoId = int

  // ---------------------------------------------------------------------------
  // Keys: base::NumberToString

  function Digit(d: nat): char
    requires d < 10
  {
    ['0', '1', '2', '3', '4', '5', '6', '7', '8', '9'][d]
  }

  function NatToString(n: nat): (s: string)
    ensures s != [] && forall i :: 0 <= i < |s| ==> s[i] != '-'
  {
    if n < 10 then [Digit(n)] else NatToString(n / 10) + [Digit(n % 10)]
  }

  function NumberToString(id: PromoId): string {
    if id < 0 then ['-'] + NatToString(-id) else NatToString(id)
  }

  /** The number that a string of digits stands for. */
  function NatOf(s: string): int {
    if s == [] then 0 else 10 * NatOf(s[..|s| - 1]) + (s[|s| - 1] as int - '0' as int)
  }

  function NumberOf(s: string): int {
    if s != [] && s[0] == '-' then -NatOf(s[1..]) else NatOf(s)
  }

  lemma {:induction false} NatReadsBack(n: nat)
    ensures NatOf(NatToString(n)) == n && (NatToString(n)[0] == '0' <==> n == 0)
  {
    var s := NatToString(n);
    assert s[|s| - 1] as int - '0' as int == n % 10;
    if n >= 10 {
      NatReadsBack(n / 10);
      assert s[..|s| - 1] == NatToString(n / 10);
    } else {
      assert s[..|s| - 1] == [];
    }
  }

  /** Reading a key gives its id back, and keys have no leading zeros. */
  lemma NumberReadsBack(id: PromoId)
    ensures NumberOf(NumberToString(id)) == id
    ensures NumberToString(id)[0] == '0' <==> id == 0
    ensures id < 0 ==> |NumberToString(id)| > 1 && NumberToString(id)[1] != '0'
  {
    NatReadsBack(if id < 0 then -id else id);
    assert id < 0 ==> NumberToString(id)[1..] == NatToString(-id);
  }

  /** So different promos have different keys. */
  lemma KeysAreDistinct(m: PromoId, n: PromoId)
    requires m != n
    ensures NumberToString(m) != NumberToString(n)
  {
    NumberReadsBack(m);
    NumberReadsBack(n);
  }

  // ---------------------------------------------------------------------------
  // The preference that stores the promotions

  /** What is stored under a key: some other value, or a dictionary of which each entry
      may be missing or of the wrong type. */
  datatype Stored = NotADictionary | Dictionary(firstViewTime: Option<Time>, views: Option<int>, closed: Option<bool>)

  type Prefs = map<string, Stored>

  datatype Record = Record(firstViewTime: Time, views: int, closed: bool)

  const UNSEEN: Record := Record(0, 0, false)

  /** InitFromPrefs on an instance of promo `id` that holds `r`. */
  function LoadedOver(r: Record, prefs: Prefs, id: PromoId): Record {
    if id == -1 || NumberToString(id) !in prefs then r
    else match prefs[NumberToString(id)]
      case NotADictionary => r
      case Dictionary(f, v, c) =>
        Record(f.GetOr(r.firstViewTime), v.GetOr(r.views), c.GetOr(r.closed))
  }

  /** InitFromPrefs on a new instance. */
  function Loaded(prefs: Prefs, id: PromoId): Record {
    LoadedOver(UNSEEN, prefs, id)
  }

  /** What is stored replaces what the instance holds, field by field; what is missing, or
      not of the right type, stays. */
  lemma MissingStays(r: Record, prefs: Prefs, id: PromoId, f: Option<Time>, v: Option<int>, c: Option<bool>)
    requires id != -1 && NumberToString(id) in prefs && prefs[NumberToString(id)] == Dictionary(f, v, c)
    ensures forall t :: f == Some(t) ==> LoadedOver(r, prefs, id).firstViewTime == t
    ensures forall n :: v == Some(n) ==> LoadedOver(r, prefs, id).views == n
    ensures forall b :: c == Some(b) ==> LoadedOver(r, prefs, id).closed == b
    ensures f.None? ==> LoadedOver(r, prefs, id).firstViewTime == r.firstViewTime
    ensures v.None? ==> LoadedOver(r, prefs, id).views == r.views
    ensures c.None? ==> LoadedOver(r, prefs, id).closed == r.closed
  {
  }

  /** The four-argument WritePrefs. */
  function Written(prefs: Prefs, id: PromoId, r: Record): Prefs {
    prefs[NumberToString(id) := Dictionary(Some(r.firstViewTime), Some(r.views), Some(r.closed))]
  }

  /** What is written is what is loaded, and the other promos are not disturbed. */
  lemma WriteThenLoad(prefs: Prefs, id: PromoId, r: Record, other: PromoId)
    ensures id != -1 ==> Loaded(Written(prefs, id, r), id) == r
    ensures other != id ==> Loaded(Written(prefs, id, r), other) == Loaded(prefs, other)
  {
    if other != id {
      KeysAreDistinct(other, id);
    }
  }

  function Viewed(r: Record, now: Time): Record {
    Record(if r.firstViewTime == 0 then now else r.firstViewTime, r.views + 1, r.closed)
  }

  /** The parameters that InitFromJson sets. */
  datatype Params = Params(id: PromoId, text: string, start: Time, end: Time, maxViews: int, maxSeconds: int)

  class NotificationPromo {
    var localState: PrefService
    var params: Params
    var firstViewTime: Time
    var views: int
    var closed: bool

    ghost function View(): Record
      reads this
    {
      Record(firstViewTime, views, closed)
    }

    /** A new instance, initialized with its parameters. */
    constructor (localState: PrefService, params: Params)
      ensures this.localState == localState && this.params == params && View() == UNSEEN
    {
      this.localState := localState;
      this.params := params;
      firstViewTime, views, closed := 0, 0, false;
    }

    method InitFromPrefs()
      modifies this
      ensures localState == old(localState) && params == old(params)
      ensures View() == LoadedOver(old(View()), localState.promos, params.id)
    {
      if params.id == -1 {
        return;
      }
      var key := NumberToString(params.id);
      if key !in localState.promos || localState.promos[key].NotADictionary? {
        return;
      }
      var stored := localState.promos[key];
      if stored.firstViewTime.Some? {
        firstViewTime := stored.firstViewTime.value;
      }
      if stored.views.Some? {
        views := stored.views.value;
      }
      if stored.closed.Some? {
        closed := stored.closed.value;
      }
    }

    method WritePrefs(promoId: PromoId, firstViewTime: Time, views: int, closed: bool)
      modifies localState
      ensures localState.promos == Written(old(localState.promos), promoId, Record(firstViewTime, views, closed))
    {
      var promoDict := localState.promos;
      promoDict := promoDict[NumberToString(promoId) := Dictionary(Some(firstViewTime), Some(views), Some(closed))];
      localState.promos := promoDict;
    }

    method HandleClosed()
      modifies localState
      ensures localState.promos ==
                if closed then old(localState.promos)
                else Written(old(localState.promos), params.id, View().(closed := true))
    {
      if !closed {
        WritePrefs(params.id, firstViewTime, views, true);
      }
    }

    method HandleViewed(now: Time)
      modifies localState
      ensures localState.promos == Written(old(localState.promos), params.id, Viewed(View(), now))
    {
      var newViews := views + 1;
      var newFirst := firstViewTime;
      if newFirst == 0 {
        newFirst := now;
      }
      WritePrefs(params.id, newFirst, newViews, closed);
    }

    method CanShow(c: Clock) returns (r: bool)
      ensures r <==> Showable(params, View(), c)
    {
      var exceedsMaxViews := if params.maxViews == 0 then false else views >= params.maxViews;
      var exceedsMaxSeconds :=
        if params.maxSeconds == 0 || firstViewTime == 0 then false else firstViewTime + params.maxSeconds < c.first;
      r := !closed && params.text != [] && !exceedsMaxViews && !exceedsMaxSeconds
           && params.start < c.second && params.end > c.third;
    }
  }

  class PrefService {
    var promos: Prefs

    constructor ()
      ensures promos == map[]
    {
      promos := map[];
    }
  }

  // ---------------------------------------------------------------------------
  // Runs of handler calls, each on an instance freshly loaded from the preferences

  datatype Event = View(id: PromoId, now: Time) | Close(id: PromoId)

  function Handled(prefs: Prefs, e: Event): Prefs {
    var r := Loaded(prefs, e.id);
    match e
    case View(id, now) => Written(prefs, id, Viewed(r, now))
    case Close(id) => if r.closed then prefs else Written(prefs, id, r.(closed := true))
  }

  /** One such call. */
  method HandleFresh(localState: PrefService, params: Params, e: Event)
    requires e.id == params.id
    modifies localState
    ensures localState.promos == Handled(old(localState.promos), e)
  {
    var promo := new NotificationPromo(localState, params);
    promo.InitFromPrefs();
    match e {
      case View(_, now) => promo.HandleViewed(now);
      case Close(_) => promo.HandleClosed();
    }
  }

  function After(h: History<Event>): Prefs {
    match h
    case Start => map[]
    case Then(before, e) => Handled(After(before), e)
  }

  function ViewsOf(h: History<Event>, id: PromoId): nat {
    match h
    case Start => 0
    case Then(before, e) => ViewsOf(before, id) + if e.View? && e.id == id then 1 else 0
  }

  /** The time of the first view, 0 if there was none. */
  function FirstViewOf(h: History<Event>, id: PromoId): Time {
    match h
    case Start => 0
    case Then(before, e) => if e.View? && e.id == id && ViewsOf(before, id) == 0 then e.now else FirstViewOf(before, id)
  }

  predicate EverClosed(h: History<Event>, id: PromoId) {
    match h
    case Start => false
    case Then(before, e) => EverClosed(before, id) || e == Close(id)
  }

  /** The clock never reads zero, which would pass for "not viewed yet". */
  predicate ClockNeverZero(h: History<Event>) {
    match h
    case Start => true
    case Then(before, e) => ClockNeverZero(before) && (e.View? ==> e.now != 0)
  }

  /** The record of each promo is its history, whatever happens to other promos. */
  lemma {:induction false} RecordIsHistory(h: History<Event>, id: PromoId)
    requires id != -1 && ClockNeverZero(h)
    ensures Loaded(After(h), id) == Record(FirstViewOf(h, id), ViewsOf(h, id), EverClosed(h, id))
    ensures FirstViewOf(h, id) == 0 <==> ViewsOf(h, id) == 0
  {
    match h
    case Start =>
    case Then(before, e) =>
      RecordIsHistory(before, id);
      WriteThenLoad(After(before), e.id, Viewed(Loaded(After(before), e.id), if e.View? then e.now else 0), id);
      WriteThenLoad(After(before), e.id, Loaded(After(before), e.id).(closed := true), id);
  }

  /** The promo id -1 means "not set": its record is written but never loaded, so it
      only ever tells the last event. */
  lemma UnsetPromoForgets(h: History<Event>, e: Event)
    requires e.id == -1
    ensures After(Then(h, e)) == Written(After(h), -1, if e.View? then Record(e.now, 1, false) else Record(0, 0, true))
    ensures Loaded(After(Then(h, e)), -1) == UNSEEN
  {
  }

  // ---------------------------------------------------------------------------
  // Showing

  /** CanShow reads the clock up to three times. */
  datatype Clock = Clock(first: Time, second: Time, third: Time)

  predicate Ticks(c: Clock) {
    c.first <= c.second <= c.third
  }

  predicate Showable(p: Params, r: Record, c: Clock) {
    && !r.closed
    && p.text != []
    && (p.maxViews == 0 || r.views < p.maxViews)
    && (p.maxSeconds == 0 || r.firstViewTime == 0 || r.firstViewTime + p.maxSeconds >= c.first)
    && p.start < c.second
    && p.end > c.third
  }

  /** Whether a promo can be shown, from its parameters and its history: it has a text, was
      never closed, has been viewed less often than its limit if it has one, was first
      viewed no longer ago than its limit if it has one and was viewed, and the clock is
      strictly between start and end. */
  lemma ShowableIff(p: Params, h: History<Event>, c: Clock)
    requires p.id != -1 && ClockNeverZero(h)
    ensures Showable(p, Loaded(After(h), p.id), c) <==>
            && p.text != [] && !EverClosed(h, p.id)
            && (p.maxViews != 0 ==> ViewsOf(h, p.id) < p.maxViews)
            && (p.maxSeconds != 0 && ViewsOf(h, p.id) > 0 ==> c.first <= FirstViewOf(h, p.id) + p.maxSeconds)
            && p.start < c.second && c.third < p.end
  {
    RecordIsHistory(h, p.id);
  }

  /** What CanShow answers on a fresh instance, after any run. */
  method CanShowFresh(localState: PrefService, p: Params, ghost h: History<Event>, c: Clock) returns (r: bool)
    requires localState.promos == After(h) && p.id != -1 && ClockNeverZero(h)
    ensures r <==>
            && p.text != [] && !EverClosed(h, p.id)
            && (p.maxViews != 0 ==> ViewsOf(h, p.id) < p.maxViews)
            && (p.maxSeconds != 0 && ViewsOf(h, p.id) > 0 ==> c.first <= FirstViewOf(h, p.id) + p.maxSeconds)
            && p.start < c.second && c.third < p.end
  {
    var promo := new NotificationPromo(localState, p);
    promo.InitFromPrefs();
    r := promo.CanShow(c);
    ShowableIff(p, h, c);
  }

  /** `h'` goes on from `h`. */
  predicate Continues(h: History<Event>, h': History<Event>) {
    h' == h || (h'.Then? && Continues(h, h'.before))
  }

  lemma {:induction false} RecordOnlyGrows(h: History<Event>, h': History<Event>, id: PromoId)
    requires Continues(h, h')
    ensures ViewsOf(h, id) <= ViewsOf(h', id) && (EverClosed(h, id) ==> EverClosed(h', id))
    ensures ViewsOf(h, id) > 0 ==> FirstViewOf(h', id) == FirstViewOf(h, id)
  {
    if h' != h {
      RecordOnlyGrows(h, h'.before, id);
    }
  }

  /** A promo that cannot be shown after its start cannot be shown in any later state. */
  lemma NeverShownAgain(p: Params, h: History<Event>, c: Clock, h': History<Event>, c': Clock)
    requires p.id != -1 && ClockNeverZero(h') && Continues(h, h') && ClockNeverZero(h)
    requires Ticks(c) && Ticks(c') && c.third <= c'.first
    requires p.start < c.second && !Showable(p, Loaded(After(h), p.id), c)
    ensures !Showable(p, Loaded(After(h'), p.id), c')
  {
    RecordIsHistory(h, p.id);
    RecordIsHistory(h', p.id);
    RecordOnlyGrows(h, h', p.id);
  }

  /** The views of the promo that found it showable, reading the clock `clocks[i]` before
      the i-th event. */
  function Shows(p: Params, h: History<Event>, clocks: seq<Clock>): nat
    requires |clocks| == Length(h)
  {
    match h
    case Start => 0
    case Then(before, e) =>
      Shows(p, before, clocks[..|clocks| - 1])
      + if e.View? && e.id == p.id && Showable(p, Loaded(After(before), p.id), clocks[|clocks| - 1]) then 1 else 0
  }

  function Length<A>(h: History<A>): nat {
    match h
    case Start => 0
    case Then(before, _) => Length(before) + 1
  }

  /** A promo with a view limit is shown at most that often, if each show is followed by
      HandleViewed; views that it did not ask for only make it fewer. */
  lemma {:induction false} ShowsAreLimited(p: Params, h: History<Event>, clocks: seq<Clock>)
    requires |clocks| == Length(h) && p.id != -1 && p.maxViews > 0 && ClockNeverZero(h)
    ensures Shows(p, h, clocks) <= ViewsOf(h, p.id) && Shows(p, h, clocks) <= p.maxViews
  {
    match h
    case Start =>
    case Then(before, e) =>
      ShowsAreLimited(p, before, clocks[..|clocks| - 1]);
      RecordIsHistory(before, p.id);
  }
}
