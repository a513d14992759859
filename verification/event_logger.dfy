/** The bounded event log (`backend/utils/event_logger.py`): a
    `deque(maxlen=max_events)` of events, with filtered queries,
    statistics over the current contents, and callback fan-out. */
module EventLogger {
  import opened Wrappers
  import Json
  import Seqs
  import Observers

  /** Event severity levels. */
  datatype EventLevel = Debug | Info | Warning | Error {
    function Value(): string {
      match this
      case Debug => "debug"
      case Info => "info"
      case Warning => "warning"
      case Error => "error"
    }
  }

  /** Event categories. */
  datatype EventCategory = System | Trigger | State | Hardware | Config {
    function Value(): string {
      match this
      case System => "system"
      case Trigger => "trigger"
      case State => "state"
      case Hardware => "hardware"
      case Config => "config"
    }
  }

  /** A logged event (the timestamp is not modelled). */
  datatype Event = Event(
    level: EventLevel,
    category: EventCategory,
    message: string,
    details: Option<map<string, Json.Value>>)

  /** `Event.to_dict`: enum members become their string values and missing
      details become an empty object. */
  function ToDict(e: Event): (d: Json.Value)
    ensures d.Obj? && d.fields.Keys == {"level", "category", "message", "details"}
    ensures d.fields["message"] == Json.Str(e.message)
    ensures e.details.None? ==> d.fields["details"] == Json.Obj(map[])
  {
    Json.Obj(map[
      "level" := Json.Str(e.level.Value()),
      "category" := Json.Str(e.category.Value()),
      "message" := Json.Str(e.message),
      "details" := Json.Obj(e.details.GetOr(map[]))])
  }

  /** Serialising an event loses nothing but the difference between no
      details and empty details. */
  lemma ToDictInjective(e1: Event, e2: Event)
    requires ToDict(e1) == ToDict(e2)
    ensures e1.level == e2.level && e1.category == e2.category && e1.message == e2.message
    ensures e1.details.GetOr(map[]) == e2.details.GetOr(map[])
  {
    var f1, f2 := ToDict(e1).fields, ToDict(e2).fields;
    assert f1["level"] == f2["level"] && f1["category"] == f2["category"];
    assert f1["details"] == f2["details"];
    LevelValueInjective(e1.level, e2.level);
    CategoryValueInjective(e1.category, e2.category);
  }

  lemma LevelValueInjective(a: EventLevel, b: EventLevel)
    requires a.Value() == b.Value()
    ensures a == b
  {
  }

  lemma CategoryValueInjective(a: EventCategory, b: EventCategory)
    requires a.Value() == b.Value()
    ensures a == b
  {
  }

  /** The default capacity. */
  const DefaultMaxEvents: nat := 1000

  /** The logger: capacity, buffered events (oldest first) and callbacks. */
  datatype Logger = Logger(maxEvents: nat, events: seq<Event>, callbacks: seq<Observers.CallbackId>)

  /** The deque's bound. */
  predicate Valid(l: Logger) {
    |l.events| <= l.maxEvents
  }

  /** `EventLogger.__init__`. */
  function NewLogger(maxEvents: nat): (l: Logger)
    ensures Valid(l) && l.events == [] && l.callbacks == [] && l.maxEvents == maxEvents
  {
    Logger(maxEvents, [], [])
  }

  /** The result of one `log` call: the logger and the callback calls made. */
  datatype Logged = Logged(logger: Logger, calls: seq<Observers.Call<Event>>)

  /** `log`: appends the new event to the bounded buffer (the oldest event
      drops out when it is full) and then calls every callback with it;
      `raising` names the callbacks that throw, which changes nothing else. */
  function Log(l: Logger, level: EventLevel, category: EventCategory, message: string,
               details: Option<map<string, Json.Value>>, raising: set<Observers.CallbackId>): (r: Logged)
    requires Valid(l)
    ensures Valid(r.logger)
    ensures r.logger.maxEvents == l.maxEvents && r.logger.callbacks == l.callbacks
    ensures l.maxEvents == 0 ==> r.logger.events == []
    ensures 0 < l.maxEvents && |l.events| < l.maxEvents ==>
              r.logger.events == l.events + [Event(level, category, message, details)]
    ensures 0 < l.maxEvents && |l.events| == l.maxEvents ==>
              r.logger.events == l.events[1..] + [Event(level, category, message, details)]
    ensures r.calls == Observers.Notify(l.callbacks, raising, Event(level, category, message, details))
  {
    var e := Event(level, category, message, details);
    Logged(l.(events := Seqs.Suffix(l.events + [e], l.maxEvents)), Observers.Notify(l.callbacks, raising, e))
  }

  /** A `log` call is an append to a deque bounded by `maxEvents`. */
  lemma LogAppends(l: Logger, level: EventLevel, category: EventCategory, message: string,
                   details: Option<map<string, Json.Value>>, raising: set<Observers.CallbackId>)
    requires Valid(l)
    ensures Log(l, level, category, message, details, raising).logger.events
            == Seqs.Suffix(l.events + [Event(level, category, message, details)], l.maxEvents)
  {
  }

  /** `info`. */
  function LogInfo(l: Logger, category: EventCategory, message: string,
                   details: Option<map<string, Json.Value>>, raising: set<Observers.CallbackId>): (r: Logged)
    requires Valid(l)
    ensures r == Log(l, Info, category, message, details, raising)
    ensures l.maxEvents > 0 ==> r.logger.events[|r.logger.events| - 1].level == Info
  {
    Log(l, Info, category, message, details, raising)
  }

  /** `warning`. */
  function LogWarning(l: Logger, category: EventCategory, message: string,
                      details: Option<map<string, Json.Value>>, raising: set<Observers.CallbackId>): (r: Logged)
    requires Valid(l)
    ensures r == Log(l, Warning, category, message, details, raising)
    ensures l.maxEvents > 0 ==> r.logger.events[|r.logger.events| - 1].level == Warning
  {
    Log(l, Warning, category, message, details, raising)
  }

  /** `error`. */
  function LogError(l: Logger, category: EventCategory, message: string,
                    details: Option<map<string, Json.Value>>, raising: set<Observers.CallbackId>): (r: Logged)
    requires Valid(l)
    ensures r == Log(l, Error, category, message, details, raising)
    ensures l.maxEvents > 0 ==> r.logger.events[|r.logger.events| - 1].level == Error
  {
    Log(l, Error, category, message, details, raising)
  }

  /** `debug`. */
  function LogDebug(l: Logger, category: EventCategory, message: string,
                    details: Option<map<string, Json.Value>>, raising: set<Observers.CallbackId>): (r: Logged)
    requires Valid(l)
    ensures r == Log(l, Debug, category, message, details, raising)
    ensures l.maxEvents > 0 ==> r.logger.events[|r.logger.events| - 1].level == Debug
  {
    Log(l, Debug, category, message, details, raising)
  }

  /** `register_callback`. */
  function RegisterCallback(l: Logger, cb: Observers.CallbackId): (r: Logger)
    ensures r.callbacks == l.callbacks + [cb] && r.events == l.events && r.maxEvents == l.maxEvents
  {
    l.(callbacks := l.callbacks + [cb])
  }

  /** `clear`: empties the buffer; capacity and callbacks stay. */
  function Clear(l: Logger): (r: Logger)
    ensures Valid(r) && r.events == [] && r.maxEvents == l.maxEvents && r.callbacks == l.callbacks
  {
    l.(events := [])
  }

  // ---------------------------------------------------------------------
  // Queries

  /** Whether `e` passes the optional level and category filters. */
  predicate Matches(e: Event, level: Option<EventLevel>, category: Option<EventCategory>) {
    (level.None? || e.level == level.value) && (category.None? || e.category == category.value)
  }

  /** The events that pass both filters, in buffer order. */
  function Select(events: seq<Event>, level: Option<EventLevel>, category: Option<EventCategory>): (r: seq<Event>)
    ensures forall e :: e in r <==> e in events && Matches(e, level, category)
    ensures |r| <= |events|
    ensures level.None? && category.None? ==> r == events
  {
    if events == [] then []
    else
      var rest := Select(events[1..], level, category);
      assert events == [events[0]] + events[1..];
      if Matches(events[0], level, category) then [events[0]] + rest else rest
  }

  /** Filtering preserves order: it distributes over concatenation. */
  lemma {:induction false} SelectAppend(a: seq<Event>, b: seq<Event>,
                                        level: Option<EventLevel>, category: Option<EventCategory>)
    ensures Select(a + b, level, category) == Select(a, level, category) + Select(b, level, category)
  {
    if a == [] {
      assert a + b == b;
    } else {
      assert (a + b)[0] == a[0];
      assert (a + b)[1..] == a[1..] + b;
      SelectAppend(a[1..], b, level, category);
    }
  }

  /** `get_events`: filter by level, then by category, then keep
      `events[-limit:]` when `limit` is truthy (neither None nor 0). */
  function GetEvents(l: Logger, limit: Option<int>, level: Option<EventLevel>,
                     category: Option<EventCategory>): (r: seq<Event>)
    ensures var matching := Select(l.events, level, category);
            && (limit.None? || limit.value == 0 ==> r == matching)
            && (limit.Some? && limit.value > 0 ==>
                  |r| == (if |matching| <= limit.value then |matching| else limit.value)
                  && r == matching[|matching| - |r|..])
            && (limit.Some? && limit.value < 0 ==>
                  r == (if -limit.value <= |matching| then matching[-limit.value..] else []))
  {
    var matching := Select(l.events, level, category);
    if limit.Some? && limit.value != 0 then Seqs.SliceFrom(matching, -limit.value) else matching
  }

  // ---------------------------------------------------------------------
  // Statistics

  /** A counter lookup that reads absent keys as 0 (`dict.get(k, 0)`). */
  function Lookup(m: map<string, nat>, k: string): nat {
    if k in m then m[k] else 0
  }

  /** How many elements of `xs` have key `k`. */
  function CountKey<T>(xs: seq<T>, key: T -> string, k: string): nat {
    if xs == [] then 0
    else CountKey(xs[..|xs| - 1], key, k) + (if key(xs[|xs| - 1]) == k then 1 else 0)
  }

  /** The counting loop of `get_stats`: one pass in order, incrementing the
      counter of each element's key. Only keys that occur are present. */
  function Tally<T>(xs: seq<T>, key: T -> string): (m: map<string, nat>)
    ensures forall k :: Lookup(m, k) == CountKey(xs, key, k)
    ensures forall k :: k in m ==> m[k] > 0
  {
    if xs == [] then map[]
    else
      var m := Tally(xs[..|xs| - 1], key);
      var k := key(xs[|xs| - 1]);
      m[k := Lookup(m, k) + 1]
  }

  /** One counter of `Tally`. */
  lemma TallyLookup<T>(xs: seq<T>, key: T -> string, k: string)
    ensures Lookup(Tally(xs, key), k) == CountKey(xs, key, k)
  {
  }

  function LevelKey(e: Event): string {
    e.level.Value()
  }

  function CategoryKey(e: Event): string {
    e.category.Value()
  }

  /** Statistics as `get_stats` reports them. */
  datatype Stats = Stats(totalEvents: nat, byLevel: map<string, nat>, byCategory: map<string, nat>)

  /** `get_stats`: computed over the current buffer only. */
  function GetStats(l: Logger): (s: Stats)
    ensures s.totalEvents == |l.events|
    ensures forall lv: EventLevel :: Lookup(s.byLevel, lv.Value()) == CountKey(l.events, LevelKey, lv.Value())
    ensures forall c: EventCategory :: Lookup(s.byCategory, c.Value()) == CountKey(l.events, CategoryKey, c.Value())
  {
    Stats(|l.events|, Tally(l.events, LevelKey), Tally(l.events, CategoryKey))
  }

  /** Every event is counted under exactly one level. */
  lemma {:induction false} LevelCountsSum(xs: seq<Event>)
    ensures CountKey(xs, LevelKey, "debug") + CountKey(xs, LevelKey, "info")
            + CountKey(xs, LevelKey, "warning") + CountKey(xs, LevelKey, "error") == |xs|
  {
    if xs != [] {
      LevelCountsSum(xs[..|xs| - 1]);
    }
  }

  /** Every event is counted under exactly one category. */
  lemma {:induction false} CategoryCountsSum(xs: seq<Event>)
    ensures CountKey(xs, CategoryKey, "system") + CountKey(xs, CategoryKey, "trigger")
            + CountKey(xs, CategoryKey, "state") + CountKey(xs, CategoryKey, "hardware")
            + CountKey(xs, CategoryKey, "config") == |xs|
  {
    if xs != [] {
      CategoryCountsSum(xs[..|xs| - 1]);
    }
  }

  /** Only the four level names and five category names appear as keys. */
  lemma {:induction false} TallyKeys(xs: seq<Event>, k: string)
    ensures k !in {"debug", "info", "warning", "error"} ==> CountKey(xs, LevelKey, k) == 0
    ensures k !in {"system", "trigger", "state", "hardware", "config"} ==> CountKey(xs, CategoryKey, k) == 0
  {
    if xs != [] {
      TallyKeys(xs[..|xs| - 1], k);
    }
  }

  /** The per-level counters add up to the number of events, and only the
      four level names appear as keys. */
  lemma LevelTally(xs: seq<Event>)
    ensures var m := Tally(xs, LevelKey);
            && Lookup(m, "debug") + Lookup(m, "info") + Lookup(m, "warning") + Lookup(m, "error") == |xs|
            && m.Keys <= {"debug", "info", "warning", "error"}
  {
    var m := Tally(xs, LevelKey);
    LevelCountsSum(xs);
    TallyLookup(xs, LevelKey, "debug");
    TallyLookup(xs, LevelKey, "info");
    TallyLookup(xs, LevelKey, "warning");
    TallyLookup(xs, LevelKey, "error");
    forall k | k in m
      ensures k in {"debug", "info", "warning", "error"}
    {
      TallyKeys(xs, k);
    }
  }

  /** The per-category counters add up to the number of events, and only
      the five category names appear as keys. */
  lemma CategoryTally(xs: seq<Event>)
    ensures var m := Tally(xs, CategoryKey);
            && Lookup(m, "system") + Lookup(m, "trigger") + Lookup(m, "state")
               + Lookup(m, "hardware") + Lookup(m, "config") == |xs|
            && m.Keys <= {"system", "trigger", "state", "hardware", "config"}
  {
    var m := Tally(xs, CategoryKey);
    CategoryCountsSum(xs);
    TallyLookup(xs, CategoryKey, "system");
    TallyLookup(xs, CategoryKey, "trigger");
    TallyLookup(xs, CategoryKey, "state");
    TallyLookup(xs, CategoryKey, "hardware");
    TallyLookup(xs, CategoryKey, "config");
    forall k | k in m
      ensures k in {"system", "trigger", "state", "hardware", "config"}
    {
      TallyKeys(xs, k);
    }
  }

  /** `get_stats` is consistent: the per-level counts and the per-category
      counts each add up to the total, and no other keys appear. */
  lemma StatsConsistent(l: Logger)
    ensures var s := GetStats(l);
            && Lookup(s.byLevel, "debug") + Lookup(s.byLevel, "info")
               + Lookup(s.byLevel, "warning") + Lookup(s.byLevel, "error") == s.totalEvents
            && Lookup(s.byCategory, "system") + Lookup(s.byCategory, "trigger")
               + Lookup(s.byCategory, "state") + Lookup(s.byCategory, "hardware")
               + Lookup(s.byCategory, "config") == s.totalEvents
            && s.byLevel.Keys <= {"debug", "info", "warning", "error"}
            && s.byCategory.Keys <= {"system", "trigger", "state", "hardware", "config"}
  {
    LevelTally(l.events);
    CategoryTally(l.events);
  }

  // ---------------------------------------------------------------------
  // Many calls

  /** The events `info(category, m)` creates for each message, in order. */
  function InfoEvents(category: EventCategory, messages: seq<string>): (es: seq<Event>)
    ensures |es| == |messages|
    ensures forall i :: 0 <= i < |es| ==> es[i] == Event(Info, category, messages[i], None)
    decreases |messages|
  {
    if messages == [] then []
    else InfoEvents(category, messages[..|messages| - 1]) + [Event(Info, category, messages[|messages| - 1], None)]
  }

  /** Logs each message at info level, in order. */
  function LogAll(l: Logger, category: EventCategory, messages: seq<string>): (r: Logger)
    requires Valid(l)
    ensures Valid(r) && r.maxEvents == l.maxEvents && r.callbacks == l.callbacks
  {
    if messages == [] then l
    else
      var before := LogAll(l, category, messages[..|messages| - 1]);
      LogInfo(before, category, messages[|messages| - 1], None, {}).logger
  }

  /** After any number of calls the log holds the most recent `maxEvents`
      of everything appended, in call order. */
  lemma {:induction false} LogAllKeepsLast(l: Logger, category: EventCategory, messages: seq<string>)
    requires Valid(l)
    ensures LogAll(l, category, messages).events
            == Seqs.Suffix(l.events + InfoEvents(category, messages), l.maxEvents)
  {
    if messages != [] {
      var init := messages[..|messages| - 1];
      var last := messages[|messages| - 1];
      var e := Event(Info, category, last, None);
      LogAllKeepsLast(l, category, init);
      LogAllStep(l, category, messages);
      var earlier := l.events + InfoEvents(category, init);
      InfoEventsSnoc(l.events, category, messages);
      Seqs.SuffixAppend(earlier, e, l.maxEvents);
    }
  }

  lemma InfoEventsSnoc(prior: seq<Event>, category: EventCategory, messages: seq<string>)
    requires messages != []
    ensures prior + InfoEvents(category, messages)
            == (prior + InfoEvents(category, messages[..|messages| - 1]))
               + [Event(Info, category, messages[|messages| - 1], None)]
  {
    assert InfoEvents(category, messages)
           == InfoEvents(category, messages[..|messages| - 1]) + [Event(Info, category, messages[|messages| - 1], None)];
  }

  /** The last message of `LogAll` goes through one `log` call. */
  lemma LogAllStep(l: Logger, category: EventCategory, messages: seq<string>)
    requires Valid(l) && messages != []
    ensures LogAll(l, category, messages).events
            == Seqs.Suffix(LogAll(l, category, messages[..|messages| - 1]).events
                           + [Event(Info, category, messages[|messages| - 1], None)], l.maxEvents)
  {
  }

  /** Creating events commutes with dropping leading messages. */
  lemma InfoEventsFrom(category: EventCategory, messages: seq<string>, k: nat)
    requires k <= |messages|
    ensures InfoEvents(category, messages)[k..] == InfoEvents(category, messages[k..])
  {
    var lhs := InfoEvents(category, messages)[k..];
    var rhs := InfoEvents(category, messages[k..]);
    assert |lhs| == |rhs|;
    forall i | 0 <= i < |lhs|
      ensures lhs[i] == rhs[i]
    {
    }
  }

  /** Logging at least `n` messages into an empty log of capacity `n` keeps
      exactly the last `n` of them, in call order. */
  lemma OverflowKeepsLastN(n: nat, category: EventCategory, messages: seq<string>)
    requires |messages| >= n
    ensures LogAll(NewLogger(n), category, messages).events
            == InfoEvents(category, messages[|messages| - n..])
  {
    var l := NewLogger(n);
    var all := InfoEvents(category, messages);
    var k := |messages| - n;
    calc {
      LogAll(l, category, messages).events;
    == { LogAllKeepsLast(l, category, messages); }
      Seqs.Suffix(l.events + all, n);
    == { assert l.events + all == all; }
      Seqs.Suffix(all, n);
    ==
      all[k..];
    == { InfoEventsFrom(category, messages, k); }
      InfoEvents(category, messages[k..]);
    }
  }
}
