// What one run of `forward_messages` does, as the trace of observable events
// it produces: the messages copied, the progress and chat replies, the
// pauses, and how the run ends. The Telegram calls are an oracle saying
// whether copying a given message ID succeeds; the stop flag is an oracle
// giving the flag's value at the top of each iteration.

module ForwardLoop {

  import opened PyInt
  import opened Settings

  /** Why the handler returned before entering the loop. */
  datatype ConfigProblem =
    | ChannelsUnset    // "Source and Target channels must be set ..."
    | MessageIdsUnset  // "Start and End message IDs must be set ..."

  /** An exception that escapes the handler and ends the run. */
  datatype Crash =
    | DivisionByZero   // `count % batch_size` with a batch size of 0
    | NegativeSleep    // `time.sleep(delay)` with a negative delay: ValueError
    | SleepOverflow    // `time.sleep(delay)` whose nanosecond count overflows 64 bits: OverflowError

  /**
   * The largest whole number of seconds `time.sleep` accepts: CPython converts
   * the argument to nanoseconds in a signed 64-bit integer (at most
   * 2^63 - 1 = 9223372036854775807), and raises OverflowError beyond it.
   */
  const MaxSleepSeconds: int := 9223372036

  /** `time.sleep(d)` raises instead of sleeping. */
  predicate SleepRaises(d: int) {
    d < 0 || d > MaxSleepSeconds
  }

  /**
   * Which exception `time.sleep(d)` raises: the conversion to nanoseconds
   * overflows first, and only a representable negative value reaches the
   * non-negative check.
   */
  function SleepError(d: int): (c: Crash)
    requires SleepRaises(d)
    ensures c != DivisionByZero
    ensures c == NegativeSleep <==> -MaxSleepSeconds <= d < 0
  {
    if d < -MaxSleepSeconds || d > MaxSleepSeconds then SleepOverflow else NegativeSleep
  }

  datatype Event =
    | Copied(source: Value, target: Value, id: int)    // get_message then send_message succeeded
    | Failed(id: int)                                   // either call raised; logged and skipped
    | Progress(forwarded: int, total: int, remaining: int)  // "Forwarded c of t messages. r remaining."
    | Pause(seconds: int)                               // time.sleep(delay)
    | Interrupted                                       // "Forwarding has been interrupted."
    | Finished(forwarded: int)                          // "Finished forwarding! ..."
    | Crashed(reason: Crash)
    | ConfigError(problem: ConfigProblem)

  /** The event that records one visited message ID. */
  predicate IsVisit(e: Event) {
    e.Copied? || e.Failed?
  }

  /** An event after which the run produces nothing more. */
  predicate IsFinal(e: Event) {
    e.Interrupted? || e.Finished? || e.Crashed? || e.ConfigError?
  }

  /** Number of messages copied in a trace. */
  function Forwarded(t: seq<Event>): nat {
    if t == [] then 0 else (if t[0].Copied? then 1 else 0) + Forwarded(t[1..])
  }

  /** The message IDs a trace visits, in the order it visits them. */
  function Visits(t: seq<Event>): seq<int> {
    if t == [] then [] else (if IsVisit(t[0]) then [t[0].id] else []) + Visits(t[1..])
  }

  /**
   * The values fixed when the loop starts: the effective channels, the last
   * message ID, the total the progress replies report, the effective batch
   * size and delay, and the two oracles.
   */
  datatype Job = Job(
    source: Value,
    target: Value,
    last: int,
    total: int,
    batchSize: int,
    delay: int,
    delivers: (Value, Value, int) -> bool,
    flagAt: int -> bool)

  /** Whether copying message `id` succeeds. */
  predicate Delivers(j: Job, id: int) {
    j.delivers(j.source, j.target, id)
  }

  /** The forwarded counter after visiting `id` with counter `n`. */
  function After(j: Job, id: int, n: int): int {
    if Delivers(j, id) then n + 1 else n
  }

  /** The events of the `try` block for message `id`, the counter being `n` before it. */
  function Visit(j: Job, id: int, n: int): seq<Event> {
    if Delivers(j, id) then [Copied(j.source, j.target, id), Progress(n + 1, j.total, j.total - (n + 1))]
    else [Failed(id)]
  }

  /** The pause check `count % batch_size == 0` after the `try` block for `id`. */
  predicate PausesAfter(j: Job, id: int, n: int)
    requires j.batchSize != 0
  {
    PyMod(After(j, id, n), j.batchSize) == 0
  }

  /** The iteration for `id` runs to its end and the loop goes on with `id + 1`. */
  predicate Continues(j: Job, id: int, n: int) {
    && id <= j.last
    && j.flagAt(id)
    && j.batchSize != 0
    && !(PausesAfter(j, id, n) && SleepRaises(j.delay))
  }

  /** The events of an iteration that runs to its end: the `try` block, then the pause if any. */
  function Step(j: Job, id: int, n: int): seq<Event>
    requires j.batchSize != 0
  {
    Visit(j, id, n) + (if PausesAfter(j, id, n) then [Pause(j.delay)] else [])
  }

  /**
   * The events of the loop from message `id` on, with the forwarded counter
   * at `n`: the stop check at the top, the `try` block, then the pause check,
   * which runs after a failed ID as well as after a copied one.
   */
  function Loop(j: Job, id: int, n: int): seq<Event>
    decreases j.last + 1 - id
  {
    if id > j.last then [Finished(n)]
    else if !j.flagAt(id) then [Interrupted]
    else if j.batchSize == 0 then Visit(j, id, n) + [Crashed(DivisionByZero)]
    else if PausesAfter(j, id, n) && SleepRaises(j.delay) then Visit(j, id, n) + [Crashed(SleepError(j.delay))]
    else Step(j, id, n) + Loop(j, id + 1, After(j, id, n))
  }

  /** Effective integer setting: the user's value when the key is set, else the default. */
  function IntSetting(s: map<Key, Value>, k: Key, default: int): int
    requires WellTyped(s) && IsIntKey(k)
  {
    if k in s then s[k].i else default
  }

  /** The `if not source_channel or not target_channel` test passes. */
  predicate ChannelsSet(cfg: Config, s: map<Key, Value>) {
    Truthy(Get(s, SourceChannel, cfg.sourceChannel)) && Truthy(Get(s, TargetChannel, cfg.targetChannel))
  }

  /** The `if not start_message or not end_message` test passes: both are set and non-zero. */
  predicate IdsSet(s: map<Key, Value>) {
    Truthy(Get(s, StartMessage, None)) && Truthy(Get(s, EndMessage, None))
  }

  /** The loop's fixed values for settings that pass both tests. */
  function JobOf(cfg: Config, s: map<Key, Value>, delivers: (Value, Value, int) -> bool, flagAt: int -> bool): (j: Job)
    requires WellTyped(s) && ChannelsSet(cfg, s) && IdsSet(s)
    ensures Some(j.source) == Get(s, SourceChannel, cfg.sourceChannel)
    ensures Some(j.target) == Get(s, TargetChannel, cfg.targetChannel)
    ensures j.last == s[EndMessage].i
    ensures j.total == s[EndMessage].i - s[StartMessage].i + 1
    ensures j.batchSize == (if BatchSize in s then s[BatchSize].i else cfg.batchSize)
    ensures j.delay == (if DelayTime in s then s[DelayTime].i else cfg.delay)
  {
    var first := s[StartMessage].i;
    var last := s[EndMessage].i;
    Job(Get(s, SourceChannel, cfg.sourceChannel).value, Get(s, TargetChannel, cfg.targetChannel).value,
        last, last - first + 1,
        IntSetting(s, BatchSize, cfg.batchSize), IntSetting(s, DelayTime, cfg.delay),
        delivers, flagAt)
  }

  /** All events of one `forward_messages` call after it sets the flag. */
  function ForwardTrace(cfg: Config, s: map<Key, Value>, delivers: (Value, Value, int) -> bool, flagAt: int -> bool): (r: seq<Event>)
    requires WellTyped(s)
    ensures r != []
    ensures r[0].ConfigError? <==> !(ChannelsSet(cfg, s) && IdsSet(s))
    ensures r[0].ConfigError? ==> |r| == 1
  {
    if !ChannelsSet(cfg, s) then [ConfigError(ChannelsUnset)]
    else if !IdsSet(s) then [ConfigError(MessageIdsUnset)]
    else Loop(JobOf(cfg, s, delivers, flagAt), s[StartMessage].i, 0)
  }

  // ---------------------------------------------------------------------------
  // Facts about traces

  lemma {:induction false} ForwardedConcat(a: seq<Event>, b: seq<Event>)
    ensures Forwarded(a + b) == Forwarded(a) + Forwarded(b)
  {
    if a == [] {
      assert a + b == b;
    } else {
      assert (a + b)[0] == a[0] && (a + b)[1..] == a[1..] + b;
      ForwardedConcat(a[1..], b);
    }
  }

  lemma {:induction false} VisitsConcat(a: seq<Event>, b: seq<Event>)
    ensures Visits(a + b) == Visits(a) + Visits(b)
  {
    if a == [] {
      assert a + b == b;
    } else {
      assert (a + b)[0] == a[0] && (a + b)[1..] == a[1..] + b;
      VisitsConcat(a[1..], b);
    }
  }

  lemma ConcatAssoc(a: seq<Event>, b: seq<Event>, c: seq<Event>)
    ensures (a + b) + c == a + (b + c)
  {
  }

  /** The counter before position `k` of `h + r`, for a position inside `r`. */
  lemma CountInSuffix(h: seq<Event>, r: seq<Event>, k: int)
    requires |h| <= k <= |h| + |r|
    ensures Forwarded((h + r)[..k]) == Forwarded(h) + Forwarded(r[..k - |h|])
  {
    assert (h + r)[..k] == h + r[..k - |h|];
    ForwardedConcat(h, r[..k - |h|]);
  }

  lemma {:induction false} CopiedAreCounted(t: seq<Event>)
    ensures Forwarded(t) <= |Visits(t)|
  {
    if t != [] {
      CopiedAreCounted(t[1..]);
    }
  }

  /** What the `try` block for `id` contributes to the counter and to the visited IDs. */
  lemma VisitFacts(j: Job, id: int, n: int)
    ensures Forwarded(Visit(j, id, n)) == After(j, id, n) - n
    ensures Visits(Visit(j, id, n)) == [id]
  {
    var v := Visit(j, id, n);
    if Delivers(j, id) {
      assert v[1..] == [v[1]] && v[1..][1..] == [];
      assert Forwarded(v[1..]) == 0 && Visits(v[1..]) == [];
    } else {
      assert v[1..] == [];
    }
  }

  /** What a whole iteration contributes to the counter and to the visited IDs. */
  lemma StepFacts(j: Job, id: int, n: int)
    requires j.batchSize != 0
    ensures Forwarded(Step(j, id, n)) == After(j, id, n) - n
    ensures Visits(Step(j, id, n)) == [id]
  {
    var v := Visit(j, id, n);
    VisitFacts(j, id, n);
    var p: seq<Event> := if PausesAfter(j, id, n) then [Pause(j.delay)] else [];
    assert p != [] ==> p[1..] == [];
    ForwardedConcat(v, p);
    VisitsConcat(v, p);
  }

  // ---------------------------------------------------------------------------
  // One iteration at a time: the trace so far, `done`, followed by the loop
  // from `id` with counter `n`, makes up the whole run `goal`.

  /** The stop check fires: the run is what came before, then `Interrupted`. */
  lemma InterruptedAt(j: Job, id: int, n: int, done: seq<Event>, goal: seq<Event>)
    requires id <= j.last && !j.flagAt(id) && done + Loop(j, id, n) == goal
    ensures done + [Interrupted] == goal
  {
  }

  /** The pause check raises: the run is what came before, the visit, then the crash. */
  lemma CrashedAt(j: Job, id: int, n: int, c: Crash, done: seq<Event>, goal: seq<Event>)
    requires id <= j.last && j.flagAt(id) && done + Loop(j, id, n) == goal
    requires c == DivisionByZero ==> j.batchSize == 0
    requires c != DivisionByZero ==> j.batchSize != 0 && PausesAfter(j, id, n) && SleepRaises(j.delay) && c == SleepError(j.delay)
    ensures (done + Visit(j, id, n)) + [Crashed(c)] == goal
  {
    assert Loop(j, id, n) == Visit(j, id, n) + [Crashed(c)];
    ConcatAssoc(done, Visit(j, id, n), [Crashed(c)]);
  }

  /** The iteration runs to its end: its events join what came before. */
  lemma ContinuesAt(j: Job, id: int, n: int, done: seq<Event>, goal: seq<Event>)
    requires Continues(j, id, n) && done + Loop(j, id, n) == goal
    ensures (done + Step(j, id, n)) + Loop(j, id + 1, After(j, id, n)) == goal
  {
    ConcatAssoc(done, Step(j, id, n), Loop(j, id + 1, After(j, id, n)));
  }

  // ---------------------------------------------------------------------------
  // Properties of the loop

  /**
   * `v` lists consecutive IDs in ascending order from `first`, each at most
   * once, none past the last ID, each one with the flag set at its loop top.
   */
  predicate VisitedFrom(j: Job, v: seq<int>, first: int) {
    forall k :: 0 <= k < |v| ==> v[k] == first + k && v[k] <= j.last && j.flagAt(v[k])
  }

  /** Exactly one final event, and it ends the trace. */
  lemma {:induction false} LoopEndsOnce(j: Job, id: int, n: int)
    ensures var t := Loop(j, id, n);
      && |t| > 0 && IsFinal(t[|t| - 1]) && !t[|t| - 1].ConfigError?
      && forall k :: 0 <= k < |t| - 1 ==> !IsFinal(t[k])
    decreases j.last + 1 - id
  {
    if Continues(j, id, n) {
      LoopEndsOnce(j, id + 1, After(j, id, n));
    }
  }

  /**
   * The visited IDs are consecutive and ascending from `id`, each at most
   * once, none past the last ID, and each one with the flag still set.
   */
  lemma {:induction false} LoopVisitsAscending(j: Job, id: int, n: int)
    ensures VisitedFrom(j, Visits(Loop(j, id, n)), id)
    decreases j.last + 1 - id
  {
    if id <= j.last && j.flagAt(id) {
      if j.batchSize == 0 {
        CrashVisits(j, id, n, DivisionByZero);
      } else if PausesAfter(j, id, n) && SleepRaises(j.delay) {
        CrashVisits(j, id, n, SleepError(j.delay));
      } else {
        LoopVisitsAscending(j, id + 1, After(j, id, n));
        ContinueVisits(j, id, n);
      }
    }
  }

  /** An iteration whose pause check raises visits its own ID only. */
  lemma CrashVisits(j: Job, id: int, n: int, c: Crash)
    ensures Visits(Visit(j, id, n) + [Crashed(c)]) == [id]
  {
    VisitFacts(j, id, n);
    VisitsConcat(Visit(j, id, n), [Crashed(c)]);
  }

  /** An iteration that runs to its end puts its ID in front of the rest of the loop's. */
  lemma ContinueVisits(j: Job, id: int, n: int)
    requires Continues(j, id, n)
    requires VisitedFrom(j, Visits(Loop(j, id + 1, After(j, id, n))), id + 1)
    ensures VisitedFrom(j, Visits(Loop(j, id, n)), id)
  {
    var r := Loop(j, id + 1, After(j, id, n));
    StepFacts(j, id, n);
    assert Loop(j, id, n) == Step(j, id, n) + r;
    VisitsConcat(Step(j, id, n), r);
    VisitedFromCons(j, id, Visits(r));
  }

  lemma VisitedFromCons(j: Job, id: int, rest: seq<int>)
    requires id <= j.last && j.flagAt(id) && VisitedFrom(j, rest, id + 1)
    ensures VisitedFrom(j, [id] + rest, id)
  {
    var v := [id] + rest;
    forall k | 0 <= k < |v| ensures v[k] == id + k && v[k] <= j.last && j.flagAt(v[k]) {
      if k > 0 {
        assert v[k] == rest[k - 1];
      }
    }
  }

  /**
   * The loop's first event opens a visit or ends the run: `Finished` exactly
   * when the range is empty, `Interrupted` exactly when the flag is already
   * clear at the first ID, and never a configuration error.
   */
  lemma LoopStart(j: Job, id: int, n: int)
    ensures var t := Loop(j, id, n);
      && t != [] && (IsVisit(t[0]) || IsFinal(t[0])) && !t[0].ConfigError?
      && (t[0].Finished? <==> id > j.last)
      && (t[0].Interrupted? <==> id <= j.last && !j.flagAt(id))
  {
    if id <= j.last && j.flagAt(id) {
      VisitFacts(j, id, n);
    }
  }

  /**
   * The run ends as the code says: `Finished` after every ID with the final
   * counter, `Interrupted` at the first ID whose flag is clear, a division
   * by zero in the first iteration when the batch size is 0, and the sleep's
   * exception at the first due pause when `time.sleep` refuses the delay.
   */
  predicate EndsAsCoded(j: Job, t: seq<Event>, first: int, n: int)
    requires t != []
  {
    EndsWith(j, t[|t| - 1], first, |Visits(t)|, n + Forwarded(t))
  }

  /** `EndsAsCoded` for a run from `first` ending in `e` after `visited` IDs with counter `m`. */
  predicate EndsWith(j: Job, e: Event, first: int, visited: int, m: int) {
    match e
    case Finished(c) => c == m && (if first <= j.last then first + visited == j.last + 1 else visited == 0)
    case Interrupted => first + visited <= j.last && !j.flagAt(first + visited)
    case Crashed(c) =>
      if c == DivisionByZero then j.batchSize == 0 && visited == 1
      else j.batchSize != 0 && SleepRaises(j.delay) && c == SleepError(j.delay) && PyMod(m, j.batchSize) == 0 && visited >= 1
    case _ => false
  }

  /** An iteration that visits `id` and goes on keeps the ending right. */
  lemma EndsAsCodedPrepend(j: Job, h: seq<Event>, r: seq<Event>, id: int, n: int)
    requires id <= j.last && j.batchSize != 0 && Visits(h) == [id]
    requires r != [] && EndsAsCoded(j, r, id + 1, n + Forwarded(h))
    ensures h + r != [] && EndsAsCoded(j, h + r, id, n)
  {
    var t := h + r;
    var e := r[|r| - 1];
    var visited := |Visits(r)|;
    var m := n + Forwarded(h) + Forwarded(r);
    VisitsConcat(h, r);
    ForwardedConcat(h, r);
    assert t[|t| - 1] == e;
    assert |Visits(t)| == visited + 1 && n + Forwarded(t) == m;
    assert EndsWith(j, e, id + 1, visited, m);
    EndsWithPrepend(j, e, id, visited, m);
  }

  lemma EndsWithPrepend(j: Job, e: Event, id: int, visited: int, m: int)
    requires id <= j.last && j.batchSize != 0 && EndsWith(j, e, id + 1, visited, m)
    ensures EndsWith(j, e, id, visited + 1, m)
  {
  }

  /** A first iteration that ends in an exception keeps the ending right. */
  lemma EndsAsCodedCrash(j: Job, id: int, n: int, c: Crash)
    requires id <= j.last && j.flagAt(id)
    requires c == DivisionByZero ==> j.batchSize == 0
    requires c != DivisionByZero ==> j.batchSize != 0 && PausesAfter(j, id, n) && SleepRaises(j.delay) && c == SleepError(j.delay)
    ensures EndsAsCoded(j, Visit(j, id, n) + [Crashed(c)], id, n)
  {
    var t := Visit(j, id, n) + [Crashed(c)];
    VisitFacts(j, id, n);
    VisitsConcat(Visit(j, id, n), [Crashed(c)]);
    ForwardedConcat(Visit(j, id, n), [Crashed(c)]);
    assert t[|t| - 1] == Crashed(c);
  }

  lemma {:induction false} LoopEnding(j: Job, id: int, n: int)
    ensures Loop(j, id, n) != [] && EndsAsCoded(j, Loop(j, id, n), id, n)
    decreases j.last + 1 - id
  {
    if id <= j.last && j.flagAt(id) {
      if j.batchSize == 0 {
        EndsAsCodedCrash(j, id, n, DivisionByZero);
      } else if PausesAfter(j, id, n) && SleepRaises(j.delay) {
        EndsAsCodedCrash(j, id, n, SleepError(j.delay));
      } else {
        StepFacts(j, id, n);
        LoopEnding(j, id + 1, After(j, id, n));
        EndsAsCodedPrepend(j, Step(j, id, n), Loop(j, id + 1, After(j, id, n)), id, n);
      }
    }
  }

  /**
   * Every event agrees with the job: a copy names the effective channels and
   * an ID the oracle delivers, a failure an ID it does not, a pause sleeps the
   * effective delay, and a progress reply reports the fixed total and the
   * number remaining out of it.
   */
  predicate EventAgrees(j: Job, e: Event) {
    && (e.Copied? ==> e == Copied(j.source, j.target, e.id) && Delivers(j, e.id))
    && (e.Failed? ==> !Delivers(j, e.id))
    && (e.Pause? ==> e == Pause(j.delay))
    && (e.Progress? ==> e.total == j.total && e.remaining == j.total - e.forwarded)
  }

  predicate AllAgree(j: Job, t: seq<Event>) {
    forall k :: 0 <= k < |t| ==> EventAgrees(j, t[k])
  }

  lemma {:induction false} LoopAgrees(j: Job, id: int, n: int)
    ensures AllAgree(j, Loop(j, id, n))
    decreases j.last + 1 - id
  {
    if Continues(j, id, n) {
      LoopAgrees(j, id + 1, After(j, id, n));
    }
  }

  /** Each copy is followed at once by the progress reply carrying the counter after it. */
  predicate ProgressAfterCopies(t: seq<Event>, n: int) {
    forall k :: 0 <= k < |t| && t[k].Copied? ==>
      k + 1 < |t| && t[k + 1].Progress? && t[k + 1].forwarded == n + Forwarded(t[..k + 1])
  }

  /** Past the first event, a progress reply comes only right after a copy. */
  predicate ProgressOnlyAfterCopies(t: seq<Event>) {
    forall k :: 0 < k < |t| && t[k].Progress? ==> t[k - 1].Copied?
  }

  /** The `time.sleep` after the pause check runs: the check fires and the delay is valid. */
  predicate Sleeps(j: Job, c: int) {
    j.batchSize != 0 && !SleepRaises(j.delay) && PyMod(c, j.batchSize) == 0
  }

  /**
   * The event that follows a visited ID when the counter is `c`: a pause
   * exactly when the sleep runs, the division by zero whenever the batch size
   * is 0, and the sleep's exception whenever the pause is due but the delay
   * is one `time.sleep` refuses.
   */
  predicate AfterVisit(j: Job, e: Event, c: int) {
    && (e.Pause? <==> Sleeps(j, c))
    && (j.batchSize == 0 ==> e == Crashed(DivisionByZero))
    && (j.batchSize != 0 && SleepRaises(j.delay) && PyMod(c, j.batchSize) == 0 ==> e == Crashed(SleepError(j.delay)))
  }

  /**
   * After each visited ID, copied or failed, the next event is the one the
   * pause check makes due (`AfterVisit`).
   */
  predicate PausesWhereDue(j: Job, t: seq<Event>, n: int) {
    forall k :: 0 <= k < |t| - 1 ==> PauseWhereDue(j, t, n, k)
  }

  /** The pause check after position `k`, when `k` ends a visited ID. */
  predicate PauseWhereDue(j: Job, t: seq<Event>, n: int, k: int)
    requires 0 <= k < |t| - 1
  {
    (t[k].Failed? || t[k].Progress?) ==> AfterVisit(j, t[k + 1], n + Forwarded(t[..k + 1]))
  }

  /** Past the first event, a pause comes only right after the events of a visited ID. */
  predicate PausesFollowVisits(t: seq<Event>) {
    forall k :: 0 < k < |t| && t[k].Pause? ==> t[k - 1].Failed? || t[k - 1].Progress?
  }

  /** Conjunction of the positional properties, with their composition below. */
  predicate Placed(j: Job, t: seq<Event>, n: int) {
    ProgressAfterCopies(t, n) && ProgressOnlyAfterCopies(t) && PausesWhereDue(j, t, n) && PausesFollowVisits(t)
  }

  lemma ProgressAfterCopiesConcat(h: seq<Event>, r: seq<Event>, n: int)
    requires ProgressAfterCopies(h, n) && ProgressAfterCopies(r, n + Forwarded(h))
    ensures ProgressAfterCopies(h + r, n)
  {
    var t := h + r;
    forall k | 0 <= k < |t| && t[k].Copied?
      ensures k + 1 < |t| && t[k + 1].Progress? && t[k + 1].forwarded == n + Forwarded(t[..k + 1])
    {
      if k < |h| {
        assert t[..k + 1] == h[..k + 1];
      } else {
        assert t[k] == r[k - |h|];
        CountInSuffix(h, r, k + 1);
      }
    }
  }

  lemma ProgressOnlyAfterCopiesConcat(h: seq<Event>, r: seq<Event>)
    requires ProgressOnlyAfterCopies(h) && ProgressOnlyAfterCopies(r)
    requires r != [] && r[0].Progress? ==> h != [] && h[|h| - 1].Copied?
    ensures ProgressOnlyAfterCopies(h + r)
  {
    var t := h + r;
    forall k | 0 < k < |t| && t[k].Progress? ensures t[k - 1].Copied? {
      if k > |h| {
        assert t[k] == r[k - |h|] && t[k - 1] == r[k - 1 - |h|];
      } else if k == |h| {
        assert t[k] == r[0];
      }
    }
  }

  /** The pause check after a visit in the suffix `r` of `h + r` sees the counter `r` sees. */
  lemma PauseInSuffix(j: Job, h: seq<Event>, r: seq<Event>, n: int, k: int)
    requires PausesWhereDue(j, r, n + Forwarded(h))
    requires |h| <= k < |h| + |r| - 1
    ensures PauseWhereDue(j, h + r, n, k)
  {
    var t := h + r;
    CountInSuffix(h, r, k + 1);
    assert n + Forwarded(t[..k + 1]) == n + Forwarded(h) + Forwarded(r[..k - |h| + 1]);
    assert PauseWhereDue(j, r, n + Forwarded(h), k - |h|);
    assert t[k] == r[k - |h|] && t[k + 1] == r[k - |h| + 1];
  }

  /** The pause check after a visit inside the prefix `h` of `h + r` is the one `h` sees. */
  lemma PauseInPrefix(j: Job, h: seq<Event>, r: seq<Event>, n: int, k: int)
    requires PausesWhereDue(j, h, n)
    requires 0 <= k < |h| - 1
    ensures PauseWhereDue(j, h + r, n, k)
  {
    var t := h + r;
    assert t[..k + 1] == h[..k + 1];
    assert n + Forwarded(t[..k + 1]) == n + Forwarded(h[..k + 1]);
    assert PauseWhereDue(j, h, n, k);
    assert t[k] == h[k] && t[k + 1] == h[k + 1];
  }

  /** The pause check after the last event of `h` in `h + r`. */
  lemma PauseAtSeam(j: Job, h: seq<Event>, r: seq<Event>, n: int)
    requires h != [] && r != []
    requires (h[|h| - 1].Failed? || h[|h| - 1].Progress?) ==> AfterVisit(j, r[0], n + Forwarded(h))
    ensures PauseWhereDue(j, h + r, n, |h| - 1)
  {
    var t := h + r;
    assert t[..|h|] == h;
    assert n + Forwarded(t[..|h|]) == n + Forwarded(h);
    assert t[|h| - 1] == h[|h| - 1] && t[|h|] == r[0];
  }

  lemma PausesWhereDueConcat(j: Job, h: seq<Event>, r: seq<Event>, n: int)
    requires PausesWhereDue(j, h, n) && PausesWhereDue(j, r, n + Forwarded(h))
    requires h != [] && r != [] && (h[|h| - 1].Failed? || h[|h| - 1].Progress?) ==>
      AfterVisit(j, r[0], n + Forwarded(h))
    ensures PausesWhereDue(j, h + r, n)
  {
    forall k | 0 <= k < |h + r| - 1 ensures PauseWhereDue(j, h + r, n, k) {
      PauseWhereDueAt(j, h, r, n, k);
    }
  }

  /** The pause check after position `k` of `h + r`, wherever `k` falls. */
  lemma PauseWhereDueAt(j: Job, h: seq<Event>, r: seq<Event>, n: int, k: int)
    requires PausesWhereDue(j, h, n) && PausesWhereDue(j, r, n + Forwarded(h))
    requires h != [] && r != [] && (h[|h| - 1].Failed? || h[|h| - 1].Progress?) ==>
      AfterVisit(j, r[0], n + Forwarded(h))
    requires 0 <= k < |h + r| - 1
    ensures PauseWhereDue(j, h + r, n, k)
  {
    if k < |h| - 1 {
      PauseInPrefix(j, h, r, n, k);
    } else if k == |h| - 1 {
      PauseAtSeam(j, h, r, n);
    } else {
      PauseInSuffix(j, h, r, n, k);
    }
  }

  lemma PausesFollowVisitsConcat(h: seq<Event>, r: seq<Event>)
    requires PausesFollowVisits(h) && PausesFollowVisits(r)
    requires r != [] && r[0].Pause? ==> h != [] && (h[|h| - 1].Failed? || h[|h| - 1].Progress?)
    ensures PausesFollowVisits(h + r)
  {
    var t := h + r;
    forall k | 0 < k < |t| && t[k].Pause? ensures t[k - 1].Failed? || t[k - 1].Progress? {
      if k > |h| {
        assert t[k] == r[k - |h|] && t[k - 1] == r[k - 1 - |h|];
      } else if k == |h| {
        assert t[k] == r[0];
      }
    }
  }

  /** The conditions at the seam of `h + r` under which placement composes. */
  predicate Joins(j: Job, h: seq<Event>, r: seq<Event>, n: int)
    requires h != [] && r != []
  {
    && (r[0].Progress? ==> h[|h| - 1].Copied?)
    && (r[0].Pause? ==> h[|h| - 1].Failed? || h[|h| - 1].Progress?)
    && (h[|h| - 1].Failed? || h[|h| - 1].Progress? ==> AfterVisit(j, r[0], n + Forwarded(h)))
  }

  lemma PlacedConcat(j: Job, h: seq<Event>, r: seq<Event>, n: int)
    requires Placed(j, h, n) && Placed(j, r, n + Forwarded(h))
    requires h != [] && r != [] && Joins(j, h, r, n)
    ensures Placed(j, h + r, n)
  {
    ProgressAfterCopiesConcat(h, r, n);
    ProgressOnlyAfterCopiesConcat(h, r);
    PausesWhereDueConcat(j, h, r, n);
    PausesFollowVisitsConcat(h, r);
  }

  lemma VisitPlaced(j: Job, id: int, n: int)
    ensures Placed(j, Visit(j, id, n), n)
  {
    var v := Visit(j, id, n);
    if Delivers(j, id) {
      assert v[..1] == [v[0]];
      assert Forwarded(v[..1]) == 1 by { assert v[..1][1..] == []; }
    }
  }

  lemma StepPlaced(j: Job, id: int, n: int)
    requires Continues(j, id, n)
    ensures Placed(j, Step(j, id, n), n)
  {
    VisitPlaced(j, id, n);
    VisitFacts(j, id, n);
    var v := Visit(j, id, n);
    if PausesAfter(j, id, n) {
      assert Forwarded([Pause(j.delay)]) == 0;
      assert v[|v| - 1].Failed? || v[|v| - 1].Progress?;
      assert Joins(j, v, [Pause(j.delay)], n);
      PlacedConcat(j, v, [Pause(j.delay)], n);
    } else {
      assert Step(j, id, n) == v;
    }
  }

  /**
   * The positional replies of the loop: each copy is followed by its
   * progress reply with the counter after it, and after each visited ID a
   * pause follows exactly when the counter is a multiple of the batch size
   * and the delay is one `time.sleep` accepts (and only there), failed IDs
   * included; with batch size 0 the division by zero must follow the first
   * visit, and at a due pause with a refused delay the sleep's exception must.
   */
  lemma {:induction false} LoopPlaced(j: Job, id: int, n: int)
    ensures Placed(j, Loop(j, id, n), n)
    decreases j.last + 1 - id
  {
    if id <= j.last && j.flagAt(id) {
      if j.batchSize == 0 {
        CrashPlaced(j, id, n, DivisionByZero);
      } else if PausesAfter(j, id, n) && SleepRaises(j.delay) {
        CrashPlaced(j, id, n, SleepError(j.delay));
      } else {
        LoopPlaced(j, id + 1, After(j, id, n));
        ContinuePlaced(j, id, n);
      }
    }
  }

  /** An iteration whose pause check raises: the visit, then the crash. */
  lemma CrashPlaced(j: Job, id: int, n: int, c: Crash)
    requires c == DivisionByZero ==> j.batchSize == 0
    requires c != DivisionByZero ==> j.batchSize != 0 && PausesAfter(j, id, n) && SleepRaises(j.delay) && c == SleepError(j.delay)
    ensures Placed(j, Visit(j, id, n) + [Crashed(c)], n)
  {
    VisitPlaced(j, id, n);
    VisitFacts(j, id, n);
    var v := Visit(j, id, n);
    assert v[|v| - 1].Failed? || v[|v| - 1].Progress?;
    assert !Sleeps(j, n + Forwarded(v));
    assert Joins(j, v, [Crashed(c)], n);
    PlacedConcat(j, v, [Crashed(c)], n);
  }

  /** An iteration that runs to its end, followed by a well-placed rest of the loop. */
  lemma ContinuePlaced(j: Job, id: int, n: int)
    requires Continues(j, id, n)
    requires Placed(j, Loop(j, id + 1, After(j, id, n)), After(j, id, n))
    ensures Placed(j, Loop(j, id, n), n)
  {
    var h := Step(j, id, n);
    var r := Loop(j, id + 1, After(j, id, n));
    StepPlaced(j, id, n);
    StepJoins(j, id, n, r);
    assert Loop(j, id, n) == h + r;
    PlacedConcat(j, h, r, n);
  }

  /** A whole iteration joins any rest of the loop that starts with a visit or an ending. */
  lemma StepJoins(j: Job, id: int, n: int, r: seq<Event>)
    requires Continues(j, id, n)
    requires r == Loop(j, id + 1, After(j, id, n))
    ensures Step(j, id, n) != [] && r != [] && Forwarded(Step(j, id, n)) == After(j, id, n) - n
    ensures Joins(j, Step(j, id, n), r, n)
  {
    var h := Step(j, id, n);
    StepFacts(j, id, n);
    LoopStart(j, id + 1, After(j, id, n));
    var v := Visit(j, id, n);
    assert v[|v| - 1].Failed? || v[|v| - 1].Progress?;
    if PausesAfter(j, id, n) {
      assert h[|h| - 1].Pause?;
    } else {
      assert h == v;
      assert !Sleeps(j, n + Forwarded(h));
    }
  }

  // ---------------------------------------------------------------------------
  // Properties of a whole `forward_messages` call

  /**
   * The two early returns: a falsy effective channel, or a start or end ID
   * that is unset or 0 (Python truthiness). On them nothing is fetched or
   * sent, and a run that passes both tests never reports a configuration error.
   */
  lemma ForwardRejectsUnset(cfg: Config, s: map<Key, Value>, delivers: (Value, Value, int) -> bool, flagAt: int -> bool)
    requires WellTyped(s)
    ensures var t := ForwardTrace(cfg, s, delivers, flagAt);
      && (t == [ConfigError(ChannelsUnset)] <==> !ChannelsSet(cfg, s))
      && (t == [ConfigError(MessageIdsUnset)] <==>
            ChannelsSet(cfg, s) &&
            !(StartMessage in s && s[StartMessage].i != 0 && EndMessage in s && s[EndMessage].i != 0))
      && t != []
      && (t[0].ConfigError? ==> |t| == 1 && Visits(t) == [] && Forwarded(t) == 0)
  {
    if ChannelsSet(cfg, s) && IdsSet(s) {
      var j := JobOf(cfg, s, delivers, flagAt);
      LoopStart(j, s[StartMessage].i, 0);
    }
  }

  /**
   * A run that passes both tests ends exactly once; visits IDs upward from
   * the start ID, consecutively, never past the end ID and only while the
   * flag is set; copies from the effective source to the effective target
   * exactly the visited IDs the oracle delivers; reports a count that never
   * exceeds the IDs visited, nor the total; places the progress replies and
   * pauses as the code does; and ends as `EndsAsCoded` says.
   */
  lemma ForwardRun(cfg: Config, s: map<Key, Value>, delivers: (Value, Value, int) -> bool, flagAt: int -> bool)
    requires WellTyped(s) && ChannelsSet(cfg, s) && IdsSet(s)
    ensures var t := ForwardTrace(cfg, s, delivers, flagAt);
      var j := JobOf(cfg, s, delivers, flagAt);
      var v := Visits(t);
      && t != [] && IsFinal(t[|t| - 1]) && !t[|t| - 1].ConfigError?
      && (forall k :: 0 <= k < |t| - 1 ==> !IsFinal(t[k]))
      && (IsVisit(t[0]) || IsFinal(t[0]))
      && VisitedFrom(j, v, s[StartMessage].i)
      && Forwarded(t) <= |v| <= (if j.total > 0 then j.total else 0)
      && AllAgree(j, t)
      && Placed(j, t, 0)
      && EndsAsCoded(j, t, s[StartMessage].i, 0)
  {
    var j := JobOf(cfg, s, delivers, flagAt);
    var first := s[StartMessage].i;
    var t := Loop(j, first, 0);
    LoopEndsOnce(j, first, 0);
    LoopStart(j, first, 0);
    LoopVisitsAscending(j, first, 0);
    LoopAgrees(j, first, 0);
    LoopPlaced(j, first, 0);
    LoopEnding(j, first, 0);
    CopiedAreCounted(t);
    var v := Visits(t);
    if v != [] {
      assert v[|v| - 1] == first + |v| - 1 <= j.last;
    }
  }
}
