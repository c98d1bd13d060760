/** The single-flight cache of the OpenAI proxy's tool list.

    Any number of requests call `getOpenAITools` at once.  Each call is a loop
    that reads the clock, takes the mutex, and then serves a cached answer, waits
    for a fetch in progress, or fetches the list itself.  The code between two
    synchronisation points is one step of the machine below; the steps of
    different callers interleave freely. */
module ToolsCache {
  import opened Options

  /** A reading of the process's monotonic clock, in nanoseconds. */
  type Instant = int

  /** One entry of the tool list, as the upstream sent it. */
  datatype Tool = Tool(definition: string)

  /** A channel made by `make(chan struct{})`; 0 is the nil channel. */
  type Channel = nat

  datatype Limits = Limits(toolsCacheTTL: int, toolsErrorCacheTTL: int, maxToolCallsPerTurn: int) {
    predicate Positive() {
      0 < toolsCacheTTL && 0 < toolsErrorCacheTTL && 0 < maxToolCallsPerTurn
    }

    /** The shorter of the two cache lifetimes. */
    function Gap(): int {
      if toolsCacheTTL <= toolsErrorCacheTTL then toolsCacheTTL else toolsErrorCacheTTL
    }
  }

  const DefaultToolsCacheTTL := 10_000_000_000
  const DefaultMaxToolCalls := 3

  /** The limits `New` stores in the proxy for the configured ones. */
  function NewLimits(ttl: int, errorTTL: int, maxCalls: int): (l: Limits)
    ensures l.Positive()
    ensures ttl > 0 ==> l.toolsCacheTTL == ttl
    ensures errorTTL > 0 ==> l.toolsErrorCacheTTL == errorTTL
    ensures errorTTL <= 0 ==> l.toolsErrorCacheTTL == l.toolsCacheTTL
    ensures maxCalls > 0 ==> l.maxToolCallsPerTurn == maxCalls
  {
    var toolsTTL := if ttl <= 0 then DefaultToolsCacheTTL else ttl;
    Limits(
      toolsTTL,
      if errorTTL <= 0 then toolsTTL else errorTTL,
      if maxCalls <= 0 then DefaultMaxToolCalls else maxCalls)
  }

  /** The fields of `Proxy` guarded by `mu`, and the channels made and closed so
      far.  `panicked` records a close of a nil or closed channel. */
  datatype Cache = Cache(
    cacheValid: bool,
    fetchInFlight: bool,
    fetchDone: Channel,
    cachedTools: seq<Tool>,
    cachedToolsAt: Instant,
    cachedToolsErr: Option<string>,
    cachedToolsErrAt: Instant,
    made: nat,
    closed: set<Channel>,
    panicked: bool)

  const EmptyCache := Cache(false, false, 0, [], 0, None, 0, 0, {}, false)

  /** What the first critical section decides. */
  datatype Decision =
    | ServeTools(tools: seq<Tool>)
    | ServeError(err: string)
    | Wait(done: Channel)
    | Fetch(done: Channel)

  /** How a fetch of the upstream list ends. */
  datatype Outcome =
    | Success(tools: seq<Tool>)
    | Failure(err: string)
    | Cancelled(err: string)

  function Lookup(l: Limits, c: Cache, now: Instant): (Cache, Decision) {
    if c.cacheValid && now - c.cachedToolsAt < l.toolsCacheTTL then
      (c, ServeTools(c.cachedTools))
    else if c.cachedToolsErr.Some? && now - c.cachedToolsErrAt < l.toolsErrorCacheTTL then
      (c, ServeError(c.cachedToolsErr.value))
    else if c.fetchInFlight then
      (c, Wait(c.fetchDone))
    else
      var done := c.made + 1;
      (c.(fetchInFlight := true, fetchDone := done, made := done), Fetch(done))
  }

  function CloseDone(c: Cache): Cache {
    if c.fetchDone == 0 || c.fetchDone in c.closed then
      c.(panicked := true)
    else
      c.(closed := c.closed + {c.fetchDone})
  }

  /** The second critical section, entered when the fetch is over. */
  function Complete(c: Cache, outcome: Outcome, completedAt: Instant): Cache {
    var released := CloseDone(c.(fetchInFlight := false));
    match outcome
    case Success(tools) =>
      released.(cachedTools := tools, cachedToolsAt := completedAt, cacheValid := true, cachedToolsErr := None)
    case Failure(err) =>
      released.(cachedToolsErr := Some(err), cachedToolsErrAt := completedAt)
    case Cancelled(_) =>
      released
  }

  // ----- The interleaving machine

  /** What a call of `getOpenAITools` returned. */
  datatype Answer =
    | FromCache(tools: seq<Tool>, readAt: Instant)
    | CachedError(err: string, readAt: Instant)
    | Fresh(tools: seq<Tool>)
    | FetchFailed(err: string)
    | Interrupted

  /** Where one call of `getOpenAITools` stands. */
  datatype Phase =
    | Looping
    | Timed(now: Instant)
    | Waiting(done: Channel)
    | Fetching(done: Channel, readAt: Instant)
    | Fetched(done: Channel, readAt: Instant, outcome: Outcome, completedAt: Instant)
    | Returned(answer: Answer)
  {
    predicate Owner() { Fetching? || Fetched? }
  }

  /** A fetch that has ended and released the lock again. */
  datatype Completion = Completion(outcome: Outcome, at: Instant)

  datatype State = State(clock: Instant, cache: Cache, callers: map<nat, Phase>, log: seq<Completion>)

  function Initial(clock: Instant): State {
    State(clock, EmptyCache, map[], [])
  }

  datatype Action =
    | Tick(elapsed: nat)
    | Call(c: nat)
    | ReadClock(c: nat)
    | Lock(c: nat)
    | GiveUp(c: nat)
    | Wake(c: nat)
    | EndFetch(c: nat, outcome: Outcome)
    | Finish(c: nat)

  predicate Enabled(s: State, a: Action) {
    match a
    case Tick(_) => true
    case Call(c) => c !in s.callers
    case ReadClock(c) => c in s.callers && s.callers[c].Looping?
    case Lock(c) => c in s.callers && s.callers[c].Timed?
    case GiveUp(c) => c in s.callers && s.callers[c].Waiting?
    case Wake(c) => c in s.callers && s.callers[c].Waiting? && s.callers[c].done in s.cache.closed
    case EndFetch(c, _) => c in s.callers && s.callers[c].Fetching?
    case Finish(c) => c in s.callers && s.callers[c].Fetched?
  }

  function Decided(d: Decision, now: Instant): Phase {
    match d
    case ServeTools(tools) => Returned(FromCache(tools, now))
    case ServeError(err) => Returned(CachedError(err, now))
    case Wait(done) => Waiting(done)
    case Fetch(done) => Fetching(done, now)
  }

  function Reply(outcome: Outcome): Answer {
    match outcome
    case Success(tools) => Fresh(tools)
    case Failure(err) => FetchFailed(err)
    case Cancelled(err) => FetchFailed(err)
  }

  function Apply(l: Limits, s: State, a: Action): State
    requires Enabled(s, a)
  {
    match a
    case Tick(elapsed) => s.(clock := s.clock + elapsed)
    case Call(c) => s.(callers := s.callers[c := Looping])
    case ReadClock(c) => s.(callers := s.callers[c := Timed(s.clock)])
    case Lock(c) =>
      var now := s.callers[c].now;
      var (cache, decision) := Lookup(l, s.cache, now);
      s.(cache := cache, callers := s.callers[c := Decided(decision, now)])
    case GiveUp(c) => s.(callers := s.callers[c := Returned(Interrupted)])
    case Wake(c) => s.(callers := s.callers[c := Looping])
    case EndFetch(c, outcome) =>
      var p := s.callers[c];
      s.(callers := s.callers[c := Fetched(p.done, p.readAt, outcome, s.clock)])
    case Finish(c) =>
      var p := s.callers[c];
      State(
        s.clock,
        Complete(s.cache, p.outcome, p.completedAt),
        s.callers[c := Returned(Reply(p.outcome))],
        s.log + [Completion(p.outcome, p.completedAt)])
  }

  /** `run` is a schedule the callers can follow from `s`. */
  ghost predicate Legal(l: Limits, s: State, run: seq<Action>)
    decreases |run|
  {
    run == [] || (Enabled(s, run[0]) && Legal(l, Apply(l, s, run[0]), run[1..]))
  }

  ghost function Exec(l: Limits, s: State, run: seq<Action>): State
    requires Legal(l, s, run)
    decreases |run|
  {
    if run == [] then s else Exec(l, Apply(l, s, run[0]), run[1..])
  }

  // ----- What the log of finished fetches says

  /** The completions that were not cancellations. */
  ghost function Effective(log: seq<Completion>): seq<Completion> {
    if log == [] then []
    else
      var rest := Effective(log[..|log| - 1]);
      var last := log[|log| - 1];
      if last.outcome.Cancelled? then rest else rest + [last]
  }

  ghost function LatestSuccess(log: seq<Completion>): (r: Option<Completion>)
    ensures r.Some? ==> r.value.outcome.Success? && r.value in log
  {
    if log == [] then None
    else
      var last := log[|log| - 1];
      if last.outcome.Success? then Some(last) else LatestSuccess(log[..|log| - 1])
  }

  ghost function LatestEffective(log: seq<Completion>): Option<Completion> {
    var e := Effective(log);
    if e == [] then None else Some(e[|e| - 1])
  }

  lemma LogGrows(log: seq<Completion>, c: Completion)
    ensures Effective(log + [c]) == if c.outcome.Cancelled? then Effective(log) else Effective(log) + [c]
    ensures LatestSuccess(log + [c]) == if c.outcome.Success? then Some(c) else LatestSuccess(log)
  {
    assert (log + [c])[..|log|] == log;
  }

  // ----- The invariant

  /** At most one caller owns the fetch, and it owns it exactly while the flag is up. */
  ghost predicate SingleFlight(s: State) {
    && (forall f :: f in s.callers && s.callers[f].Owner() ==>
          s.cache.fetchInFlight && s.callers[f].done == s.cache.fetchDone)
    && (forall f, g :: f in s.callers && g in s.callers && s.callers[f].Owner() && s.callers[g].Owner() ==> f == g)
    && (s.cache.fetchInFlight ==> exists f :: f in s.callers && s.callers[f].Owner())
  }

  /** Channels: none closed twice, none waited on that nobody will close. */
  ghost predicate Channels(s: State) {
    && !s.cache.panicked
    && s.cache.fetchDone <= s.cache.made
    && (forall ch :: ch in s.cache.closed ==> 0 < ch <= s.cache.made)
    && (s.cache.fetchInFlight ==> 0 < s.cache.fetchDone && s.cache.fetchDone !in s.cache.closed)
    && (forall w :: w in s.callers && s.callers[w].Waiting? ==>
          s.callers[w].done in s.cache.closed ||
          (s.cache.fetchInFlight && s.callers[w].done == s.cache.fetchDone))
  }

  /** Every stored instant lies in the past, and a fetch ends after it began. */
  ghost predicate Past(s: State) {
    && (forall c :: c in s.callers ==>
          match s.callers[c]
          case Timed(now) => now <= s.clock
          case Fetching(_, readAt) => readAt <= s.clock
          case Fetched(_, readAt, _, completedAt) => readAt <= completedAt <= s.clock
          case _ => true)
    && (forall i :: 0 <= i < |s.log| ==> s.log[i].at <= s.clock)
  }

  /** The cache fields are what the log of finished fetches says. */
  ghost predicate Remembers(c: Cache, log: seq<Completion>) {
    && (match LatestSuccess(log)
        case None => !c.cacheValid
        case Some(e) => c.cacheValid && e.outcome == Success(c.cachedTools) && c.cachedToolsAt == e.at)
    && (match LatestEffective(log)
        case None => c.cachedToolsErr == None
        case Some(e) =>
          if e.outcome.Failure? then
            c.cachedToolsErr == Some(e.outcome.err) && c.cachedToolsErrAt == e.at
          else
            && c.cachedToolsErr == None
            && LatestSuccess(log) == Some(e))
  }

  /** Both caches had expired at instant `now`. */
  ghost predicate Expired(l: Limits, c: Cache, now: Instant) {
    && (c.cacheValid ==> now - c.cachedToolsAt >= l.toolsCacheTTL)
    && (c.cachedToolsErr.Some? ==> now - c.cachedToolsErrAt >= l.toolsErrorCacheTTL)
  }

  ghost predicate Spaced(gap: int, e: seq<Completion>) {
    forall i, j :: 0 <= i < j < |e| && j == i + 1 ==> e[j].at - e[i].at >= gap
  }

  ghost predicate Timing(l: Limits, s: State) {
    && (forall f :: f in s.callers && s.callers[f].Owner() ==> Expired(l, s.cache, s.callers[f].readAt))
    && Spaced(l.Gap(), Effective(s.log))
    && (s.cache.cacheValid && s.cache.cachedToolsErr.Some? ==>
          s.cache.cachedToolsErrAt - s.cache.cachedToolsAt >= l.toolsCacheTTL)
  }

  ghost predicate Inv(l: Limits, s: State) {
    SingleFlight(s) && Channels(s) && Past(s) && Remembers(s.cache, s.log) && Timing(l, s)
  }

  lemma InitialInv(l: Limits, clock: Instant)
    ensures Inv(l, Initial(clock))
  {
  }

  lemma LockKeepsFlight(l: Limits, s: State, c: nat)
    requires Inv(l, s) && Enabled(s, Lock(c))
    ensures SingleFlight(Apply(l, s, Lock(c))) && Channels(Apply(l, s, Lock(c)))
  {
    var s' := Apply(l, s, Lock(c));
    var (_, decision) := Lookup(l, s.cache, s.callers[c].now);
    if decision.Fetch? {
      assert s'.callers[c].Owner();
    } else if s.cache.fetchInFlight {
      var f :| f in s.callers && s.callers[f].Owner();
      assert s'.callers[f] == s.callers[f];
    }
  }

  lemma LockKeepsTimes(l: Limits, s: State, c: nat)
    requires Inv(l, s) && Enabled(s, Lock(c))
    ensures Past(Apply(l, s, Lock(c))) && Timing(l, Apply(l, s, Lock(c)))
    ensures Remembers(Apply(l, s, Lock(c)).cache, s.log)
  {
  }

  lemma RemembersSuccess(c: Cache, log: seq<Completion>, tools: seq<Tool>, at: Instant)
    ensures Remembers(Complete(c, Success(tools), at), log + [Completion(Success(tools), at)])
  {
    LogGrows(log, Completion(Success(tools), at));
  }

  lemma RemembersFailure(c: Cache, log: seq<Completion>, err: string, at: Instant)
    requires Remembers(c, log)
    ensures Remembers(Complete(c, Failure(err), at), log + [Completion(Failure(err), at)])
  {
    LogGrows(log, Completion(Failure(err), at));
  }

  lemma RemembersCancelled(c: Cache, log: seq<Completion>, err: string, at: Instant)
    requires Remembers(c, log)
    ensures Remembers(Complete(c, Cancelled(err), at), log + [Completion(Cancelled(err), at)])
  {
    LogGrows(log, Completion(Cancelled(err), at));
  }

  lemma FinishRemembers(c: Cache, log: seq<Completion>, outcome: Outcome, at: Instant)
    requires Remembers(c, log)
    ensures Remembers(Complete(c, outcome, at), log + [Completion(outcome, at)])
  {
    match outcome
    case Success(tools) => RemembersSuccess(c, log, tools, at);
    case Failure(err) => RemembersFailure(c, log, err, at);
    case Cancelled(err) => RemembersCancelled(c, log, err, at);
  }

  /** When both caches had expired, the last effective fetch lies a lifetime back. */
  lemma ExpiredIsLate(l: Limits, c: Cache, log: seq<Completion>, now: Instant)
    requires Remembers(c, log) && Expired(l, c, now) && LatestEffective(log).Some?
    ensures now - LatestEffective(log).value.at >= l.Gap()
  {
  }

  lemma SpacedGrows(gap: int, log: seq<Completion>, c: Completion)
    requires Spaced(gap, Effective(log))
    requires LatestEffective(log).Some? ==> c.at - LatestEffective(log).value.at >= gap
    ensures Spaced(gap, Effective(log + [c]))
  {
    LogGrows(log, c);
  }

  lemma FinishKeepsTiming(l: Limits, s: State, c: nat)
    requires Inv(l, s) && Enabled(s, Finish(c))
    ensures Remembers(Apply(l, s, Finish(c)).cache, Apply(l, s, Finish(c)).log)
    ensures Spaced(l.Gap(), Effective(Apply(l, s, Finish(c)).log))
  {
    var p := s.callers[c];
    assert p.Owner();
    FinishRemembers(s.cache, s.log, p.outcome, p.completedAt);
    if LatestEffective(s.log).Some? {
      ExpiredIsLate(l, s.cache, s.log, p.readAt);
    }
    SpacedGrows(l.Gap(), s.log, Completion(p.outcome, p.completedAt));
  }

  lemma FinishKeepsFlight(l: Limits, s: State, c: nat)
    requires Inv(l, s) && Enabled(s, Finish(c))
    ensures SingleFlight(Apply(l, s, Finish(c)))
    ensures Channels(Apply(l, s, Finish(c)))
    ensures Past(Apply(l, s, Finish(c)))
    ensures forall f :: f in Apply(l, s, Finish(c)).callers ==> !Apply(l, s, Finish(c)).callers[f].Owner()
  {
    assert s.callers[c].Owner();
  }

  /** The steps that touch neither the cache nor the log keep the owner of the fetch. */
  lemma OtherKeepsFlight(l: Limits, s: State, a: Action)
    requires Inv(l, s) && Enabled(s, a) && !a.Lock? && !a.Finish?
    ensures SingleFlight(Apply(l, s, a)) && Channels(Apply(l, s, a))
  {
    var s' := Apply(l, s, a);
    if s.cache.fetchInFlight {
      var f :| f in s.callers && s.callers[f].Owner();
      assert f in s'.callers && s'.callers[f].Owner();
    }
  }

  lemma OtherKeepsTimes(l: Limits, s: State, a: Action)
    requires Inv(l, s) && Enabled(s, a) && !a.Lock? && !a.Finish?
    ensures Past(Apply(l, s, a)) && Timing(l, Apply(l, s, a))
  {
  }

  lemma StepKeepsInv(l: Limits, s: State, a: Action)
    requires Inv(l, s) && Enabled(s, a)
    ensures Inv(l, Apply(l, s, a))
  {
    match a
    case Lock(c) =>
      LockKeepsFlight(l, s, c);
      LockKeepsTimes(l, s, c);
    case Finish(c) =>
      assert s.callers[c].Owner();
      FinishKeepsTiming(l, s, c);
      FinishKeepsFlight(l, s, c);
    case _ =>
      OtherKeepsFlight(l, s, a);
      OtherKeepsTimes(l, s, a);
  }

  lemma {:induction false} RunKeepsInv(l: Limits, s: State, run: seq<Action>)
    requires Inv(l, s) && Legal(l, s, run)
    ensures Inv(l, Exec(l, s, run))
    decreases |run|
  {
    if run != [] {
      StepKeepsInv(l, s, run[0]);
      RunKeepsInv(l, Apply(l, s, run[0]), run[1..]);
    }
  }
}

/** The `Proxy` object itself: each critical section of `getOpenAITools` as one
    method on its fields. */
module ToolsProxy {
  import opened Options
  import opened ToolsCache

  class Proxy {
    const limits: Limits
    var cacheValid: bool
    var fetchInFlight: bool
    var fetchDone: Channel
    var cachedTools: seq<Tool>
    var cachedToolsAt: Instant
    var cachedToolsErr: Option<string>
    var cachedToolsErrAt: Instant
    var made: nat
    var closed: set<Channel>

    ghost function Fields(): Cache
      reads this
    {
      Cache(cacheValid, fetchInFlight, fetchDone, cachedTools, cachedToolsAt,
            cachedToolsErr, cachedToolsErrAt, made, closed, false)
    }

    constructor (ttl: int, errorTTL: int, maxCalls: int)
      ensures limits == NewLimits(ttl, errorTTL, maxCalls)
      ensures Fields() == EmptyCache
    {
      limits := NewLimits(ttl, errorTTL, maxCalls);
      cacheValid, fetchInFlight, fetchDone := false, false, 0;
      cachedTools, cachedToolsAt := [], 0;
      cachedToolsErr, cachedToolsErrAt := None, 0;
      made, closed := 0, {};
    }

    /** From taking the lock to releasing it, before any waiting or fetching. */
    method Enter(now: Instant) returns (decision: Decision)
      modifies this
      ensures (Fields(), decision) == Lookup(limits, old(Fields()), now)
    {
      if cacheValid && now - cachedToolsAt < limits.toolsCacheTTL {
        return ServeTools(cachedTools);
      }
      if cachedToolsErr.Some? && now - cachedToolsErrAt < limits.toolsErrorCacheTTL {
        return ServeError(cachedToolsErr.value);
      }
      if fetchInFlight {
        return Wait(fetchDone);
      }
      fetchInFlight := true;
      made := made + 1;
      fetchDone := made;
      return Fetch(fetchDone);
    }

    /** `close(p.fetchDone)`, which panics on a nil or closed channel. */
    method CloseFetchDone()
      requires fetchDone != 0 && fetchDone !in closed
      modifies this`closed
      ensures closed == old(closed) + {fetchDone}
    {
      closed := closed + {fetchDone};
    }

    /** The caller gets the list its fetch brought, or its fetch's own error. */
    ghost predicate Delivers(fetch: Outcome, answer: Answer) {
      match fetch
      case Success(tools) => answer == Fresh(tools)
      case Failure(err) => answer == FetchFailed(err)
      case Cancelled(err) => answer == FetchFailed(err)
    }

    /** The lock section after the fetch, and what the call returns. */
    method Leave(outcome: Outcome, completedAt: Instant) returns (answer: Answer)
      requires fetchDone != 0 && fetchDone !in closed
      modifies this
      ensures Fields() == Complete(old(Fields()), outcome, completedAt)
      ensures Delivers(outcome, answer)
    {
      fetchInFlight := false;
      CloseFetchDone();
      match outcome
      case Cancelled(err) =>
        answer := FetchFailed(err);
      case Failure(err) =>
        cachedToolsErr := Some(err);
        cachedToolsErrAt := completedAt;
        answer := FetchFailed(err);
      case Success(tools) =>
        cachedTools := tools;
        cachedToolsAt := completedAt;
        cacheValid := true;
        cachedToolsErr := None;
        answer := Fresh(cachedTools);
    }

    /** What is cached after a fetch: the new list and no error; the error beside the
        old list; or, after a cancelled fetch, what was cached before. */
    ghost predicate Stored(fetch: Outcome, at: Instant, before: Cache)
      reads this
    {
      && (if fetch.Success? then cacheValid && cachedTools == fetch.tools && cachedToolsAt == at
          else cacheValid == before.cacheValid && cachedTools == before.cachedTools && cachedToolsAt == before.cachedToolsAt)
      && match fetch
         case Success(_) => cachedToolsErr == None
         case Failure(err) => cachedToolsErr == Some(err) && cachedToolsErrAt == at
         case Cancelled(_) => cachedToolsErr == before.cachedToolsErr && cachedToolsErrAt == before.cachedToolsErrAt
    }

    /** A call that meets no other: it answers from the cache or fetches once.
        `fetch` is how the upstream would answer, `completedAt` when. */
    method GetOpenAITools(now: Instant, fetch: Outcome, completedAt: Instant) returns (answer: Answer)
      requires !fetchInFlight && (forall ch :: ch in closed ==> ch <= made)
      modifies this
      ensures !fetchInFlight && (forall ch :: ch in closed ==> ch <= made)
      ensures answer.FromCache? || answer.CachedError? ==> Fields() == old(Fields())
      ensures answer.FromCache? <==> old(cacheValid) && now - old(cachedToolsAt) < limits.toolsCacheTTL
      ensures answer.FromCache? ==> answer.tools == cachedTools && answer.readAt == now
      ensures answer.CachedError? <==>
                !answer.FromCache? && old(cachedToolsErr).Some? && now - old(cachedToolsErrAt) < limits.toolsErrorCacheTTL
      ensures answer.CachedError? ==> Some(answer.err) == cachedToolsErr && answer.readAt == now
      ensures !answer.FromCache? && !answer.CachedError? ==> Delivers(fetch, answer) && Stored(fetch, completedAt, old(Fields()))
      ensures answer.Fresh? ==> fetch.Success? && answer.tools == fetch.tools == cachedTools
    {
      var decision := Enter(now);
      match decision
      case ServeTools(tools) => answer := FromCache(tools, now);
      case ServeError(err) => answer := CachedError(err, now);
      case Fetch(_) => answer := Leave(fetch, completedAt);
    }
  }
}
