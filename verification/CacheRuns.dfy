/** What the protocol of the tools cache guarantees over every run. */
module CacheRuns {
  import opened Options
  import opened ToolsCache

  // ----- Every reachable state

  ghost predicate Reachable(l: Limits, s: State) {
    exists clock, run :: Legal(l, Initial(clock), run) && s == Exec(l, Initial(clock), run)
  }

  lemma ReachableInv(l: Limits, s: State)
    requires Reachable(l, s)
    ensures Inv(l, s)
  {
    var clock, run :| Legal(l, Initial(clock), run) && s == Exec(l, Initial(clock), run);
    InitialInv(l, clock);
    RunKeepsInv(l, Initial(clock), run);
  }

  lemma {:induction false} SpacedSpan(gap: int, e: seq<Completion>, i: nat, j: nat)
    requires Spaced(gap, e) && i <= j < |e|
    ensures e[j].at - e[i].at >= (j - i) * gap
    decreases j - i
  {
    if i < j {
      SpacedSpan(gap, e, i, j - 1);
      assert e[j].at - e[j - 1].at >= gap;
      assert (j - i) * gap == (j - 1 - i) * gap + gap;
    }
  }

  /** However the callers interleave, and wherever one starts to count, n fetches
      that were not cancelled span at least n - 1 cache lifetimes; cancelled fetches
      in between reset nothing. */
  lemma FetchRateBounded(l: Limits, s: State, i: nat, j: nat)
    requires Reachable(l, s) && i <= j < |Effective(s.log)|
    ensures Effective(s.log)[j].at - Effective(s.log)[i].at >= (j - i) * l.Gap()
  {
    ReachableInv(l, s);
    SpacedSpan(l.Gap(), Effective(s.log), i, j);
  }

  /** One fetch at a time, and `close` never panics. */
  lemma OneFetchAndNoDoubleClose(l: Limits, s: State)
    requires Reachable(l, s)
    ensures forall f, g :: f in s.callers && g in s.callers && s.callers[f].Owner() && s.callers[g].Owner() ==> f == g
    ensures s.cache.fetchInFlight <==> exists f :: f in s.callers && s.callers[f].Owner()
    ensures !s.cache.panicked
  {
    ReachableInv(l, s);
  }

  /** No wake-up is lost: a waiting caller's channel is closed already, or is the
      one the fetch in progress will close. */
  lemma NoLostWakeUp(l: Limits, s: State, w: nat)
    requires Reachable(l, s) && w in s.callers && s.callers[w].Waiting?
    ensures s.callers[w].done in s.cache.closed ||
            exists f :: f in s.callers && s.callers[f].Owner() && s.callers[f].done == s.callers[w].done
  {
    ReachableInv(l, s);
  }

  /** What the caller that takes the lock in `s` gets, in terms of the fetches
      that ended before: the latest list while it is young at the caller's own
      clock reading, else the latest error while that is young, and a new fetch
      only when neither is and nobody else is fetching. */
  lemma LookupAnswers(l: Limits, s: State, c: nat)
    requires Reachable(l, s) && Enabled(s, Lock(c))
    ensures var now := s.callers[c].now;
            var p := Apply(l, s, Lock(c)).callers[c];
            var success := LatestSuccess(s.log);
            var latest := LatestEffective(s.log);
            var young := success.Some? && now - success.value.at < l.toolsCacheTTL;
            var failing := latest.Some? && latest.value.outcome.Failure? && now - latest.value.at < l.toolsErrorCacheTTL;
            var busy := exists f :: f in s.callers && s.callers[f].Owner();
            && (young <==> p.Returned? && p.answer.FromCache?)
            && (young ==> p == Returned(FromCache(success.value.outcome.tools, now)))
            && (!young && failing ==> p == Returned(CachedError(latest.value.outcome.err, now)))
            && (p.Returned? <==> young || failing)
            && (p.Waiting? <==> !young && !failing && busy)
            && (p.Fetching? <==> !young && !failing && !busy)
  {
    ReachableInv(l, s);
  }

  /** When a list and an error are both held, the error came at least a list
      lifetime after the list, and no list came after the error. */
  lemma ErrorOutlivesList(l: Limits, s: State)
    requires Reachable(l, s) && s.cache.cacheValid && s.cache.cachedToolsErr.Some?
    ensures s.cache.cachedToolsErrAt - s.cache.cachedToolsAt >= l.toolsCacheTTL
    ensures LatestEffective(s.log) == Some(Completion(Failure(s.cache.cachedToolsErr.value), s.cache.cachedToolsErrAt))
    ensures LatestSuccess(s.log) == Some(Completion(Success(s.cache.cachedTools), s.cache.cachedToolsAt))
  {
    ReachableInv(l, s);
  }

  /** A caller that fetched gets what its own fetch brought: the list, which is then
      the cached one and the latest success, or its own error. */
  lemma FetcherGetsItsFetch(l: Limits, s: State, c: nat)
    requires Reachable(l, s) && Enabled(s, Finish(c))
    ensures var s' := Apply(l, s, Finish(c));
            match s.callers[c].outcome
            case Success(tools) =>
              && s'.callers[c] == Returned(Fresh(tools)) && s'.cache.cacheValid && s'.cache.cachedTools == tools
              && LatestSuccess(s'.log) == Some(Completion(Success(tools), s.callers[c].completedAt))
            case Failure(err) =>
              && s'.callers[c] == Returned(FetchFailed(err)) && s'.cache.cachedToolsErr == Some(err)
              && LatestEffective(s'.log) == Some(Completion(Failure(err), s.callers[c].completedAt))
            case Cancelled(err) => s'.callers[c] == Returned(FetchFailed(err))
  {
    ReachableInv(l, s);
    LogGrows(s.log, Completion(s.callers[c].outcome, s.callers[c].completedAt));
  }

  /** Instants are readings of the clock at the step itself: a caller's own before the
      lock, and the end of its fetch, which is what the history records. */
  lemma InstantsAreReadings(l: Limits, s: State, c: nat, outcome: Outcome)
    ensures Enabled(s, ReadClock(c)) ==> Apply(l, s, ReadClock(c)).callers[c] == Timed(s.clock)
    ensures Enabled(s, EndFetch(c, outcome)) ==>
              var p := Apply(l, s, EndFetch(c, outcome)).callers[c];
              p.Fetched? && p.outcome == outcome && p.completedAt == s.clock && p.readAt == s.callers[c].readAt
    ensures Enabled(s, Finish(c)) ==>
              Apply(l, s, Finish(c)).log == s.log + [Completion(s.callers[c].outcome, s.callers[c].completedAt)]
  {
  }

  /** A cancelled fetch leaves both caches, and the bound on later fetches, as
      they were; it only frees the flag and wakes the callers waiting for it. */
  lemma CancelledFetchLeavesNoTrace(l: Limits, s: State, c: nat)
    requires Reachable(l, s) && Enabled(s, Finish(c)) && s.callers[c].outcome.Cancelled?
    ensures var s' := Apply(l, s, Finish(c));
            && s'.cache == s.cache.(fetchInFlight := false, closed := s.cache.closed + {s.cache.fetchDone})
            && Effective(s'.log) == Effective(s.log)
            && (forall w :: w in s.callers && s.callers[w].Waiting? ==> Enabled(s', Wake(w)))
  {
    ReachableInv(l, s);
    assert s.callers[c].Owner();
    LogGrows(s.log, Completion(s.callers[c].outcome, s.callers[c].completedAt));
  }

  // ----- Every call can return

  ghost predicate SomeoneElse(s: State, c: nat, ended: bool) {
    exists f :: f in s.callers && f != c && (if ended then s.callers[f].Fetched? else s.callers[f].Fetching?)
  }

  /** How many steps the schedule of `CallCanReturn` still needs, at most. */
  ghost function Remaining(s: State, c: nat): nat
    requires c in s.callers
  {
    (match s.callers[c]
     case Returned(_) => 0
     case Fetched(_, _, _, _) => 1
     case Fetching(_, _) => 2
     case Timed(_) => 3
     case Looping => 4
     case Waiting(_) => 5)
    + (if SomeoneElse(s, c, true) then 10 else 0)
    + (if SomeoneElse(s, c, false) then 20 else 0)
  }

  /** The step that brings the call `c` closer to its return: first the fetch of
      another caller ends, then `c` goes on by itself. */
  lemma NextStep(l: Limits, s: State, c: nat) returns (a: Action)
    requires Inv(l, s) && c in s.callers && !s.callers[c].Returned?
    ensures Enabled(s, a) && !a.GiveUp?
    ensures c in Apply(l, s, a).callers
    ensures Remaining(Apply(l, s, a), c) < Remaining(s, c)
  {
    if SomeoneElse(s, c, true) {
      var f :| f in s.callers && f != c && s.callers[f].Fetched?;
      assert s.callers[f].Owner();
      a := Finish(f);
    } else if SomeoneElse(s, c, false) {
      var f :| f in s.callers && f != c && s.callers[f].Fetching?;
      assert s.callers[f].Owner();
      a := EndFetch(f, Cancelled(""));
    } else {
      match s.callers[c]
      case Looping => a := ReadClock(c);
      case Timed(_) => a := Lock(c);
      case Waiting(done) =>
        a := Wake(c);
      case Fetching(_, _) => a := EndFetch(c, Cancelled(""));
      case Fetched(_, _, _, _) => a := Finish(c);
    }
  }

  /** No reachable state is a deadlock: every call still open can return without
      any caller giving up. */
  lemma {:induction false} CallCanReturn(l: Limits, s: State, c: nat) returns (run: seq<Action>)
    requires Inv(l, s) && c in s.callers
    ensures Legal(l, s, run) && c in Exec(l, s, run).callers && Exec(l, s, run).callers[c].Returned?
    ensures forall i :: 0 <= i < |run| ==> !run[i].GiveUp?
    decreases Remaining(s, c)
  {
    if s.callers[c].Returned? {
      run := [];
    } else {
      var a := NextStep(l, s, c);
      StepKeepsInv(l, s, a);
      var rest := CallCanReturn(l, Apply(l, s, a), c);
      run := [a] + rest;
      assert run[1..] == rest;
    }
  }
}
