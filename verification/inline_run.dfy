/** Runs of an inline slot: every event the slot reacts to, applied in
    order, and what stays true across such runs. */
module InlineRun {
  import opened Wrappers
  import opened Formats
  import opened Effects
  import opened InlineAds

  datatype Event =
    | SetFormat(format: AdsFormat)
    | SetShouldShow(flag: bool)
    | SetPreload(key: string)
    | Load
    | Show
    | SetRefresh(millis: int)
    | SetMaxRefresh(millis: int)
    | Release
    | Loaded
    | LoadFailed
    | Tick(token: nat)
    | Refresh
    | Suspend
    | Wake
    | Attach
    | Detach
    | Visibility(visible: bool)

  /** An event as it happens: the clock reading and what `isAdLoaded()`
      answers at that moment. */
  datatype Stamped = Stamped(event: Event, now: int, loaded: bool)

  function Apply(s: Slot, e: Stamped): Step<Slot> {
    match e.event
    case SetFormat(f) => Step(SetAdsFormat(s, f).next, [])
    case SetShouldShow(flag) => SetShouldShowAd(s, flag, e.loaded)
    case SetPreload(k) => Step(SetPreloadKey(s, k), [])
    case Load => Step(s, LoadAd(s))
    case Show => Step(s, ShowAds(s, e.loaded))
    case SetRefresh(t) => Step(SetRefreshTime(s, t, e.now, e.loaded), [])
    case SetMaxRefresh(t) => Step(SetMaxRefreshTime(s, t), [])
    case Release => Destroy(s)
    case Loaded => OnAdLoaded(s, e.now, e.loaded)
    case LoadFailed => Step(OnAdLoadFailed(s, e.now), [])
    case Tick(token) => Fire(s, token, e.now)
    case Refresh => RefreshAd(s, e.now)
    case Suspend => Pause(s)
    case Wake => Resume(s, e.now, e.loaded)
    case Attach => OnAttachedToWindow(s, e.loaded)
    case Detach => OnDetachedFromWindow(s)
    case Visibility(v) => OnVisibilityChanged(s, v, e.now, e.loaded)
  }

  function Run(s: Slot, trace: seq<Stamped>): Slot
    decreases |trace|
  {
    if trace == [] then s else Run(Apply(s, trace[0]).next, trace[1..])
  }

  /** The effects asked for by Handler callbacks alone: automatic refresh. */
  function TimerEffects(s: Slot, trace: seq<Stamped>): seq<Effect>
    decreases |trace|
  {
    if trace == [] then []
    else
      (if trace[0].event.Tick? then Apply(s, trace[0]).effects else [])
      + TimerEffects(Apply(s, trace[0]).next, trace[1..])
  }

  /** The wall clock never goes backwards from `t` during the run. */
  predicate ClockFrom(t: int, trace: seq<Stamped>)
    decreases |trace|
  {
    trace == [] || (t <= trace[0].now && ClockFrom(trace[0].now, trace[1..]))
  }

  /** No successful load happens during the run. */
  predicate NoLoadSuccess(trace: seq<Stamped>) {
    forall i | 0 <= i < |trace| :: !trace[i].event.Loaded?
  }

  /** Nobody reconfigures the budget during the run. */
  predicate NoBudgetChange(trace: seq<Stamped>) {
    forall i | 0 <= i < |trace| :: !trace[i].event.SetMaxRefresh?
  }

  predicate Exhausted(s: Slot) {
    s.totalRefreshTime >= s.maxRefreshTime
  }

  /** Every transition keeps the slot valid: positive timings, and at most
      one runnable pending, the one the slot last posted. */
  lemma ApplyKeepsValid(s: Slot, e: Stamped)
    requires Valid(s)
    ensures Valid(Apply(s, e).next)
  {
  }

  lemma {:induction false} RunKeepsValid(s: Slot, trace: seq<Stamped>)
    requires Valid(s)
    ensures Valid(Run(s, trace))
    decreases |trace|
  {
    if trace != [] {
      ApplyKeepsValid(s, trace[0]);
      RunKeepsValid(Apply(s, trace[0]).next, trace[1..]);
    }
  }

  /** Every slot reachable from construction is valid. */
  lemma ReachableIsValid(trace: seq<Stamped>)
    ensures Valid(Run(Init(), trace))
  {
    RunKeepsValid(Init(), trace);
  }

  /** Outside a successful load, no transition lowers the budget or moves
      its reference time backwards, provided the clock does not. */
  lemma ApplyKeepsBudget(s: Slot, e: Stamped)
    requires !e.event.Loaded?
    requires s.lastRefreshTime <= e.now
    ensures Apply(s, e).next.totalRefreshTime >= s.totalRefreshTime
    ensures s.lastRefreshTime <= Apply(s, e).next.lastRefreshTime <= e.now
  {
  }

  /** Across a run with no successful load the budget only grows, whatever
      pauses, resumes, failures and visibility changes happen: paused time
      is charged like any other. */
  lemma {:induction false} BudgetMonotoneWithoutLoad(s: Slot, trace: seq<Stamped>)
    requires NoLoadSuccess(trace)
    requires ClockFrom(s.lastRefreshTime, trace)
    ensures Run(s, trace).totalRefreshTime >= s.totalRefreshTime
    decreases |trace|
  {
    if trace != [] {
      assert !trace[0].event.Loaded?;
      ApplyKeepsBudget(s, trace[0]);
      var s' := Apply(s, trace[0]).next;
      assert ClockFrom(s'.lastRefreshTime, trace[1..]) by {
        ClockWeaken(s'.lastRefreshTime, trace[0].now, trace[1..]);
      }
      assert NoLoadSuccess(trace[1..]) by {
        forall i | 0 <= i < |trace[1..]| ensures !trace[1..][i].event.Loaded? {
          assert trace[1..][i] == trace[i + 1];
        }
      }
      BudgetMonotoneWithoutLoad(s', trace[1..]);
    }
  }

  lemma ClockWeaken(t: int, u: int, trace: seq<Stamped>)
    requires t <= u
    requires ClockFrom(u, trace)
    ensures ClockFrom(t, trace)
  {
  }

  /** A spent budget stays spent under every event except a successful load
      or a new budget, and while it is spent a Handler callback asks for
      nothing. */
  lemma ApplyKeepsExhausted(s: Slot, e: Stamped)
    requires Exhausted(s)
    requires !e.event.Loaded? && !e.event.SetMaxRefresh?
    requires s.lastRefreshTime <= e.now
    ensures Exhausted(Apply(s, e).next)
    ensures e.event.Tick? ==> Apply(s, e).effects == []
    ensures s.lastRefreshTime <= Apply(s, e).next.lastRefreshTime <= e.now
  {
  }

  /** Once the budget is spent, automatic refresh is over for good: until a
      load succeeds or the budget is reconfigured, no Handler callback
      releases, reloads or shows anything, and the budget remains spent. */
  lemma {:induction false} ExhaustionIsTerminal(s: Slot, trace: seq<Stamped>)
    requires Exhausted(s)
    requires NoLoadSuccess(trace) && NoBudgetChange(trace)
    requires ClockFrom(s.lastRefreshTime, trace)
    ensures Exhausted(Run(s, trace))
    ensures TimerEffects(s, trace) == []
    decreases |trace|
  {
    if trace != [] {
      assert !trace[0].event.Loaded? && !trace[0].event.SetMaxRefresh?;
      ApplyKeepsExhausted(s, trace[0]);
      var s' := Apply(s, trace[0]).next;
      ClockWeaken(s'.lastRefreshTime, trace[0].now, trace[1..]);
      assert NoLoadSuccess(trace[1..]) && NoBudgetChange(trace[1..]) by {
        forall i | 0 <= i < |trace[1..]|
          ensures !trace[1..][i].event.Loaded? && !trace[1..][i].event.SetMaxRefresh?
        {
          assert trace[1..][i] == trace[i + 1];
        }
      }
      ExhaustionIsTerminal(s', trace[1..]);
    }
  }

  /** No zombie refresh: after `cancelAutoRefresh` (and so after `pause`,
      `destroy` and a transition to not visible) no earlier runnable can
      fire, whatever its token and however late the Handler gets to it. */
  lemma CancelledRunnablesNeverFire(s: Slot, token: nat, now: int)
    requires Valid(s)
    ensures Fire(Cancel(s), token, now) == Step(Cancel(s), [])
    ensures Fire(Pause(s).next, token, now) == Step(Pause(s).next, [])
    ensures Fire(Destroy(s).next, token, now) == Step(Destroy(s).next, [])
  {
  }

  /** Scheduling replaces: after a second schedule only the newest runnable
      is pending, so the one posted first can no longer fire. */
  lemma RescheduleSupersedes(s: Slot, t1: int, t2: int, now: int)
    requires Valid(s)
    ensures var first := Schedule(s, t1);
            var second := Schedule(first, t2);
            && second.queue == [Timer(s.nextToken + 1, t2 + s.refreshTime)]
            && Fire(second, s.nextToken, now) == Step(second, [])
  {
    var first := Schedule(s, t1);
    var second := Schedule(first, t2);
    assert second.queue == [Timer(s.nextToken + 1, t2 + s.refreshTime)];
    assert !IsDue(second.queue, s.nextToken, now);
  }

  /** Pausing and resuming leave the budget as it was, and the time spent
      paused is charged at the next refresh: the charge runs from the last
      refresh or load, not from the resume. */
  lemma PausedTimeIsCharged(s: Slot, resumeAt: int, refreshAt: int, loaded: bool)
    ensures var back := Resume(Pause(s).next, resumeAt, loaded).next;
            && back.totalRefreshTime == s.totalRefreshTime
            && back.lastRefreshTime == s.lastRefreshTime
            && RefreshAd(back, refreshAt).next.totalRefreshTime
                 == s.totalRefreshTime + (refreshAt - s.lastRefreshTime)
  {
  }

  /** A successful load always leaves exactly one refresh pending, due one
      interval later, because the budget is positive and was just reset. */
  lemma LoadedLeavesRefreshPending(s: Slot, now: int, loaded: bool)
    requires Valid(s)
    ensures var r := OnAdLoaded(s, now, loaded).next;
            r.queue == [Timer(s.nextToken, now + s.refreshTime)] && IsDue(r.queue, s.nextToken, now + s.refreshTime)
  {
    var r := OnAdLoaded(s, now, loaded).next;
    assert r.queue[0].token == s.nextToken;
  }

  /** Successful loads keep a visible slot refreshing for ever: when the next
      load succeeds within the budget of the previous one, the callback it
      scheduled releases and reloads again, because every success resets the
      budget to zero. The budget therefore bounds only a run of refreshes
      with no successful load between them. */
  lemma SuccessfulLoadsKeepRefreshing(s: Slot, loadedAt: int, fireAt: int, loaded: bool)
    requires Valid(s) && s.isAdVisible && s.config.adsFormat.Some?
    requires loadedAt + s.refreshTime <= fireAt < loadedAt + s.maxRefreshTime
    ensures var l := OnAdLoaded(s, loadedAt, loaded).next;
            Fire(l, s.nextToken, fireAt).effects == [ReleaseAd, RequestLoad]
  {
    var l := OnAdLoaded(s, loadedAt, loaded).next;
    assert l.queue[0] == Timer(s.nextToken, loadedAt + s.refreshTime);
    assert IsDue(l.queue, s.nextToken, fireAt);
  }
}
