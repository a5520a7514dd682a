/** A single inline slot (banner or native shown among other content):
    the show/load gating of `OzAds`, visibility driven by the host view,
    and automatic refresh bounded by an interval and a cumulative budget.

    The clock is the parameter `now`, and `loaded` is the answer the
    concrete slot gives to `isAdLoaded()` at the time of the call. The
    main-thread Handler is a queue of pending timers, each tagged with the
    token of the runnable that posted it; `runnable` is the slot's
    `refreshRunnable` field. */
module InlineAds {
  import opened Wrappers
  import opened Formats
  import opened Effects
  import OzAds

  const DefaultRefreshTime: int := 30_000
  const DefaultMaxRefreshTime: int := 300_000

  /** A runnable posted to the Handler, due at `due`. */
  datatype Timer = Timer(token: nat, due: int)

  datatype Slot = Slot(
    config: OzAds.Config,
    refreshTime: int,
    maxRefreshTime: int,
    lastRefreshTime: int,
    totalRefreshTime: int,
    isAdVisible: bool,
    runnable: Option<nat>,
    queue: seq<Timer>,
    nextToken: nat)

  /** Inline slots accept exactly BANNER and NATIVE. */
  const Policy: FormatPolicy := FormatPolicy(f => f == Banner || f == Native, [Banner, Native])

  /** The inline list names exactly the formats the inline check accepts. */
  lemma PolicyIsCoherent()
    ensures Coherent(Policy)
  {
  }

  /** What holds from construction onwards: both timing values are positive,
      and the Handler holds at most one of this slot's runnables, the one
      `refreshRunnable` names. */
  predicate Valid(s: Slot) {
    && s.refreshTime > 0
    && s.maxRefreshTime > 0
    && |s.queue| <= 1
    && (|s.queue| == 1 ==> s.runnable == Some(s.queue[0].token))
  }

  /** Everything but the timer bookkeeping is the same in `s` and `r`. */
  predicate SameSettings(s: Slot, r: Slot) {
    && r.config == s.config
    && r.refreshTime == s.refreshTime
    && r.maxRefreshTime == s.maxRefreshTime
    && r.lastRefreshTime == s.lastRefreshTime
    && r.totalRefreshTime == s.totalRefreshTime
    && r.isAdVisible == s.isAdVisible
  }

  function Init(): (s: Slot)
    ensures Valid(s)
    ensures s.refreshTime == DefaultRefreshTime && s.maxRefreshTime == DefaultMaxRefreshTime
    ensures s.totalRefreshTime == 0 && s.lastRefreshTime == 0
    ensures !s.isAdVisible && s.queue == [] && s.runnable.None?
    ensures s.config == OzAds.Init()
  {
    Slot(OzAds.Init(), DefaultRefreshTime, DefaultMaxRefreshTime, 0, 0, false, None, [], 0)
  }

  /** The Handler queue without the entries posted by runnable `t`. */
  function Without(q: seq<Timer>, t: nat): (r: seq<Timer>)
    ensures |r| <= |q|
    ensures forall x :: x in r <==> x in q && x.token != t
  {
    if q == [] then []
    else (if q[0].token == t then [] else [q[0]]) + Without(q[1..], t)
  }

  /** The Handler runs runnable `token` at `now` only if it is still queued
      and its delay has passed. */
  predicate IsDue(q: seq<Timer>, token: nat, now: int) {
    exists i | 0 <= i < |q| :: q[i].token == token && q[i].due <= now
  }

  /** `cancelAutoRefresh`: removes the current runnable from the Handler and
      forgets it. */
  function Cancel(s: Slot): (r: Slot)
    ensures SameSettings(s, r) && r.nextToken == s.nextToken
    ensures r.runnable.None?
    ensures forall x :: x in r.queue <==> x in s.queue && Some(x.token) != s.runnable
    ensures Valid(s) ==> Valid(r) && r.queue == []
  {
    match s.runnable
    case None => s
    case Some(t) => s.(runnable := None, queue := Without(s.queue, t))
  }

  /** `scheduleNextRefresh`: cancels the previous runnable, then posts a
      fresh one `refreshTime` from now. */
  function Schedule(s: Slot, now: int): (r: Slot)
    ensures SameSettings(s, r) && r.nextToken == s.nextToken + 1
    ensures r.runnable == Some(s.nextToken)
    ensures Timer(s.nextToken, now + s.refreshTime) in r.queue
    ensures Valid(s) ==> Valid(r) && r.queue == [Timer(s.nextToken, now + s.refreshTime)]
  {
    var c := Cancel(s);
    c.(runnable := Some(c.nextToken),
       queue := c.queue + [Timer(c.nextToken, now + c.refreshTime)],
       nextToken := c.nextToken + 1)
  }

  /** `setAdsFormat`: only BANNER and NATIVE are stored; any other format is
      refused and the slot keeps the format it had. */
  function SetAdsFormat(s: Slot, f: AdsFormat): (r: Attempt<Slot>)
    ensures r.error.None? <==> f == Banner || f == Native
    ensures r.error.None? ==> r.next == s.(config := s.config.(adsFormat := Some(f)))
    ensures r.error.Some? ==> r.next == s && r.error.value == InvalidFormat(f, [Banner, Native])
  {
    var a := OzAds.SetAdsFormat(s.config, f, Policy);
    Attempt(s.(config := a.next), a.error)
  }

  /** An inline slot should show only while it wants to and is visible. */
  predicate ShouldShowAd(s: Slot) {
    s.config.shouldShow && s.isAdVisible
  }

  /** `showAds`: reaches `onShowAds` only when the slot wants to show, is
      visible and its ad is loaded. */
  function ShowAds(s: Slot, loaded: bool): (e: seq<Effect>)
    ensures e == [] || e == [RequestShow]
    ensures RequestShow in e <==> s.config.shouldShow && s.isAdVisible && loaded
  {
    if !ShouldShowAd(s) then []
    else if !loaded then []
    else [RequestShow]
  }

  /** `loadAd`: a no-op until a format is set. */
  function LoadAd(s: Slot): (e: seq<Effect>)
    ensures e == [] || e == [RequestLoad]
    ensures RequestLoad in e <==> s.config.adsFormat.Some?
  {
    OzAds.LoadAd(s.config)
  }

  /** `setShouldShowAd`: off hides; on shows a loaded ad, which for an inline
      slot also needs it to be visible. */
  function SetShouldShowAd(s: Slot, flag: bool, loaded: bool): (r: Step<Slot>)
    ensures r.next == s.(config := s.config.(shouldShow := flag))
    ensures !flag ==> r.effects == [RequestHide]
    ensures flag ==> (r.effects == [] || r.effects == [RequestShow])
    ensures flag ==> (RequestShow in r.effects <==> s.isAdVisible && loaded)
  {
    var s' := s.(config := s.config.(shouldShow := flag));
    if !flag then Step(s', [RequestHide])
    else if loaded then Step(s', ShowAds(s', loaded))
    else Step(s', [])
  }

  function SetPreloadKey(s: Slot, key: string): (r: Slot)
    ensures r.config.preloadKey == Some(key)
    ensures r == s.(config := r.config)
    ensures r.config.adsFormat == s.config.adsFormat && r.config.shouldShow == s.config.shouldShow
  {
    s.(config := OzAds.SetPreloadKey(s.config, key))
  }

  /** `restartAutoRefresh`: reschedules only a loaded, visible slot. Unlike
      the other scheduling sites it does not consult the budget. */
  function RestartAutoRefresh(s: Slot, now: int, loaded: bool): (r: Slot)
    ensures SameSettings(s, r)
    ensures Valid(s) ==> Valid(r)
    ensures !(loaded && s.isAdVisible) ==> r == s
    ensures loaded && s.isAdVisible ==>
              r.runnable == Some(s.nextToken) && Timer(s.nextToken, now + s.refreshTime) in r.queue
  {
    if loaded && s.isAdVisible then Schedule(s, now) else s
  }

  /** `setRefreshTime`: a non-positive interval is refused and changes
      nothing; a positive one is stored and, for a loaded visible slot,
      replaces the pending runnable with one using the new interval. */
  function SetRefreshTime(s: Slot, millis: int, now: int, loaded: bool): (r: Slot)
    ensures millis <= 0 ==> r == s
    ensures millis > 0 ==> r.refreshTime == millis
    ensures r.config == s.config && r.isAdVisible == s.isAdVisible && r.maxRefreshTime == s.maxRefreshTime
    ensures millis > 0 && !(loaded && s.isAdVisible) ==> r == s.(refreshTime := millis)
    ensures millis > 0 && loaded && s.isAdVisible && Valid(s) ==>
              r.queue == [Timer(s.nextToken, now + millis)] && r.runnable == Some(s.nextToken)
    ensures r.totalRefreshTime == s.totalRefreshTime && r.lastRefreshTime == s.lastRefreshTime
    ensures Valid(s) ==> Valid(r)
  {
    if millis <= 0 then s
    else RestartAutoRefresh(s.(refreshTime := millis), now, loaded)
  }

  /** `setMaxRefreshTime`: a non-positive budget is refused and changes
      nothing; a positive one replaces the budget and touches nothing else. */
  function SetMaxRefreshTime(s: Slot, millis: int): (r: Slot)
    ensures millis <= 0 ==> r == s
    ensures millis > 0 ==> r.maxRefreshTime == millis && r == s.(maxRefreshTime := millis)
    ensures Valid(s) ==> Valid(r)
  {
    if millis <= 0 then s else s.(maxRefreshTime := millis)
  }

  /** `destroy`: cancels the refresh, marks the slot not visible and
      releases the ad. */
  function Destroy(s: Slot): (r: Step<Slot>)
    ensures r.effects == [ReleaseAd]
    ensures !r.next.isAdVisible && r.next.runnable.None?
    ensures Valid(s) ==> Valid(r.next) && r.next.queue == []
    ensures r.next.totalRefreshTime == s.totalRefreshTime && r.next.lastRefreshTime == s.lastRefreshTime
    ensures r.next.config == s.config
    ensures r.next.refreshTime == s.refreshTime && r.next.maxRefreshTime == s.maxRefreshTime
  {
    Step(Cancel(s).(isAdVisible := false), [ReleaseAd])
  }

  /** `onAdLoaded`: restarts the budget from `now`, shows the fresh ad if the
      slot should show, and schedules the next refresh. */
  function OnAdLoaded(s: Slot, now: int, loaded: bool): (r: Step<Slot>)
    ensures r.next.totalRefreshTime == 0 && r.next.lastRefreshTime == now
    ensures r.next.config == s.config && r.next.isAdVisible == s.isAdVisible
    ensures r.next.refreshTime == s.refreshTime && r.next.maxRefreshTime == s.maxRefreshTime
    ensures r.effects == [] || r.effects == [RequestShow]
    ensures RequestShow in r.effects <==> ShouldShowAd(s) && loaded
    ensures s.maxRefreshTime > 0 ==> r.next.runnable == Some(s.nextToken)
    ensures Valid(s) ==> Valid(r.next) && r.next.queue == [Timer(s.nextToken, now + s.refreshTime)]
  {
    var s1 := s.(lastRefreshTime := now, totalRefreshTime := 0);
    var shown := if ShouldShowAd(s1) && s1.isAdVisible then ShowAds(s1, loaded) else [];
    var s2 := if s1.totalRefreshTime < s1.maxRefreshTime then Schedule(s1, now) else s1;
    Step(s2, shown)
  }

  /** `onAdLoadFailed`: retries after the same interval while budget remains;
      the budget itself is left alone. */
  function OnAdLoadFailed(s: Slot, now: int): (r: Slot)
    ensures SameSettings(s, r)
    ensures s.totalRefreshTime >= s.maxRefreshTime ==> r == s
    ensures s.totalRefreshTime < s.maxRefreshTime ==> r.runnable == Some(s.nextToken)
    ensures Valid(s) && s.totalRefreshTime < s.maxRefreshTime ==>
              r.queue == [Timer(s.nextToken, now + s.refreshTime)]
    ensures Valid(s) ==> Valid(r)
  {
    if s.totalRefreshTime < s.maxRefreshTime then Schedule(s, now) else s
  }

  /** `refreshAd`: charges the time since the last refresh (or load) to the
      budget. Once the budget is spent it cancels the refresh and neither
      releases nor reloads; otherwise it releases the ad and loads again. */
  function RefreshAd(s: Slot, now: int): (r: Step<Slot>)
    ensures r.next.totalRefreshTime == s.totalRefreshTime + (now - s.lastRefreshTime)
    ensures r.next.lastRefreshTime == now
    ensures r.next.config == s.config && r.next.isAdVisible == s.isAdVisible
    ensures r.next.refreshTime == s.refreshTime && r.next.maxRefreshTime == s.maxRefreshTime
    ensures r.next.totalRefreshTime >= s.maxRefreshTime ==>
              r.effects == [] && r.next.runnable.None?
    ensures r.next.totalRefreshTime < s.maxRefreshTime ==>
              r.effects == [ReleaseAd] + LoadAd(s) && r.next.queue == s.queue && r.next.runnable == s.runnable
    ensures Valid(s) ==> Valid(r.next)
    ensures Valid(s) && r.next.totalRefreshTime >= s.maxRefreshTime ==> r.next.queue == []
  {
    var s1 := s.(totalRefreshTime := s.totalRefreshTime + (now - s.lastRefreshTime),
                 lastRefreshTime := now);
    if s1.totalRefreshTime >= s1.maxRefreshTime then Step(Cancel(s1), [])
    else Step(s1, [ReleaseAd] + LoadAd(s1))
  }

  /** The Handler running runnable `token` at `now`. A runnable that was
      cancelled, has already run or is not yet due does nothing. A due one
      leaves the queue and refreshes only while budget remains and the slot
      is visible. */
  function Fire(s: Slot, token: nat, now: int): (r: Step<Slot>)
    ensures !IsDue(s.queue, token, now) ==> r == Step(s, [])
    ensures r.effects != [] ==>
              IsDue(s.queue, token, now) && s.isAdVisible && s.totalRefreshTime < s.maxRefreshTime
    ensures s.totalRefreshTime >= s.maxRefreshTime ==>
              r.effects == [] && r.next.totalRefreshTime == s.totalRefreshTime
    ensures IsDue(s.queue, token, now) && s.isAdVisible && s.totalRefreshTime < s.maxRefreshTime ==>
              && r.next.totalRefreshTime == s.totalRefreshTime + (now - s.lastRefreshTime)
              && r.next.lastRefreshTime == now
              && (r.next.totalRefreshTime < s.maxRefreshTime ==> r.effects == [ReleaseAd] + LoadAd(s))
    ensures IsDue(s.queue, token, now) && !(s.isAdVisible && s.totalRefreshTime < s.maxRefreshTime) ==>
              r == Step(s.(queue := Without(s.queue, token)), [])
    ensures IsDue(s.queue, token, now) && s.isAdVisible && s.totalRefreshTime < s.maxRefreshTime
              && r.next.totalRefreshTime >= s.maxRefreshTime ==>
              r.effects == [] && r.next.runnable.None?
    ensures IsDue(s.queue, token, now) ==> forall x :: x in r.next.queue ==> x.token != token
    ensures r.next.config == s.config && r.next.isAdVisible == s.isAdVisible
    ensures r.next.refreshTime == s.refreshTime && r.next.maxRefreshTime == s.maxRefreshTime
    ensures Valid(s) ==> Valid(r.next)
  {
    if !IsDue(s.queue, token, now) then Step(s, [])
    else
      var s1 := s.(queue := Without(s.queue, token));
      if s1.totalRefreshTime < s1.maxRefreshTime && s1.isAdVisible then RefreshAd(s1, now)
      else Step(s1, [])
  }

  /** The common tail of `resume` and of becoming visible, for a slot that
      should show: show a loaded ad or load one, then schedule a refresh if
      budget remains. */
  function ShowOrLoadAndSchedule(s: Slot, now: int, loaded: bool): (r: Step<Slot>)
    requires ShouldShowAd(s)
    ensures SameSettings(s, r.next)
    ensures r.effects == (if loaded then [RequestShow] else LoadAd(s))
    ensures s.totalRefreshTime >= s.maxRefreshTime ==> r.next == s
    ensures s.totalRefreshTime < s.maxRefreshTime ==> r.next.runnable == Some(s.nextToken)
    ensures Valid(s) && s.totalRefreshTime < s.maxRefreshTime ==>
              r.next.queue == [Timer(s.nextToken, now + s.refreshTime)]
    ensures Valid(s) ==> Valid(r.next)
  {
    var e := if loaded then ShowAds(s, loaded) else LoadAd(s);
    var s' := if s.totalRefreshTime < s.maxRefreshTime then Schedule(s, now) else s;
    Step(s', e)
  }

  /** `pause`: not visible, refresh cancelled, the concrete ad paused; the
      budget and its reference time are untouched. */
  function Pause(s: Slot): (r: Step<Slot>)
    ensures r.effects == [PauseAd]
    ensures !r.next.isAdVisible && r.next.runnable.None?
    ensures r.next.totalRefreshTime == s.totalRefreshTime && r.next.lastRefreshTime == s.lastRefreshTime
    ensures r.next.config == s.config
    ensures r.next.refreshTime == s.refreshTime && r.next.maxRefreshTime == s.maxRefreshTime
    ensures Valid(s) ==> Valid(r.next) && r.next.queue == []
  {
    Step(Cancel(s.(isAdVisible := false)), [PauseAd])
  }

  /** `resume`: visible again; a slot that should show shows or loads and
      reschedules while budget remains; the concrete ad is resumed last.
      The budget and its reference time are untouched. */
  function Resume(s: Slot, now: int, loaded: bool): (r: Step<Slot>)
    ensures r.next.isAdVisible
    ensures r.next.totalRefreshTime == s.totalRefreshTime && r.next.lastRefreshTime == s.lastRefreshTime
    ensures r.next.config == s.config
    ensures r.next.refreshTime == s.refreshTime && r.next.maxRefreshTime == s.maxRefreshTime
    ensures r.effects == (if s.config.shouldShow then (if loaded then [RequestShow] else LoadAd(s)) else []) + [ResumeAd]
    ensures RequestShow in r.effects <==> s.config.shouldShow && loaded
    ensures RequestLoad in r.effects <==> s.config.shouldShow && !loaded && s.config.adsFormat.Some?
    ensures s.config.shouldShow && s.totalRefreshTime < s.maxRefreshTime ==>
              r.next.runnable == Some(s.nextToken)
    ensures Valid(s) && s.config.shouldShow && s.totalRefreshTime < s.maxRefreshTime ==>
              r.next.queue == [Timer(s.nextToken, now + s.refreshTime)]
    ensures !(s.config.shouldShow && s.totalRefreshTime < s.maxRefreshTime) ==>
              r.next.queue == s.queue && r.next.runnable == s.runnable
    ensures Valid(s) ==> Valid(r.next)
  {
    var s1 := s.(isAdVisible := true);
    if ShouldShowAd(s1) then
      var a := ShowOrLoadAndSchedule(s1, now, loaded);
      Step(a.next, a.effects + [ResumeAd])
    else Step(s1, [ResumeAd])
  }

  /** `onAttachedToWindow`: visible, and an unloaded slot that should show
      starts loading. No refresh is scheduled here. */
  function OnAttachedToWindow(s: Slot, loaded: bool): (r: Step<Slot>)
    ensures r.next == s.(isAdVisible := true)
    ensures r.effects == [] || r.effects == [RequestLoad]
    ensures RequestLoad in r.effects <==> s.config.shouldShow && !loaded && s.config.adsFormat.Some?
  {
    var s1 := s.(isAdVisible := true);
    if ShouldShowAd(s1) && !loaded then Step(s1, LoadAd(s1)) else Step(s1, [])
  }

  /** `onDetachedFromWindow` is `pause`. */
  function OnDetachedFromWindow(s: Slot): (r: Step<Slot>)
    ensures r == Pause(s)
    ensures !r.next.isAdVisible && r.next.runnable.None?
  {
    Pause(s)
  }

  /** `onVisibilityChanged`: becoming visible with the flag on behaves like
      the body of `resume`; anything else cancels the refresh. */
  function OnVisibilityChanged(s: Slot, visible: bool, now: int, loaded: bool): (r: Step<Slot>)
    ensures r.next.isAdVisible == visible
    ensures r.next.totalRefreshTime == s.totalRefreshTime && r.next.lastRefreshTime == s.lastRefreshTime
    ensures r.next.config == s.config
    ensures r.next.refreshTime == s.refreshTime && r.next.maxRefreshTime == s.maxRefreshTime
    ensures !(visible && s.config.shouldShow) ==> r.effects == [] && r.next.runnable.None?
    ensures visible && s.config.shouldShow ==>
              r.effects == (if loaded then [RequestShow] else LoadAd(s))
    ensures visible && s.config.shouldShow && s.totalRefreshTime < s.maxRefreshTime ==>
              r.next.runnable == Some(s.nextToken)
    ensures Valid(s) && visible && s.config.shouldShow && s.totalRefreshTime < s.maxRefreshTime ==>
              r.next.queue == [Timer(s.nextToken, now + s.refreshTime)]
    ensures visible && s.config.shouldShow && s.totalRefreshTime >= s.maxRefreshTime ==>
              r.next.queue == s.queue && r.next.runnable == s.runnable
    ensures Valid(s) ==> Valid(r.next)
    ensures Valid(s) && !(visible && s.config.shouldShow) ==> r.next.queue == []
  {
    var s1 := s.(isAdVisible := visible);
    if visible && ShouldShowAd(s1) then
      var a := ShowOrLoadAndSchedule(s1, now, loaded);
      assert LoadAd(s1) == LoadAd(s) && s1.nextToken == s.nextToken;
      assert Valid(s) ==> Valid(s1);
      a
    else
      var c := Cancel(s1);
      assert Valid(s) ==> Valid(s1);
      Step(c, [])
  }

  /** An inline slot adds visibility to the generic answer: it should show
      exactly when the generic flag is on and the slot is visible, so pausing
      silences it, a visibility change sets it to the flag and the new
      visibility, and setting the flag answers the flag on a visible slot. */
  lemma ShouldShowAdNeedsVisibility(s: Slot, flag: bool, visible: bool, now: int, loaded: bool)
    ensures ShouldShowAd(s) <==> OzAds.ShouldShowAd(s.config) && s.isAdVisible
    ensures !ShouldShowAd(Pause(s).next)
    ensures ShouldShowAd(OnVisibilityChanged(s, visible, now, loaded).next) <==>
              visible && OzAds.ShouldShowAd(s.config)
    ensures ShouldShowAd(SetShouldShowAd(s, flag, loaded).next) <==> flag && s.isAdVisible
    ensures ShowAds(s, loaded) == [RequestShow] <==> ShouldShowAd(s) && loaded
  {
  }
}
