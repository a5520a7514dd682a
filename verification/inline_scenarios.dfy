/** Concrete timelines of one banner slot with a 30 s interval and a 90 s
    budget, worked through the transitions of `InlineAds`. */
module InlineScenarios {
  import opened Wrappers
  import opened Formats
  import opened Effects
  import opened InlineAds

  /** A visible banner slot that wants to show, with the given budget. */
  function BannerSlot(maxRefresh: int): (s: Slot)
    requires maxRefresh > 0
    ensures Valid(s) && s.isAdVisible && s.config.shouldShow
    ensures s.config.adsFormat == Some(Banner)
    ensures s.refreshTime == 30_000 && s.maxRefreshTime == maxRefresh
    ensures s.queue == [] && s.nextToken == 0
    ensures s.totalRefreshTime == 0 && s.lastRefreshTime == 0
  {
    var formatted := SetAdsFormat(Init(), Banner).next;
    OnAttachedToWindow(SetMaxRefreshTime(formatted, maxRefresh), false).next
  }

  /** Loaded at 0, every reload failing: the callbacks at 30 s and 60 s
      release and reload, the one at 90 s finds the budget spent, asks for
      nothing and leaves no refresh pending. */
  lemma FailingReloadsSpendTheBudget()
    ensures var l0 := OnAdLoaded(BannerSlot(90_000), 0, true);
            var f1 := Fire(l0.next, 0, 30_000);
            var e1 := OnAdLoadFailed(f1.next, 30_000);
            var f2 := Fire(e1, 1, 60_000);
            var e2 := OnAdLoadFailed(f2.next, 60_000);
            var f3 := Fire(e2, 2, 90_000);
            && l0.effects == [RequestShow]
            && f1.effects == [ReleaseAd, RequestLoad]
            && f2.effects == [ReleaseAd, RequestLoad]
            && f3.effects == []
            && f3.next.totalRefreshTime == 90_000
            && f3.next.queue == [] && f3.next.runnable.None?
  {
    var s := BannerSlot(90_000);
    var l0 := OnAdLoaded(s, 0, true);
    assert l0.next.queue == [Timer(0, 30_000)];
    assert IsDue(l0.next.queue, 0, 30_000);
    var f1 := Fire(l0.next, 0, 30_000);
    assert f1.next.totalRefreshTime == 30_000 && f1.next.lastRefreshTime == 30_000;
    assert f1.effects == [ReleaseAd, RequestLoad];
    var e1 := OnAdLoadFailed(f1.next, 30_000);
    assert e1.queue == [Timer(1, 60_000)];
    assert IsDue(e1.queue, 1, 60_000);
    var f2 := Fire(e1, 1, 60_000);
    assert f2.next.totalRefreshTime == 60_000 && f2.next.lastRefreshTime == 60_000;
    assert f2.effects == [ReleaseAd, RequestLoad];
    var e2 := OnAdLoadFailed(f2.next, 60_000);
    assert e2.queue == [Timer(2, 90_000)];
    assert IsDue(e2.queue, 2, 90_000);
    var f3 := Fire(e2, 2, 90_000);
    assert f3.next.totalRefreshTime == 90_000;
  }

  /** Loaded at 0, 30 s and 60 s: the callback at 90 s still releases and
      reloads, since each success put the budget back to zero. */
  lemma SucceedingReloadsNeverStop()
    ensures var l0 := OnAdLoaded(BannerSlot(90_000), 0, true);
            var f1 := Fire(l0.next, 0, 30_000);
            var l1 := OnAdLoaded(f1.next, 30_000, true);
            var f2 := Fire(l1.next, 1, 60_000);
            var l2 := OnAdLoaded(f2.next, 60_000, true);
            var f3 := Fire(l2.next, 2, 90_000);
            && f3.effects == [ReleaseAd, RequestLoad]
            && f3.next.totalRefreshTime == 30_000
  {
    var s := BannerSlot(90_000);
    var l0 := OnAdLoaded(s, 0, true);
    assert IsDue(l0.next.queue, 0, 30_000) by { assert l0.next.queue[0] == Timer(0, 30_000); }
    var f1 := Fire(l0.next, 0, 30_000);
    var l1 := OnAdLoaded(f1.next, 30_000, true);
    assert IsDue(l1.next.queue, 1, 60_000) by { assert l1.next.queue[0] == Timer(1, 60_000); }
    var f2 := Fire(l1.next, 1, 60_000);
    var l2 := OnAdLoaded(f2.next, 60_000, true);
    assert IsDue(l2.next.queue, 2, 90_000) by { assert l2.next.queue[0] == Timer(2, 90_000); }
  }

  /** The reference time starts at 0, so a refresh that happens before the
      first successful load charges the whole wall-clock reading: a slot
      resumed at a real epoch time whose first load fails spends its default
      five-minute budget at the first retry and stops refreshing. */
  lemma RetryBeforeFirstLoadSpendsTheBudget()
    ensures var t := 1_700_000_000_000;
            var formatted := SetAdsFormat(Init(), Banner).next;
            var resumed := Resume(formatted, t, false);
            var failed := OnAdLoadFailed(resumed.next, t + 1_000);
            var retry := Fire(failed, 1, t + 31_000);
            && resumed.effects == [RequestLoad, ResumeAd]
            && retry.effects == []
            && retry.next.totalRefreshTime >= retry.next.maxRefreshTime
            && retry.next.queue == []
  {
    var t := 1_700_000_000_000;
    var formatted := SetAdsFormat(Init(), Banner).next;
    var resumed := Resume(formatted, t, false);
    var failed := OnAdLoadFailed(resumed.next, t + 1_000);
    assert failed.queue == [Timer(1, t + 31_000)];
    assert IsDue(failed.queue, 1, t + 31_000);
  }

  /** Success alone does not keep a slot refreshing: with an interval longer
      than the budget, the first callback after a successful load already
      finds the budget spent, asks for nothing and leaves nothing pending. */
  lemma LongIntervalStopsDespiteSuccess()
    ensures var s := SetRefreshTime(BannerSlot(300_000), 400_000, 0, false);
            var l0 := OnAdLoaded(s, 0, true);
            var f1 := Fire(l0.next, 0, 400_000);
            && l0.effects == [RequestShow]
            && f1.effects == [] && f1.next.queue == [] && f1.next.runnable.None?
  {
    var s := SetRefreshTime(BannerSlot(300_000), 400_000, 0, false);
    var l0 := OnAdLoaded(s, 0, true);
    assert l0.next.queue == [Timer(0, 400_000)];
    assert IsDue(l0.next.queue, 0, 400_000);
  }
}
