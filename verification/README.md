# Oz ad slot lifecycle, modelled in Dafny

This project models the slot lifecycle core of the Oz Android ad library:
the logic that decides when an ad slot may load, show, refresh, hide and be
destroyed, with the Android and AdMob plumbing taken out. It covers five parts.

- **Inline refresh budget** (`InlineAds`, `InlineRun`, `InlineScenarios`).
  A banner or native slot has a refresh interval (default 30 s) and a refresh
  budget (default 5 min). It also has the time of the last refresh or load,
  the time charged to the budget so far, a visibility flag, and the Handler
  that runs delayed refresh callbacks. The Handler is a queue of timers. Each
  timer carries the token of the runnable that posted it. `runnable` plays the
  role of the `refreshRunnable` field.
- **Generic show/load gating** (`OzAds`). A format checked by the
  specialisation's `isValidFormat`, a preload key and a should-show flag.
- **Overlay frequency gate** (`AdsOverlayManager`). Interstitial and app-open
  slots show only when at least `timeGap` (default 25 s) has passed since the
  last ad was closed.
- **Exactly-once initializer** (`AdMobManager`). The `getAndSet` claim flag,
  counters for how often the SDK setup ran and how often `onComplete` fired,
  and the lazily created singleton.
- **Per-key ad unit registries** (`OzAdmobBannerAd`, `OzAdmobNativeAd`).
  Maps from placement key to ad unit id, plus the native slot's map from key
  to `NativeAdView`.

Every transition is a pure function. It takes the clock reading `now` as a
parameter, and `loaded` for the answer of the abstract `isAdLoaded()`. It
returns the next state and the list of `Effect`s it asked for: the abstract
hooks `onLoadAd`, `onShowAds`, `hideAds`, `destroyAd`, `onPauseAd` and
`onResumeAd`, the keyed superclass calls, and the ad-network and view calls.

Behaviour modelled as the code has it:

- `onAdLoaded` resets the charged time to 0. A slot that stays visible,
  whose interval is shorter than its budget and whose reloads keep succeeding
  therefore refreshes for ever (`InlineScenarios.SucceedingReloadsNeverStop`,
  `InlineRun.SuccessfulLoadsKeepRefreshing`). With an interval longer than
  the budget, the first callback after a successful load already stops
  auto-refresh (`InlineScenarios.LongIntervalStopsDespiteSuccess`).
  The budget therefore bounds only a run of refreshes with no successful load
  between them (`InlineScenarios.FailingReloadsSpendTheBudget`).
- `pause` and `resume` never touch `lastRefreshTime`. Time spent paused is
  therefore charged at the next refresh (`InlineRun.PausedTimeIsCharged`).
- `lastRefreshTime` starts at 0 and `now` is a wall-clock epoch time. A
  refresh before the first successful load therefore charges the whole epoch
  reading and ends auto-refresh at the first retry
  (`InlineScenarios.RetryBeforeFirstLoadSpendsTheBudget`).
- `setRefreshTime` reschedules a loaded, visible slot without checking the
  budget. The callback still checks the budget when it fires, so a spent
  budget stays terminal (`InlineRun.ExhaustionIsTerminal`).
- `isInitialized()` reports that the flag was claimed, not that the SDK
  finished initialising. The flag lives in the one manager `getInstance()`
  stores, so every caller sees the first caller's claim.
- An overlay's first close time is 0. A show is therefore admitted as soon as
  the clock reads at least the gap, which covers every real epoch time. At a
  clock reading of 0 it would be declined.

## Model

| member | source | states |
|---|---|---|
| OzAds.Init | src/main/java/com/oz/android/ads/oz_ads/ads_component/OzAds.kt:17-27 | a new component has no format or preload key, and `shouldShowAd()` is true |
| OzAds.ShouldShowAdFollowsTheFlag | src/main/java/com/oz/android/ads/oz_ads/ads_component/OzAds.kt:72-89 | `shouldShowAd()` answers the flag `setShouldShowAd` last stored, is true on a new component, and a loaded ad passes `showAds` iff it is true |
| OzAds.SetAdsFormat | src/main/java/com/oz/android/ads/oz_ads/ads_component/OzAds.kt:34-45 | the format is stored iff `isValidFormat(f)`; otherwise the result is an InvalidFormat error that names `getValidFormats()`, and the component is unchanged |
| OzAds.SetPreloadKey | src/main/java/com/oz/android/ads/oz_ads/ads_component/OzAds.kt:95-104 | afterwards `getPreloadKey()` is the key; format and flag are unchanged |
| OzAds.PreloadKeyLeavesGatingAlone | src/main/java/com/oz/android/ads/oz_ads/ads_component/OzAds.kt:95-132 | setting the preload key changes neither `loadAd` nor `showAds`, and the last key set wins |
| OzAds.LoadAd | src/main/java/com/oz/android/ads/oz_ads/ads_component/OzAds.kt:110-116 | `onLoadAd` is requested iff a format is set; with no format it is a no-op |
| OzAds.ShowAds | src/main/java/com/oz/android/ads/oz_ads/ads_component/OzAds.kt:122-132 | `onShowAds` is reached iff `shouldShowAd()` and `isAdLoaded()` both hold |
| OzAds.SetShouldShowAd | src/main/java/com/oz/android/ads/oz_ads/ads_component/OzAds.kt:80-89 | false hides; true shows iff the ad is loaded; `shouldShowAd()` then equals the flag |
| OzAds.SetShouldShowAdIdempotent | src/main/java/com/oz/android/ads/oz_ads/ads_component/OzAds.kt:80-89 | setting the same flag twice gives the same state and the same request |
| OzAds.HideThenShowRestores | src/main/java/com/oz/android/ads/oz_ads/ads_component/OzAds.kt:80-89 | hiding and then showing again restores the component, and a loaded ad is shown |
| OzAds.AcceptedFormatEnablesLoad | src/main/java/com/oz/android/ads/oz_ads/ads_component/OzAds.kt:110-116 | after an accepted `setAdsFormat`, `loadAd` requests a load |
| InlineAds.Init | src/main/java/com/oz/android/ads/oz_ads/ads_component/ads_inline/InlineAds.kt:36-57 | defaults: interval 30000, budget 300000, nothing charged and the reference time 0, not visible, no runnable and no timer pending, `shouldShow` true |
| InlineAds.PolicyIsCoherent | src/main/java/com/oz/android/ads/oz_ads/ads_component/ads_inline/InlineAds.kt:67-76 | the error's list of valid formats names exactly the formats the slot accepts |
| InlineAds.ShouldShowAdNeedsVisibility | src/main/java/com/oz/android/ads/oz_ads/ads_component/ads_inline/InlineAds.kt:86-102 | the inline answer is the generic flag and visibility together: false after `pause`, flag-and-visible after a visibility change, flag-and-visible after `setShouldShowAd`, and it gates `showAds` for a loaded ad |
| InlineAds.Without | src/main/java/com/oz/android/ads/oz_ads/ads_component/ads_inline/InlineAds.kt:294-296 | removing a runnable from the Handler drops exactly its entries and keeps every other entry |
| InlineAds.Cancel | src/main/java/com/oz/android/ads/oz_ads/ads_component/ads_inline/InlineAds.kt:293-298 | no runnable is remembered and none of its timers stay queued; on a valid slot the queue is empty; nothing else changes |
| InlineAds.Schedule | src/main/java/com/oz/android/ads/oz_ads/ads_component/ads_inline/InlineAds.kt:248-258 | the previous runnable is cancelled first, so exactly one fresh timer is pending, due one interval from now |
| InlineAds.SetAdsFormat | src/main/java/com/oz/android/ads/oz_ads/ads_component/ads_inline/InlineAds.kt:67-76 | exactly BANNER and NATIVE are stored; any other format is an error that lists BANNER, NATIVE, and the slot is unchanged |
| InlineAds.ShowAds | src/main/java/com/oz/android/ads/oz_ads/ads_component/ads_inline/InlineAds.kt:131-141 | `onShowAds` is reached iff `shouldShow`, `isAdVisible` and `isAdLoaded()` all hold |
| InlineAds.LoadAd | src/main/java/com/oz/android/ads/oz_ads/ads_component/ads_inline/InlineAds.kt:120-126 | `onLoadAd` is requested iff a format is set |
| InlineAds.SetShouldShowAd | src/main/java/com/oz/android/ads/oz_ads/ads_component/ads_inline/InlineAds.kt:93-102 | false hides; true shows iff the slot is visible and loaded; only the flag changes |
| InlineAds.SetPreloadKey | src/main/java/com/oz/android/ads/oz_ads/ads_component/ads_inline/InlineAds.kt:107-115 | afterwards the preload key is the key; nothing else changes |
| InlineAds.RestartAutoRefresh | src/main/java/com/oz/android/ads/oz_ads/ads_component/ads_inline/InlineAds.kt:284-288 | a loaded, visible slot gets a fresh runnable with one timer due one interval from now; any other slot is left as it was; the slot stays valid and the budget is never touched |
| InlineAds.SetRefreshTime | src/main/java/com/oz/android/ads/oz_ads/ads_component/ads_inline/InlineAds.kt:152-159 | a value of 0 or less changes nothing; a positive value is stored, and a loaded visible slot gets one timer due at the new interval; the format, flag, visibility, budget and charged time are kept |
| InlineAds.SetMaxRefreshTime | src/main/java/com/oz/android/ads/oz_ads/ads_component/ads_inline/InlineAds.kt:166-172 | a value of 0 or less changes nothing; a positive value replaces only the budget, so a positive budget stays positive |
| InlineAds.Destroy | src/main/java/com/oz/android/ads/oz_ads/ads_component/ads_inline/InlineAds.kt:189-193 | no timer is pending, the slot is not visible, and the ad is released; the interval, budget and charged time are kept |
| InlineAds.OnAdLoaded | src/main/java/com/oz/android/ads/oz_ads/ads_component/ads_inline/InlineAds.kt:220-232 | the charged time becomes 0 and the reference time becomes now; the ad is shown iff the slot should show and is loaded; exactly one refresh is then pending |
| InlineAds.OnAdLoadFailed | src/main/java/com/oz/android/ads/oz_ads/ads_component/ads_inline/InlineAds.kt:238-243 | a retry one interval later is scheduled iff budget remains; the budget is never reset |
| InlineAds.RefreshAd | src/main/java/com/oz/android/ads/oz_ads/ads_component/ads_inline/InlineAds.kt:264-279 | charges `now - lastRefreshTime` and moves the reference to now; a spent budget cancels the timer and neither releases nor reloads; otherwise the ad is released and then reloaded |
| InlineAds.Fire | src/main/java/com/oz/android/ads/oz_ads/ads_component/ads_inline/InlineAds.kt:251-279 | a cancelled or not-yet-due runnable does nothing; a due one on a slot that is invisible or out of budget only leaves the queue, charging and asking nothing; otherwise it charges the time since the last refresh and moves the reference to now, then releases and reloads if budget still remains, and cancels and asks nothing if the charge spent it |
| InlineAds.ShowOrLoadAndSchedule | src/main/java/com/oz/android/ads/oz_ads/ads_component/ads_inline/InlineAds.kt:314-323 | shows a loaded ad, or else loads; schedules one refresh iff budget remains |
| InlineAds.Pause | src/main/java/com/oz/android/ads/oz_ads/ads_component/ads_inline/InlineAds.kt:303-307 | not visible, no timer pending, `onPauseAd` requested; the budget and reference time are unchanged |
| InlineAds.Resume | src/main/java/com/oz/android/ads/oz_ads/ads_component/ads_inline/InlineAds.kt:312-325 | visible; the effects are exactly: show when loaded or load otherwise if the flag is on, then `onResumeAd`; iff the flag is on and budget remains, exactly one fresh timer is posted, due one interval from now; the budget and reference time are unchanged |
| InlineAds.OnAttachedToWindow | src/main/java/com/oz/android/ads/oz_ads/ads_component/ads_inline/InlineAds.kt:330-336 | the slot becomes visible and loads iff it should show, is not loaded and has a format; no refresh is scheduled |
| InlineAds.OnDetachedFromWindow | src/main/java/com/oz/android/ads/oz_ads/ads_component/ads_inline/InlineAds.kt:341-344 | behaves as `pause`: not visible and no runnable |
| InlineAds.OnVisibilityChanged | src/main/java/com/oz/android/ads/oz_ads/ads_component/ads_inline/InlineAds.kt:349-365 | visibility follows the event; visible with the flag on shows or loads and, iff budget remains, leaves exactly one fresh timer due one interval from now, else keeps the timer state; otherwise the timer is cancelled and nothing is requested |
| InlineRun.ApplyKeepsValid | src/main/java/com/oz/android/ads/oz_ads/ads_component/ads_inline/InlineAds.kt:248-258 | every transition keeps both timings positive and at most one runnable queued, namely the one `refreshRunnable` names |
| InlineRun.RunKeepsValid | src/main/java/com/oz/android/ads/oz_ads/ads_component/ads_inline/InlineAds.kt:248-258 | the same holds across any run of events |
| InlineRun.ReachableIsValid | src/main/java/com/oz/android/ads/oz_ads/ads_component/ads_inline/InlineAds.kt:37-43 | starting from the defaults, `refreshTime > 0` and `maxRefreshTime > 0` hold in every reachable slot |
| InlineRun.ApplyKeepsBudget | src/main/java/com/oz/android/ads/oz_ads/ads_component/ads_inline/InlineAds.kt:264-268 | any transition other than a successful load never lowers the charged time, provided the clock does not go backwards |
| InlineRun.BudgetMonotoneWithoutLoad | src/main/java/com/oz/android/ads/oz_ads/ads_component/ads_inline/InlineAds.kt:264-268 | across a run with no successful load, the charged time never decreases, whatever pauses and resumes happen |
| InlineRun.ApplyKeepsExhausted | src/main/java/com/oz/android/ads/oz_ads/ads_component/ads_inline/InlineAds.kt:251-274 | a spent budget stays spent under every event except a successful load or a new budget, and a timer callback then asks for nothing |
| InlineRun.ExhaustionIsTerminal | src/main/java/com/oz/android/ads/oz_ads/ads_component/ads_inline/InlineAds.kt:251-274 | once the budget is spent, until a load succeeds or the budget is changed, no timer callback releases, reloads or shows, and the budget stays spent |
| InlineRun.CancelledRunnablesNeverFire | src/main/java/com/oz/android/ads/oz_ads/ads_component/ads_inline/InlineAds.kt:293-298 | after cancel, pause or destroy, no earlier runnable can fire |
| InlineRun.RescheduleSupersedes | src/main/java/com/oz/android/ads/oz_ads/ads_component/ads_inline/InlineAds.kt:248-258 | scheduling twice leaves only the second runnable pending; the first can no longer fire |
| InlineRun.PausedTimeIsCharged | src/main/java/com/oz/android/ads/oz_ads/ads_component/ads_inline/InlineAds.kt:303-325 | pause and resume keep the budget, and the next refresh charges time since the last refresh or load, paused time included |
| InlineRun.LoadedLeavesRefreshPending | src/main/java/com/oz/android/ads/oz_ads/ads_component/ads_inline/InlineAds.kt:220-232 | since the budget is positive, a successful load always leaves one refresh pending, due one interval later |
| InlineRun.SuccessfulLoadsKeepRefreshing | src/main/java/com/oz/android/ads/oz_ads/ads_component/ads_inline/InlineAds.kt:220-279 | if the next callback fires within the budget after a successful load, it releases and reloads again |
| InlineScenarios.FailingReloadsSpendTheBudget | src/main/java/com/oz/android/ads/oz_ads/ads_component/ads_inline/InlineAds.kt:238-279 | a 30 s / 90 s banner loaded at 0 with failing reloads reloads at 30 s and 60 s; at 90 s it stops, with nothing pending |
| InlineScenarios.SucceedingReloadsNeverStop | src/main/java/com/oz/android/ads/oz_ads/ads_component/ads_inline/InlineAds.kt:220-279 | the same banner with successful reloads still reloads at 90 s |
| InlineScenarios.LongIntervalStopsDespiteSuccess | src/main/java/com/oz/android/ads/oz_ads/ads_component/ads_inline/InlineAds.kt:152-279 | a banner with a 400 s interval under the default 300 s budget, loaded at 0, finds the budget spent at its first callback: nothing is requested and nothing stays pending |
| InlineScenarios.RetryBeforeFirstLoadSpendsTheBudget | src/main/java/com/oz/android/ads/oz_ads/ads_component/ads_inline/InlineAds.kt:264-274 | a slot resumed at an epoch time whose first load fails spends its whole default budget at the first retry, because `lastRefreshTime` starts at 0 |
| AdsOverlayManager.Init | src/main/java/com/oz/android/ads/oz_ads/ads_component/ads_overlay/AdsOverlayManager.kt:20-32 | the close time starts at 0 and the gap at 25000, which is not negative |
| AdsOverlayManager.IsValidFormatGatesSetAdsFormat | src/main/java/com/oz/android/ads/oz_ads/ads_component/ads_overlay/AdsOverlayManager.kt:70-79 | `isValidFormat(f)` holds iff `setAdsFormat(f)` is accepted and stores f, iff f is in `getValidFormats()`; BANNER and NATIVE fail it |
| AdsOverlayManager.GetValidFormats | src/main/java/com/oz/android/ads/oz_ads/ads_component/ads_overlay/AdsOverlayManager.kt:70-79 | the list holds exactly the formats `isValidFormat` accepts: INTERSTITIAL and APP_OPEN |
| AdsOverlayManager.PolicyIsCoherent | src/main/java/com/oz/android/ads/oz_ads/ads_component/ads_overlay/AdsOverlayManager.kt:70-79 | `getValidFormats()` names exactly the formats `isValidFormat` accepts |
| AdsOverlayManager.SetAdsFormat | src/main/java/com/oz/android/ads/oz_ads/ads_component/ads_overlay/AdsOverlayManager.kt:70-72 | exactly INTERSTITIAL and APP_OPEN are stored; anything else is refused with those two listed, and the slot is unchanged |
| AdsOverlayManager.InlineFormatsRefused | src/main/java/com/oz/android/ads/oz_ads/ads_component/ads_overlay/AdsOverlayManager.kt:70-79 | NATIVE is refused with the list {INTERSTITIAL, APP_OPEN}, and BANNER leaves the slot unchanged |
| AdsOverlayManager.SetTimeGap | src/main/java/com/oz/android/ads/oz_ads/ads_component/ads_overlay/AdsOverlayManager.kt:38-45 | a negative gap is ignored; 0 and above are stored; a gap that is not negative stays so |
| AdsOverlayManager.OperationsKeepValid | src/main/java/com/oz/android/ads/oz_ads/ads_component/ads_overlay/AdsOverlayManager.kt:38-45 | every overlay operation keeps `timeGap >= 0` |
| AdsOverlayManager.IsTimeGapSatisfied | src/main/java/com/oz/android/ads/oz_ads/ads_component/ads_overlay/AdsOverlayManager.kt:55-65 | true iff now >= lastAdClosedTime + timeGap; with a gap that is not negative, never before the last close |
| AdsOverlayManager.ShowAds | src/main/java/com/oz/android/ads/oz_ads/ads_component/ads_overlay/AdsOverlayManager.kt:84-92 | the superclass `showAds` is called iff `now - lastAdClosedTime >= timeGap`; otherwise the only effect is the failure "Time gap not satisfied" |
| AdsOverlayManager.OnAdDismissed | src/main/java/com/oz/android/ads/oz_ads/ads_component/ads_overlay/AdsOverlayManager.kt:97-101 | the call is delegated to the superclass, then the close time becomes now unconditionally |
| AdsOverlayManager.HideAds | src/main/java/com/oz/android/ads/oz_ads/ads_component/ads_overlay/AdsOverlayManager.kt:108-110 | changes nothing and requests nothing |
| AdsOverlayManager.GateBoundaryIsExact | src/main/java/com/oz/android/ads/oz_ads/ads_component/ads_overlay/AdsOverlayManager.kt:55-65 | with gap 25000 and a close at T, a show is declined at T+24999 and admitted at T+25000 |
| AdsOverlayManager.DismissalBlocksForOneGap | src/main/java/com/oz/android/ads/oz_ads/ads_component/ads_overlay/AdsOverlayManager.kt:84-101 | after a dismissal at d, a show is delegated iff now >= d + timeGap |
| AdsOverlayManager.FirstShowNeedsOnlyTheGap | src/main/java/com/oz/android/ads/oz_ads/ads_component/ads_overlay/AdsOverlayManager.kt:24-32 | a fresh overlay admits a show iff now >= 25000 |
| AdsOverlayManager.ExitInterstitialTimeline | src/main/java/com/oz/android/ads/oz_ads/ads_component/ads_overlay/AdsOverlayManager.kt:84-101 | the first show is admitted; after a close at t+5, a show at t+10000 is declined and one at t+25005 is admitted |
| AdMobManager.Fresh | src/main/java/com/oz/android/ads/network/admobs/AdMobManager.kt:15 | before any call the flag is unclaimed, `isInitialized()` is false, and nothing has run |
| AdMobManager.InitializeMobileAdsSdk | src/main/java/com/oz/android/ads/network/admobs/AdMobManager.kt:35-59 | the first call claims the flag, starts one setup and applies the test devices; every later call returns and changes nothing |
| AdMobManager.IsInitialized | src/main/java/com/oz/android/ads/network/admobs/AdMobManager.kt:61-63 | reports the claim flag; on a consistent manager it holds iff the setup has been started, and before that nothing has completed |
| AdMobManager.SdkInitialized | src/main/java/com/oz/android/ads/network/admobs/AdMobManager.kt:44-53 | `onComplete` fires once for an outstanding setup and never otherwise |
| AdMobManager.AtMostOnce | src/main/java/com/oz/android/ads/network/admobs/AdMobManager.kt:40-53 | across any sequence of `getInstance().initializeMobileAdsSdk` calls and SDK callbacks in the process, setup runs at most once and `onComplete` fires at most as often as setup ran |
| AdMobManager.ExactlyOneSetup | src/main/java/com/oz/android/ads/network/admobs/AdMobManager.kt:40-58 | in the process, setup has run exactly once iff it was already initialized or at least one call was made through `getInstance()`, whatever the number of calls |
| AdMobManager.ClaimIsMonotone | src/main/java/com/oz/android/ads/network/admobs/AdMobManager.kt:40-42 | once `getInstance().isInitialized()` is true, it stays true under every later call and callback |
| AdMobManager.InitializedBeforeCompletion | src/main/java/com/oz/android/ads/network/admobs/AdMobManager.kt:40-63 | in a fresh process, `getInstance().isInitialized()` is true right after the first call, before `onComplete`; a second call through `getInstance()` is a no-op; the callback completes exactly once |
| AdMobManager.CallInitialize | src/main/java/com/oz/android/ads/network/admobs/AdMobManager.kt:28-59 | a call through `getInstance()` acts on the stored manager: it leaves the process initialized, starts one setup with the given devices if none was claimed, and otherwise changes nothing |
| AdMobManager.Callback | src/main/java/com/oz/android/ads/network/admobs/AdMobManager.kt:44-53 | the SDK callback reaches the stored manager: `onComplete` fires once for an outstanding setup, and nothing happens otherwise |
| AdMobManager.GetInstance | src/main/java/com/oz/android/ads/network/admobs/AdMobManager.kt:28-32 | the first call creates and stores a fresh manager; later calls return the stored one unchanged |
| AdMobManager.GetInstanceIsStable | src/main/java/com/oz/android/ads/network/admobs/AdMobManager.kt:28-32 | a second `getInstance` returns the same instance and changes nothing |
| OzAdmobBannerAd.Create | src/main/java/com/oz/android/ads/oz_ads/ads_component/ads_inline/admob/OzAdmobBannerAd.kt:28-31 | construction sets the format to BANNER, with no ids and an empty container |
| OzAdmobBannerAd.SetAdUnitId | src/main/java/com/oz/android/ads/oz_ads/ads_component/ads_inline/admob/OzAdmobBannerAd.kt:38-48 | `getAdUnitId(k)` is then the id, and every other key's mapping is unchanged |
| OzAdmobBannerAd.CreateAd | src/main/java/com/oz/android/ads/oz_ads/ads_component/ads_inline/admob/OzAdmobBannerAd.kt:50-55 | returns null iff no id is registered for the key; otherwise the ad carries that id, blank or not |
| OzAdmobBannerAd.OnShowAds | src/main/java/com/oz/android/ads/oz_ads/ads_component/ads_inline/admob/OzAdmobBannerAd.kt:85-91 | the ad is shown in the container first, and then `onAdShown(key)` is called |
| OzAdmobBannerAd.HideAds | src/main/java/com/oz/android/ads/oz_ads/ads_component/ads_inline/admob/OzAdmobBannerAd.kt:93-97 | the container is left with no children |
| OzAdmobBannerAd.RegisteredIdCreatesAd | src/main/java/com/oz/android/ads/oz_ads/ads_component/ads_inline/admob/OzAdmobBannerAd.kt:38-55 | after registering an id, `createAd` for that key uses that id; other keys behave as before |
| OzAdmobBannerAd.FreshBannerCreatesNothing | src/main/java/com/oz/android/ads/oz_ads/ads_component/ads_inline/admob/OzAdmobBannerAd.kt:26-55 | before any id is set, `createAd` returns null for every key |
| OzAdmobBannerAd.SetAdUnitIdIdempotent | src/main/java/com/oz/android/ads/oz_ads/ads_component/ads_inline/admob/OzAdmobBannerAd.kt:38-41 | registering the same id twice has the effect of registering it once |
| OzAdmobBannerAd.ShowThenHideEmpties | src/main/java/com/oz/android/ads/oz_ads/ads_component/ads_inline/admob/OzAdmobBannerAd.kt:85-97 | a show followed by a hide leaves an empty container and nothing else changed |
| OzAdmobNativeAd.Create | src/main/java/com/oz/android/ads/oz_ads/ads_component/ads_inline/admob/OzAdmobNativeAd.kt:31-33 | construction sets the format to NATIVE, with no ids and no views |
| OzAdmobNativeAd.GetAdUnitId | src/main/java/com/oz/android/ads/oz_ads/ads_component/ads_inline/admob/OzAdmobNativeAd.kt:61-68 | the id registered for the key, blank or not, or null iff none is; `createAd` succeeds iff it returns an id that is not blank |
| OzAdmobNativeAd.SetAdUnitId | src/main/java/com/oz/android/ads/oz_ads/ads_component/ads_inline/admob/OzAdmobNativeAd.kt:40-44 | the id is stored, the preload key becomes the key, and other keys' ids are unchanged |
| OzAdmobNativeAd.SetNativeAdView | src/main/java/com/oz/android/ads/oz_ads/ads_component/ads_inline/admob/OzAdmobNativeAd.kt:51-54 | binds the view to the key; other keys keep their views |
| OzAdmobNativeAd.BlankConcat | src/main/java/com/oz/android/ads/oz_ads/ads_component/ads_inline/admob/OzAdmobNativeAd.kt:65 | a concatenation is blank iff both parts are, so whitespace padding never changes whether an id is blank |
| OzAdmobNativeAd.CreateAd | src/main/java/com/oz/android/ads/oz_ads/ads_component/ads_inline/admob/OzAdmobNativeAd.kt:63-68 | returns null iff the key's id is missing or blank |
| OzAdmobNativeAd.OnShowAds | src/main/java/com/oz/android/ads/oz_ads/ads_component/ads_inline/admob/OzAdmobNativeAd.kt:88-101 | with no view for the key it reports "NativeAdView not set" and calls neither `show` nor `onAdShown`; with a view it shows and then calls `onAdShown` |
| OzAdmobNativeAd.HideAds | src/main/java/com/oz/android/ads/oz_ads/ads_component/ads_inline/admob/OzAdmobNativeAd.kt:103-106 | the container is left with no children |
| OzAdmobNativeAd.ShowThenHideEmpties | src/main/java/com/oz/android/ads/oz_ads/ads_component/ads_inline/admob/OzAdmobNativeAd.kt:88-106 | a show followed by a hide leaves an empty container and nothing else changed, whether or not a view was bound |
| OzAdmobNativeAd.RegisteredIdCreatesAd | src/main/java/com/oz/android/ads/oz_ads/ads_component/ads_inline/admob/OzAdmobNativeAd.kt:40-68 | after registering an id, `createAd` succeeds iff the id is not blank, and the preload key is the key |
| OzAdmobNativeAd.BlankIdsSplitBannerAndNative | src/main/java/com/oz/android/ads/oz_ads/ads_component/ads_inline/admob/OzAdmobNativeAd.kt:63-68 | an empty id creates a banner but not a native ad; an all-whitespace id is refused; a real id is accepted |
| OzAdmobNativeAd.ViewEnablesShow | src/main/java/com/oz/android/ads/oz_ads/ads_component/ads_inline/admob/OzAdmobNativeAd.kt:88-101 | binding a view lets a show through for that key only |

## Left out

- Layout (`onMeasure`, `onLayout`, `generateLayoutParams`, `generateDefaultLayoutParams`): Android view measurement, not slot logic.
- Main-thread dispatch by `Handler`/`Looper`. The Handler is a queue of timers, and the run event `Tick` hands one timer's token to `InlineAds.Fire` at a caller-chosen `now`. The Handler's uptime clock and the wall clock are taken to be the same clock.
- `System.currentTimeMillis`: replaced by the parameter `now`.
- InlineAds.RefreshAd: uses unbounded integers, so Kotlin `Long` wrap-around of the charged time is not modelled. Millisecond clocks cannot reach 2^63.
- AdsOverlayManager.ShowAds: `now - lastAdClosedTime` is also unbounded, for the same reason.
- AdMobManager.InitializeMobileAdsSdk: the calls are taken one at a time. The atomicity of `AtomicBoolean.getAndSet` and the double-checked locking in `getInstance` are not modelled.
- AdMob SDK calls (`MobileAds.initialize`, `RequestConfiguration`, `ad.load/show/destroy/pause/resume`, `removeAllViews`) and listener construction: they appear as effects or as counters. The SDK's completion callback is the separate run event `SdkCallback`, handled by `AdMobManager.Callback` and `AdMobManager.SdkInitialized`.
- AdMobManager.SdkInitialized: the SDK is taken to call its completion listener at most once per `MobileAds.initialize`; a callback with no setup outstanding is dropped, whereas the Kotlin listener would run `onComplete` again. The completion bound in `AdMobManager.AtMostOnce` (and the single completion in `AdMobManager.InitializedBeforeCompletion`) therefore rests on that SDK contract, not on the code, which only guarantees that the setup starts at most once.
- The keyed superclass hooks that the banner, native and overlay classes override or call: `onAdLoaded(key, ad)`, `onAdLoadFailed(key, msg)`, `onLoadAd(key, ad)`, `destroyAd(ad)`, `adStore`, `showAds(key)`, `onAdDismissed(key)`, `onAdShown`, `onAdShowFailed`. The superclass files that declare them are not part of this model. Calls to them are effects. The banner's `onPauseAd`/`onResumeAd` loop over `adStore` with SDK calls, and the native versions only log, so both are left out.
- `isAdLoaded()` is abstract in the source, so it is the parameter `loaded`.
- The `AdsFormat` enum file is not part of this model. The model uses the four formats BANNER, NATIVE, INTERSTITIAL and APP_OPEN.
- Getters (`getAdsFormat`, `getPreloadKey`, `getRefreshTime`, `getMaxRefreshTime`, `getTimeGap`) read a field of the state and need no separate member.
- OzAdmobBannerAd.GetAdUnitId: a one-expression map lookup with no contract of its own; its meaning is stated by `OzAdmobBannerAd.SetAdUnitId` and `OzAdmobBannerAd.CreateAd`. Likewise `OzAds.ShouldShowAd`, `InlineAds.ShouldShowAd`, `AdsOverlayManager.IsValidFormat` and `OzAdmobNativeAd.IsBlank` are one-expression queries whose meaning the lemmas named in their rows state.
- `Log` calls, `IAdmobAds` (an interface with no behaviour) and `OzAdsResult` (a result type with no operations).
- Thrown `IllegalArgumentException`: it is the `error` of an `Attempt`, and a refused call leaves the state as it was.
