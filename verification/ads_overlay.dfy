/** Full-screen overlay slots (interstitial, app open): the generic gating
    of `OzAds` plus a minimum time gap between an ad being closed and the
    next one being shown. The superclass's keyed `showAds(key)` and
    `onAdDismissed(key)` are not part of this model; calls to them are
    effects. */
module AdsOverlayManager {
  import opened Wrappers
  import opened Formats
  import opened Effects
  import OzAds

  const DefaultTimeGap: int := 25_000
  const GapNotSatisfied: string := "Time gap not satisfied"

  datatype Overlay = Overlay(config: OzAds.Config, lastAdClosedTime: int, timeGap: int)

  /** The gap is never negative, from the default onwards. */
  predicate Valid(o: Overlay) {
    o.timeGap >= 0
  }

  /** No ad has been closed yet (time 0) and the gap is the default. */
  function Init(): (o: Overlay)
    ensures Valid(o)
    ensures o.lastAdClosedTime == 0 && o.timeGap == DefaultTimeGap
    ensures o.config == OzAds.Init()
  {
    Overlay(OzAds.Init(), 0, DefaultTimeGap)
  }

  /** Overlay slots accept the two full-screen formats and neither inline one. */
  predicate IsValidFormat(f: AdsFormat) {
    f == Interstitial || f == AppOpen
  }

  function GetValidFormats(): (fs: seq<AdsFormat>)
    ensures forall f :: f in fs <==> IsValidFormat(f)
    ensures |fs| == 2
  {
    [Interstitial, AppOpen]
  }

  const Policy: FormatPolicy := FormatPolicy(IsValidFormat, GetValidFormats())

  /** `isValidFormat` is the gate `setAdsFormat` applies and the list
      `getValidFormats` reports: a format is accepted, stored and listed, or
      refused and unlisted; the two inline formats are refused. */
  lemma IsValidFormatGatesSetAdsFormat(o: Overlay, f: AdsFormat)
    ensures IsValidFormat(f) <==> SetAdsFormat(o, f).error.None?
    ensures IsValidFormat(f) <==> f in GetValidFormats()
    ensures IsValidFormat(f) ==> SetAdsFormat(o, f).next.config.adsFormat == Some(f)
    ensures !IsValidFormat(Banner) && !IsValidFormat(Native)
  {
  }

  /** The reported list names exactly the formats the overlay accepts. */
  lemma PolicyIsCoherent()
    ensures Coherent(Policy)
  {
  }

  /** `setAdsFormat` through the overlay's validation. */
  function SetAdsFormat(o: Overlay, f: AdsFormat): (r: Attempt<Overlay>)
    ensures r.error.None? <==> f == Interstitial || f == AppOpen
    ensures r.error.None? ==> r.next == o.(config := o.config.(adsFormat := Some(f)))
    ensures r.error.Some? ==> r.next == o && r.error.value == InvalidFormat(f, [Interstitial, AppOpen])
  {
    var a := OzAds.SetAdsFormat(o.config, f, Policy);
    Attempt(o.(config := a.next), a.error)
  }

  /** `setTimeGap`: a negative gap is ignored; zero and above are stored. */
  function SetTimeGap(o: Overlay, millis: int): (r: Overlay)
    ensures millis < 0 ==> r == o
    ensures millis >= 0 ==> r.timeGap == millis
    ensures r.config == o.config && r.lastAdClosedTime == o.lastAdClosedTime
    ensures Valid(o) ==> Valid(r)
  {
    if millis < 0 then o else o.(timeGap := millis)
  }

  /** The gap is satisfied once at least `timeGap` has passed since the last
      close; with a gap that is not negative, never before the close itself. */
  predicate IsTimeGapSatisfied(o: Overlay, now: int)
    ensures IsTimeGapSatisfied(o, now) <==> now >= o.lastAdClosedTime + o.timeGap
    ensures Valid(o) && IsTimeGapSatisfied(o, now) ==> now >= o.lastAdClosedTime
  {
    now - o.lastAdClosedTime >= o.timeGap
  }

  /** `showAds(key)`: when the gap since the last close is too short the
      attempt is reported as a show failure and the superclass is never
      asked to show; otherwise the superclass decides. */
  function ShowAds(o: Overlay, key: string, now: int): (e: seq<Effect>)
    ensures |e| == 1
    ensures DelegateShow(key) in e <==> now >= o.lastAdClosedTime + o.timeGap
    ensures now < o.lastAdClosedTime + o.timeGap ==> e == [ShowFailed(key, "Time gap not satisfied")]
  {
    if !IsTimeGapSatisfied(o, now) then [ShowFailed(key, GapNotSatisfied)]
    else [DelegateShow(key)]
  }

  /** `onAdDismissed(key)`: the superclass handles the dismissal first, then
      the close time becomes `now`, whatever it was before. */
  function OnAdDismissed(o: Overlay, key: string, now: int): (r: Step<Overlay>)
    ensures r.effects == [DelegateDismiss(key)]
    ensures r.next.lastAdClosedTime == now
    ensures r.next.config == o.config && r.next.timeGap == o.timeGap
  {
    Step(o.(lastAdClosedTime := now), [DelegateDismiss(key)])
  }

  /** `hideAds` changes nothing: the ad network owns a shown overlay. */
  function HideAds(o: Overlay): (r: Step<Overlay>)
    ensures r.next == o && r.effects == []
  {
    Step(o, [])
  }

  /** The gate is exact at its boundary: with the default gap and a close at
      `t`, a show one millisecond early is declined and one on time goes
      through. */
  lemma GateBoundaryIsExact(o: Overlay, key: string, t: int)
    requires o.timeGap == DefaultTimeGap
    ensures var closed := OnAdDismissed(o, key, t).next;
            && ShowAds(closed, key, t + 24_999) == [ShowFailed(key, GapNotSatisfied)]
            && ShowAds(closed, key, t + 25_000) == [DelegateShow(key)]
  {
  }

  /** Frequency cap: after a dismissal at `d`, no show is delegated before
      `d + timeGap`, and every show from then on is. */
  lemma DismissalBlocksForOneGap(o: Overlay, key: string, d: int, now: int)
    ensures var closed := OnAdDismissed(o, key, d).next;
            DelegateShow(key) in ShowAds(closed, key, now) <==> now >= d + o.timeGap
  {
  }

  /** A fresh overlay has no close time but 0, so a show is admitted exactly
      when the clock reads at least the gap; at any real epoch time the first
      show goes through. */
  lemma FirstShowNeedsOnlyTheGap(key: string, now: int)
    ensures DelegateShow(key) in ShowAds(Init(), key, now) <==> now >= DefaultTimeGap
  {
  }

  /** A close time and an interstitial shown, closed after 5 ms, then tried
      again after 10 s (declined) and after 25.005 s (admitted), all counted
      from an epoch time `t`. */
  lemma ExitInterstitialTimeline(t: int, key: string)
    requires t >= DefaultTimeGap
    ensures var first := ShowAds(Init(), key, t);
            var closed := OnAdDismissed(Init(), key, t + 5).next;
            && first == [DelegateShow(key)]
            && ShowAds(closed, key, t + 10_000) == [ShowFailed(key, GapNotSatisfied)]
            && ShowAds(closed, key, t + 25_005) == [DelegateShow(key)]
  {
  }

  /** Overlay slots refuse the inline formats, naming the two they accept. */
  lemma InlineFormatsRefused(o: Overlay)
    ensures SetAdsFormat(o, Native).error == Some(InvalidFormat(Native, [Interstitial, AppOpen]))
    ensures SetAdsFormat(o, Banner).next == o
  {
  }

  /** No operation other than `setTimeGap` moves the gap, and that one keeps
      it non-negative. */
  lemma OperationsKeepValid(o: Overlay, key: string, now: int, millis: int, f: AdsFormat)
    requires Valid(o)
    ensures Valid(SetTimeGap(o, millis))
    ensures Valid(OnAdDismissed(o, key, now).next)
    ensures Valid(HideAds(o).next)
    ensures Valid(SetAdsFormat(o, f).next)
  {
  }
}
