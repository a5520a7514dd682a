/** The generic show/load gating every ad component shares: a format that
    a specialisation validates, a preload key and a should-show flag. */
module OzAds {
  import opened Wrappers
  import opened Formats
  import opened Effects

  datatype Config = Config(adsFormat: Option<AdsFormat>, preloadKey: Option<string>, shouldShow: bool)

  /** A new component has no format and no preload key, and wants to show. */
  function Init(): (c: Config)
    ensures c.adsFormat.None? && c.preloadKey.None?
    ensures ShouldShowAd(c)
  {
    Config(None, None, true)
  }

  /** `setAdsFormat`: stores the format when the specialisation accepts it,
      otherwise refuses it naming the formats it would have accepted. */
  function SetAdsFormat(c: Config, f: AdsFormat, p: FormatPolicy): (r: Attempt<Config>)
    ensures r.error.None? <==> p.isValid(f)
    ensures r.error.None? ==> r.next.adsFormat == Some(f)
    ensures r.error.Some? ==> r.next == c && r.error.value == InvalidFormat(f, p.listed)
    ensures r.next.preloadKey == c.preloadKey && r.next.shouldShow == c.shouldShow
  {
    if p.isValid(f) then Attempt(c.(adsFormat := Some(f)), None)
    else Attempt(c, Some(InvalidFormat(f, p.listed)))
  }

  /** `shouldShowAd()`: the generic component answers its flag alone; a
      specialisation may add conditions of its own. */
  predicate ShouldShowAd(c: Config) {
    c.shouldShow
  }

  /** `setPreloadKey`: `getPreloadKey()` answers the key afterwards. */
  function SetPreloadKey(c: Config, key: string): (r: Config)
    ensures r.preloadKey == Some(key)
    ensures r.adsFormat == c.adsFormat && r.shouldShow == c.shouldShow
  {
    c.(preloadKey := Some(key))
  }

  /** `loadAd`: asks the specialisation to load only once a format is set;
      without one it is a no-op. */
  function LoadAd(c: Config): (e: seq<Effect>)
    ensures e == [] || e == [RequestLoad]
    ensures RequestLoad in e <==> c.adsFormat.Some?
  {
    if c.adsFormat.None? then [] else [RequestLoad]
  }

  /** `showAds`: reaches `onShowAds` only when the component should show and
      its ad is loaded. */
  function ShowAds(c: Config, loaded: bool): (e: seq<Effect>)
    ensures e == [] || e == [RequestShow]
    ensures RequestShow in e <==> ShouldShowAd(c) && loaded
  {
    if !ShouldShowAd(c) then []
    else if !loaded then []
    else [RequestShow]
  }

  /** `setShouldShowAd`: turning the flag off hides the ad; turning it on
      shows the ad at once when it is already loaded. */
  function SetShouldShowAd(c: Config, flag: bool, loaded: bool): (r: Step<Config>)
    ensures ShouldShowAd(r.next) == flag
    ensures r.next.adsFormat == c.adsFormat && r.next.preloadKey == c.preloadKey
    ensures !flag ==> r.effects == [RequestHide]
    ensures flag ==> (r.effects == [] || r.effects == [RequestShow])
    ensures flag ==> (RequestShow in r.effects <==> loaded)
  {
    var c' := c.(shouldShow := flag);
    if !flag then Step(c', [RequestHide])
    else if loaded then Step(c', ShowAds(c', loaded))
    else Step(c', [])
  }

  /** Setting the flag is idempotent: the second identical call changes
      nothing and asks for the same hide or show again. */
  lemma SetShouldShowAdIdempotent(c: Config, flag: bool, loaded: bool)
    ensures var r := SetShouldShowAd(c, flag, loaded);
            SetShouldShowAd(r.next, flag, loaded) == r
  {
  }

  /** After hiding, turning the flag back on shows a loaded ad again, and
      the format and preload key survive the round trip. */
  lemma HideThenShowRestores(c: Config, loaded: bool)
    ensures var off := SetShouldShowAd(c, false, loaded);
            var on := SetShouldShowAd(off.next, true, loaded);
            && on.next == c.(shouldShow := true)
            && (on.effects == [RequestShow] <==> loaded)
  {
  }

  /** `shouldShowAd()` answers what `setShouldShowAd` last stored, a new
      component answers true, and the answer is what lets a loaded ad through
      `showAds`. */
  lemma ShouldShowAdFollowsTheFlag(c: Config, flag: bool, loaded: bool)
    ensures ShouldShowAd(SetShouldShowAd(c, flag, loaded).next) <==> flag
    ensures ShouldShowAd(Init())
    ensures ShowAds(c, loaded) == [RequestShow] <==> ShouldShowAd(c) && loaded
  {
  }

  /** The preload key plays no part in gating: setting it changes neither
      what `loadAd` nor what `showAds` asks for, and the last key set wins. */
  lemma PreloadKeyLeavesGatingAlone(c: Config, k1: string, k2: string, loaded: bool)
    ensures LoadAd(SetPreloadKey(c, k1)) == LoadAd(c)
    ensures ShowAds(SetPreloadKey(c, k1), loaded) == ShowAds(c, loaded)
    ensures SetPreloadKey(SetPreloadKey(c, k1), k2) == SetPreloadKey(c, k2)
  {
  }

  /** A stored format is what a later load sees: loading is possible
      exactly when some accepted format has been set. */
  lemma AcceptedFormatEnablesLoad(c: Config, f: AdsFormat, p: FormatPolicy)
    requires p.isValid(f)
    ensures LoadAd(SetAdsFormat(c, f, p).next) == [RequestLoad]
  {
  }
}
