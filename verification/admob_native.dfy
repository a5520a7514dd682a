/** The AdMob native slot: an inline slot fixed to NATIVE, with registries
    from placement key to ad unit id and to the NativeAdView that renders
    the ad. Registering an id also makes its key the preload key. */
module OzAdmobNativeAd {
  import opened Wrappers
  import opened Formats
  import opened Effects
  import InlineAds
  import OzAdmobBannerAd

  /** `AdmobNativeAdvanced(context, adUnitId, listener)`. */
  datatype AdHandle = AdHandle(key: string, adUnitId: string)

  /** A host-supplied NativeAdView, told apart by an identity. */
  datatype NativeAdView = NativeAdView(id: nat)

  datatype NativeAd = NativeAd(
    slot: InlineAds.Slot,
    adUnitIds: map<string, string>,
    nativeAdViews: map<string, NativeAdView>,
    children: seq<string>)

  const ViewNotSet: string := "NativeAdView not set"

  /** Kotlin's `Char.isWhitespace`: Java whitespace or a Unicode space
      separator, line separator or paragraph separator. */
  predicate IsWhitespace(c: char) {
    var n := c as int;
    || (0x09 <= n <= 0x0D) || (0x1C <= n <= 0x20)
    || n == 0xA0 || n == 0x1680 || (0x2000 <= n <= 0x200A)
    || n == 0x2028 || n == 0x2029 || n == 0x202F || n == 0x205F || n == 0x3000
  }

  /** `isBlank`: empty or whitespace only. */
  predicate IsBlank(s: string) {
    forall i | 0 <= i < |s| :: IsWhitespace(s[i])
  }

  /** Blankness is decided piece by piece: a string is blank exactly when
      both of its parts are, so whitespace padding never makes a real id
      blank nor a blank id real. */
  lemma BlankConcat(a: string, b: string)
    ensures IsBlank(a + b) <==> IsBlank(a) && IsBlank(b)
  {
    if IsBlank(a + b) {
      forall i | 0 <= i < |a| ensures IsWhitespace(a[i]) {
        assert (a + b)[i] == a[i];
      }
      forall j | 0 <= j < |b| ensures IsWhitespace(b[j]) {
        assert (a + b)[|a| + j] == b[j];
      }
    }
  }

  /** Construction sets the format to NATIVE. */
  function Create(): (n: NativeAd)
    ensures n.slot.config.adsFormat == Some(Native)
    ensures InlineAds.Valid(n.slot)
    ensures n.adUnitIds == map[] && n.nativeAdViews == map[] && n.children == []
  {
    NativeAd(InlineAds.SetAdsFormat(InlineAds.Init(), Native).next, map[], map[], [])
  }

  /** `getAdUnitId`: the registered id, blank or not, or null for an
      unregistered key; `createAd` goes ahead exactly when it returns an id
      that is not blank. */
  function GetAdUnitId(n: NativeAd, key: string): (r: Option<string>)
    ensures r.Some? <==> key in n.adUnitIds
    ensures r.Some? ==> r.value == n.adUnitIds[key]
    ensures CreateAd(n, key).Some? <==> r.Some? && !IsBlank(r.value)
  {
    if key in n.adUnitIds then Some(n.adUnitIds[key]) else None
  }

  /** `setAdUnitId`: the preload key becomes `key` and the key now answers
      `id`; every other key answers what it did before. */
  function SetAdUnitId(n: NativeAd, key: string, id: string): (r: NativeAd)
    ensures GetAdUnitId(r, key) == Some(id)
    ensures forall k :: k != key ==> GetAdUnitId(r, k) == GetAdUnitId(n, k)
    ensures r.slot == n.slot.(config := n.slot.config.(preloadKey := Some(key)))
    ensures r.nativeAdViews == n.nativeAdViews && r.children == n.children
  {
    n.(slot := InlineAds.SetPreloadKey(n.slot, key), adUnitIds := n.adUnitIds[key := id])
  }

  /** `setNativeAdView`: binds `view` to `key`, other keys keep theirs. */
  function SetNativeAdView(n: NativeAd, key: string, view: NativeAdView): (r: NativeAd)
    ensures key in r.nativeAdViews && r.nativeAdViews[key] == view
    ensures forall k :: k != key ==> (k in r.nativeAdViews <==> k in n.nativeAdViews)
    ensures forall k :: k != key && k in n.nativeAdViews ==> r.nativeAdViews[k] == n.nativeAdViews[k]
    ensures r.slot == n.slot && r.adUnitIds == n.adUnitIds && r.children == n.children
  {
    n.(nativeAdViews := n.nativeAdViews[key := view])
  }

  /** `createAd`: no ad when the id is missing or blank. */
  function CreateAd(n: NativeAd, key: string): (r: Option<AdHandle>)
    ensures r.None? <==> key !in n.adUnitIds || IsBlank(n.adUnitIds[key])
    ensures r.Some? ==> r.value == AdHandle(key, n.adUnitIds[key])
  {
    if key !in n.adUnitIds || IsBlank(n.adUnitIds[key]) then None
    else Some(AdHandle(key, n.adUnitIds[key]))
  }

  /** `onShowAds`: without a NativeAdView for the key the show fails and
      neither the ad nor the slot hears of it; with one, the ad is shown in
      that view and then the slot is told. */
  function OnShowAds(n: NativeAd, key: string): (r: Step<NativeAd>)
    ensures key !in n.nativeAdViews ==>
              r.next == n && r.effects == [ShowFailed(key, "NativeAdView not set")]
    ensures key in n.nativeAdViews ==>
              r.effects == [Display(key), Shown(key)] && r.next.children == n.children + [key]
    ensures Shown(key) in r.effects <==> key in n.nativeAdViews
    ensures r.next.slot == n.slot && r.next.adUnitIds == n.adUnitIds && r.next.nativeAdViews == n.nativeAdViews
  {
    if key !in n.nativeAdViews then Step(n, [ShowFailed(key, ViewNotSet)])
    else Step(n.(children := n.children + [key]), [Display(key), Shown(key)])
  }

  /** `hideAds`: the container is left with no children. */
  function HideAds(n: NativeAd): (r: Step<NativeAd>)
    ensures r.next.children == [] && r.effects == [ClearContainer]
    ensures r.next.slot == n.slot && r.next.adUnitIds == n.adUnitIds && r.next.nativeAdViews == n.nativeAdViews
  {
    Step(n.(children := []), [ClearContainer])
  }

  /** Showing then hiding leaves an empty container, whether the show went
      through or failed for want of a view. */
  lemma ShowThenHideEmpties(n: NativeAd, key: string)
    ensures HideAds(OnShowAds(n, key).next).next == n.(children := [])
  {
  }

  /** A registered id that is not blank creates an ad with that id; a blank
      one is refused, even though it is stored. */
  lemma RegisteredIdCreatesAd(n: NativeAd, key: string, id: string)
    ensures var r := SetAdUnitId(n, key, id);
            && GetAdUnitId(r, key) == Some(id)
            && (CreateAd(r, key).Some? <==> !IsBlank(id))
            && r.slot.config.preloadKey == Some(key)
  {
  }

  /** The two registries differ on blank ids: an empty or all-space id
      creates a banner but not a native ad. */
  lemma BlankIdsSplitBannerAndNative(key: string)
    ensures OzAdmobBannerAd.CreateAd(OzAdmobBannerAd.SetAdUnitId(OzAdmobBannerAd.Create(), key, ""), key).Some?
    ensures CreateAd(SetAdUnitId(Create(), key, ""), key).None?
    ensures CreateAd(SetAdUnitId(Create(), key, " \t"), key).None?
    ensures CreateAd(SetAdUnitId(Create(), key, "ca-app-pub"), key).Some?
  {
    var id := "ca-app-pub";
    assert !IsWhitespace(id[0]);
    assert !IsBlank(id);
  }

  /** Binding a view is what lets a show through for that key, and only for
      that key. */
  lemma ViewEnablesShow(n: NativeAd, key: string, other: string, view: NativeAdView)
    requires other != key
    ensures OnShowAds(SetNativeAdView(n, key, view), key).effects == [Display(key), Shown(key)]
    ensures OnShowAds(SetNativeAdView(n, key, view), other).effects == OnShowAds(n, other).effects
  {
  }
}
