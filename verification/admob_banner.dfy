/** The AdMob banner slot: an inline slot fixed to BANNER, with a registry
    from placement key to ad unit id. The ad created for a key is a handle
    on the key and its id; the container is the list of keys whose ad views
    it holds. */
module OzAdmobBannerAd {
  import opened Wrappers
  import opened Formats
  import opened Effects
  import InlineAds

  /** `AdmobBanner(context, adUnitId, listener)`; the listener reports back
      under `key`. */
  datatype AdHandle = AdHandle(key: string, adUnitId: string)

  datatype BannerAd = BannerAd(slot: InlineAds.Slot, adUnitIds: map<string, string>, children: seq<string>)

  /** Construction sets the format to BANNER. */
  function Create(): (b: BannerAd)
    ensures b.slot.config.adsFormat == Some(Banner)
    ensures InlineAds.Valid(b.slot)
    ensures b.adUnitIds == map[] && b.children == []
  {
    BannerAd(InlineAds.SetAdsFormat(InlineAds.Init(), Banner).next, map[], [])
  }

  /** `getAdUnitId`: the registered id, or null for an unregistered key. */
  function GetAdUnitId(b: BannerAd, key: string): Option<string> {
    if key in b.adUnitIds then Some(b.adUnitIds[key]) else None
  }

  /** `setAdUnitId`: the key now answers `id`; every other key answers what
      it did before, and the slot is untouched. */
  function SetAdUnitId(b: BannerAd, key: string, id: string): (r: BannerAd)
    ensures GetAdUnitId(r, key) == Some(id)
    ensures forall k :: k != key ==> GetAdUnitId(r, k) == GetAdUnitId(b, k)
    ensures r.slot == b.slot && r.children == b.children
  {
    b.(adUnitIds := b.adUnitIds[key := id])
  }

  /** `createAd`: no ad without a configured id; any configured id, blank or
      not, is used as it is. */
  function CreateAd(b: BannerAd, key: string): (r: Option<AdHandle>)
    ensures r.None? <==> GetAdUnitId(b, key).None?
    ensures r.Some? ==> r.value == AdHandle(key, GetAdUnitId(b, key).value)
  {
    if key !in b.adUnitIds then None else Some(AdHandle(key, b.adUnitIds[key]))
  }

  /** `onShowAds`: the ad's view goes into the container, then the slot is
      told the ad for `key` was shown. */
  function OnShowAds(b: BannerAd, key: string): (r: Step<BannerAd>)
    ensures r.effects == [Display(key), Shown(key)]
    ensures r.next.children == b.children + [key]
    ensures r.next.slot == b.slot && r.next.adUnitIds == b.adUnitIds
  {
    Step(b.(children := b.children + [key]), [Display(key), Shown(key)])
  }

  /** `hideAds`: the container is left with no children. */
  function HideAds(b: BannerAd): (r: Step<BannerAd>)
    ensures r.next.children == [] && r.effects == [ClearContainer]
    ensures r.next.slot == b.slot && r.next.adUnitIds == b.adUnitIds
  {
    Step(b.(children := []), [ClearContainer])
  }

  /** Registering an id is what makes `createAd` succeed for that key, with
      exactly that id, and only for that key. */
  lemma RegisteredIdCreatesAd(b: BannerAd, key: string, id: string, other: string)
    requires other != key
    ensures CreateAd(SetAdUnitId(b, key, id), key) == Some(AdHandle(key, id))
    ensures CreateAd(SetAdUnitId(b, key, id), other) == CreateAd(b, other)
  {
  }

  /** A fresh banner has no ids, so nothing can be created until one is set. */
  lemma FreshBannerCreatesNothing(key: string)
    ensures CreateAd(Create(), key).None?
  {
  }

  /** Re-registering the same id is idempotent. */
  lemma SetAdUnitIdIdempotent(b: BannerAd, key: string, id: string)
    ensures SetAdUnitId(SetAdUnitId(b, key, id), key, id) == SetAdUnitId(b, key, id)
  {
  }

  /** Showing then hiding leaves an empty container whatever was shown. */
  lemma ShowThenHideEmpties(b: BannerAd, key: string)
    ensures HideAds(OnShowAds(b, key).next).next == b.(children := [])
  {
  }
}
