/** Everything a transition asks of the outside world: the abstract hooks of
    the base classes, the ad-network handle and the host view. */
module Effects {

  datatype Effect =
    | RequestLoad                          // onLoadAd()
    | RequestShow                          // onShowAds()
    | RequestHide                          // hideAds()
    | ReleaseAd                            // destroyAd()
    | PauseAd                              // onPauseAd()
    | ResumeAd                             // onResumeAd()
    | DelegateShow(key: string)            // super.showAds(key)
    | DelegateDismiss(key: string)         // super.onAdDismissed(key)
    | ShowFailed(key: string, reason: string)  // onAdShowFailed(key, reason)
    | Display(key: string)                 // ad.show(container[, view])
    | Shown(key: string)                   // onAdShown(key)
    | ClearContainer                       // removeAllViews()

  /** The state after a transition and what it asked of the outside world, in order. */
  datatype Step<S> = Step(next: S, effects: seq<Effect>)
}
