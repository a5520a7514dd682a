/** The closed set of ad formats and the per-specialisation rule saying
    which of them a slot accepts. */
module Formats {
  import opened Wrappers

  datatype AdsFormat = Banner | Native | Interstitial | AppOpen

  /** The two abstract hooks every specialisation supplies: `isValidFormat`
      and `getValidFormats`. */
  datatype FormatPolicy = FormatPolicy(isValid: AdsFormat -> bool, listed: seq<AdsFormat>)

  /** `setAdsFormat` throws IllegalArgumentException naming the rejected
      format and the valid list; here that exception is a value. */
  datatype FormatError = InvalidFormat(format: AdsFormat, valid: seq<AdsFormat>)

  /** The state after an operation that may be refused, with the refusal if
      there was one; a refused call leaves the state as it was. */
  datatype Attempt<S> = Attempt(next: S, error: Option<FormatError>)

  /** A policy is coherent when its list names exactly the formats it accepts. */
  ghost predicate Coherent(p: FormatPolicy) {
    forall f :: p.isValid(f) <==> f in p.listed
  }
}
