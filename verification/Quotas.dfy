/** The shared vocabulary: optional values and the tagged quota of internal/core/quota.go. */
module Quotas {

  datatype Option<+T> = None | Some(value: T)

  /** What a provider reports as a ceiling or as usage. The tag is the constructor, so the number an
      unknown or unlimited quota could carry by mistake does not exist; a negative count does. */
  datatype Quota = Unknown | Unlimited | Bytes(n: int) {

    predicate IsKnown() {
      !Unknown?
    }

    predicate Valid() {
      Bytes? ==> 0 <= n
    }

    predicate ValidAsUsage() {
      !Unlimited? && Valid()
    }
  }

  /** The constructor that refuses a negative count. */
  function BytesQuota(n: int): (q: Option<Quota>)
    ensures q.Some? <==> Bytes(n).Valid()
    ensures q.Some? ==> q.value == Bytes(n)
  {
    if n < 0 then None else Some(Bytes(n))
  }
}
