/** What the two adapters predict and decode (internal/providers/nextcloud/nextcloud.go and quota.go,
    internal/providers/immich/immich.go). */
module Adapters {
  import opened Quotas
  import opened Text
  import opened Sizes
  import opened SizeText

  datatype Adapter = Nextcloud | Immich

  /** What the service will store when asked for q. Nextcloud rewrites byte counts; Immich keeps them. */
  function NormalizeQuota(adapter: Adapter, q: Quota): Quota {
    if adapter.Nextcloud? && q.Bytes? then
      var stored := BytesQuota(NormalizeBytes(q.n));
      if stored.Some? then stored.value else Unknown
    else q
  }

  /** Normalising is idempotent, keeps unlimited and unknown apart from everything else, and never
      makes a valid quota invalid. */
  lemma NormalizeQuotaStable(adapter: Adapter, q: Quota)
    ensures NormalizeQuota(adapter, NormalizeQuota(adapter, q)) == NormalizeQuota(adapter, q)
    ensures q.Valid() ==> NormalizeQuota(adapter, q).Valid() && (NormalizeQuota(adapter, q).IsKnown() <==> q.IsKnown())
    ensures q.Unlimited? <==> NormalizeQuota(adapter, q).Unlimited?
  {
    if q.Bytes? {
      NormalizeIdempotent(q.n);
      if 0 <= q.n {
        StoredRange(q.n);
      }
    }
  }

  // ----- decoding Nextcloud's quota object

  const SPACE_UNLIMITED := -3

  /** The innermost quota value on the wire: absent, text, a number, or some other JSON. */
  datatype WireValue = Null | Text(s: string) | Number(n: int) | OtherValue

  /** The quota object: missing (also null or a list), not an object at all, or with its fields. */
  datatype WireQuota =
    | Missing
    | Malformed
    | Object(quota: WireValue, used: Option<int>, hasTotal: bool, hasRelative: bool)

  function QuotaFromWire(n: int): Option<Quota> {
    if n == SPACE_UNLIMITED then Some(Unlimited) else BytesQuota(n)
  }

  function DecodeQuotaValue(v: WireValue): Option<Quota> {
    match v
    case Null => Some(Unknown)
    case Text(s) =>
      var word := Lower(Trim(s));
      if word == "none" then Some(Unlimited)
      else if word == "" then Some(Unknown)
      else
        var n := ParseHumanSize(s);
        if n.Some? then QuotaFromWire(n.value) else None
    case Number(n) => QuotaFromWire(n)
    case OtherValue => None
  }

  datatype Decoded = Undecodable | Decoded(configured: Quota, used: Quota, neverUsed: bool)

  function DecodeQuotaObject(w: WireQuota, firstLogin: Option<int>): (d: Decoded) {
    match w
    case Missing => Decoded(Unknown, Unknown, false)
    case Malformed => Undecodable
    case Object(quota, used, hasTotal, hasRelative) =>
      var configured := DecodeQuotaValue(quota);
      if configured.None? then Undecodable
      else if !hasTotal || !hasRelative || used.None? then Decoded(configured.value, Unknown, false)
      else if firstLogin == Some(0) then Decoded(configured.value, Bytes(0), true)
      else if used.value < 0 then Decoded(configured.value, Unknown, false)
      else Decoded(configured.value, Bytes(used.value), false)
  }

  /** An account marked as never used has a usage that is known and zero; and whatever is decoded,
      the store accepts it: no unlimited usage and no negative count. */
  lemma DecodedIsSound(w: WireQuota, firstLogin: Option<int>)
    ensures var d := DecodeQuotaObject(w, firstLogin);
            d.Decoded? ==>
              (d.neverUsed ==> d.used == Bytes(0)) && d.configured.Valid() && d.used.ValidAsUsage()
  {
  }

  /** Text that starts with a digit is never one of the words. */
  lemma DecodeOfNumber(s: string)
    requires s != "" && IsDigit(s[0]) && Trim(s) == s
    ensures var n := ParseHumanSize(s);
            DecodeQuotaValue(Text(s)) == if n.Some? then QuotaFromWire(n.value) else None
  {
    assert Lower(s)[0] == s[0] != 'n';
  }

  /** Decoding the text the instance stores for n bytes gives exactly what NormalizeQuota promised. */
  lemma DecodeOfStored(n: nat)
    ensures DecodeQuotaValue(Text(HumanString(n))) == Some(NormalizeQuota(Nextcloud, Bytes(n)))
  {
    StoredTextIsTrimmed(n);
    DecodeOfNumber(HumanString(n));
    ParseOfPrinted(n);
  }

  lemma StoredTextIsTrimmed(n: nat)
    ensures var s := HumanString(n); s != "" && IsDigit(s[0]) && Trim(s) == s
  {
    var size := HumanSize(n);
    SizeTenthsNonNegative(n);
    var number, tail := PrintTenths(size.tenths), " " + UNITS[size.unit];
    ReadTenths(size.tenths);
    UnitNameOfPrinted(size.unit);
    assert tail[|tail| - 1] == 'B';
    ParseSplit(number, tail);
  }
}
