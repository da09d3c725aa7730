/** The trading statistics of an account: the number of completed deals and
    the settled volume per currency code. */
module Stats {

  datatype Stats = Stats(completedDeals: nat, volumes: map<string, real>)

  /** The volume booked in `currency`; a currency never booked counts as 0
      (`volumes[c] || 0` in server.js, `COALESCE(volumes->>c, 0)` in SQL). */
  function VolumeOf(volumes: map<string, real>, currency: string): real
  {
    if currency in volumes then volumes[currency] else 0.0
  }

  /** What completing an order does to the seller: one more deal and the
      order's amount added to the volume of its currency, creating the key
      when absent and leaving every other currency alone. */
  function SettleSeller(s: Stats, currency: string, amount: real): (r: Stats)
    ensures r.completedDeals == s.completedDeals + 1
    ensures r.volumes.Keys == s.volumes.Keys + {currency}
    ensures VolumeOf(r.volumes, currency) == VolumeOf(s.volumes, currency) + amount
    ensures forall c :: c != currency ==> VolumeOf(r.volumes, c) == VolumeOf(s.volumes, c)
  {
    Stats(s.completedDeals + 1, s.volumes[currency := VolumeOf(s.volumes, currency) + amount])
  }

  /** What completing an order does to the buyer in server.js: one more deal,
      volumes untouched. */
  function CountBuyerDeal(s: Stats): (r: Stats)
    ensures r.completedDeals == s.completedDeals + 1
    ensures r.volumes == s.volumes
  {
    Stats(s.completedDeals + 1, s.volumes)
  }

  /** Settling the same order `n` times (nothing guards against a repeated
      completion) counts `n` deals and `n` times the amount. */
  function SettleRepeatedly(s: Stats, currency: string, amount: real, n: nat): Stats
  {
    if n == 0 then s else SettleSeller(SettleRepeatedly(s, currency, amount, n - 1), currency, amount)
  }

  lemma {:induction false} SettleRepeatedlyAdds(s: Stats, currency: string, amount: real, n: nat)
    ensures SettleRepeatedly(s, currency, amount, n).completedDeals == s.completedDeals + n
    ensures VolumeOf(SettleRepeatedly(s, currency, amount, n).volumes, currency)
            == VolumeOf(s.volumes, currency) + (n as real) * amount
    ensures forall c :: c != currency ==>
              VolumeOf(SettleRepeatedly(s, currency, amount, n).volumes, c) == VolumeOf(s.volumes, c)
  {
    if n > 0 {
      SettleRepeatedlyAdds(s, currency, amount, n - 1);
    }
  }

  /** Volumes never become negative when only non-negative amounts are settled. */
  ghost predicate NonNegativeVolumes(volumes: map<string, real>)
  {
    forall c :: c in volumes ==> volumes[c] >= 0.0
  }

  lemma SettleKeepsNonNegative(s: Stats, currency: string, amount: real)
    requires NonNegativeVolumes(s.volumes) && amount >= 0.0
    ensures NonNegativeVolumes(SettleSeller(s, currency, amount).volumes)
  {
    var r := SettleSeller(s, currency, amount);
    forall c | c in r.volumes ensures r.volumes[c] >= 0.0 {
      if c != currency {
        assert VolumeOf(r.volumes, c) == VolumeOf(s.volumes, c);
      }
    }
  }
}
