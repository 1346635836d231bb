/** The pricing resolver: an optional per-(party, item) discount override,
    clamped to [0, 100], from which the unit rate is derived. */
module Pricing {
  import opened Common
  import opened Records

  /** PartyPrice table: (party_id, item_id) -> discount_percent. */
  type PriceTable = map<(int, int), real>

  datatype Price = Price(rate: real, discountPercent: real)

  /** `max(0.0, min(100.0, d))` */
  function Clamp(d: real): (c: real)
    ensures 0.0 <= c <= 100.0
    ensures 0.0 <= d <= 100.0 ==> c == d
    ensures d > 100.0 ==> c == 100.0
    ensures d < 0.0 ==> c == 0.0
  {
    var m := if d < 100.0 then d else 100.0;
    if 0.0 < m then m else 0.0
  }

  /** The rate for a list price after a discount percentage, rounded to paise. */
  function DiscountedRate(salePrice: real, disc: real): real
  {
    Round2(salePrice * (1.0 - disc / 100.0))
  }

  /** `apply_party_price` */
  function ApplyPartyPrice(prices: PriceTable, partyId: int, item: Item): (p: Price)
    ensures (partyId, item.id) !in prices ==> p == Price(item.salePrice, 0.0)
    ensures 0.0 <= p.discountPercent <= 100.0
    ensures (partyId, item.id) in prices ==>
              p.discountPercent == Clamp(prices[(partyId, item.id)])
              && p.rate == DiscountedRate(item.salePrice, p.discountPercent)
  {
    if (partyId, item.id) !in prices then
      Price(item.salePrice, 0.0)
    else
      var disc := Clamp(prices[(partyId, item.id)]);
      Price(DiscountedRate(item.salePrice, disc), disc)
  }

  /** A stored discount of 100 or more gives the item away: rate 0, discount 100. */
  lemma FullDiscountIsFree(prices: PriceTable, partyId: int, item: Item)
    requires (partyId, item.id) in prices && prices[(partyId, item.id)] >= 100.0
    ensures ApplyPartyPrice(prices, partyId, item) == Price(0.0, 100.0)
  {
    var d := prices[(partyId, item.id)];
    assert Clamp(d) == 100.0;
    assert item.salePrice * (1.0 - 100.0 / 100.0) == 0.0;
    Round2Sign(0.0);
  }

  /** A stored discount of 0 or less changes nothing but the rounding of the price. */
  lemma NegativeDiscountIsNone(prices: PriceTable, partyId: int, item: Item)
    requires (partyId, item.id) in prices && prices[(partyId, item.id)] <= 0.0
    ensures ApplyPartyPrice(prices, partyId, item) == Price(Round2(item.salePrice), 0.0)
  {
    var d := prices[(partyId, item.id)];
    assert Clamp(d) == 0.0;
    assert item.salePrice * (1.0 - 0.0 / 100.0) == item.salePrice;
  }

  /** For a non-negative list price in whole paise and a discount in
      [0, 100], the discounted rate lies between zero and the list price. */
  lemma DiscountedRateWithinListPrice(salePrice: real, disc: real, paise: nat)
    requires salePrice == (paise as real) / 100.0
    requires 0.0 <= disc <= 100.0
    ensures 0.0 <= DiscountedRate(salePrice, disc) <= salePrice
  {
    ProductNonNegative(salePrice, 1.0 - disc / 100.0);
    ProductNonNegative(salePrice, disc / 100.0);
    assert 0.0 <= salePrice * (1.0 - disc / 100.0) <= salePrice;
    Round2Monotone(0.0, salePrice * (1.0 - disc / 100.0));
    Round2Monotone(salePrice * (1.0 - disc / 100.0), salePrice);
    Round2Sign(0.0);
    Round2Paise(paise);
  }

  /** The resolved rate never exceeds the list price (for a non-negative
      price given in whole paise) and never falls below zero. */
  lemma RateWithinListPrice(prices: PriceTable, partyId: int, item: Item, paise: nat)
    requires item.salePrice == (paise as real) / 100.0
    ensures 0.0 <= ApplyPartyPrice(prices, partyId, item).rate <= item.salePrice
  {
    var p := ApplyPartyPrice(prices, partyId, item);
    if (partyId, item.id) in prices {
      DiscountedRateWithinListPrice(item.salePrice, p.discountPercent, paise);
    }
  }

  lemma ProductNonNegative(a: real, b: real)
    requires a >= 0.0 && b >= 0.0
    ensures a * b >= 0.0
  {
  }
}
