/** `getVolumePrice`: the price of a bottle size, derived from the 50ml base
    price. */
module Pricing {
  import opened Wrappers
  import opened Text

  /** `Math.round(n / d)` for a positive divisor: the integer nearest to
      n / d, halves rounded up. */
  function RoundDiv(n: int, d: int): (r: int)
    requires d > 0
    ensures 2 * d * r <= 2 * n + d < 2 * d * (r + 1)
  {
    var q := (2 * n + d) / (2 * d);
    assert 2 * n + d == q * (2 * d) + (2 * n + d) % (2 * d);
    q
  }

  /** `parseInt(volume.replace('ml', ''))`; `None` is `NaN`. */
  function ParseMl(volume: string): Option<int> {
    ParseInt(RemoveFirst(volume, "ml"))
  }

  /** `getVolumePrice(volume, basePrice)`; `None` is `NaN`, which a volume
      without digits produces. The base price is the 50ml price; 100ml costs
      1.8 times as much, 200ml 3.2 times, and any other size is priced in
      proportion to 50ml. */
  function VolumePrice(volume: Option<string>, basePrice: int): Option<int> {
    if volume.None? || volume.value == "" || basePrice == 0 then Some(basePrice)
    else
      match ParseMl(volume.value)
      case None => None
      case Some(ml) => Some(MlPrice(ml, basePrice))
  }

  /** The price of `ml` millilitres once the label has parsed. */
  function MlPrice(ml: int, basePrice: int): int {
    if ml == 50 then basePrice
    else if ml == 100 then RoundDiv(basePrice * 18, 10)
    else if ml == 200 then RoundDiv(basePrice * 32, 10)
    else RoundDiv(basePrice * ml, 50)
  }

  /** Every size of a free product is free. */
  lemma MlPriceOfZero(ml: int)
    ensures MlPrice(ml, 0) == 0
  {
    if ml == 100 {
      assert RoundDiv(0 * 18, 10) == 0;
    } else if ml == 200 {
      assert RoundDiv(0 * 32, 10) == 0;
    } else if ml != 50 {
      assert 0 * ml == 0;
      assert RoundDiv(0, 50) == 0;
    }
  }

  /** A size label `<n>ml` parses back to n. */
  lemma ParseMlOfLabel(n: nat)
    ensures ParseMl(NatToString(n) + "ml") == Some(n)
  {
    RemoveFirstAppended(NatToString(n), "ml");
    ParseIntOfNatToString(n);
  }

  lemma Ml50()
    ensures ParseMl("50ml") == Some(50)
  {
    assert NatToString(50) == "50";
    assert "50ml" == NatToString(50) + "ml";
    ParseMlOfLabel(50);
  }

  lemma Ml100()
    ensures ParseMl("100ml") == Some(100)
  {
    assert NatToString(100) == "100";
    assert "100ml" == NatToString(100) + "ml";
    ParseMlOfLabel(100);
  }

  lemma Ml200()
    ensures ParseMl("200ml") == Some(200)
  {
    assert NatToString(200) == "200";
    assert "200ml" == NatToString(200) + "ml";
    ParseMlOfLabel(200);
  }

  /** A missing volume, or a zero base price, gives the base price. */
  lemma VolumePriceWithoutVolume(basePrice: int)
    ensures VolumePrice(None, basePrice) == Some(basePrice)
    ensures VolumePrice(Some(""), basePrice) == Some(basePrice)
    ensures forall v :: VolumePrice(Some(v), 0) == Some(0)
  {
  }

  /** A volume label priced by the millilitres it parses to. */
  lemma PriceByMl(v: string, b: int, ml: int)
    requires v != "" && ParseMl(v) == Some(ml)
    ensures VolumePrice(Some(v), b) == Some(MlPrice(ml, b))
  {
    MlPriceOfZero(ml);
  }

  /** The 50ml size costs the base price. */
  lemma Price50(b: int)
    ensures VolumePrice(Some("50ml"), b) == Some(b)
  {
    Ml50();
    PriceByMl("50ml", b, 50);
  }

  /** The 100ml size costs 1.8 times the base price, rounded. */
  lemma Price100(b: int)
    ensures VolumePrice(Some("100ml"), b) == Some(RoundDiv(b * 18, 10))
  {
    Ml100();
    PriceByMl("100ml", b, 100);
  }

  /** The 200ml size costs 3.2 times the base price, rounded. */
  lemma Price200(b: int)
    ensures VolumePrice(Some("200ml"), b) == Some(RoundDiv(b * 32, 10))
  {
    Ml200();
    PriceByMl("200ml", b, 200);
  }

  /** For a positive base price, a larger bottle costs more, and the larger
      sizes are discounted: 100ml costs at most two 50ml bottles, 200ml at
      most two 100ml bottles. */
  lemma VolumeDiscounts(b: int)
    requires b > 0
    ensures var p100 := RoundDiv(b * 18, 10); var p200 := RoundDiv(b * 32, 10);
      b < p100 < p200 && p100 <= 2 * b && p200 <= 2 * p100
  {
  }
}
