/** The price estimate of the sign cost calculator (`calculatePrice`,
    app/calculator/page.tsx:13-88) as a function of the four selections.
    Prices are exact reals. A size outside the four known ones makes the
    per-area formula multiply by `undefined`, which gives NaN in both
    bounds; that outcome is the constructor `NotANumber`. */
module Calculator {
  import opened Wrappers

  /** A price range in pounds. */
  datatype PriceRange = PriceRange(min: real, max: real)

  /** What the calculator shows: a range, or NaN bounds. */
  datatype Estimate = Priced(range: PriceRange) | NotANumber

  /** Per-square-metre rates (`materialPrices`); any other material is
      priced as Dibond (`materialPrices[material] || materialPrices.Dibond`). */
  function MaterialRate(material: string): (r: PriceRange)
    ensures 0.0 < r.min <= r.max
  {
    if material == "Foamex" then PriceRange(8.0, 15.0)
    else if material == "Dibond" then PriceRange(25.0, 45.0)
    else if material == "Aluminium" then PriceRange(60.0, 95.0)
    else if material == "Acrylic" then PriceRange(45.0, 85.0)
    else PriceRange(25.0, 45.0)
  }

  /** The approximate area of each size (`sizeMultipliers`); `None` for any
      other size, where the lookup is `undefined`. */
  function SizeMultiplier(size: string): (m: Option<real>)
    ensures m.Some? ==> m.value > 0.0
    ensures m.Some? <==> KnownSize(size)
  {
    if size == "Small" then Some(0.5)
    else if size == "Medium" then Some(1.5)
    else if size == "Large" then Some(3.0)
    else if size == "Extra Large" then Some(6.0)
    else None
  }

  predicate KnownSize(size: string) {
    size == "Small" || size == "Medium" || size == "Large" || size == "Extra Large"
  }

  predicate IsLarge(size: string) {
    size == "Large" || size == "Extra Large"
  }

  /** Material rate times size multiplier (app/calculator/page.tsx:45-51 and 72-79). */
  function PerArea(size: string, material: string): Estimate {
    match SizeMultiplier(size)
    case None => NotANumber
    case Some(m) => Priced(PriceRange(MaterialRate(material).min * m, MaterialRate(material).max * m))
  }

  /** The range chosen by sign type, before illumination (app/calculator/page.tsx:37-80). */
  function BasePrice(signType: string, size: string, material: string): Estimate {
    if signType == "Flat Panel" then
      if material == "Foamex" then Priced(PriceRange(150.0, 400.0))
      else if material == "Dibond" then Priced(PriceRange(250.0, 600.0))
      else if material == "Aluminium" then Priced(PriceRange(400.0, 900.0))
      else PerArea(size, material)
    else if signType == "Lightbox" then
      if IsLarge(size) then Priced(PriceRange(800.0, 1500.0)) else Priced(PriceRange(600.0, 1200.0))
    else if signType == "Built-up Letters" then
      if size == "Small" then Priced(PriceRange(1200.0, 2500.0)) else Priced(PriceRange(1500.0, 4000.0))
    else if signType == "Tray Sign" then Priced(PriceRange(1200.0, 3500.0))
    else if signType == "Vehicle Wrap" then Priced(PriceRange(1500.0, 3500.0))
    else if signType == "Window Graphics" then
      if IsLarge(size) then Priced(PriceRange(400.0, 1200.0)) else Priced(PriceRange(200.0, 800.0))
    else PerArea(size, material)
  }

  /** The illumination surcharge (app/calculator/page.tsx:82-85); NaN stays NaN. */
  function Illuminate(e: Estimate, illuminated: string): (r: Estimate)
    ensures illuminated != "Yes" ==> r == e
    ensures e.NotANumber? <==> r.NotANumber?
    ensures illuminated == "Yes" && e.Priced? ==>
      r.range.min - e.range.min == 300.0 && r.range.max - e.range.max == 1500.0
  {
    match e
    case NotANumber => NotANumber
    case Priced(p) => if illuminated == "Yes" then Priced(PriceRange(p.min + 300.0, p.max + 1500.0)) else e
  }

  /** `calculatePrice`: nothing until sign type, size and material are all
      chosen (illumination may be left unchosen). */
  function CalculatePrice(signType: string, size: string, material: string, illuminated: string): (r: Option<Estimate>)
    ensures r.None? <==> signType == "" || size == "" || material == ""
    ensures r.Some? ==> (r.value.NotANumber? <==> BasePrice(signType, size, material).NotANumber?)
  {
    if signType == "" || size == "" || material == "" then None
    else Some(Illuminate(BasePrice(signType, size, material), illuminated))
  }

  // ---------------------------------------------------------------------
  // Properties

  /** The bare estimate (illumination not chosen), for a full selection. */
  function Bare(signType: string, size: string, material: string): Option<Estimate> {
    CalculatePrice(signType, size, material, "")
  }

  /** Flat panels in Foamex, Dibond and Aluminium have fixed prices whatever the size. */
  lemma FlatPanelFixed(size: string)
    requires size != ""
    ensures Bare("Flat Panel", size, "Foamex") == Some(Priced(PriceRange(150.0, 400.0)))
    ensures Bare("Flat Panel", size, "Dibond") == Some(Priced(PriceRange(250.0, 600.0)))
    ensures Bare("Flat Panel", size, "Aluminium") == Some(Priced(PriceRange(400.0, 900.0)))
  {
  }

  /** Any other flat panel is priced by area, an unknown material at Dibond's rates. */
  lemma FlatPanelByArea(size: string, material: string, m: real)
    requires material != "" && material != "Foamex" && material != "Dibond" && material != "Aluminium"
    requires SizeMultiplier(size) == Some(m)
    ensures Bare("Flat Panel", size, material) ==
      Some(Priced(PriceRange(MaterialRate(material).min * m, MaterialRate(material).max * m)))
    ensures material != "Acrylic" ==> MaterialRate(material) == MaterialRate("Dibond")
  {
  }

  /** Acrylic flat panels: 22.50-42.50 small, 67.50-127.50 medium, 135-255
      large and 270-510 extra large. */
  lemma AcrylicFlatPanels()
    ensures Bare("Flat Panel", "Small", "Acrylic") == Some(Priced(PriceRange(22.5, 42.5)))
    ensures Bare("Flat Panel", "Medium", "Acrylic") == Some(Priced(PriceRange(67.5, 127.5)))
    ensures Bare("Flat Panel", "Large", "Acrylic") == Some(Priced(PriceRange(135.0, 255.0)))
    ensures Bare("Flat Panel", "Extra Large", "Acrylic") == Some(Priced(PriceRange(270.0, 510.0)))
  {
  }

  /** Lightboxes, window graphics and built-up letters have two size tiers;
      tray signs and vehicle wraps one price; none depends on the material. */
  lemma SizeTiers(size: string, material: string)
    requires size != "" && material != ""
    ensures Bare("Lightbox", size, material) ==
      Some(Priced(if IsLarge(size) then PriceRange(800.0, 1500.0) else PriceRange(600.0, 1200.0)))
    ensures Bare("Window Graphics", size, material) ==
      Some(Priced(if IsLarge(size) then PriceRange(400.0, 1200.0) else PriceRange(200.0, 800.0)))
    ensures Bare("Built-up Letters", size, material) ==
      Some(Priced(if size == "Small" then PriceRange(1200.0, 2500.0) else PriceRange(1500.0, 4000.0)))
    ensures Bare("Tray Sign", size, material) == Some(Priced(PriceRange(1200.0, 3500.0)))
    ensures Bare("Vehicle Wrap", size, material) == Some(Priced(PriceRange(1500.0, 3500.0)))
  {
  }

  /** An unrecognised sign type falls back to material rate times size multiplier. */
  lemma UnknownSignType(signType: string, size: string, material: string)
    requires signType != "" && size != "" && material != ""
    requires signType !in {"Flat Panel", "Lightbox", "Built-up Letters", "Tray Sign", "Vehicle Wrap", "Window Graphics"}
    ensures Bare(signType, size, material) == Some(PerArea(size, material))
  {
  }

  /** Illumination "Yes" adds 300 to the minimum and 1500 to the maximum;
      any other answer changes nothing. */
  lemma IlluminationSurcharge(signType: string, size: string, material: string, illuminated: string)
    requires signType != "" && size != "" && material != ""
    requires Bare(signType, size, material).value.Priced?
    ensures var bare := Bare(signType, size, material).value.range;
      var lit := CalculatePrice(signType, size, material, illuminated).value;
      lit == Priced(if illuminated == "Yes" then PriceRange(bare.min + 300.0, bare.max + 1500.0) else bare)
  {
  }

  /** The bounds are NaN only for a per-area price with an unknown size. */
  lemma NotANumberOnlyForUnknownSize(signType: string, size: string, material: string, illuminated: string)
    requires signType != "" && size != "" && material != ""
    ensures CalculatePrice(signType, size, material, illuminated).value.NotANumber? ==> !KnownSize(size)
  {
  }

  lemma PerAreaOrdered(size: string, material: string)
    requires KnownSize(size)
    ensures PerArea(size, material).Priced?
    ensures 0.0 < PerArea(size, material).range.min <= PerArea(size, material).range.max
  {
    var rate := MaterialRate(material);
    if size == "Small" {
      assert PerArea(size, material).range == PriceRange(rate.min * 0.5, rate.max * 0.5);
    } else if size == "Medium" {
      assert PerArea(size, material).range == PriceRange(rate.min * 1.5, rate.max * 1.5);
    } else if size == "Large" {
      assert PerArea(size, material).range == PriceRange(rate.min * 3.0, rate.max * 3.0);
    } else {
      assert PerArea(size, material).range == PriceRange(rate.min * 6.0, rate.max * 6.0);
    }
  }

  /** For every selection with a known size, the estimate is a range with
      0 < min <= max. */
  lemma MinAtMostMax(signType: string, size: string, material: string, illuminated: string)
    requires signType != "" && material != "" && KnownSize(size)
    ensures var r := CalculatePrice(signType, size, material, illuminated);
      r.Some? && r.value.Priced? && 0.0 < r.value.range.min <= r.value.range.max
  {
    BaseOrdered(signType, size, material);
  }

  lemma BaseOrdered(signType: string, size: string, material: string)
    requires KnownSize(size)
    ensures var b := BasePrice(signType, size, material); b.Priced? && 0.0 < b.range.min <= b.range.max
  {
    var b := BasePrice(signType, size, material);
    if b == PerArea(size, material) {
      PerAreaOrdered(size, material);
    }
  }

  /** A per-area price grows with the size. */
  lemma PerAreaGrowsWithSize(material: string)
    ensures PerArea("Small", material).range.min < PerArea("Medium", material).range.min
    ensures PerArea("Small", material).range.max < PerArea("Medium", material).range.max
    ensures PerArea("Medium", material).range.min < PerArea("Large", material).range.min
    ensures PerArea("Large", material).range.min < PerArea("Extra Large", material).range.min
    ensures PerArea("Medium", material).range.max < PerArea("Large", material).range.max
    ensures PerArea("Large", material).range.max < PerArea("Extra Large", material).range.max
  {
  }
}
