/** What the pricing formula promises: its closed form over catalog entries,
    monotonicity in the surcharges, and the worked values of the shipped catalogs. */
module PricingProperties {
  import opened Catalog
  import opened Pricing

  /** With unique ids, looking up an entry's own id finds that entry. */
  lemma {:induction false} LookupOwnId<T>(collection: seq<T>, idOf: T -> string, k: nat, catalogName: string)
    requires UniqueIds(collection, idOf) && k < |collection|
    ensures Lookup(collection, idOf, idOf(collection[k]), catalogName) == Ok(collection[k])
  {
    var r := Lookup(collection, idOf, idOf(collection[k]), catalogName);
    assert HasId(collection, idOf, idOf(collection[k]));
    var m :| 0 <= m < |collection| && collection[m] == r.value &&
             forall j :: 0 <= j < m ==> idOf(collection[j]) != idOf(collection[k]);
    assert idOf(collection[m]) == idOf(collection[k]);
    assert !(k < m);
    assert !(m < k);
  }

  /** Sum of the surcharge fractions of a list of entries: an independent
      reference for ExtrasSum. */
  function TotalExtra(services: seq<ExtraService>): real {
    if services == [] then 0.0 else TotalExtra(services[..|services| - 1]) + services[|services| - 1].extra
  }

  /** The ids of a list of entries, in the same order. */
  function Ids(services: seq<ExtraService>): (ids: seq<string>)
    ensures |ids| == |services|
    ensures forall i :: 0 <= i < |services| ==> ids[i] == services[i].id
  {
    if services == [] then [] else Ids(services[..|services| - 1]) + [services[|services| - 1].id]
  }

  /** Listing catalog entries by id sums exactly their fractions, in any catalog
      whose ids are unique. */
  lemma {:induction false} ExtrasSumOfEntries(catalog: seq<ExtraService>, chosen: seq<ExtraService>)
    requires UniqueIds(catalog, ExtraId)
    requires forall i :: 0 <= i < |chosen| ==> chosen[i] in catalog
    ensures ExtrasSum(catalog, Ids(chosen)) == Ok(TotalExtra(chosen))
    decreases |chosen|
  {
    if chosen != [] {
      var front := chosen[..|chosen| - 1];
      var last := chosen[|chosen| - 1];
      var ids := Ids(chosen);
      ExtrasSumOfEntries(catalog, front);
      assert ids[..|ids| - 1] == Ids(front);
      var k :| 0 <= k < |catalog| && catalog[k] == last;
      LookupOwnId(catalog, ExtraId, k, "extra service");
      assert ids[|ids| - 1] == ExtraId(catalog[k]);
      assert ExtrasSum(catalog, ids) == Ok(TotalExtra(front) + last.extra);
    }
  }

  /** Every id of two known lists is known in their concatenation. */
  lemma AllKnownConcat(services: seq<ExtraService>, a: seq<string>, b: seq<string>)
    requires AllKnown(services, a) && AllKnown(services, b)
    ensures AllKnown(services, a + b)
  {
    forall i | 0 <= i < |a + b| ensures HasId(services, ExtraId, (a + b)[i]) {
      if i < |a| { assert (a + b)[i] == a[i]; } else { assert (a + b)[i] == b[i - |a|]; }
    }
  }

  /** One step of the sum: the last id's fraction added to the sum of the others. */
  lemma {:induction false} ExtrasSumStep(services: seq<ExtraService>, ids: seq<string>)
    requires |ids| > 0 && AllKnown(services, ids)
    ensures AllKnown(services, ids[..|ids| - 1])
    ensures ExtrasSum(services, ids)
         == Ok(ExtrasSum(services, ids[..|ids| - 1]).value +
               Lookup(services, ExtraId, ids[|ids| - 1], "extra service").value.extra)
  {
    var front := ids[..|ids| - 1];
    forall i | 0 <= i < |front| ensures HasId(services, ExtraId, front[i]) {
      assert front[i] == ids[i];
    }
    assert HasId(services, ExtraId, ids[|ids| - 1]);
    assert ExtrasSum(services, front).Ok?;
  }

  /** The surcharge fraction of an extra-service id, 0 when the id is unknown. */
  function Fraction(services: seq<ExtraService>, id: string): real {
    var r := Lookup(services, ExtraId, id, "extra service");
    if r.Ok? then r.value.extra else 0.0
  }

  /** The fractions of the listed ids added up: a reference for ExtrasSum without
      the error path. */
  function Fractions(services: seq<ExtraService>, ids: seq<string>): real
    decreases |ids|
  {
    if ids == [] then 0.0 else Fractions(services, ids[..|ids| - 1]) + Fraction(services, ids[|ids| - 1])
  }

  /** When every id is known, the extras sum is the reference sum. */
  lemma {:induction false} ExtrasSumIsFractions(services: seq<ExtraService>, ids: seq<string>)
    requires AllKnown(services, ids)
    ensures ExtrasSum(services, ids) == Ok(Fractions(services, ids))
    decreases |ids|
  {
    if ids != [] {
      ExtrasSumStep(services, ids);
      ExtrasSumIsFractions(services, ids[..|ids| - 1]);
    }
  }

  /** The reference sum is additive over concatenation. */
  lemma {:induction false} FractionsConcat(services: seq<ExtraService>, a: seq<string>, b: seq<string>)
    ensures Fractions(services, a + b) == Fractions(services, a) + Fractions(services, b)
    decreases |b|
  {
    if b == [] {
      assert a + b == a;
    } else {
      FractionsConcat(services, a, b[..|b| - 1]);
      assert (a + b)[..|a + b| - 1] == a + b[..|b| - 1];
      assert (a + b)[|a + b| - 1] == b[|b| - 1];
    }
  }

  /** Summing over a concatenation adds the two sums. */
  lemma ExtrasSumConcat(services: seq<ExtraService>, a: seq<string>, b: seq<string>)
    requires AllKnown(services, a) && AllKnown(services, b)
    ensures ExtrasSum(services, a + b) == Ok(ExtrasSum(services, a).value + ExtrasSum(services, b).value)
  {
    AllKnownConcat(services, a, b);
    ExtrasSumIsFractions(services, a);
    ExtrasSumIsFractions(services, b);
    ExtrasSumIsFractions(services, a + b);
    FractionsConcat(services, a, b);
  }

  /** With non-negative fractions the extras sum is non-negative. */
  lemma {:induction false} ExtrasSumNonNegative(services: seq<ExtraService>, ids: seq<string>)
    requires forall i :: 0 <= i < |services| ==> services[i].extra >= 0.0
    requires AllKnown(services, ids)
    ensures ExtrasSum(services, ids).value >= 0.0
    decreases |ids|
  {
    if ids != [] {
      var front := ids[..|ids| - 1];
      assert forall i :: 0 <= i < |front| ==> front[i] == ids[i];
      ExtrasSumNonNegative(services, front);
      var r := Lookup(services, ExtraId, ids[|ids| - 1], "extra service");
      var k :| 0 <= k < |services| && services[k] == r.value;
    }
  }

  /** The closed form: for entries of catalogs with unique ids, the price is the
      three-step price of those entries and the sum of the chosen fractions,
      with the one rounding applied to the final value (see StepwiseProduct). */
  lemma PriceOfEntries(cat: Catalogs, p: ProjectType, c: ComplexityLevel, u: UrgencyOption,
                       chosen: seq<ExtraService>)
    requires UniqueIds(cat.projects, ProjectId) && UniqueIds(cat.complexities, ComplexityId)
    requires UniqueIds(cat.urgencies, UrgencyId) && UniqueIds(cat.extras, ExtraId)
    requires p in cat.projects && c in cat.complexities && u in cat.urgencies
    requires forall i :: 0 <= i < |chosen| ==> chosen[i] in cat.extras
    ensures CalculatePrice(cat, p.id, c.id, u.id, Ids(chosen))
         == Ok(Round(Stepwise(p.basePrice, c.multiplier, TotalExtra(chosen), u.extra)))
  {
    var i :| 0 <= i < |cat.projects| && cat.projects[i] == p;
    var j :| 0 <= j < |cat.complexities| && cat.complexities[j] == c;
    var k :| 0 <= k < |cat.urgencies| && cat.urgencies[k] == u;
    LookupOwnId(cat.projects, ProjectId, i, "project");
    LookupOwnId(cat.complexities, ComplexityId, j, "complexity");
    LookupOwnId(cat.urgencies, UrgencyId, k, "urgency");
    ExtrasSumOfEntries(cat.extras, chosen);
    PriceOfResolved(cat, p.id, c.id, u.id, Ids(chosen), p, c, u, TotalExtra(chosen));
  }

  /** The three steps compose to one product. */
  lemma StepwiseProduct(basePrice: int, multiplier: real, extrasPercent: real, urgencyExtra: real)
    ensures Stepwise(basePrice, multiplier, extrasPercent, urgencyExtra)
         == basePrice as real * multiplier * (1.0 + extrasPercent) * (1.0 + urgencyExtra)
  {
  }

  /** An empty extras list makes the second step a multiplication by 1. */
  lemma EmptyExtrasIsNoOp(basePrice: int, multiplier: real, urgencyExtra: real)
    ensures Stepwise(basePrice, multiplier, 0.0, urgencyExtra)
         == basePrice as real * multiplier * (1.0 + urgencyExtra)
  {
  }

  /** An empty extras list sums to 0, so the price skips the second step. */
  lemma EmptyExtrasPrice(cat: Catalogs, projectId: string, complexityId: string, urgencyId: string)
    requires CalculatePrice(cat, projectId, complexityId, urgencyId, []).Ok?
    ensures CalculatePrice(cat, projectId, complexityId, urgencyId, []).value
         == Round(Lookup(cat.projects, ProjectId, projectId, "project").value.basePrice as real *
                  Lookup(cat.complexities, ComplexityId, complexityId, "complexity").value.multiplier *
                  (1.0 + Lookup(cat.urgencies, UrgencyId, urgencyId, "urgency").value.extra))
  {
    PriceOfLookups(cat, projectId, complexityId, urgencyId, []);
    EmptyExtrasIsNoOp(Lookup(cat.projects, ProjectId, projectId, "project").value.basePrice,
                      Lookup(cat.complexities, ComplexityId, complexityId, "complexity").value.multiplier,
                      Lookup(cat.urgencies, UrgencyId, urgencyId, "urgency").value.extra);
  }

  /** An urgency option with surcharge 0 leaves the price after extras unchanged. */
  lemma ZeroUrgencyPrice(cat: Catalogs, projectId: string, complexityId: string, urgencyId: string,
                         selectedExtras: seq<string>)
    requires CalculatePrice(cat, projectId, complexityId, urgencyId, selectedExtras).Ok?
    requires Lookup(cat.urgencies, UrgencyId, urgencyId, "urgency").value.extra == 0.0
    ensures CalculatePrice(cat, projectId, complexityId, urgencyId, selectedExtras).value
         == Round(Lookup(cat.projects, ProjectId, projectId, "project").value.basePrice as real *
                  Lookup(cat.complexities, ComplexityId, complexityId, "complexity").value.multiplier *
                  (1.0 + ExtrasSum(cat.extras, selectedExtras).value))
  {
    PriceOfLookups(cat, projectId, complexityId, urgencyId, selectedExtras);
  }

  /** Rounding preserves order. */
  lemma RoundMonotone(x: real, y: real)
    requires x <= y
    ensures Round(x) <= Round(y)
  {
  }

  /** x × a ≤ x × b for x ≥ 0 and a ≤ b. */
  lemma ScaleMonotone(x: real, a: real, b: real)
    requires x >= 0.0 && a <= b
    ensures x * a <= x * b
  {
    assert x * b - x * a == x * (b - a);
  }

  /** The stepwise price grows with the extras sum. */
  lemma StepwiseMonotoneInExtras(basePrice: int, multiplier: real, s1: real, s2: real, urgencyExtra: real)
    requires basePrice >= 0 && multiplier >= 0.0 && urgencyExtra >= 0.0 && s1 <= s2
    ensures Stepwise(basePrice, multiplier, s1, urgencyExtra) <= Stepwise(basePrice, multiplier, s2, urgencyExtra)
  {
    var step1 := basePrice as real * multiplier;
    ScaleMonotone(basePrice as real, 0.0, multiplier);
    ScaleMonotone(step1, 1.0 + s1, 1.0 + s2);
    ScaleMonotone(1.0 + urgencyExtra, step1 * (1.0 + s1), step1 * (1.0 + s2));
  }

  /** The rounded stepwise price grows with the extras sum. */
  lemma RoundedStepwiseMonotoneInExtras(basePrice: int, multiplier: real, s1: real, s2: real, urgencyExtra: real)
    requires basePrice >= 0 && multiplier >= 0.0 && urgencyExtra >= 0.0 && s1 <= s2
    ensures Round(Stepwise(basePrice, multiplier, s1, urgencyExtra)) <= Round(Stepwise(basePrice, multiplier, s2, urgencyExtra))
  {
    StepwiseMonotoneInExtras(basePrice, multiplier, s1, s2, urgencyExtra);
    RoundMonotone(Stepwise(basePrice, multiplier, s1, urgencyExtra), Stepwise(basePrice, multiplier, s2, urgencyExtra));
  }

  /** The stepwise price grows with the urgency surcharge. */
  lemma StepwiseMonotoneInUrgency(basePrice: int, multiplier: real, extrasPercent: real, u1: real, u2: real)
    requires basePrice >= 0 && multiplier >= 0.0 && extrasPercent >= 0.0 && u1 <= u2
    ensures Stepwise(basePrice, multiplier, extrasPercent, u1) <= Stepwise(basePrice, multiplier, extrasPercent, u2)
  {
    var step1 := basePrice as real * multiplier;
    ScaleMonotone(basePrice as real, 0.0, multiplier);
    ScaleMonotone(step1, 0.0, 1.0 + extrasPercent);
    ScaleMonotone(step1 * (1.0 + extrasPercent), 1.0 + u1, 1.0 + u2);
  }

  /** The stepwise price grows with the complexity multiplier. */
  lemma StepwiseMonotoneInMultiplier(basePrice: int, m1: real, m2: real, extrasPercent: real, urgencyExtra: real)
    requires basePrice >= 0 && m1 <= m2 && extrasPercent >= 0.0 && urgencyExtra >= 0.0
    ensures Stepwise(basePrice, m1, extrasPercent, urgencyExtra) <= Stepwise(basePrice, m2, extrasPercent, urgencyExtra)
  {
    var rest := (1.0 + extrasPercent) * (1.0 + urgencyExtra);
    ScaleMonotone(1.0 + extrasPercent, 0.0, 1.0 + urgencyExtra);
    ScaleMonotone(basePrice as real, m1, m2);
    ScaleMonotone(rest, basePrice as real * m1, basePrice as real * m2);
    assert Stepwise(basePrice, m1, extrasPercent, urgencyExtra) == rest * (basePrice as real * m1);
    assert Stepwise(basePrice, m2, extrasPercent, urgencyExtra) == rest * (basePrice as real * m2);
  }

  /** Appending a known id adds that service's fraction to the sum. */
  lemma ExtrasSumAppend(services: seq<ExtraService>, ids: seq<string>, extraId: string)
    requires AllKnown(services, ids) && HasId(services, ExtraId, extraId)
    ensures AllKnown(services, ids + [extraId])
    ensures ExtrasSum(services, ids + [extraId])
         == Ok(ExtrasSum(services, ids).value + Lookup(services, ExtraId, extraId, "extra service").value.extra)
  {
    var longer := ids + [extraId];
    assert longer[..|ids|] == ids;
    forall i | 0 <= i < |longer| ensures HasId(services, ExtraId, longer[i]) {
      if i < |ids| { assert longer[i] == ids[i]; }
    }
  }

  /** Adding a known extra service at the end of the list (as toggling one on
      does) never lowers the price when coefficients are non-negative. */
  lemma PriceMonotoneInExtras(cat: Catalogs, projectId: string, complexityId: string, urgencyId: string,
                              selectedExtras: seq<string>, extraId: string)
    requires Coefficients(cat)
    requires CalculatePrice(cat, projectId, complexityId, urgencyId, selectedExtras).Ok?
    requires HasId(cat.extras, ExtraId, extraId)
    ensures CalculatePrice(cat, projectId, complexityId, urgencyId, selectedExtras + [extraId]).Ok?
    ensures CalculatePrice(cat, projectId, complexityId, urgencyId, selectedExtras).value
         <= CalculatePrice(cat, projectId, complexityId, urgencyId, selectedExtras + [extraId]).value
  {
    var longer := selectedExtras + [extraId];
    ExtrasSumAppend(cat.extras, selectedExtras, extraId);
    PriceOfLookups(cat, projectId, complexityId, urgencyId, selectedExtras);
    PriceOfLookups(cat, projectId, complexityId, urgencyId, longer);
    var p := Lookup(cat.projects, ProjectId, projectId, "project").value;
    var c := Lookup(cat.complexities, ComplexityId, complexityId, "complexity").value;
    var u := Lookup(cat.urgencies, UrgencyId, urgencyId, "urgency").value;
    var s := Lookup(cat.extras, ExtraId, extraId, "extra service").value;
    var ip :| 0 <= ip < |cat.projects| && cat.projects[ip] == p;
    var ic :| 0 <= ic < |cat.complexities| && cat.complexities[ic] == c;
    var iu :| 0 <= iu < |cat.urgencies| && cat.urgencies[iu] == u;
    var ie :| 0 <= ie < |cat.extras| && cat.extras[ie] == s;
    var before := ExtrasSum(cat.extras, selectedExtras).value;
    var after := ExtrasSum(cat.extras, longer).value;
    assert after == before + s.extra;
    assert p.basePrice >= 0 && c.multiplier >= 0.0 && u.extra >= 0.0 && s.extra >= 0.0;
    RoundedStepwiseMonotoneInExtras(p.basePrice, c.multiplier, before, after, u.extra);
  }

  /** Picking an urgency option with a surcharge at least as large never lowers
      the price when coefficients are non-negative. */
  lemma PriceMonotoneInUrgency(cat: Catalogs, projectId: string, complexityId: string,
                               u1: UrgencyOption, u2: UrgencyOption, selectedExtras: seq<string>)
    requires Coefficients(cat) && UniqueIds(cat.urgencies, UrgencyId)
    requires u1 in cat.urgencies && u2 in cat.urgencies && u1.extra <= u2.extra
    requires CalculatePrice(cat, projectId, complexityId, u1.id, selectedExtras).Ok?
    ensures CalculatePrice(cat, projectId, complexityId, u2.id, selectedExtras).Ok?
    ensures CalculatePrice(cat, projectId, complexityId, u1.id, selectedExtras).value
         <= CalculatePrice(cat, projectId, complexityId, u2.id, selectedExtras).value
  {
    var k1 :| 0 <= k1 < |cat.urgencies| && cat.urgencies[k1] == u1;
    var k2 :| 0 <= k2 < |cat.urgencies| && cat.urgencies[k2] == u2;
    LookupOwnId(cat.urgencies, UrgencyId, k1, "urgency");
    LookupOwnId(cat.urgencies, UrgencyId, k2, "urgency");
    PriceOfLookups(cat, projectId, complexityId, u1.id, selectedExtras);
    PriceOfLookups(cat, projectId, complexityId, u2.id, selectedExtras);
    var p := Lookup(cat.projects, ProjectId, projectId, "project").value;
    var c := Lookup(cat.complexities, ComplexityId, complexityId, "complexity").value;
    var ip :| 0 <= ip < |cat.projects| && cat.projects[ip] == p;
    var ic :| 0 <= ic < |cat.complexities| && cat.complexities[ic] == c;
    var s := ExtrasSum(cat.extras, selectedExtras).value;
    ExtrasSumNonNegative(cat.extras, selectedExtras);
    StepwiseMonotoneInUrgency(p.basePrice, c.multiplier, s, u1.extra, u2.extra);
    RoundMonotone(Stepwise(p.basePrice, c.multiplier, s, u1.extra), Stepwise(p.basePrice, c.multiplier, s, u2.extra));
  }

  /** Picking a complexity tier with a multiplier at least as large never lowers
      the price when coefficients are non-negative. */
  lemma PriceMonotoneInComplexity(cat: Catalogs, projectId: string, c1: ComplexityLevel,
                                  c2: ComplexityLevel, urgencyId: string, selectedExtras: seq<string>)
    requires Coefficients(cat) && UniqueIds(cat.complexities, ComplexityId)
    requires c1 in cat.complexities && c2 in cat.complexities && c1.multiplier <= c2.multiplier
    requires CalculatePrice(cat, projectId, c1.id, urgencyId, selectedExtras).Ok?
    ensures CalculatePrice(cat, projectId, c2.id, urgencyId, selectedExtras).Ok?
    ensures CalculatePrice(cat, projectId, c1.id, urgencyId, selectedExtras).value
         <= CalculatePrice(cat, projectId, c2.id, urgencyId, selectedExtras).value
  {
    var k1 :| 0 <= k1 < |cat.complexities| && cat.complexities[k1] == c1;
    var k2 :| 0 <= k2 < |cat.complexities| && cat.complexities[k2] == c2;
    LookupOwnId(cat.complexities, ComplexityId, k1, "complexity");
    LookupOwnId(cat.complexities, ComplexityId, k2, "complexity");
    PriceOfLookups(cat, projectId, c1.id, urgencyId, selectedExtras);
    PriceOfLookups(cat, projectId, c2.id, urgencyId, selectedExtras);
    var p := Lookup(cat.projects, ProjectId, projectId, "project").value;
    var u := Lookup(cat.urgencies, UrgencyId, urgencyId, "urgency").value;
    var ip :| 0 <= ip < |cat.projects| && cat.projects[ip] == p;
    var iu :| 0 <= iu < |cat.urgencies| && cat.urgencies[iu] == u;
    var s := ExtrasSum(cat.extras, selectedExtras).value;
    ExtrasSumNonNegative(cat.extras, selectedExtras);
    StepwiseMonotoneInMultiplier(p.basePrice, c1.multiplier, c2.multiplier, s, u.extra);
    RoundMonotone(Stepwise(p.basePrice, c1.multiplier, s, u.extra), Stepwise(p.basePrice, c2.multiplier, s, u.extra));
  }

  /** Selecting all three shipped extras sums to 0.60. */
  lemma ShippedAllExtrasSum()
    ensures ExtrasSum(ExtraServices, ["design", "seo", "qa"]) == Ok(0.60)
  {
    assert TotalExtra(ExtraServices) == 0.60 by {
      assert TotalExtra(ExtraServices) == TotalExtra(ExtraServices[..2]) + 0.15;
      assert TotalExtra(ExtraServices[..2]) == TotalExtra(ExtraServices[..1]) + 0.20;
      assert TotalExtra(ExtraServices[..1]) == 0.25;
    }
    assert Ids(ExtraServices) == ["design", "seo", "qa"];
    ExtrasSumOfEntries(ExtraServices, ExtraServices);
  }

  /** The worked values of the shipped catalogs. */
  lemma ShippedWorkedValues()
    ensures CalculatePrice(Shipped, "landing", "simple", "normal", []) == Ok(5000)
    ensures CalculatePrice(Shipped, "landing", "medium", "normal", ["design", "seo"]) == Ok(14500)
    ensures CalculatePrice(Shipped, "landing", "medium", "urgent", ["design", "seo"]) == Ok(21750)
    ensures CalculatePrice(Shipped, "webapp", "hard", "urgent", ["design", "seo", "qa"]) == Ok(240000)
  {
    DefaultSelectionPrice();
    LandingMediumPrices();
    WebappHardUrgentPrice();
  }

  /** The default selection: 5000 × 1 × (1 + 0) × (1 + 0). */
  lemma DefaultSelectionPrice()
    ensures CalculatePrice(Shipped, "landing", "simple", "normal", []) == Ok(5000)
  {
    ShippedWellFormed();
    PriceOfEntries(Shipped, ProjectTypes[0], ComplexityLevels[0], UrgencyOptions[0], []);
    assert Stepwise(5000, 1.0, 0.0, 0.0) == 5000.0;
  }

  /** The first two shipped extras are design and SEO, together 0.45. */
  lemma ShippedDesignSeo()
    ensures Ids(ExtraServices[..2]) == ["design", "seo"]
    ensures TotalExtra(ExtraServices[..2]) == 0.45
  {
    var es := ExtraServices[..2];
    assert TotalExtra(es) == TotalExtra(es[..1]) + 0.20;
    assert TotalExtra(es[..1]) == 0.25;
  }

  /** Landing page, medium, design and SEO: 5000 × 2 × 1.45, and × 1.5 when urgent. */
  lemma LandingMediumPrices()
    ensures CalculatePrice(Shipped, "landing", "medium", "normal", ["design", "seo"]) == Ok(14500)
    ensures CalculatePrice(Shipped, "landing", "medium", "urgent", ["design", "seo"]) == Ok(21750)
  {
    LandingMediumPrice(0, 14500);
    LandingMediumPrice(1, 21750);
  }

  /** Landing page, medium, design and SEO under the urgency option `k`. */
  lemma LandingMediumPrice(k: nat, price: int)
    requires k < |UrgencyOptions| && price == [14500, 21750][k]
    ensures CalculatePrice(Shipped, "landing", "medium", UrgencyOptions[k].id, ["design", "seo"]) == Ok(price)
  {
    ShippedWellFormed();
    ShippedDesignSeo();
    PriceOfEntries(Shipped, ProjectTypes[0], ComplexityLevels[1], UrgencyOptions[k], ExtraServices[..2]);
    assert Stepwise(5000, 2.0, 0.45, 0.0) == 14500.0;
    assert Stepwise(5000, 2.0, 0.45, 0.5) == 21750.0;
  }

  /** The shipped webapp, hard and urgent ids name the second, third and second entries. */
  lemma ShippedWebappLookups()
    ensures Lookup(ProjectTypes, ProjectId, "webapp", "project") == Ok(ProjectTypes[1])
    ensures Lookup(ComplexityLevels, ComplexityId, "hard", "complexity") == Ok(ComplexityLevels[2])
    ensures Lookup(UrgencyOptions, UrgencyId, "urgent", "urgency") == Ok(UrgencyOptions[1])
  {
    assert ProjectTypes[0].id[0] != 'w';
    assert ComplexityLevels[0].id[0] != 'h' && ComplexityLevels[1].id[0] != 'h';
    assert UrgencyOptions[0].id[0] != 'u';
  }

  /** Web application, hard, urgent, all three extras: 25000 × 4 × 1.6 × 1.5. */
  lemma WebappHardUrgentPrice()
    ensures CalculatePrice(Shipped, "webapp", "hard", "urgent", ["design", "seo", "qa"]) == Ok(240000)
  {
    ShippedAllExtrasSum();
    ShippedWebappLookups();
    PriceOfResolved(Shipped, "webapp", "hard", "urgent", ["design", "seo", "qa"],
                    ProjectTypes[1], ComplexityLevels[2], UrgencyOptions[1], 0.60);
    WebappHardUrgentArithmetic();
  }

  /** The arithmetic of that price: 25000 × 4 × 1.6 × 1.5 = 240000 exactly. */
  lemma WebappHardUrgentArithmetic()
    ensures Round(Stepwise(ProjectTypes[1].basePrice, ComplexityLevels[2].multiplier, 0.60, UrgencyOptions[1].extra)) == 240000
  {
    assert ProjectTypes[1].basePrice == 25000 && ComplexityLevels[2].multiplier == 4.0;
    assert UrgencyOptions[1].extra == 0.5;
    assert Stepwise(25000, 4.0, 0.60, 0.5) == 240000.0;
  }

  /** An unknown project id fails with an error naming the catalog and the id. */
  lemma ShippedUnknownProject()
    ensures CalculatePrice(Shipped, "mobile", "simple", "normal", []) == Err(UnknownId("project", "mobile"))
    ensures ErrorMessage(UnknownId("project", "mobile")) == "Unknown project id: mobile"
  {
    assert !HasId(ProjectTypes, ProjectId, "mobile") by {
      forall k | 0 <= k < |ProjectTypes| ensures ProjectTypes[k].id != "mobile" {
        assert ProjectTypes[k].id[0] != 'm';
      }
    }
    UnknownProjectText();
  }

  /** The text of that error. */
  lemma UnknownProjectText()
    ensures ErrorMessage(UnknownId("project", "mobile")) == "Unknown project id: mobile"
  {
  }
}
