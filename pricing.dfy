/** The pricing engine of src/App.jsx: lookup by id, the extras sum and the
    three-step price formula with a single final rounding. */
module Pricing {
  import opened Catalog

  /** The one error of the core: an id absent from the catalog named `catalogName`. */
  datatype UnknownIdError = UnknownId(catalogName: string, id: string)

  datatype Result<T> = Ok(value: T) | Err(error: UnknownIdError)

  /** The text of the thrown error, "Unknown <catalog> id: <id>". */
  function ErrorMessage(e: UnknownIdError): (message: string)
    ensures "Unknown " + e.catalogName + " id: " <= message
    ensures |message| == |"Unknown " + e.catalogName + " id: "| + |e.id|
    ensures message[|message| - |e.id|..] == e.id
  {
    "Unknown " + e.catalogName + " id: " + e.id
  }

  /** Position of the first element carrying `id`, or |collection| when none does. */
  function FirstMatch<T>(collection: seq<T>, idOf: T -> string, id: string): (k: nat)
    ensures k <= |collection|
    ensures forall j :: 0 <= j < k ==> idOf(collection[j]) != id
    ensures k < |collection| ==> idOf(collection[k]) == id
    decreases |collection|
  {
    if collection == [] then 0
    else if idOf(collection[0]) == id then 0
    else 1 + FirstMatch(collection[1..], idOf, id)
  }

  /** What lookupById computes: the first entry with the id, or an error naming
      the catalog and the id. */
  function Lookup<T>(collection: seq<T>, idOf: T -> string, id: string, catalogName: string): (r: Result<T>)
    ensures r.Ok? <==> HasId(collection, idOf, id)
    ensures r.Ok? ==> idOf(r.value) == id
    ensures r.Ok? ==> exists k :: 0 <= k < |collection| && collection[k] == r.value &&
                                  forall j :: 0 <= j < k ==> idOf(collection[j]) != id
    ensures r.Err? ==> r.error == UnknownId(catalogName, id)
  {
    var k := FirstMatch(collection, idOf, id);
    if k < |collection| then Ok(collection[k]) else Err(UnknownId(catalogName, id))
  }

  /** lookupById: a linear search for the first entry whose id matches. */
  method LookupById<T>(collection: seq<T>, idOf: T -> string, id: string, catalogName: string)
    returns (r: Result<T>)
    ensures r == Lookup(collection, idOf, id, catalogName)
  {
    var i := 0;
    while i < |collection| && idOf(collection[i]) != id
      invariant 0 <= i <= |collection|
      invariant forall j :: 0 <= j < i ==> idOf(collection[j]) != id
    {
      i := i + 1;
    }
    if i < |collection| {
      r := Ok(collection[i]);
    } else {
      r := Err(UnknownId(catalogName, id));
    }
  }

  /** Every listed id names an extra service of `services`. */
  predicate AllKnown(services: seq<ExtraService>, ids: seq<string>) {
    forall i :: 0 <= i < |ids| ==> HasId(services, ExtraId, ids[i])
  }

  /** The sum of the surcharge fractions of the listed services, accumulated in
      list order; the first unknown id is the error. */
  function ExtrasSum(services: seq<ExtraService>, ids: seq<string>): (r: Result<real>)
    ensures r.Ok? <==> AllKnown(services, ids)
    ensures r.Err? ==> exists j :: 0 <= j < |ids| && !HasId(services, ExtraId, ids[j]) &&
                                   (forall i :: 0 <= i < j ==> HasId(services, ExtraId, ids[i])) &&
                                   r.error == UnknownId("extra service", ids[j])
    decreases |ids|
  {
    if ids == [] then Ok(0.0)
    else
      var prefix := ids[..|ids| - 1];
      var last := ids[|ids| - 1];
      assert forall i :: 0 <= i < |prefix| ==> prefix[i] == ids[i];
      match ExtrasSum(services, prefix)
      case Err(e) => Err(e)
      case Ok(total) =>
        match Lookup(services, ExtraId, last, "extra service")
        case Err(e) => Err(e)
        case Ok(service) => Ok(total + service.extra)
  }

  /** Once a prefix of the list fails, the whole list fails with the same error. */
  lemma {:induction false} ExtrasSumPrefixErr(services: seq<ExtraService>, ids: seq<string>, k: nat)
    requires k <= |ids| && ExtrasSum(services, ids[..k]).Err?
    ensures ExtrasSum(services, ids) == ExtrasSum(services, ids[..k])
    decreases |ids| - k
  {
    if k < |ids| {
      assert ids[..k + 1][..k] == ids[..k];
      ExtrasSumPrefixErr(services, ids, k + 1);
    } else {
      assert ids[..k] == ids;
    }
  }

  /** calcExtrasPercent: the loop that accumulates the surcharge fractions. */
  method CalcExtrasPercent(services: seq<ExtraService>, selectedExtras: seq<string>)
    returns (r: Result<real>)
    ensures r == ExtrasSum(services, selectedExtras)
  {
    var total := 0.0;
    var i := 0;
    while i < |selectedExtras|
      invariant 0 <= i <= |selectedExtras|
      invariant ExtrasSum(services, selectedExtras[..i]) == Ok(total)
    {
      var service := LookupById(services, ExtraId, selectedExtras[i], "extra service");
      assert selectedExtras[..i + 1][..i] == selectedExtras[..i];
      if service.Err? {
        ExtrasSumPrefixErr(services, selectedExtras, i + 1);
        return Err(service.error);
      }
      total := total + service.value.extra;
      i := i + 1;
    }
    assert selectedExtras[..i] == selectedExtras;
    r := Ok(total);
  }

  /** Math.round: the nearest integer, halves rounded up. */
  function Round(x: real): (n: int)
    ensures n as real - 0.5 <= x < n as real + 0.5
  {
    (x + 0.5).Floor
  }

  /** calculatePrice: base × multiplier, then × (1 + extras sum), then
      × (1 + urgency surcharge), rounded once at the end. Ids are looked up in
      the order project, complexity, urgency, extras, and the first miss is the error. */
  function CalculatePrice(cat: Catalogs, projectId: string, complexityId: string, urgencyId: string,
                          selectedExtras: seq<string>): (r: Result<int>)
    ensures r.Ok? <==> HasId(cat.projects, ProjectId, projectId) &&
                       HasId(cat.complexities, ComplexityId, complexityId) &&
                       HasId(cat.urgencies, UrgencyId, urgencyId) &&
                       AllKnown(cat.extras, selectedExtras)
    ensures !HasId(cat.projects, ProjectId, projectId) ==>
              r == Err(UnknownId("project", projectId))
    ensures HasId(cat.projects, ProjectId, projectId) &&
            !HasId(cat.complexities, ComplexityId, complexityId) ==>
              r == Err(UnknownId("complexity", complexityId))
    ensures HasId(cat.projects, ProjectId, projectId) &&
            HasId(cat.complexities, ComplexityId, complexityId) &&
            !HasId(cat.urgencies, UrgencyId, urgencyId) ==>
              r == Err(UnknownId("urgency", urgencyId))
    ensures HasId(cat.projects, ProjectId, projectId) &&
            HasId(cat.complexities, ComplexityId, complexityId) &&
            HasId(cat.urgencies, UrgencyId, urgencyId) &&
            !AllKnown(cat.extras, selectedExtras) ==>
              r == Err(ExtrasSum(cat.extras, selectedExtras).error)
  {
    match Lookup(cat.projects, ProjectId, projectId, "project")
    case Err(e) => Err(e)
    case Ok(project) =>
      match Lookup(cat.complexities, ComplexityId, complexityId, "complexity")
      case Err(e) => Err(e)
      case Ok(complexity) =>
        match Lookup(cat.urgencies, UrgencyId, urgencyId, "urgency")
        case Err(e) => Err(e)
        case Ok(urgency) =>
          match ExtrasSum(cat.extras, selectedExtras)
          case Err(e) => Err(e)
          case Ok(extrasPercent) =>
            Ok(Round(Stepwise(project.basePrice, complexity.multiplier, extrasPercent, urgency.extra)))
  }

  /** The unrounded price after the three steps: base × multiplier, then
      × (1 + extras), then × (1 + urgency). */
  function Stepwise(basePrice: int, multiplier: real, extrasPercent: real, urgencyExtra: real): (price: real)
  {
    var priceAfterComplexity := basePrice as real * multiplier;
    var priceAfterExtras := priceAfterComplexity * (1.0 + extrasPercent);
    priceAfterExtras * (1.0 + urgencyExtra)
  }

  /** Once every lookup has succeeded, the price is the rounded stepwise price of the entries found. */
  lemma PriceOfResolved(cat: Catalogs, projectId: string, complexityId: string, urgencyId: string,
                        selectedExtras: seq<string>, p: ProjectType, c: ComplexityLevel, u: UrgencyOption,
                        extrasPercent: real)
    requires Lookup(cat.projects, ProjectId, projectId, "project") == Ok(p)
    requires Lookup(cat.complexities, ComplexityId, complexityId, "complexity") == Ok(c)
    requires Lookup(cat.urgencies, UrgencyId, urgencyId, "urgency") == Ok(u)
    requires ExtrasSum(cat.extras, selectedExtras) == Ok(extrasPercent)
    ensures CalculatePrice(cat, projectId, complexityId, urgencyId, selectedExtras)
         == Ok(Round(Stepwise(p.basePrice, c.multiplier, extrasPercent, u.extra)))
  {
  }

  /** A successful price is the rounded stepwise price of the looked-up entries. */
  lemma PriceOfLookups(cat: Catalogs, projectId: string, complexityId: string, urgencyId: string,
                       selectedExtras: seq<string>)
    requires CalculatePrice(cat, projectId, complexityId, urgencyId, selectedExtras).Ok?
    ensures Lookup(cat.projects, ProjectId, projectId, "project").Ok?
    ensures Lookup(cat.complexities, ComplexityId, complexityId, "complexity").Ok?
    ensures Lookup(cat.urgencies, UrgencyId, urgencyId, "urgency").Ok?
    ensures ExtrasSum(cat.extras, selectedExtras).Ok?
    ensures CalculatePrice(cat, projectId, complexityId, urgencyId, selectedExtras).value
         == Round(Stepwise(Lookup(cat.projects, ProjectId, projectId, "project").value.basePrice,
                           Lookup(cat.complexities, ComplexityId, complexityId, "complexity").value.multiplier,
                           ExtrasSum(cat.extras, selectedExtras).value,
                           Lookup(cat.urgencies, UrgencyId, urgencyId, "urgency").value.extra))
  {
  }
}
