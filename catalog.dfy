/** The four immutable catalogs of the calculator (src/data.js) and the
    invariants the pricing formula relies on. */
module Catalog {

  datatype Option<T> = None | Some(value: T)

  /** A project type; `basePrice` is the price in roubles at minimum complexity. */
  datatype ProjectType = ProjectType(id: string, title: string, basePrice: int)

  /** A complexity tier; `multiplier` scales the base price. The message builder
      reads a `description` that no shipped entry carries, hence the Option. */
  datatype ComplexityLevel =
    ComplexityLevel(id: string, title: string, multiplier: real, description: Option<string>)

  /** An urgency option; `extra` is the surcharge fraction applied last (0.5 = +50%). */
  datatype UrgencyOption = UrgencyOption(id: string, title: string, extra: real)

  /** An optional service; `extra` is the surcharge fraction applied before urgency. */
  datatype ExtraService = ExtraService(id: string, title: string, extra: real)

  /** The four tables together. */
  datatype Catalogs = Catalogs(
    projects: seq<ProjectType>,
    complexities: seq<ComplexityLevel>,
    urgencies: seq<UrgencyOption>,
    extras: seq<ExtraService>)

  // Id selectors, passed to the generic lookup.
  function ProjectId(p: ProjectType): string { p.id }
  function ComplexityId(c: ComplexityLevel): string { c.id }
  function UrgencyId(u: UrgencyOption): string { u.id }
  function ExtraId(s: ExtraService): string { s.id }

  /** Some element of `collection` carries the id `id`. */
  predicate HasId<T>(collection: seq<T>, idOf: T -> string, id: string) {
    exists k :: 0 <= k < |collection| && idOf(collection[k]) == id
  }

  /** No two elements of `collection` carry the same id. */
  predicate UniqueIds<T>(collection: seq<T>, idOf: T -> string) {
    forall i, j :: 0 <= i < j < |collection| ==> idOf(collection[i]) != idOf(collection[j])
  }

  /** Every coefficient has the sign the formula expects: base prices and
      surcharge fractions are non-negative, multipliers are at least 1. */
  predicate Coefficients(cat: Catalogs) {
    (forall i :: 0 <= i < |cat.projects| ==> cat.projects[i].basePrice >= 0) &&
    (forall i :: 0 <= i < |cat.complexities| ==> cat.complexities[i].multiplier >= 1.0) &&
    (forall i :: 0 <= i < |cat.urgencies| ==> cat.urgencies[i].extra >= 0.0) &&
    (forall i :: 0 <= i < |cat.extras| ==> cat.extras[i].extra >= 0.0)
  }

  /** The configuration-time invariants of the catalogs. */
  predicate WellFormed(cat: Catalogs) {
    |cat.projects| > 0 && |cat.complexities| > 0 && |cat.urgencies| > 0 && |cat.extras| > 0 &&
    UniqueIds(cat.projects, ProjectId) && UniqueIds(cat.complexities, ComplexityId) &&
    UniqueIds(cat.urgencies, UrgencyId) && UniqueIds(cat.extras, ExtraId) &&
    Coefficients(cat)
  }

  const ProjectTypes: seq<ProjectType> := [
    ProjectType("landing", "Сайт / лендинг", 5000),
    ProjectType("webapp", "Веб-приложение", 25000),
    ProjectType("bot", "Бот (Telegram/Discord)", 10000)
  ]

  const ComplexityLevels: seq<ComplexityLevel> := [
    ComplexityLevel("simple", "Простой", 1.0, None),
    ComplexityLevel("medium", "Средний", 2.0, None),
    ComplexityLevel("hard", "Сложный", 4.0, None)
  ]

  const UrgencyOptions: seq<UrgencyOption> := [
    UrgencyOption("normal", "Обычный срок", 0.0),
    UrgencyOption("urgent", "Срочно (+50%)", 0.5)
  ]

  const ExtraServices: seq<ExtraService> := [
    ExtraService("design", "Дизайн (макет)", 0.25),
    ExtraService("seo", "SEO-оптимизация", 0.20),
    ExtraService("qa", "Тестирование / QA", 0.15)
  ]

  /** The catalogs as shipped. */
  const Shipped: Catalogs := Catalogs(ProjectTypes, ComplexityLevels, UrgencyOptions, ExtraServices)

  /** The shipped catalogs are non-empty, have unique ids and well-signed coefficients. */
  lemma ShippedWellFormed()
    ensures WellFormed(Shipped)
  {
  }

  /** The shipped coefficients, table by table. */
  lemma ShippedCoefficients()
    ensures [ProjectTypes[0].basePrice, ProjectTypes[1].basePrice, ProjectTypes[2].basePrice]
         == [5000, 25000, 10000]
    ensures forall i :: 0 <= i < |ProjectTypes| ==> ProjectTypes[i].basePrice >= 0
    ensures UrgencyOptions[0].id == "normal" && UrgencyOptions[0].extra == 0.0
    ensures UrgencyOptions[1].id == "urgent" && UrgencyOptions[1].extra == 0.5
    ensures forall i :: 0 <= i < |ExtraServices| ==> ExtraServices[i].extra >= 0.0
    ensures ExtraServices[0].extra + ExtraServices[1].extra + ExtraServices[2].extra == 0.60
  {
  }

  /** Complexity multipliers are at least 1 and strictly increase in catalog order. */
  lemma ShippedMultipliersIncrease()
    ensures forall i :: 0 <= i < |ComplexityLevels| ==> ComplexityLevels[i].multiplier >= 1.0
    ensures forall i, j :: 0 <= i < j < |ComplexityLevels| ==>
      ComplexityLevels[i].multiplier < ComplexityLevels[j].multiplier
  {
  }

  /** The default selection is built from the first entries, which exist. */
  lemma ShippedDefaults()
    ensures |ProjectTypes| > 0 && ProjectTypes[0].id == "landing"
    ensures |ComplexityLevels| > 0 && ComplexityLevels[0].id == "simple"
    ensures |UrgencyOptions| > 0 && UrgencyOptions[0].id == "normal"
  {
  }
}
