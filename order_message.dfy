/** The text of the order message built by buildOrderLink (src/App.jsx):
    the subject and the body before percent-encoding. */
module OrderMessage {
  import opened Catalog
  import opened Pricing

  /** The contact form's free-text fields. */
  datatype ContactInfo = ContactInfo(name: string, phone: string, email: string, time: string)

  /** `part` occurs in `text` starting at position `at`. */
  predicate LineAt(text: string, at: int, part: string) {
    0 <= at && at + |part| <= |text| && text[at..at + |part|] == part
  }

  /** The middle of a three-part concatenation sits right after the first part. */
  lemma LineAtMiddle(a: string, b: string, c: string)
    ensures LineAt(a + b + c, |a|, b)
  {
    assert (a + b + c)[|a|..|a| + |b|] == b;
  }

  /** Array.prototype.join: the parts with `sep` between neighbours. */
  function Join(parts: seq<string>, sep: string): (joined: string)
    ensures |parts| > 0 ==> parts[0] <= joined
    ensures |parts| > 0 ==> LineAt(joined, |joined| - |parts[|parts| - 1]|, parts[|parts| - 1])
    decreases |parts|
  {
    if parts == [] then ""
    else if |parts| == 1 then
      assert parts[0][0..|parts[0]|] == parts[0];
      parts[0]
    else
      var front := parts[..|parts| - 1];
      var last := parts[|parts| - 1];
      var joined := Join(front, sep) + sep + last;
      assert front[0] == parts[0];
      assert joined[|joined| - |last|..] == last;
      joined
  }

  /** The label of the first extra service carrying `id`. */
  function ExtraLabel(services: seq<ExtraService>, id: string): (title: string)
    requires HasId(services, ExtraId, id)
    ensures exists k :: 0 <= k < |services| && services[k].id == id && services[k].title == title &&
                        forall j :: 0 <= j < k ==> services[j].id != id
  {
    var r := Lookup(services, ExtraId, id, "extra service");
    var k :| 0 <= k < |services| && services[k] == r.value &&
             forall j :: 0 <= j < k ==> ExtraId(services[j]) != id;
    assert services[k].id == id && services[k].title == r.value.title;
    r.value.title
  }

  /** The labels of the selected extras, in selection order. */
  function ExtraLabels(services: seq<ExtraService>, ids: seq<string>): (labels: seq<string>)
    requires AllKnown(services, ids)
    ensures |labels| == |ids|
    ensures forall i :: 0 <= i < |ids| ==> labels[i] == ExtraLabel(services, ids[i])
    decreases |ids|
  {
    if ids == [] then []
    else
      var front := ids[..|ids| - 1];
      assert forall i :: 0 <= i < |front| ==> front[i] == ids[i];
      ExtraLabels(services, front) + [ExtraLabel(services, ids[|ids| - 1])]
  }

  /** The "Доп. услуги" value: the labels joined by ", ", or "нет" for none. */
  function ExtraNames(services: seq<ExtraService>, ids: seq<string>): (names: string)
    requires AllKnown(services, ids)
    ensures ids == [] ==> names == "нет"
    ensures |ids| > 0 ==> ExtraLabel(services, ids[0]) <= names
  {
    if |ids| > 0 then Join(ExtraLabels(services, ids), ", ") else "нет"
  }

  /** No extras render as "нет"; one extra renders as its label; each further
      extra adds ", " and its label at the end, so labels follow selection order. */
  lemma ExtraNamesShape(services: seq<ExtraService>, ids: seq<string>)
    requires AllKnown(services, ids)
    ensures ids == [] ==> ExtraNames(services, ids) == "нет"
    ensures |ids| == 1 ==> ExtraNames(services, ids) == ExtraLabel(services, ids[0])
    ensures |ids| > 1 ==>
      ExtraNames(services, ids) ==
        ExtraNames(services, ids[..|ids| - 1]) + ", " + ExtraLabel(services, ids[|ids| - 1])
  {
    if |ids| > 1 {
      var front := ids[..|ids| - 1];
      assert ExtraLabels(services, ids)[..|ids| - 1] == ExtraLabels(services, front);
    }
  }

  /** The two shipped labels of design and SEO, comma-joined. */
  lemma ShippedExtraNames()
    ensures AllKnown(ExtraServices, ["design", "seo"])
    ensures ExtraNames(ExtraServices, ["design", "seo"]) == ExtraServices[0].title + ", " + ExtraServices[1].title
    ensures ExtraServices[0].title == "Дизайн (макет)" && ExtraServices[1].title == "SEO-оптимизация"
    ensures ExtraNames(ExtraServices, []) == "нет"
  {
    assert ExtraId(ExtraServices[0]) == "design" && ExtraId(ExtraServices[1]) == "seo";
    var design := ExtraLabel(ExtraServices, "design");
    var seo := ExtraLabel(ExtraServices, "seo");
    assert design == ExtraServices[0].title;
    assert seo == ExtraServices[1].title by {
      assert ExtraServices[0].id != "seo";
    }
    var labels := ExtraLabels(ExtraServices, ["design", "seo"]);
    assert labels == [design, seo];
    assert labels[..1] == [design];
    assert Join(labels, ", ") == Join([design], ", ") + ", " + seo;
  }

  /** The lines written one after another. */
  function Concat(lines: seq<string>): string
    decreases |lines|
  {
    if lines == [] then "" else Concat(lines[..|lines| - 1]) + lines[|lines| - 1]
  }

  /** Concatenation distributes over joining two lists of lines. */
  lemma {:induction false} ConcatAppend(a: seq<string>, b: seq<string>)
    ensures Concat(a + b) == Concat(a) + Concat(b)
    decreases |b|
  {
    if b == [] {
      assert a + b == a;
    } else {
      var front := b[..|b| - 1];
      assert (a + b)[..|a + b| - 1] == a + front;
      ConcatAppend(a, front);
    }
  }

  /** Line `i` of a list sits, in the concatenation, right after the lines before it. */
  lemma ConcatLineAt(lines: seq<string>, i: int)
    requires 0 <= i < |lines|
    ensures LineAt(Concat(lines), |Concat(lines[..i])|, lines[i])
  {
    assert lines == lines[..i] + [lines[i]] + lines[i + 1..];
    ConcatAppend(lines[..i] + [lines[i]], lines[i + 1..]);
    ConcatAppend(lines[..i], [lines[i]]);
    assert Concat([lines[i]]) == lines[i] by {
      assert [lines[i]][..0] == [];
    }
    LineAtMiddle(Concat(lines[..i]), lines[i], Concat(lines[i + 1..]));
  }

  /** A later line starts no earlier than the end of an earlier one. */
  lemma ConcatOffsetGrows(lines: seq<string>, i: int, j: int)
    requires 0 <= i < j <= |lines|
    ensures |Concat(lines[..i])| + |lines[i]| <= |Concat(lines[..j])|
  {
    assert lines[..j] == lines[..i] + [lines[i]] + lines[i + 1..j];
    ConcatAppend(lines[..i] + [lines[i]], lines[i + 1..j]);
    ConcatAppend(lines[..i], [lines[i]]);
    assert Concat([lines[i]]) == lines[i] by {
      assert [lines[i]][..0] == [];
    }
  }

  const ParametersHeader: string := "--- Параметры проекта ---\n"
  const ClosingPrompt: string := "---\nРасскажите подробнее о вашем проекте:"

  /** How a template literal renders a field: its text, or "undefined" when absent. */
  function TemplateText(field: Option<string>): string {
    match field
    case Some(s) => s
    case None => "undefined"
  }

  /** The complexity line as the source writes it: the description is always
      interpolated, so an absent one shows as "(undefined)". */
  function ComplexityLineAsWritten(c: ComplexityLevel): (line: string)
    ensures c.description.None? ==> line == "Сложность: " + c.title + " (undefined)\n"
    ensures c.description.Some? ==> line == "Сложность: " + c.title + " (" + c.description.value + ")\n"
  {
    "Сложность: " + c.title + " (" + TemplateText(c.description) + ")\n"
  }

  /** The complexity line as intended: the description in parentheses when
      there is one, as the line as written shows it, and the label alone otherwise. */
  function ComplexityLine(c: ComplexityLevel): (line: string)
    ensures c.description.Some? ==> line == ComplexityLineAsWritten(c)
    ensures c.description.None? ==> line == "Сложность: " + c.title + "\n"
  {
    match c.description
    case Some(d) => "Сложность: " + c.title + " (" + d + ")\n"
    case None => "Сложность: " + c.title + "\n"
  }

  /** No shipped complexity level has a description, so the line as written
      shows "(undefined)", while the corrected line shows the label alone. */
  lemma ShippedComplexityLines(k: nat)
    requires k < |ComplexityLevels|
    ensures ComplexityLineAsWritten(ComplexityLevels[k])
         == "Сложность: " + ComplexityLevels[k].title + " (undefined)\n"
    ensures ComplexityLine(ComplexityLevels[k]) == "Сложность: " + ComplexityLevels[k].title + "\n"
  {
  }

  // The project-parameter lines of the message.
  function ProjectLine(p: ProjectType): string { "Тип проекта: " + p.title + "\n" }
  function UrgencyLine(u: UrgencyOption): string { "Срочность: " + u.title + "\n" }
  function ExtrasLine(extraNames: string): string { "Доп. услуги: " + extraNames + "\n\n" }
  function PriceLine(priceText: string): string { "Примерная стоимость: " + priceText + " ₽\n\n" }

  /** The four contact lines, the blank line after them included. */
  function ContactLines(contact: ContactInfo): (lines: seq<string>)
    ensures |lines| == 4
    ensures "Имя: " + contact.name <= lines[0] && "Телефон: " + contact.phone <= lines[1]
    ensures "Email: " + contact.email <= lines[2] && "Удобное время для связи: " + contact.time <= lines[3]
  {
    ["Имя: " + contact.name + "\n",
     "Телефон: " + contact.phone + "\n",
     "Email: " + contact.email + "\n",
     "Удобное время для связи: " + contact.time + "\n\n"]
  }

  /** The five project-parameter lines, with the complexity line already
      rendered; `priceText` stands for the locale-formatted price. */
  function ParameterLines(project: ProjectType, complexityLine: string, urgency: UrgencyOption,
                          extraNames: string, priceText: string): (lines: seq<string>)
    ensures |lines| == 5
    ensures lines[0] == ProjectLine(project) && lines[1] == complexityLine
    ensures lines[2] == UrgencyLine(urgency) && lines[3] == ExtrasLine(extraNames)
    ensures lines[4] == PriceLine(priceText)
  {
    [ProjectLine(project), complexityLine, UrgencyLine(urgency), ExtrasLine(extraNames), PriceLine(priceText)]
  }

  /** The layout of emailText: contacts, header, parameters, closing prompt. */
  function MessageLines(contact: ContactInfo, parameters: seq<string>): (lines: seq<string>)
    requires |parameters| == 5
    ensures |lines| == 11
    ensures lines[..4] == ContactLines(contact)
    ensures lines[4] == ParametersHeader
    ensures lines[5..10] == parameters
    ensures lines[10] == ClosingPrompt
  {
    ContactLines(contact) + [ParametersHeader] + parameters + [ClosingPrompt]
  }

  /** The ids of the message all resolve (the source's bare `find` assumes it). */
  predicate Resolves(cat: Catalogs, projectId: string, complexityId: string, urgencyId: string,
                     selectedExtras: seq<string>) {
    HasId(cat.projects, ProjectId, projectId) &&
    HasId(cat.complexities, ComplexityId, complexityId) &&
    HasId(cat.urgencies, UrgencyId, urgencyId) &&
    AllKnown(cat.extras, selectedExtras)
  }

  // The entries a resolving message names.
  function ProjectOf(cat: Catalogs, projectId: string): ProjectType
    requires HasId(cat.projects, ProjectId, projectId)
  {
    Lookup(cat.projects, ProjectId, projectId, "project").value
  }

  function ComplexityOf(cat: Catalogs, complexityId: string): ComplexityLevel
    requires HasId(cat.complexities, ComplexityId, complexityId)
  {
    Lookup(cat.complexities, ComplexityId, complexityId, "complexity").value
  }

  function UrgencyOf(cat: Catalogs, urgencyId: string): UrgencyOption
    requires HasId(cat.urgencies, UrgencyId, urgencyId)
  {
    Lookup(cat.urgencies, UrgencyId, urgencyId, "urgency").value
  }

  /** The lines of emailText as the source writes it, the complexity line
      with its "(undefined)". */
  function EmailLines(cat: Catalogs, projectId: string, complexityId: string, urgencyId: string,
                      selectedExtras: seq<string>, priceText: string, contact: ContactInfo): seq<string>
    requires Resolves(cat, projectId, complexityId, urgencyId, selectedExtras)
  {
    MessageLines(contact, ParameterLines(ProjectOf(cat, projectId),
                                         ComplexityLineAsWritten(ComplexityOf(cat, complexityId)),
                                         UrgencyOf(cat, urgencyId),
                                         ExtraNames(cat.extras, selectedExtras), priceText))
  }

  /** The lines of emailText as intended, with the corrected complexity line. */
  function EmailLinesCorrected(cat: Catalogs, projectId: string, complexityId: string, urgencyId: string,
                               selectedExtras: seq<string>, priceText: string, contact: ContactInfo): seq<string>
    requires Resolves(cat, projectId, complexityId, urgencyId, selectedExtras)
  {
    MessageLines(contact, ParameterLines(ProjectOf(cat, projectId),
                                         ComplexityLine(ComplexityOf(cat, complexityId)),
                                         UrgencyOf(cat, urgencyId),
                                         ExtraNames(cat.extras, selectedExtras), priceText))
  }

  /** The text is the lines and nothing else: each line sits right after the
      ones before it, and the text ends where the last line ends. */
  predicate Lays(text: string, lines: seq<string>) {
    |text| == |Concat(lines)| &&
    forall i {:trigger Offset(lines, i)} :: 0 <= i < |lines| ==> LineAt(text, Offset(lines, i), lines[i])
  }

  /** Where line `i` starts: the length of the lines before it. */
  function Offset(lines: seq<string>, i: int): nat
    requires 0 <= i <= |lines|
  {
    |Concat(lines[..i])|
  }

  /** The text of a list of lines lays them out. */
  lemma ConcatLays(lines: seq<string>)
    ensures Lays(Concat(lines), lines)
  {
    forall i | 0 <= i < |lines| ensures LineAt(Concat(lines), Offset(lines, i), lines[i]) {
      ConcatLineAt(lines, i);
    }
  }

  /** The message text of a contact and five parameter lines. */
  function MessageText(contact: ContactInfo, parameters: seq<string>): (text: string)
    requires |parameters| == 5
    ensures Lays(text, MessageLines(contact, parameters))
  {
    ConcatLays(MessageLines(contact, parameters));
    Concat(MessageLines(contact, parameters))
  }

  /** emailText as the source writes it. */
  function EmailText(cat: Catalogs, projectId: string, complexityId: string, urgencyId: string,
                     selectedExtras: seq<string>, priceText: string, contact: ContactInfo): (text: string)
    requires Resolves(cat, projectId, complexityId, urgencyId, selectedExtras)
    ensures Lays(text, EmailLines(cat, projectId, complexityId, urgencyId, selectedExtras, priceText, contact))
  {
    ConcatLays(EmailLines(cat, projectId, complexityId, urgencyId, selectedExtras, priceText, contact));
    Concat(EmailLines(cat, projectId, complexityId, urgencyId, selectedExtras, priceText, contact))
  }

  /** emailText as intended: the same layout with the corrected complexity line. */
  function EmailTextCorrected(cat: Catalogs, projectId: string, complexityId: string, urgencyId: string,
                              selectedExtras: seq<string>, priceText: string, contact: ContactInfo): (text: string)
    requires Resolves(cat, projectId, complexityId, urgencyId, selectedExtras)
    ensures Lays(text, EmailLinesCorrected(cat, projectId, complexityId, urgencyId, selectedExtras, priceText, contact))
  {
    ConcatLays(EmailLinesCorrected(cat, projectId, complexityId, urgencyId, selectedExtras, priceText, contact));
    Concat(EmailLinesCorrected(cat, projectId, complexityId, urgencyId, selectedExtras, priceText, contact))
  }

  /** A laid-out text starts with its first line and ends with its last. */
  lemma LaysEnds(text: string, lines: seq<string>)
    requires Lays(text, lines) && |lines| > 0
    ensures lines[0] <= text
    ensures LineAt(text, |text| - |lines[|lines| - 1]|, lines[|lines| - 1])
  {
    var n := |lines|;
    assert lines[..0] == [];
    assert LineAt(text, Offset(lines, 0), lines[0]);
    assert |Concat(lines)| == |Concat(lines[..n - 1])| + |lines[n - 1]| by {
      assert lines[..n] == lines;
      ConcatOffsetGrows(lines, n - 1, n);
    }
    assert LineAt(text, Offset(lines, n - 1), lines[n - 1]);
  }

  /** `text` opens with `opening`, holds `header` ending no later than where
      `extras` starts, and ends with `closing`. */
  ghost predicate Layout(text: string, opening: string, header: string, extras: string, closing: string) {
    opening <= text &&
    exists h, e :: h + |header| <= e && LineAt(text, h, header) && LineAt(text, e, extras) &&
                   LineAt(text, |text| - |closing|, closing)
  }

  /** The message opens with the contact lines; the "Доп. услуги" line with
      the extra names comes after the parameters header; the text ends with
      the closing prompt. */
  lemma EmailTextLayout(cat: Catalogs, projectId: string, complexityId: string, urgencyId: string,
                        selectedExtras: seq<string>, priceText: string, contact: ContactInfo)
    requires Resolves(cat, projectId, complexityId, urgencyId, selectedExtras)
    ensures Layout(EmailText(cat, projectId, complexityId, urgencyId, selectedExtras, priceText, contact),
                   "Имя: " + contact.name, ParametersHeader,
                   ExtrasLine(ExtraNames(cat.extras, selectedExtras)), ClosingPrompt)
    ensures Concat(ContactLines(contact)) + ParametersHeader
         <= EmailText(cat, projectId, complexityId, urgencyId, selectedExtras, priceText, contact)
  {
    var names := ExtraNames(cat.extras, selectedExtras);
    var parameters := ParameterLines(ProjectOf(cat, projectId),
                                     ComplexityLineAsWritten(ComplexityOf(cat, complexityId)),
                                     UrgencyOf(cat, urgencyId), names, priceText);
    assert parameters[3] == ExtrasLine(names);
    assert EmailText(cat, projectId, complexityId, urgencyId, selectedExtras, priceText, contact)
        == MessageText(contact, parameters);
    MessageTextLayout(contact, parameters);
    MessageTextOpens(contact, parameters);
  }

  /** The message text starts with the four contact lines and the parameters header. */
  lemma MessageTextOpens(contact: ContactInfo, parameters: seq<string>)
    requires |parameters| == 5
    ensures Concat(ContactLines(contact)) + ParametersHeader <= MessageText(contact, parameters)
  {
    var opening := ContactLines(contact) + [ParametersHeader];
    var rest := parameters + [ClosingPrompt];
    assert MessageLines(contact, parameters) == opening + rest;
    ConcatAppend(opening, rest);
    ConcatAppend(ContactLines(contact), [ParametersHeader]);
    assert Concat([ParametersHeader]) == ParametersHeader by {
      assert [ParametersHeader][..0] == [];
    }
  }

  /** The same layout for any contact and parameter lines, the extras line
      being the fourth parameter line. */
  lemma MessageTextLayout(contact: ContactInfo, parameters: seq<string>)
    requires |parameters| == 5
    ensures Layout(MessageText(contact, parameters), "Имя: " + contact.name, ParametersHeader,
                   parameters[3], ClosingPrompt)
  {
    var lines := MessageLines(contact, parameters);
    assert lines[5..10][3] == lines[8];
    assert lines[..4][0] == lines[0];
    MessageLayout(MessageText(contact, parameters), lines, "Имя: " + contact.name, ParametersHeader,
                  parameters[3], ClosingPrompt);
  }

  /** Of eleven laid-out lines, what opens the first opens the text, the fifth
      ends before the ninth starts, and the last ends the text. */
  lemma MessageLayout(text: string, lines: seq<string>, opening: string, header: string, extras: string, closing: string)
    requires Lays(text, lines) && MessageShape(lines, opening, header, extras, closing)
    ensures Layout(text, opening, header, extras, closing)
  {
    LaysEnds(text, lines);
    assert text[..|opening|] == lines[0][..|opening|];
    ConcatOffsetGrows(lines, 4, 8);
    assert LineAt(text, Offset(lines, 4), lines[4]);
    assert LineAt(text, Offset(lines, 8), lines[8]);
  }

  /** Eleven lines: `opening` opens the first, `header` is the fifth, `extras`
      the ninth and `closing` the last. */
  predicate MessageShape(lines: seq<string>, opening: string, header: string, extras: string, closing: string) {
    |lines| == 11 && opening <= lines[0] && lines[4] == header && lines[8] == extras && lines[10] == closing
  }

  /** The parameter lines of the shipped message as written, for a landing
      page, simple, normal term, with design and SEO: the complexity line
      shows "(undefined)". */
  lemma ShippedEmailLines(contact: ContactInfo, priceText: string)
    ensures Resolves(Shipped, "landing", "simple", "normal", ["design", "seo"])
    ensures var lines := EmailLines(Shipped, "landing", "simple", "normal", ["design", "seo"], priceText, contact);
            lines[5] == "Тип проекта: " + ProjectTypes[0].title + "\n" &&
            lines[6] == "Сложность: " + ComplexityLevels[0].title + " (undefined)\n" &&
            lines[7] == "Срочность: " + UrgencyOptions[0].title + "\n" &&
            lines[8] == "Доп. услуги: " + (ExtraServices[0].title + ", " + ExtraServices[1].title) + "\n\n"
  {
    ShippedDefaults();
    ShippedExtraNames();
    assert ProjectOf(Shipped, "landing") == ProjectTypes[0];
    assert ComplexityOf(Shipped, "simple") == ComplexityLevels[0];
    assert UrgencyOf(Shipped, "normal") == UrgencyOptions[0];
  }

  /** The same selection in the corrected message: the complexity line shows
      the label alone. */
  lemma ShippedEmailLinesCorrected(contact: ContactInfo, priceText: string)
    ensures Resolves(Shipped, "landing", "simple", "normal", ["design", "seo"])
    ensures var lines := EmailLinesCorrected(Shipped, "landing", "simple", "normal", ["design", "seo"], priceText, contact);
            lines[6] == "Сложность: " + ComplexityLevels[0].title + "\n" &&
            lines[8] == "Доп. услуги: " + (ExtraServices[0].title + ", " + ExtraServices[1].title) + "\n\n"
  {
    ShippedDefaults();
    ShippedExtraNames();
    assert ComplexityOf(Shipped, "simple") == ComplexityLevels[0];
  }

  /** The subject line before encoding: "Заявка: <project label> от <name>",
      with the label of the first project carrying the id. */
  function Subject(cat: Catalogs, projectId: string, contact: ContactInfo): (subject: string)
    requires HasId(cat.projects, ProjectId, projectId)
    ensures "Заявка: " <= subject
    ensures exists k :: 0 <= k < |cat.projects| && cat.projects[k].id == projectId &&
                        (forall j :: 0 <= j < k ==> cat.projects[j].id != projectId) &&
                        subject == "Заявка: " + cat.projects[k].title + " от " + contact.name
  {
    var project := ProjectOf(cat, projectId);
    var k :| 0 <= k < |cat.projects| && cat.projects[k] == project &&
             forall j :: 0 <= j < k ==> ProjectId(cat.projects[j]) != projectId;
    assert cat.projects[k].id == projectId;
    assert forall j :: 0 <= j < k ==> cat.projects[j].id != projectId;
    "Заявка: " + project.title + " от " + contact.name
  }
}
