# Freelance price calculator: pricing core in Dafny

This project models the pricing core of a client-side price calculator for freelance work. The user picks a project type, a complexity tier and an urgency option, and ticks any number of extra services. The calculator then prices the choice with a fixed three-step formula and builds the text of an order e-mail.

The model has five modules, one per concern of the source:

- `Catalog` (`catalog.dfy`) holds the four immutable tables of `src/data.js` as constant sequences of records. It also states the invariants the formula depends on: the tables are non-empty, ids are unique and coefficients have the right sign.
- `Pricing` (`pricing.dfy`) covers `lookupById`, `calcExtrasPercent` and `calculatePrice`:
  - `LookupById` is the linear search, written as a loop. `CalcExtrasPercent` is the accumulating loop. Each is proved equal to a specification function, `Lookup` and `ExtrasSum`.
  - `CalculatePrice` is the pure three-step pipeline, with a single `Math.round` at the end. `Math.round(x)` is modelled as `Floor(x + 1/2)`. The three steps themselves (src/App.jsx:58-67) are the function `Stepwise`. Its closed form is stated by the lemma `PricingProperties.StepwiseProduct`, and its monotonicity by the `StepwiseMonotone` lemmas.
  - The thrown `Error` is modelled as the `Err` case of a `Result`. It carries the catalog name and the offending id.
- `PricingProperties` (`pricing_properties.dfy`) proves the closed form of the price, its monotonicity and the worked values of the shipped tables.
- `SelectionState` (`selection.dfy`) is the mutable selection of the `App` component. It is a class with one field per selection hook (project type, complexity, urgency, extras), the setters, and `ToggleExtra`. The `showModal` and `contactInfo` hooks are not held.
- `OrderMessage` (`order_message.dfy`) is the text part of `buildOrderLink`: the extras list, the contact lines, the body layout and the subject. `EmailText` renders the body as the code writes it, including the "(undefined)" of the complexity line. `EmailTextCorrected` renders the body with the corrected complexity line (see "## Findings").

Modelling choices:
- JS numbers are modelled as exact `real`s, and base prices as `int`s.
- The pricing functions take the catalogs as a `Catalogs` value. `Catalog.Shipped` is the value that `src/data.js` defines.
- `label` is a reserved word in Dafny, so the entries' `label` field is called `title` here, and the `label` argument of `lookupById` is called `catalogName`.

Where the code departs from the intended behaviour, the model follows the code:
- Extras are an ordered list that may in principle hold duplicates, not a set.
- Rounding is `Math.round`: halves go up, also for negative values.

## Model

| member | source | states |
|---|---|---|
| Catalog.ShippedWellFormed | src/data.js:8-34 | the shipped tables are non-empty, ids are unique in each, base prices and surcharge fractions are non-negative and multipliers are at least 1 |
| Catalog.ShippedCoefficients | src/data.js:9-33 | base prices are 5000, 25000, 10000; 'normal' adds 0 and 'urgent' 0.5; extra fractions are non-negative and the three sum to 0.60 |
| Catalog.ShippedMultipliersIncrease | src/data.js:16-18 | complexity multipliers are at least 1 and strictly increase in catalog order |
| Catalog.ShippedDefaults | src/App.jsx:123-125 | the first entries that form the default selection exist and are 'landing', 'simple', 'normal' |
| Pricing.FirstMatch | src/App.jsx:29 | the position found is the first whose id matches, or the length when none does |
| Pricing.Lookup | src/App.jsx:28-32 | succeeds exactly when some entry has the id; then it returns the first such entry, whose id is the query; otherwise the error names the catalog and the id, and no default entry is returned |
| Pricing.ErrorMessage | src/App.jsx:30 | the thrown text is "Unknown " + catalog name + " id: " followed by the id and nothing else |
| Pricing.LookupById | src/App.jsx:28-32 | the linear search returns exactly what Lookup specifies |
| Pricing.ExtrasSum | src/App.jsx:36-47 | defined exactly when every listed id is a known service; on failure the error names the first unknown id in list order |
| Pricing.ExtrasSumPrefixErr | src/App.jsx:41-44 | once an id fails the lookup, the whole computation fails with that error (the throw leaves the loop) |
| Pricing.CalcExtrasPercent | src/App.jsx:36-47 | the loop's result equals ExtrasSum: 0 for an empty list, the sum in list order, or the first lookup error |
| Pricing.Round | src/App.jsx:70 | the result is the integer n with n - 1/2 <= x < n + 1/2 (Math.round) |
| Pricing.CalculatePrice | src/App.jsx:49-71 | succeeds exactly when the project, complexity and urgency ids and every extra id resolve; otherwise the error is that of the first failed lookup, in the order project, complexity, urgency, extras |
| PricingProperties.LookupOwnId | src/App.jsx:29 | with unique ids, looking up an entry's own id returns that entry |
| PricingProperties.ExtrasSumOfEntries | src/App.jsx:40-46 | listing catalog entries by id gives the sum of their fractions |
| PricingProperties.ExtrasSumIsFractions | src/App.jsx:40-46 | when every id is known, the extras sum is the plain sum of the ids' fractions in list order |
| PricingProperties.ExtrasSumAppend | src/App.jsx:41-45 | appending a known id adds exactly that service's fraction to the sum |
| PricingProperties.ExtrasSumConcat | src/App.jsx:40-46 | the sum over a concatenation of known ids is the sum of the two sums |
| PricingProperties.ExtrasSumNonNegative | src/App.jsx:40-46 | with non-negative fractions the extras sum is non-negative |
| PricingProperties.PriceOfEntries | src/App.jsx:49-71 | for catalog entries with unique ids, the price is round(Stepwise(basePrice, multiplier, sum of chosen fractions, urgency surcharge)); the rounding is applied once, to the final value |
| PricingProperties.StepwiseProduct | src/App.jsx:58-67 | the three steps equal basePrice × multiplier × (1 + extras) × (1 + urgency) |
| PricingProperties.EmptyExtrasIsNoOp | src/App.jsx:63 | with an extras sum of 0 the second step is a multiply by 1 |
| PricingProperties.EmptyExtrasPrice | src/App.jsx:62-67 | an empty extras list prices to round(basePrice × multiplier × (1 + urgency)) |
| PricingProperties.ZeroUrgencyPrice | src/App.jsx:67 | an urgency surcharge of 0 leaves the price after extras unchanged |
| PricingProperties.RoundMonotone | src/App.jsx:70 | rounding preserves order |
| PricingProperties.StepwiseMonotoneInExtras | src/App.jsx:63 | the unrounded price does not decrease as the extras sum grows, for non-negative coefficients |
| PricingProperties.StepwiseMonotoneInUrgency | src/App.jsx:67 | the unrounded price does not decrease as the urgency surcharge grows |
| PricingProperties.StepwiseMonotoneInMultiplier | src/App.jsx:58 | the unrounded price does not decrease as the multiplier grows |
| PricingProperties.PriceMonotoneInExtras | src/App.jsx:62-63 | appending a known extra id never lowers the price, for non-negative coefficients |
| PricingProperties.PriceMonotoneInUrgency | src/App.jsx:54-67 | choosing an urgency option with a surcharge at least as large never lowers the price |
| PricingProperties.PriceMonotoneInComplexity | src/App.jsx:53-58 | choosing a complexity tier with a multiplier at least as large never lowers the price |
| PricingProperties.ShippedAllExtrasSum | src/data.js:31-33 | design, seo and qa together sum to 0.60 |
| PricingProperties.ShippedWorkedValues | src/App.jsx:17-24 | the default selection prices to 5000; landing/medium/normal/[design, seo] to 14500; the same with urgent to 21750; webapp/hard/urgent/[design, seo, qa] to 240000 |
| PricingProperties.DefaultSelectionPrice | src/App.jsx:49-71 | landing/simple/normal with no extras prices to 5000 × 1 × 1 × 1 = 5000 |
| PricingProperties.LandingMediumPrices | src/App.jsx:17-24 | the worked example of the formula comment: landing/medium/[design, seo] is 14500, and 21750 when urgent |
| PricingProperties.WebappHardUrgentPrice | src/App.jsx:49-71 | webapp/hard/urgent with all three extras prices to 25000 × 4 × 1.6 × 1.5 = 240000 |
| PricingProperties.ShippedUnknownProject | src/App.jsx:28-32 | project 'mobile' fails with the error naming "project" and "mobile", whose text is "Unknown project id: mobile" |
| SelectionState.Remove | src/App.jsx:146 | the filtered list no longer holds the id and is no longer than the original |
| SelectionState.Toggle | src/App.jsx:144-149 | the id is in the new list exactly when it was not in the old one, and the list grows by at most one |
| SelectionState.RemoveContents | src/App.jsx:146 | filtering removes every occurrence of the id and keeps every other id as often as before |
| SelectionState.RemoveConcat | src/App.jsx:146 | filtering distributes over concatenation, so the kept ids keep their order |
| SelectionState.RemoveAbsent | src/App.jsx:146 | filtering an id that does not occur changes nothing |
| SelectionState.RemoveNoDuplicates | src/App.jsx:146 | filtering never introduces a duplicate |
| SelectionState.ToggleEffect | src/App.jsx:144-149 | an absent id is appended at the end; a present id disappears and the other ids keep their counts |
| SelectionState.ToggleMembership | src/App.jsx:144-149 | toggling flips the membership of that id and of no other |
| SelectionState.ToggleNoDuplicates | src/App.jsx:144-149 | a duplicate-free list stays duplicate-free |
| SelectionState.ToggleTwiceRestores | src/App.jsx:144-149 | toggling an absent id twice restores the exact original list |
| SelectionState.ToggleTwiceMovesToEnd | src/App.jsx:144-149 | toggling a present id twice moves it to the end |
| SelectionState.Selection.constructor | src/App.jsx:123-128 | the selection starts at the first entry of each single-choice catalog with no extras, and is valid |
| SelectionState.Selection.Valid | src/App.jsx:181 | a selection whose ids all resolve and whose extras are duplicate-free always prices without an error |
| SelectionState.Selection.SetProjectType | src/App.jsx:123 | replaces the project id and nothing else; a valid selection stays valid when the new id is one of the catalog's |
| SelectionState.Selection.SetComplexity | src/App.jsx:124 | replaces the complexity id and nothing else; a valid selection stays valid when the new id is one of the catalog's |
| SelectionState.Selection.SetUrgency | src/App.jsx:125 | replaces the urgency id and nothing else; a valid selection stays valid when the new id is one of the catalog's |
| SelectionState.Selection.ToggleExtra | src/App.jsx:142-151 | the new extras list is Toggle(old list, id); the other fields are unchanged; a valid selection stays valid when the id is a catalog id |
| SelectionState.Selection.TotalPrice | src/App.jsx:181 | a valid selection always has a price; a failure names one of the selection's ids |
| SelectionState.DefaultQuote | src/App.jsx:123-128 | a fresh selection over the shipped catalogs prices to 5000 |
| OrderMessage.Join | src/App.jsx:87 | a non-empty join starts with the first part and ends with the last |
| OrderMessage.ExtraNames | src/App.jsx:86-88 | no extras render as "нет"; otherwise the names begin with the label of the first selected id |
| OrderMessage.ExtraLabel | src/App.jsx:87 | the label of the first service whose id matches |
| OrderMessage.ExtraLabels | src/App.jsx:87 | the labels of the selected ids, position by position in selection order |
| OrderMessage.ExtraNamesShape | src/App.jsx:86-88 | no extras render as "нет"; one renders as its label; each further one appends ", " and its label |
| OrderMessage.ShippedExtraNames | src/App.jsx:86-88 | [design, seo] renders as "Дизайн (макет), SEO-оптимизация", and [] as "нет" |
| OrderMessage.ComplexityLine | src/App.jsx:98 | with a description the line agrees with the line as written; without one it is the label alone |
| OrderMessage.ContactLines | src/App.jsx:92-95 | four lines opening with the name, phone, email and contact-time captions and values, in that order |
| OrderMessage.MessageText | src/App.jsx:91-102 | the text is exactly the message lines one after another: each line starts where the ones before it end, and nothing follows the last |
| OrderMessage.EmailText | src/App.jsx:80-102 | emailText as written: the text is exactly the lines with the looked-up labels, the as-written complexity line, the extra names and the price text |
| OrderMessage.EmailTextCorrected | src/App.jsx:80-102 | the same text with the corrected complexity line |
| OrderMessage.MessageTextLayout | src/App.jsx:91-102 | any message text opens with "Имя: " and the name, has the extras line after the parameters header, and ends with the closing prompt |
| OrderMessage.MessageTextOpens | src/App.jsx:92-96 | a message text starts with the four contact lines followed by the parameters header |
| OrderMessage.EmailTextLayout | src/App.jsx:86-102 | the e-mail text opens with "Имя: " and the name, starts with the four contact lines followed by the parameters header, has "Доп. услуги: " + the extra names + a blank line after the parameters header ends, and ends with the closing prompt |
| OrderMessage.ShippedEmailLines | src/App.jsx:97-100 | for landing/simple/normal/[design, seo] the text as written has the project, complexity and urgency lines with the first label of each catalog, the complexity line ending in "(undefined)", and the line "Доп. услуги: Дизайн (макет), SEO-оптимизация" |
| OrderMessage.ShippedEmailLinesCorrected | src/App.jsx:98-100 | for the same selection the corrected text has the complexity line with the label alone, and the same extras line |
| OrderMessage.ShippedComplexityLines | src/App.jsx:98 | as written, every shipped level renders "(undefined)"; the corrected line renders the label alone |
| OrderMessage.Subject | src/App.jsx:106 | the subject is "Заявка: " + the label of the first project with that id (the `find` of line 81) + " от " + the name |

## Findings

| source | as written | input that shows it | evidently intended | confidence | as-written member | corrected member |
|---|---|---|---|---|---|---|
| src/App.jsx:98 | `(${complexity.description})` is interpolated, but no entry of COMPLEXITY_LEVELS in src/data.js has a `description` | any selection, e.g. complexity 'simple', gives the line "Сложность: Простой (undefined)" | show the description in parentheses only when the level has one | not executed; high that the text appears, medium that it is unintended | OrderMessage.ShippedComplexityLines and OrderMessage.ShippedEmailLines (with OrderMessage.ComplexityLineAsWritten, used by OrderMessage.EmailText) | OrderMessage.ComplexityLine and OrderMessage.ShippedEmailLinesCorrected (used by OrderMessage.EmailTextCorrected) |

## Left out

- The JSX rendering, the `showModal` flag and `handleFieldChange` (src/App.jsx:130-139, 156-160, 185-388) are presentation, not pricing logic.
- The DOM side effects of `handleSubmit` (src/App.jsx:164-178) are left out: creating and clicking an anchor, and resetting the form. This is browser I/O.
- `encodeURIComponent` (src/App.jsx:106-107) is a library call. `Subject` and `EmailText` produce the text before encoding, and the round-trip of encoding is not modelled.
- `toLocaleString('ru-RU')` (src/App.jsx:101) is a library call. The formatted price is the parameter `priceText` of `EmailText`.
- The final `mailto:` concatenation with `CONTACT_EMAIL` (src/App.jsx:109) is transport, and `CONTACT_EMAIL` is not defined in the data that is modelled.
- IEEE-754 rounding of JS numbers is not modelled. Coefficients are exact reals, so 0.25 + 0.20 is exactly 0.45.
- The `Array.isArray` guard (src/App.jsx:38) is dynamic typing. The model takes a sequence.
- The `description` reads at src/App.jsx:207, 224 and 241 belong to the JSX rendering. The description read in the message is covered by the finding above.
- The browser's `required` validation of name and phone (src/App.jsx:320, 335) is presentation policy.
- vite.config.js and src/main.jsx are build configuration and mounting only.
- Selection.ToggleExtra and the three setters take the catalogs as a ghost parameter, only to state that `Valid` is preserved. The source's `toggleExtra` (src/App.jsx:142-151) and the state setters read no catalog; the toggled id comes from the JSX call at src/App.jsx:259.
- OrderMessage.ExtraLabel, OrderMessage.ExtraLabels, OrderMessage.ExtraNames, OrderMessage.ProjectOf, OrderMessage.ComplexityOf, OrderMessage.UrgencyOf, OrderMessage.EmailLines, OrderMessage.EmailLinesCorrected, OrderMessage.EmailText, OrderMessage.EmailTextCorrected and OrderMessage.Subject require that every id resolves (`Resolves`, `AllKnown`, `HasId`). `buildOrderLink` looks the ids up with a bare `find` (src/App.jsx:81-83, 87), so a missing id makes the code crash with a TypeError when `.label` is read, and that crash is not modelled. Its only caller, `handleSubmit` (src/App.jsx:168), passes the selection that `calculatePrice` at src/App.jsx:181 has already priced, so every id resolves there.
- React's batching of state updates is not modelled. Each setter call is a method call that completes before the next.
