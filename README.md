# Transport company website: calculator, phone mask and request forms

A Dafny model of the browser-side logic of a freight company's website. It covers three scripts:

- **calculator.js**, the shipping-price calculator: a symmetric lookup in a table of 45 city pairs, with 0 km for the same city and 1000 km for an unknown pair. Billable weight is the larger of the declared and the volumetric weight. The base rate is 15 per kg per 100 km with a minimum of 1500, applied before the tier multiplier (standard 1, express 1.5, economy 0.8). Four optional extras are added in a fixed order, and the results are rounded the way `Math.round` rounds. The form refuses a route whose two ends are the same city. `calculateVolume` computes cubic metres from three dimensions.
- **main.js**:
  - the phone-number input mask. It keeps the digits, makes the first digit 7, and lays them into `+7 (ddd) ddd-dd-dd`.
  - `validateInput`: the required-field and e-mail checks, with the `error` class they set.
- **request.js**:
  - the same phone mask;
  - the fold of the form's entries into a `data` dictionary, with `services[]` values gathered into an array;
  - the required-field checks of the detailed form and of the quick form;
  - `formatMessage`, the text sent to a messenger;
  - the three label lookups that fall back to the raw key.

Modules:

- `wrappers.dfy` (module `Wrappers`): `Option` and `Result`.
- `js_text.dfy` (module `JsText`): the JavaScript string operations the scripts use, namely `replace(/\D/g, '')`, `slice`, `trim` and the `\s` class.
- `calculator.dfy` (module `Calculator`): calculator.js.
- `phone_mask.dfy` (module `PhoneMask`): the phone-mask handler.
- `field_validation.dfy` (module `FieldValidation`): `validateInput` and the listeners that call it, with a `FormInput` class whose `error` field is the element's `error` class.
- `request_form.dfy` (module `RequestForm`): request.js except the phone mask.

The phone-mask handler occurs twice in the source:

- public/static/js/main.js:107-137, on every `input[type="tel"]`;
- public/static/js/request.js:12-42, on `#phone`.

The two are textually identical. They are modelled once, as `PhoneMask.FormatPhone`: both listeners set the field's value to `FormatPhone` of its current value.

How the model maps JavaScript:

- **Quantities** are exact `real`s. `Math.round(x)` is `(x + 0.5).Floor`.
- **`undefined`** is `None`.
- **`||`** follows JavaScript truthiness: `''`, `0` and `undefined` are falsy, and any array is truthy.
- **City codes** stay strings, as the `<select>` posts them. A lookup under the composite key `${from}-${to}` is modelled as a lookup by the pair of cities. `Calculator.KeyDeterminesPair` justifies this: no city code contains `-`, so a key can only match its own pair.
- **Service tiers** are a closed datatype, so `serviceTypes[formData.serviceType]` cannot miss.
- **Steps that change things** are methods proved equal to a reference function:
  - `CalculatePrice`, whose four additional-service blocks share one method, `AddIfWanted`, each with its own cost formula from `ExtraPrice`;
  - the mask's chain of appends;
  - the dictionary fold;
  - `formatMessage`'s appends and its loop over the services.
- **State**: `validateInput` changes the element's class list, so it is a method on a `FormInput` object that `modifies` it.

Two points of the code deserve a note:

- **Total price.** `totalPrice` is `Math.round(basePrice + extrasPrice)`, taken on the unrounded values (calculator.js:169-171). It can therefore differ by one from the sum of the two rounded fields `basePrice` and `extrasPrice`. `Calculator.RoundOfSum` bounds the difference, and `Calculator.ScenarioTotalRoundsExactSum` gives an input where the total is one less than that sum.
- **Distance lookup.** `getDistance` tries `from-to`, then `to-from`, then falls back to 1000 (calculator.js:106-113). `Calculator.TableWellFormed`, `Calculator.DistanceOfKnownCities` and `Calculator.DistanceSymmetric` show that it acts as a lookup by unordered pair.

## Model

| member | source | states |
|---|---|---|
| JsText.DigitsOf | public/static/js/main.js:108 | `replace(/\D/g, '')` leaves only digits, never lengthens the string, and is empty exactly when the input has no digit |
| JsText.DigitsOfConcat | public/static/js/main.js:108 | removing non-digits distributes over concatenation |
| JsText.DigitsOfAllDigits | public/static/js/main.js:108 | a string of digits is left as it is |
| JsText.Slice | public/static/js/main.js:124-133 | `slice(start, end)` clamps both bounds to the length; its length and every character are given in terms of the input |
| JsText.Trim | public/static/js/main.js:160 | `trim()` is empty exactly when the value is all whitespace; otherwise the result is the contiguous span starting at the first non-whitespace character, whose ends are not whitespace, and only whitespace follows it |
| JsText.TrimSpan | public/static/js/main.js:160 | trimming keeps exactly the span from the first to the last non-whitespace character |
| Calculator.CityOf | public/static/js/calculator.js:9-55 | a code maps to a city only if it is that city's code |
| Calculator.CityOfCode | public/static/js/calculator.js:9-55 | decoding a city's code gives the city back |
| Calculator.KeyDeterminesPair | public/static/js/calculator.js:109-110 | the composite key `from-to` of a listed pair is produced only by that very pair of codes |
| Calculator.Distance | public/static/js/calculator.js:106-113 | same city gives 0; a pair absent in both orientations gives 1000 |
| Calculator.TableWellFormed | public/static/js/calculator.js:9-55 | every stored distance is positive, no pair is stored in both orientations, and no city is paired with itself |
| Calculator.TableComplete | public/static/js/calculator.js:9-55 | every pair of distinct known cities is stored in one orientation (45 pairs) |
| Calculator.DistanceOfKnownCities | public/static/js/calculator.js:106-113 | between two distinct known cities the distance is the stored one, whichever way it is asked, and positive |
| Calculator.DistanceSymmetric | public/static/js/calculator.js:109-112 | `getDistance(a, b) == getDistance(b, a)` for all codes |
| Calculator.UnknownCityDefaultDistance | public/static/js/calculator.js:112 | a code outside the table is 1000 km from any other code |
| Calculator.DistancePositive | public/static/js/calculator.js:106-113 | two different codes are a positive distance apart |
| Calculator.Max | public/static/js/calculator.js:123 | `Math.max` is an upper bound of both arguments and equals one of them |
| Calculator.Round | public/static/js/calculator.js:169-171 | `Math.round` gives the integer within half a unit, halves rounding up |
| Calculator.BillableWeight | public/static/js/calculator.js:122-123 | billable weight is at least the declared and the volumetric (250 × volume) weight, and equals one of them |
| Calculator.CalculatePrice | public/static/js/calculator.js:116-175 | the step-by-step computation returns exactly the quote of the formula `QuoteFor` |
| Calculator.AddIfWanted | public/static/js/calculator.js:140-161 | one service block appends that service's entry, priced by its formula, exactly when its box is ticked, and keeps `extrasPrice` equal to the sum of the list |
| Calculator.AdditionalServices | public/static/js/calculator.js:137-162 | the four blocks, in order, give the extras list of the formula and its exact sum |
| Calculator.BaseChargeFloor | public/static/js/calculator.js:127-134 | the unrounded base is `max(raw, 1500) × multiplier`: at least 1500 × multiplier, equal to it when the raw price is below the minimum, and raw × multiplier otherwise |
| Calculator.TierMinimum | public/static/js/calculator.js:72-76 | the effective minimum base is 1500, 2250 and 1200 for standard, express and economy |
| Calculator.ExtrasOnePerTickedBox | public/static/js/calculator.js:140-162 | a service appears among the extras exactly when its box is ticked, in the order insurance, packaging, loading, door-to-door |
| Calculator.ExtrasPriced | public/static/js/calculator.js:141-161 | each extra carries its formula's price (insurance 2% of the post-multiplier base, packaging max(500, 10·weight), loading max(1000, 5·weight), door 800 + 50·km/100); there are as many as ticked boxes |
| Calculator.ExtrasTotal | public/static/js/calculator.js:137-162 | the unrounded extras total is the sum of the ticked extras' formulas |
| Calculator.SumIfWanted | public/static/js/calculator.js:140-161 | one service adds its own formula to the extras total when its box is ticked and nothing otherwise |
| Calculator.NoExtrasNoCharge | public/static/js/calculator.js:137-171 | with no box ticked the list is empty, the extras price is 0 and the total is the rounded base |
| Calculator.RoundOfSum | public/static/js/calculator.js:169-171 | rounding the sum differs from summing the roundings by at most one |
| Calculator.QuoteProperties | public/static/js/calculator.js:164-174 | the quote's distance and tier are the request's, its billable weight is the max of both weights, its base is at least the tier's rounded minimum, and its total is within one of base + extras |
| Calculator.ReverseRouteSameQuote | public/static/js/calculator.js:106-113 | swapping origin and destination gives the same quote |
| Calculator.ScenarioStandard | public/static/js/calculator.js:116-175 | Moscow to Saint Petersburg, 500 kg, standard: 700 km, base and total 52500 |
| Calculator.ScenarioEconomyMinimum | public/static/js/calculator.js:127-134 | 10 kg on the same route, economy: the minimum gives 1200 |
| Calculator.ScenarioExpressVolumetric | public/static/js/calculator.js:116-175 | 2 m³ of nothing to Kazan, express, insurance and door-to-door: billable 500 kg, base 90000, extras 1800 and 1200, total 93000 |
| Calculator.ScenarioTotalRoundsExactSum | public/static/js/calculator.js:169-171 | an input whose total (110011) is one less than the sum of its rounded base and extras fields |
| Calculator.OnCalculate | public/static/js/calculator.js:248-254 | the submit handler refuses exactly the routes whose two codes are equal, and otherwise returns the formula's quote, over a positive distance |
| Calculator.DerivedVolume | public/static/js/calculator.js:85-99 | the derived volume is non-negative, positive exactly when all three dimensions are, and then l·w·h / 1000000 |
| PhoneMask.NormalizeDigits | public/static/js/main.js:108-117 | the handler's first steps compute exactly the normalised digits |
| PhoneMask.Normalized | public/static/js/main.js:108-117 | the normalised digits are empty exactly when the input has none, and otherwise are digits starting with 7: the input's digits as they are when they start with 7, with a leading 8 replaced by 7, and with 7 put in front of any other first digit |
| PhoneMask.Masked | public/static/js/main.js:119-134 | the field is emptied exactly when the input has no digit |
| PhoneMask.FormatPhone | public/static/js/main.js:107-137 | the handler's chain of `slice` appends writes back exactly the template filled with the normalised digits |
| PhoneMask.FillIsLayout | public/static/js/main.js:119-134 | laying out the digits one by one, each after its separator, gives the cell-by-cell template layout `+7 (ddd) ddd-dd-dd` |
| PhoneMask.FillShape | public/static/js/main.js:119-134 | a filled template has at most 18 characters, literals in place and digits in the slots |
| PhoneMask.DigitsOfFill | public/static/js/main.js:119-134 | the digits of a filled template are 7 followed by the laid-out digits |
| PhoneMask.MaskedDigits | public/static/js/main.js:119-134 | the digits left in the field are the first min(11, n) normalised digits; the rest are dropped |
| PhoneMask.MaskedShape | public/static/js/main.js:119-134 | the field holds a prefix of `+7 (ddd) ddd-dd-dd`, at most 18 characters |
| PhoneMask.SeparatorThresholds | public/static/js/main.js:121-134 | `+7`, ` (`, `) `, and the two `-` appear exactly when the normalised digits number more than 0, 1, 4, 7 and 9 |
| PhoneMask.MaskedIdempotent | public/static/js/main.js:107-137 | re-running the handler on its own written-back value changes nothing |
| PhoneMask.TrunkEightIsSeven | public/static/js/main.js:111-113 | a number typed with a leading 8 shows as the same number typed with 7 |
| PhoneMask.CountryCodePrepended | public/static/js/main.js:114-116 | a first digit other than 7 or 8 shows as if 7 had been typed before it |
| PhoneMask.ExtraDigitsDropped | public/static/js/main.js:123-134 | once eleven digits are in, anything typed after them leaves the field as it was |
| FieldValidation.EmailPatternCharacterised | public/static/js/main.js:172-178 | the regex accepts exactly the strings without whitespace that have exactly one `@` with something before it, and a `.` after it that is neither the first nor the last character of the domain |
| FieldValidation.Accepts | public/static/js/main.js:159-181 | a required blank field fails, an optional blank one passes, a non-blank e-mail field passes exactly when its trimmed value has the e-mail shape, any other non-blank field passes |
| FieldValidation.FormInput.Validate | public/static/js/main.js:159-181 | the verdict is `Accepts` of the field, and the error class is left set exactly when it returns false |
| FieldValidation.FormInput.OnBlur | public/static/js/main.js:147-149 | leaving a field marks it exactly when it fails |
| FieldValidation.FormInput.OnInput | public/static/js/main.js:151-155 | typing revalidates only a field already marked, so it can clear the mark but never set it |
| FieldValidation.ExampleAddressShaped | public/static/js/main.js:172-178 | `ivan@mail.ru` has the e-mail shape |
| FieldValidation.ExampleAddressAccepted | public/static/js/main.js:172-178 | `ivan@mail.ru` passes on a required e-mail field |
| FieldValidation.DotlessDomainNotShaped | public/static/js/main.js:172-178 | `ivan@mail.` has no inner dot after its `@`, so it does not have the e-mail shape |
| FieldValidation.DotlessDomainRejected | public/static/js/main.js:172-178 | ` ivan@mail. ` fails: after trimming, its domain has no inner dot |
| RequestForm.CollectFormData | public/static/js/request.js:50-60 | the loop over the entries yields exactly the fold `Folded`, including its `TypeError` |
| RequestForm.FailureSticks | public/static/js/request.js:53-60 | once `push` has raised, the rest of the entries do not matter |
| RequestForm.ServicesCollectedInOrder | public/static/js/request.js:53-60 | without a plain `services` field the fold cannot raise, and `data.services` is the `services[]` values in form order, absent when there are none |
| RequestForm.LastValueWins | public/static/js/request.js:53-60 | for every other key, `data[key]` is the last entry's value, or absent |
| RequestForm.BracketKeyNeverStored | public/static/js/request.js:54-58 | the key `services[]` itself never enters `data` |
| RequestForm.CheckDetailed | public/static/js/request.js:63-71 | the form proceeds exactly when name, phone and agree are all truthy; it reports missing contact exactly when name or phone is falsy, and missing consent exactly when both are truthy and agree is not |
| RequestForm.CheckQuick | public/static/js/request.js:186-194 | the quick form proceeds exactly when both values are non-empty and the box is checked; it reports missing contact exactly when either value is empty, and missing consent exactly when both are filled and the box is not checked |
| RequestForm.QuickAgreesWithDetailed | public/static/js/request.js:186-194 | the quick form's rule is the detailed form's rule applied to the same fields |
| RequestForm.Label | public/static/js/request.js:144 | `table[key] \|\| key`: a present non-empty label is returned, a missing key returns itself |
| RequestForm.ContactMethodName | public/static/js/request.js:137-145 | a known contact method gets its label; any other key comes back unchanged |
| RequestForm.CargoTypeName | public/static/js/request.js:147-159 | a known cargo type gets its label; any other key comes back unchanged |
| RequestForm.ServiceName | public/static/js/request.js:161-169 | a known service gets its label; any other key comes back unchanged |
| RequestForm.WriteContact | public/static/js/request.js:96-100 | the contact lines appended one by one give the contact block |
| RequestForm.WriteRoute | public/static/js/request.js:102-110 | the route lines appended one by one give the route block |
| RequestForm.WriteCargo | public/static/js/request.js:112-120 | the cargo lines appended one by one give the cargo block |
| RequestForm.WriteServices | public/static/js/request.js:122-128 | the loop appends one line per service, giving the services block, or `forEach` raises on a non-empty string |
| RequestForm.WriteComment | public/static/js/request.js:130-132 | the comment block is appended when there is a comment |
| RequestForm.FormatMessage | public/static/js/request.js:93-135 | `formatMessage` returns exactly the header followed by the blocks of `Message` |
| RequestForm.ServiceLinesAppend | public/static/js/request.js:124-126 | the lines of two lists of services laid end to end are the lines of the joined list |
| RequestForm.ServiceLineAt | public/static/js/request.js:124-126 | each service has its own line, after the lines of the services before it and before those after it |
| RequestForm.MessageFailsOnlyOnStringServices | public/static/js/request.js:122-126 | composing the message fails exactly when `data.services` is a non-empty string |
| RequestForm.AddContact | public/static/js/request.js:96-100 | the contact block only appends to the message built so far |
| RequestForm.ContactBlockLines | public/static/js/request.js:96-100 | the contact block opens with the name line and closes with the preferred-contact line; the company line follows the name line exactly when a company is given (otherwise the phone line does), the phone line is always present right after them, and the e-mail line comes just before the last line exactly when an e-mail is given (otherwise the phone line does); its length is the sum of the lines present |
| RequestForm.AddRoute | public/static/js/request.js:102-110 | the route block only appends to the message built so far |
| RequestForm.AddCargo | public/static/js/request.js:112-120 | the cargo block only appends to the message built so far |
| RequestForm.AddServices | public/static/js/request.js:122-128 | when it does not raise, the services block only appends to the message built so far |
| RequestForm.AddComment | public/static/js/request.js:130-132 | the comment block only appends to the message built so far |
| RequestForm.MessageOpening | public/static/js/request.js:94-100 | the message starts with the header followed by the contact block |
| RequestForm.RouteBlockIff | public/static/js/request.js:102-110 | the route block appears exactly when `cityFrom` or `cityTo` is set, and then starts with its heading |
| RequestForm.CargoBlockIff | public/static/js/request.js:112-120 | the cargo block appears exactly when `cargoType`, `weight` or `volume` is set, and then starts with its heading |
| RequestForm.ContactReadsOnly | public/static/js/request.js:96-100 | the contact block depends only on name, company, phone, e-mail and contact method |
| RequestForm.RouteReadsOnly | public/static/js/request.js:102-110 | the route block depends only on the cities and the addresses |
| RequestForm.CargoDetailsOutsideRoute | public/static/js/request.js:96-110 | the contact and route blocks come out the same whatever `places` or `cargoValue` hold |
| RequestForm.CargoDetailsNeedCargo | public/static/js/request.js:112-120 | with no type, weight or volume, setting `places` or `cargoValue` does not change the message |
| RequestForm.CommentComesLast | public/static/js/request.js:130-134 | a given comment's block ends the message |
| RequestForm.SubmitDetailed | public/static/js/request.js:46-90 | the submit handler raises when the fold or the message raises, alerts when name or phone is missing, then when consent is missing, and otherwise composes `Message` of the folded data |
| RequestForm.SubmitQuick | public/static/js/request.js:177-209 | the quick form accepts exactly when its check proceeds, passing on the four values it logs, and otherwise shows the matching alert |
| RequestForm.WellFormedSubmission | public/static/js/request.js:50-60 | without a plain `services` field, the fold and the message cannot fail, and the services block lists the `services[]` values in form order |

## Left out

- DOM and event wiring are not modelled: reading inputs, `displayResults`, showing and hiding elements, `scrollIntoView`, `alert`, `console.log`, `window.open` and `e.preventDefault`. The alert texts are kept as constants; the rest is I/O.
- Display formatting is left out as foreign library code: `formatPrice` (`Intl.NumberFormat`), `toLocaleDateString`, and the `toFixed(2)` strings and `volumeInput` write-back of `calculateVolume`. `DerivedVolume` is the number behind them.
- `parseFloat(...) || 0` and IEEE-754 arithmetic are not modelled. Weight, volume and dimensions are taken as already-parsed reals, and arithmetic is exact.
- The `cityNames` display table is not modelled; it only feeds the result panel.
- In calculator.js, the volume fallback to the derived-volume text (line 239) is DOM plumbing and is not modelled.
- `Calculator.Tier` is a closed type, so the model has no case for an unknown `serviceType` radio value. In the page such a value would make `serviceTypes[...]` undefined and throw.
- Properties inherited from `Object.prototype` (`constructor`, `__proto__`, `toString`, …) are not modelled. In the lookups and in the `data` dictionary they are treated as ordinary missing keys.
- File entries of a `FormData` are left out: every entry value is a string.
- JavaScript strings are UTF-16. The model's strings are sequences of Unicode scalar values. This matters only for lengths and slices of non-BMP characters, and the mask slices only its digit string.
- `input.type` is taken as given. Its normalisation by the browser (lower-casing, `text` for unknown types) is not modelled.
- The quick form's button feedback and its 3-second reset timer (request.js:197-206) are timer-driven UI and are not modelled.
- main.js's menus, dropdowns, scroll effects, animations, lazy loading and counters are cosmetic UI and are not modelled.
- src/index.tsx and vite.config.ts are not part of this model: they are server and build plumbing with no logic of the core.
