# Autopricing: a verified model of the cost-plus pricing calculator

The Autopricing calculator is a single React screen. It reads six numeric
inputs: material cost, labour cost, overhead expenses, and profit, discount and
tax percentages. From these it computes a selling price through a fixed chain
of steps and shows every intermediate result. A saved calculation goes to the
front of a history list, which is kept in the browser's local storage under the
key `pricingHistory`, and is downloaded as a PDF. Entries can be deleted one by
one, or all at once after a confirmation.

The project models this in five modules:

- `Wrappers`: the `Option` type.
- `Pricing`: the `Calculation` record, the pure price computation `Compute`, and
  lemmas about the record. These cover the additive identity and the closed
  form of the total, neutral zero percentages, ranges for non-negative inputs,
  the zero record for unparsable input, and the worked example (170 becomes
  205.632).
- `FileName`: how the PDF file name is sanitised, with lemmas on its length,
  its alphabet, idempotence, and exactly which names it leaves unchanged.
- `History`: the storage key, `RemoveAt` (the index filter of
  `deleteHistoryItem`), what a load reads (`Loaded`), and the invariant
  `Mirrors`. `Mirrors` holds when the stored list equals the list in memory, or
  when the key is absent and memory is empty.
- `App`: the form, and the class `PricingApp`. Its fields are the component
  state: `formData`, `currentCalculation`, `history` and `showResults`, plus the
  `storage` map. Its methods are the handlers. Each one keeps `Valid()`, which
  is `Mirrors(storage, history)` together with "results are shown exactly when
  a calculation is pending".

Abstractions:

- Numbers are `real`.
- `parseFloat` is abstracted. The pure `Compute` takes the parsed fields as
  `Option<real>`, where `None` means NaN. `PricingApp.CalculatePrice` takes the
  parser as a function parameter `string -> Option<real>`.
- The timestamp (`new Date().toISOString()`) is a string parameter.
- The answer to `window.confirm` is a boolean parameter.
- Local storage is a `map<string, seq<Calculation>>`, with JSON abstracted away.

Two behaviours of the code worth stating:

- `loadHistory` (src/App.tsx:75-80) calls `JSON.parse` without a guard, so a
  malformed stored payload throws; there is no recovery to an empty list. The
  model has no payload format, so this case does not arise in it.
- `deleteHistoryItem` (src/App.tsx:216-220) with an index outside the list
  leaves the list as it is, because `filter` keeps every element, and still
  writes it back to storage.
- No rounding is applied to any amount before the record is stored.

## Model

| member | source | states |
|---|---|---|
| `Pricing.Compute` | src/App.tsx:87-119 | never fails; each numeric input is the parsed value, or 0 when parsing failed; name and timestamp are copied; the record satisfies every audit-trail relation (`Consistent`) |
| `Pricing.TotalIsSumOfParts` | src/App.tsx:95-101 | for a consistent record, total = afterDiscount + tax = baseCost + profit − discount + tax, and baseCost = material + labour + overhead |
| `Pricing.TotalClosedForm` | src/App.tsx:95-101 | withProfit, afterDiscount and total are the previous stage times (1 + p/100), (1 − d/100) and (1 + t/100); so total = baseCost·(1+p/100)·(1−d/100)·(1+t/100) |
| `Pricing.ZeroPercentagesAreNeutral` | src/App.tsx:96-101 | profit 0 ⇒ withProfit = baseCost; discount 0 ⇒ afterDiscount = withProfit; tax 0 ⇒ total = afterDiscount (and the matching amount is 0) |
| `Pricing.AmountsStayInRange` | src/App.tsx:95-101 | with non-negative costs, profit and tax and a discount of at most 100%: 0 ≤ baseCost ≤ withProfit, 0 ≤ discount ≤ withProfit, 0 ≤ afterDiscount ≤ withProfit, afterDiscount ≤ total |
| `Pricing.PercentOfIsAtMost` | src/App.tsx:98-99 | at most 100% of a non-negative amount lies between 0 and the amount |
| `Pricing.UnparsedInputsGiveZeroRecord` | src/App.tsx:88-101 | when no numeric field parses, every input, the base cost and the total are 0 |
| `Pricing.WorkedExample` | src/App.tsx:95-101 | 100/50/20 with 20%, 10%, 12% gives base 170, profit 34, 204, discount 20.4, 183.6, tax 22.032, total 205.632 |
| `FileName.Sanitize` | src/App.tsx:190 | same length as the name; each position keeps an ASCII letter or digit and becomes `_` otherwise |
| `FileName.PdfFileName` | src/App.tsx:190 | the sanitised name followed by `_pricing.pdf`; the sanitised part contains only `[A-Za-z0-9_]`, and letters and digits keep their positions |
| `FileName.SanitizeIsIdempotent` | src/App.tsx:190 | sanitising a sanitised name changes nothing |
| `FileName.SanitizeFixesExactlySafeNames` | src/App.tsx:190 | a name comes out unchanged if and only if all its characters are in `[A-Za-z0-9_]` |
| `History.RemoveAt` | src/App.tsx:216-217 | filtering out position `index`: for an index in range, the list without that element (`h[..i] + h[i+1..]`); otherwise the list unchanged |
| `History.RemoveAtDropsOne` | src/App.tsx:217 | an in-range delete shortens the list by one; elements before it keep their positions and those after it move up one; the multiset loses exactly the deleted element |
| `History.LoadingMirroredStorage` | src/App.tsx:75-79 | while storage mirrors memory, a load (at mount, with an empty list in memory) yields exactly the list in memory |
| `History.SaveThenLoad` | src/App.tsx:197-199 | after a list is written under the key, storage mirrors it and the next load reads it back |
| `History.ClearThenLoad` | src/App.tsx:222-226 | once the key is removed, storage mirrors the empty list and a load leaves memory unchanged |
| `App.WithField` | src/App.tsx:82-85 | the named form field holds the typed value and every other field is unchanged |
| `App.CalculatingEmptyForm` | src/App.tsx:88-93 | if the empty string does not parse, calculating on a cleared form gives an empty name and zero costs, base cost and total |
| `App.PricingApp.constructor` | src/App.tsx:34-53 | empty form, nothing pending, results hidden, history taken from storage when the key is present (otherwise empty); the invariant holds |
| `App.PricingApp.LoadHistory` | src/App.tsx:75-80 | the history becomes the stored list when the key is present and is unchanged otherwise; storage and the rest of the state are untouched |
| `App.PricingApp.SetField` | src/App.tsx:82-85 | only the named form field changes |
| `App.PricingApp.CalculatePrice` | src/App.tsx:87-123 | the pending calculation is `Compute` over the current form and parser, results are shown, history and storage are untouched |
| `App.PricingApp.SaveCalculation` | src/App.tsx:194-214 | nothing pending: nothing changes and no PDF is produced; otherwise history = [pending] + old history, storage holds exactly the new history under the key (other keys untouched), the PDF name is `PdfFileName` of the product name, the form is reset to empty strings, nothing pending, results hidden |
| `App.PricingApp.DeleteHistoryItem` | src/App.tsx:216-220 | history = `RemoveAt(old history, index)` and storage holds exactly it under the key |
| `App.PricingApp.ClearAllHistory` | src/App.tsx:222-227 | confirmed: history empty and the key removed from storage; not confirmed: history and storage unchanged |
| `App.Reload` | src/App.tsx:50-53 | remounting the component over the storage of a valid app restores exactly that app's history |
| `App.SaveThenReload` | src/App.tsx:194-199 | calculate, save, then remount: the remounted history equals the saved one, which is the new record followed by the previously stored list |
| `App.ClearThenReload` | src/App.tsx:222-226 | a confirmed clear followed by a remount leaves the history empty, whatever was stored before |

## Left out

- Floating point: IEEE rounding in the formula, NaN beyond "did not parse", Infinity, and `toFixed(2)` currency formatting. Numbers are `real`.
- `parseFloat` itself: a parameter stands in for it. Which strings parse to which numbers is not modelled.
- JSON encoding and decoding of the stored history, and the throw from `JSON.parse` on a malformed payload. Storage holds lists directly.
- The jsPDF drawing calls and the layout counter. Only the file name given to `doc.save` is modelled, and it is returned by `SaveCalculation`.
- The theme preference: its storage key, `toggleTheme`, and the `classList` updates. These are presentation concerns.
- The history panel toggle (`showHistory`), all JSX rendering, and the browser's `required` check on the inputs, which is enforced before `calculatePrice` runs.
- React's batching of state updates: each setter is an immediate field assignment.
- FileName.Sanitize: a `char` is one Unicode scalar value, which is one UTF-16 code unit inside the Basic Multilingual Plane. A character outside that plane is two code units in JavaScript and so becomes two underscores, and JavaScript counts it as length 2; the model maps it to one `_` and counts it once.
- App.PricingApp.SaveCalculation: storage writes are assumed to succeed. In the browser `localStorage.setItem` (src/App.tsx:199) can throw a quota error after `setHistory` has queued the new list; memory then holds the new list and storage the old one, and the PDF download and the form reset are skipped. `Mirrors` in `Valid()` holds only under this assumption.
- App.PricingApp.DeleteHistoryItem: the same assumption for the write at src/App.tsx:219; a failed write leaves storage holding the old list.
- App.PricingApp.Valid: the `pricingHistory` key is assumed to have a single writer. Another browser tab writing the key would break the mirror between storage and memory; concurrent tabs are not modelled.
- src/faqs.tsx: static help text with no logic.
