# Price & Stock Parser: listing data resolution

A Dafny model of the data-resolution step of the Price & Stock Parser listing
page (`getServerSideProps` in `pages/index.js`) and of its `avgPrice` helper.

The page makes one attempt to fetch the product catalog. When that attempt fails,
it synthesises raw records from the bundled fallback `records`, one per entry,
with ordinal ids `1..n`. It then normalises every raw record into one canonical
product. Every falsy field gets a default: `SKU-<id>`, `0`, `'general'`, the
whole rating `{0, 0}`, `''` and a placeholder image. The bundled `alerts` and the
source URL are handed through unchanged.

Modules:

- `JsValues`: the `Opt` type for a property that may be missing (`undefined`), `null` or a value. It also makes string truthiness, `s || d` and template-literal rendering explicit.
- `Decimal`: renders an integer as `${n}` does, with a parser that inverts it.
- `Catalog`: raw records, canonical products, the fallback dataset and the constants the page uses.
- `Normalizer`: `Number(price || 0)` and the per-record normalisation map.
- `Fallback`: turns fallback entries into raw records.
- `Listing`: the fetch outcome, the resolved props and the crash cases.
- `Pricing`: the average price.

The fetch is not modelled as I/O. It is the input `FetchOutcome`: `Failed`
means the fetch rejected, the status was not ok, or the body did not decode.
`Delivered` carries the decoded body. The environment variable
`FAKESTORE_API_URL` is an input too. JavaScript's `Number(text)` for a string
price is the caller-supplied function `parse`.

Behaviour of the code worth knowing:

- `title` gets no default on the listing page. It is copied as-is and may be missing.
- A non-numeric price string is not turned into 0. Its value is whatever `parse` gives.
- Price is not forced to be non-negative.
- Skus are not guaranteed unique across a listing. An entry's own sku can equal the `SKU-<n>` derived for another entry, and every live record without an id or sku lists as `SKU-undefined`.
- A fetch that delivers an empty array lists no products. The fallback is used only when the fetch fails.
- `payload.map` runs outside the `try`. So a decoded body that is not an array, or an array with a `null` element, makes the page throw instead of falling back. The model returns `Err` for these cases.

## Model

| member | source | states |
|---|---|---|
| `JsValues.TextOr` | pages/index.js:130-133 | `s \|\| d` for a string field gives the string exactly when it is non-empty, otherwise the default; the result is empty only if the default is |
| `JsValues.TemplateText` | pages/index.js:116 | `${sku}` renders a present string as itself and a missing or null one as `undefined` / `null` |
| `Decimal.NatText` | pages/index.js:127 | the decimal numeral of a natural is non-empty, all digits, with no leading zero |
| `Decimal.IntText` | pages/index.js:127 | an integer's rendering is non-empty and starts with a digit exactly when the integer is non-negative |
| `Decimal.NatTextRoundTrip` | pages/index.js:127 | parsing the rendered numeral of `n` gives back `n` |
| `Decimal.IntTextRoundTrip` | pages/index.js:127 | parsing the rendering of any integer, sign included, gives it back |
| `Decimal.IntTextInjective` | pages/index.js:127 | distinct integers render as distinct text |
| `Catalog.DerivedSku` | pages/index.js:127 | `SKU-${id}` is `SKU-` followed by the integer id's numeral, the string id itself, `undefined` for a missing id or `null` for a null one |
| `Catalog.DerivedSkuInjective` | pages/index.js:127 | two integer ids that derive the same sku are equal |
| `Normalizer.PriceOf` | pages/index.js:129 | price is 0 when the raw price is missing, null, 0 or empty; a numeric price is kept as is; a non-empty string goes through `Number` |
| `Normalizer.Normalize` | pages/index.js:125-135 | sku, category, description and image are copied exactly when truthy and take `SKU-<id>`, `general`, `''`, the placeholder otherwise; rating is the raw object whole or `{0,0}`; id, title and the raw record are copied unchanged; sku, category and image are never empty |
| `Normalizer.NormalizeAll` | pages/index.js:125 | one product per raw record, same length and order |
| `Normalizer.NormalizeAllRoundTrip` | pages/index.js:125-134 | the `raw` fields of the products give back the payload exactly, in order |
| `Normalizer.NormalizeIdempotent` | pages/index.js:126-133 | normalising a product's canonical fields a second time changes none of them |
| `Fallback.SynthesizeRecord` | pages/index.js:113-122 | the record for entry `idx` has id `idx + 1`, the entry's sku, price and site (as category), title `Demo product <sku>`, rating `{4.1, 120}` and the fixed description and image |
| `Fallback.Synthesize` | pages/index.js:113 | exactly one record per fallback entry, in order |
| `Fallback.SynthesizeRoundTrip` | pages/index.js:115-118 | the entries are recovered unchanged from the synthesised records |
| `Fallback.SynthesizedIdsAreOrdinals` | pages/index.js:113-114 | synthesised ids run 1..n and are pairwise distinct |
| `Fallback.FallbackSkuOf` | pages/index.js:113-127 | a synthesised record normalises to the entry's sku when that is non-empty, otherwise to `SKU-<idx+1>` |
| `Listing.SourceUrl` | pages/index.js:104 | the configured URL when it is a non-empty string, else the public catalog URL; never empty |
| `Listing.FirstNull` | pages/index.js:125-126 | for an array holding a null, the position where `map` throws: a null element with only records before it |
| `Listing.Records` | pages/index.js:125-126 | an array yields its records in order exactly when no element is null; otherwise the crash names the first null element |
| `Listing.Payload` | pages/index.js:105-123 | a failed fetch gives the synthesised fallback records; a non-array body crashes; an array gives its records |
| `Listing.ResolveListing` | pages/index.js:103-144 | resolution succeeds exactly on a failed fetch or an array without nulls; the alerts are the bundled ones and the source URL the configured one; every product is well shaped; products are the payload normalised, in order |
| `Listing.FallbackProduct` | pages/index.js:113-135 | after a failed fetch, product `i` has id `i + 1`, the entry's sku when non-empty (else `SKU-<i+1>`), title `Demo product <sku>`, the entry's price and site, and the fallback rating, description and image |
| `Listing.FallbackNeverEmpty` | pages/index.js:111-123 | a failed fetch with non-empty fallback data lists exactly one product per entry, so the listing is non-empty |
| `Listing.FallbackDerivedSkusDistinct` | pages/index.js:113-127 | after a failed fetch, skus derived for two different entries without a sku are different |
| `Listing.FallbackSkusMayCollide` | pages/index.js:113-127 | fallback entries `SKU-2` and `""` both list under sku `SKU-2`: skus are not unique |
| `Listing.LiveRecordsWithoutIdShareSku` | pages/index.js:125-127 | any two live records with neither id nor sku both list as `SKU-undefined` |
| `Listing.AlertsIndependentOfFetch` | pages/index.js:140 | the alerts do not depend on the fetch outcome |
| `Listing.LiveEmptyArrayListsNothing` | pages/index.js:107-110 | a delivered empty array lists no products and does not use the fallback |
| `Listing.ScenarioFallbackOneEntry` | pages/index.js:113-135 | a failed fetch with the one entry `ABC1, 9.5, x` lists `ABC1` at 9.5 in category `x` titled `Demo product ABC1` |
| `Listing.ScenarioLiveRecord` | pages/index.js:125-135 | a live record with id 7 and price `"12"` gets price 12, sku `SKU-7`, rating `{0,0}`, the placeholder image and an empty description |
| `Pricing.AvgPrice` | pages/index.js:98-101 | 0 for no products, otherwise the value whose product with the count is the price sum |
| `Pricing.SumPricesBounds` | pages/index.js:100 | if every price lies in `[lo, hi]`, the sum lies between `n*lo` and `n*hi` |
| `Pricing.AvgPriceWithinBounds` | pages/index.js:98-101 | the average of a non-empty list lies between any lower and upper bound of its prices |
| `Pricing.AvgPriceOfUniform` | pages/index.js:98-101 | the average of equal prices is that price |
| `Pricing.ComputeAvgPrice` | pages/index.js:98-101 | the left-to-right reduce loop computes the average |

## Left out

- The page component `PriceStockParser` and the style objects are presentation only, including `toFixed(2)` formatting.
- The fetch, `response.ok`, `response.json()` and `console.warn` are I/O. Their combined effect is the `FetchOutcome` input, and reading `FAKESTORE_API_URL` is an input.
- Loading the bundled JSON file is left out. The fallback `records` and `alerts` are a `FallbackDataset` parameter.
- `Normalizer.PriceOf`: JavaScript `Number()` string parsing, NaN and IEEE-754 rounding are not modelled. Prices are reals, string prices go through the abstract `parse`, and the average uses exact real arithmetic.
- `Decimal.IntText`: matches JavaScript's rendering only for integers of magnitude at most 2^53 - 1 (Number.MAX_SAFE_INTEGER). Above that JavaScript prints the shortest round-tripping digits padded with zeros, and from 10^21 on it uses exponent notation. Non-integer numeric ids are not modelled either; ids are integers or strings.
- Raw field types outside the modelled ones are left out, for example a numeric sku, a boolean price or a non-object rating. Array elements that are numbers, strings or booleans read every field as missing, so they are modelled as records with every field `Undefined`. Their `raw` is only approximated there: the page keeps the primitive itself, while the model keeps that all-`Undefined` record. So `Normalizer.NormalizeAllRoundTrip` gives back the payload exactly only for object elements.
- A `null` or non-object entry in the bundled fallback `records` is not modelled. Reading `record.sku` on it throws inside the `catch`, so the page rejects. `FallbackEntry` always has the three fields, possibly missing.
- The product detail page (`pages/product/[id].js`) and its single-item resolution are outside this model, which covers the listing page only.
- Next.js serialisation of the returned props is left out. For example, Next.js rejects an `undefined` title, and that framework behaviour is not modelled.
