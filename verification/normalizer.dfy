/** The normalisation map of the listing page: every raw record, live or
    synthesised, becomes one canonical product with defaults for falsy fields.
    JavaScript's `Number(text)` is the caller-supplied `parse`. */
module Normalizer {
  import opened JsValues
  import opened Catalog

  /** Truthiness of a raw price: `0` and `""` are falsy, as are missing and null. */
  predicate PriceTruthy(o: Opt<RawPrice>) {
    match o
    case Defined(PriceNum(x)) => x != 0.0
    case Defined(PriceStr(t)) => t != ""
    case _ => false
  }

  /** `Number(price || 0)`. */
  function PriceOf(o: Opt<RawPrice>, parse: string -> real): (r: real)
    ensures !PriceTruthy(o) ==> r == 0.0
    ensures forall x: real :: o == Defined(PriceNum(x)) ==> r == x
    ensures forall t: string :: o == Defined(PriceStr(t)) && t != "" ==> r == parse(t)
  {
    if PriceTruthy(o) then
      match o.value
      case PriceNum(x) => x
      case PriceStr(t) => parse(t)
    else
      0.0
  }

  /** The guaranteed shape of a canonical product. */
  predicate WellShaped(p: Product) {
    p.sku != "" && p.category != "" && p.image != ""
  }

  /** Maps one raw record to the canonical product. */
  function Normalize(raw: RawRecord, parse: string -> real): (p: Product)
    ensures WellShaped(p)
    ensures p.raw == raw && p.id == raw.id && p.title == raw.title
    ensures TextTruthy(raw.sku) ==> p.sku == raw.sku.value
    ensures !TextTruthy(raw.sku) ==> p.sku == DerivedSku(raw.id)
    ensures p.price == PriceOf(raw.price, parse)
    ensures TextTruthy(raw.category) ==> p.category == raw.category.value
    ensures !TextTruthy(raw.category) ==> p.category == DefaultCategory
    ensures raw.rating.Defined? ==> p.rating == raw.rating.value
    ensures !raw.rating.Defined? ==> p.rating == ZeroRating
    ensures TextTruthy(raw.description) ==> p.description == raw.description.value
    ensures !TextTruthy(raw.description) ==> p.description == ""
    ensures TextTruthy(raw.image) ==> p.image == raw.image.value
    ensures !TextTruthy(raw.image) ==> p.image == PlaceholderImage
  {
    Product(
      id := raw.id,
      sku := TextOr(raw.sku, DerivedSku(raw.id)),
      title := raw.title,
      price := PriceOf(raw.price, parse),
      category := TextOr(raw.category, DefaultCategory),
      rating := if raw.rating.Defined? then raw.rating.value else ZeroRating,
      description := TextOr(raw.description, ""),
      image := TextOr(raw.image, PlaceholderImage),
      raw := raw)
  }

  /** `payload.map(normalize)`. */
  function NormalizeAll(payload: seq<RawRecord>, parse: string -> real): (ps: seq<Product>)
    ensures |ps| == |payload|
    ensures forall i :: 0 <= i < |ps| ==> ps[i] == Normalize(payload[i], parse)
  {
    seq(|payload|, i requires 0 <= i < |payload| => Normalize(payload[i], parse))
  }

  /** The raw records a product list was built from. */
  function RawsOf(ps: seq<Product>): (raws: seq<RawRecord>)
    ensures |raws| == |ps|
    ensures forall i :: 0 <= i < |ps| ==> raws[i] == ps[i].raw
  {
    seq(|ps|, i requires 0 <= i < |ps| => ps[i].raw)
  }

  /** Normalisation loses nothing: the payload is recovered from the products,
      in order. */
  lemma NormalizeAllRoundTrip(payload: seq<RawRecord>, parse: string -> real)
    ensures RawsOf(NormalizeAll(payload, parse)) == payload
  {
  }

  /** The canonical fields of a product, written back as a raw record. */
  function Reencode(p: Product): (raw: RawRecord)
    ensures raw.id == p.id && raw.title == p.title
    ensures raw.sku == Defined(p.sku) && raw.category == Defined(p.category)
    ensures raw.rating == Defined(p.rating) && raw.image == Defined(p.image)
  {
    RawRecord(p.id, Defined(p.sku), p.title, Defined(PriceNum(p.price)), Defined(p.category),
              Defined(p.rating), Defined(p.description), Defined(p.image))
  }

  /** Agreement on every canonical field (everything but `raw`). */
  predicate SameCanonicalFields(p: Product, q: Product) {
    && p.id == q.id && p.sku == q.sku && p.title == q.title && p.price == q.price
    && p.category == q.category && p.rating == q.rating
    && p.description == q.description && p.image == q.image
  }

  /** Defaulting is idempotent: normalising an already canonical product
      changes none of its canonical fields. */
  lemma NormalizeIdempotent(raw: RawRecord, parse: string -> real)
    ensures SameCanonicalFields(Normalize(Reencode(Normalize(raw, parse)), parse), Normalize(raw, parse))
  {
  }
}
