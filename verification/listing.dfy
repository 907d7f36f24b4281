/** The listing page's data resolution: one fetch attempt, the fallback on
    failure, normalisation of whatever payload results, and the alerts and
    source URL handed through. The fetch itself is the `FetchOutcome` input. */
module Listing {
  import opened JsValues
  import opened Catalog
  import opened Normalizer
  import opened Fallback
  import Decimal

  const DefaultApiUrl: string := "https://fakestoreapi.com/products"

  /** One element of a decoded JSON array. A number, string or boolean element
      reads every field as missing, so it is an `Item` with all fields `Undefined`. */
  datatype Element = Item(record: RawRecord) | NullItem

  /** A decoded response body. */
  datatype Body = JsonArray(elements: seq<Element>) | NonArray

  /** The effect of the single fetch attempt. `Failed` covers a rejected fetch,
      a non-success status and a body that does not decode as JSON; all three
      are caught and lead to the fallback. */
  datatype FetchOutcome = Failed | Delivered(body: Body)

  /** The TypeError thrown by `payload.map(…)`, which runs outside the
      try/catch: the payload has no `map`, or an element is null. */
  datatype Crash = PayloadNotArray | NullElement(index: nat)

  datatype Result<+T> = Ok(value: T) | Err(crash: Crash)

  /** The props handed to the page. */
  datatype Listing = Listing(products: seq<Product>, alerts: seq<AlertRule>, sourceUrl: string)

  /** `process.env.FAKESTORE_API_URL || 'https://fakestoreapi.com/products'`. */
  function SourceUrl(env: Opt<string>): (url: string)
    ensures url != ""
    ensures TextTruthy(env) ==> url == env.value
    ensures !TextTruthy(env) ==> url == DefaultApiUrl
  {
    TextOr(env, DefaultApiUrl)
  }

  predicate AllItems(es: seq<Element>) {
    forall i :: 0 <= i < |es| ==> es[i].Item?
  }

  /** The position of the first null element, where `map` throws. */
  function FirstNull(es: seq<Element>): (k: nat)
    requires !AllItems(es)
    ensures k < |es| && es[k].NullItem?
    ensures forall j :: 0 <= j < k ==> es[j].Item?
    decreases |es|
  {
    if es[0].NullItem? then 0 else 1 + FirstNull(es[1..])
  }

  /** The records of a decoded array, or the crash at its first null element. */
  function Records(es: seq<Element>): (r: Result<seq<RawRecord>>)
    ensures r.Ok? <==> AllItems(es)
    ensures r.Ok? ==> |r.value| == |es| && forall i :: 0 <= i < |es| ==> r.value[i] == es[i].record
    ensures r.Err? ==> r.crash == NullElement(FirstNull(es))
  {
    if AllItems(es) then Ok(seq(|es|, i requires 0 <= i < |es| => es[i].record))
    else Err(NullElement(FirstNull(es)))
  }

  /** The raw payload: the live array, or the synthesised fallback records. */
  function Payload(outcome: FetchOutcome, fallback: FallbackDataset): (r: Result<seq<RawRecord>>)
    ensures outcome.Failed? ==> r == Ok(Synthesize(fallback.records))
    ensures outcome == Delivered(NonArray) ==> r == Err(PayloadNotArray)
    ensures forall es :: outcome == Delivered(JsonArray(es)) ==> r == Records(es)
  {
    match outcome
    case Failed => Ok(Synthesize(fallback.records))
    case Delivered(NonArray) => Err(PayloadNotArray)
    case Delivered(JsonArray(es)) => Records(es)
  }

  /** Resolution for one listing request. */
  function ResolveListing(outcome: FetchOutcome, fallback: FallbackDataset, env: Opt<string>,
                          parse: string -> real): (r: Result<Listing>)
    ensures r.Ok? <==> outcome.Failed? || (outcome.body.JsonArray? && AllItems(outcome.body.elements))
    ensures outcome == Delivered(NonArray) ==> r == Err(PayloadNotArray)
    ensures r.Ok? ==> r.value.alerts == fallback.alerts && r.value.sourceUrl == SourceUrl(env)
    ensures r.Ok? ==> forall i :: 0 <= i < |r.value.products| ==> WellShaped(r.value.products[i])
    ensures outcome.Failed? ==> r.Ok? && RawsOf(r.value.products) == Synthesize(fallback.records)
    ensures outcome.Delivered? && r.Ok? ==>
              |r.value.products| == |outcome.body.elements|
              && forall i :: 0 <= i < |r.value.products| ==>
                   r.value.products[i].raw == outcome.body.elements[i].record
    ensures r.Ok? ==> r.value.products == NormalizeAll(Payload(outcome, fallback).value, parse)
  {
    match Payload(outcome, fallback)
    case Err(c) => Err(c)
    case Ok(payload) => Ok(Listing(NormalizeAll(payload, parse), fallback.alerts, SourceUrl(env)))
  }

  /** On the fallback path, product `i` is entry `i` with the fallback constants. */
  lemma FallbackProduct(fallback: FallbackDataset, env: Opt<string>, parse: string -> real, i: nat)
    requires i < |fallback.records|
    ensures ResolveListing(Failed, fallback, env, parse).Ok?
    ensures var p := ResolveListing(Failed, fallback, env, parse).value.products[i];
            var e := fallback.records[i];
            && p.id == Defined(IdNum(i + 1))
            && (TextTruthy(e.sku) ==> p.sku == e.sku.value)
            && (!TextTruthy(e.sku) ==> p.sku == DerivedSku(Defined(IdNum(i + 1))))
            && p.title == Defined(DemoTitlePrefix + TemplateText(e.sku))
            && p.price == PriceOf(e.price, parse)
            && p.category == TextOr(e.site, DefaultCategory)
            && p.rating == FallbackRating
            && p.description == FallbackDescription
            && p.image == PlaceholderImage
  {
  }

  /** With a non-empty fallback dataset, a failed fetch still lists products. */
  lemma FallbackNeverEmpty(fallback: FallbackDataset, env: Opt<string>, parse: string -> real)
    requires |fallback.records| > 0
    ensures ResolveListing(Failed, fallback, env, parse).Ok?
    ensures |ResolveListing(Failed, fallback, env, parse).value.products| == |fallback.records|
    ensures |ResolveListing(Failed, fallback, env, parse).value.products| > 0
  {
  }

  /** On the fallback path, skus derived for entries without one are pairwise
      distinct, because they embed the distinct ordinal ids. */
  lemma FallbackDerivedSkusDistinct(fallback: FallbackDataset, env: Opt<string>, parse: string -> real,
                                     i: nat, j: nat)
    requires i < j < |fallback.records|
    requires !TextTruthy(fallback.records[i].sku) && !TextTruthy(fallback.records[j].sku)
    ensures ResolveListing(Failed, fallback, env, parse).Ok?
    ensures var ps := ResolveListing(Failed, fallback, env, parse).value.products;
            ps[i].sku != ps[j].sku
  {
    var ps := ResolveListing(Failed, fallback, env, parse).value.products;
    assert ps == NormalizeAll(Synthesize(fallback.records), parse);
    FallbackSkuOf(fallback.records[i], i, parse);
    FallbackSkuOf(fallback.records[j], j, parse);
    if ps[i].sku == ps[j].sku {
      DerivedSkuInjective(i + 1, j + 1);
    }
  }

  /** Skus are not unique across a listing: an entry's own sku may coincide
      with the one derived for another entry that has none. */
  lemma FallbackSkusMayCollide(env: Opt<string>, parse: string -> real)
    ensures var fallback := FallbackDataset([FallbackEntry(Defined("SKU-2"), Undefined, Undefined),
                                             FallbackEntry(Defined(""), Undefined, Undefined)], []);
            var r := ResolveListing(Failed, fallback, env, parse);
            && r.Ok? && |r.value.products| == 2
            && r.value.products[0].sku == "SKU-2"
            && r.value.products[1].sku == "SKU-2"
  {
  }

  /** Every live record without an id or sku lists under the same sku. */
  lemma LiveRecordsWithoutIdShareSku(es: seq<Element>, fallback: FallbackDataset, env: Opt<string>,
                                     parse: string -> real, i: nat, j: nat)
    requires AllItems(es) && i < |es| && j < |es|
    requires es[i].record.id == Undefined && !TextTruthy(es[i].record.sku)
    requires es[j].record.id == Undefined && !TextTruthy(es[j].record.sku)
    ensures ResolveListing(Delivered(JsonArray(es)), fallback, env, parse).Ok?
    ensures var ps := ResolveListing(Delivered(JsonArray(es)), fallback, env, parse).value.products;
            ps[i].sku == ps[j].sku == "SKU-undefined"
  {
  }

  /** The alerts are the bundled ones, whatever the fetch did. */
  lemma AlertsIndependentOfFetch(a: FetchOutcome, b: FetchOutcome, fallback: FallbackDataset,
                                 env: Opt<string>, parse: string -> real)
    requires ResolveListing(a, fallback, env, parse).Ok? && ResolveListing(b, fallback, env, parse).Ok?
    ensures ResolveListing(a, fallback, env, parse).value.alerts == ResolveListing(b, fallback, env, parse).value.alerts
  {
  }

  /** A live empty array is listed as no products at all: the fallback is
      consulted only when the fetch fails. */
  lemma LiveEmptyArrayListsNothing(fallback: FallbackDataset, env: Opt<string>, parse: string -> real)
    ensures ResolveListing(Delivered(JsonArray([])), fallback, env, parse) ==
            Ok(Listing([], fallback.alerts, SourceUrl(env)))
  {
  }

  /** A failed fetch with a one-entry fallback lists that entry. */
  lemma ScenarioFallbackOneEntry(env: Opt<string>, parse: string -> real)
    ensures var fallback := FallbackDataset([FallbackEntry(Defined("ABC1"), Defined(PriceNum(9.5)), Defined("x"))], []);
            var r := ResolveListing(Failed, fallback, env, parse);
            && r.Ok? && |r.value.products| == 1
            && r.value.products[0].sku == "ABC1"
            && r.value.products[0].price == 9.5
            && r.value.products[0].category == "x"
            && r.value.products[0].title == Defined("Demo product ABC1")
            && r.value.alerts == []
  {
    var fallback := FallbackDataset([FallbackEntry(Defined("ABC1"), Defined(PriceNum(9.5)), Defined("x"))], []);
    FallbackProduct(fallback, env, parse, 0);
    assert DemoTitlePrefix + "ABC1" == "Demo product ABC1";
  }

  /** A live record with a numeric-string price and no rating, sku or image. */
  lemma ScenarioLiveRecord(fallback: FallbackDataset, env: Opt<string>, parse: string -> real)
    requires parse("12") == 12.0
    ensures var rec := RawRecord(Defined(IdNum(7)), Undefined, Defined("Widget"), Defined(PriceStr("12")),
                                 Defined("tools"), Undefined, Undefined, Undefined);
            var r := ResolveListing(Delivered(JsonArray([Item(rec)])), fallback, env, parse);
            && r.Ok? && |r.value.products| == 1
            && r.value.products[0].price == 12.0
            && r.value.products[0].sku == "SKU-7"
            && r.value.products[0].rating == ZeroRating
            && r.value.products[0].image == PlaceholderImage
            && r.value.products[0].description == ""
  {
  }
}
