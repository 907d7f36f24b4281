/** The records the listing page handles: raw payload records (live catalog
    shape or synthesised from the bundled fallback data), the canonical
    product handed to the page, and the bundled fallback dataset itself. */
module Catalog {
  import opened JsValues
  import Decimal

  /** A record identifier as it arrives in JSON: an integer or a string. */
  datatype Id = IdNum(n: int) | IdStr(s: string)

  /** A raw price: a JSON number or a numeric string such as "12". */
  datatype RawPrice = PriceNum(amount: real) | PriceStr(text: string)

  /** A rating object, kept whole: either field may be missing. */
  datatype Rating = Rating(rate: Opt<real>, count: Opt<real>)

  /** A loosely-typed record: every field may be missing or null. */
  datatype RawRecord = RawRecord(
    id: Opt<Id>,
    sku: Opt<string>,
    title: Opt<string>,
    price: Opt<RawPrice>,
    category: Opt<string>,
    rating: Opt<Rating>,
    description: Opt<string>,
    image: Opt<string>)

  /** The canonical product; `raw` keeps the record it was built from. */
  datatype Product = Product(
    id: Opt<Id>,
    sku: string,
    title: Opt<string>,
    price: real,
    category: string,
    rating: Rating,
    description: string,
    image: string,
    raw: RawRecord)

  /** One entry of the bundled fallback `records` list. */
  datatype FallbackEntry = FallbackEntry(sku: Opt<string>, price: Opt<RawPrice>, site: Opt<string>)

  /** One entry of the bundled fallback `alerts` list; displayed, never evaluated. */
  datatype AlertRule = AlertRule(sku: Opt<string>, rule: Opt<string>, channel: Opt<string>)

  /** The bundled fallback document. */
  datatype FallbackDataset = FallbackDataset(records: seq<FallbackEntry>, alerts: seq<AlertRule>)

  const PlaceholderImage: string := "https://via.placeholder.com/200"
  const DefaultCategory: string := "general"
  const ZeroRating: Rating := Rating(Defined(0.0), Defined(0.0))
  const DemoTitlePrefix: string := "Demo product "
  const FallbackRating: Rating := Rating(Defined(4.1), Defined(120.0))
  const FallbackDescription: string := "Fallback item description"
  const SkuPrefix: string := "SKU-"

  /** How a template literal `${id}` renders an identifier field. */
  function IdText(id: Opt<Id>): string {
    match id
    case Undefined => "undefined"
    case Null => "null"
    case Defined(IdNum(n)) => Decimal.IntText(n)
    case Defined(IdStr(s)) => s
  }

  /** The sku derived from an identifier, `SKU-${id}`. */
  function DerivedSku(id: Opt<Id>): (sku: string)
    ensures |sku| >= |SkuPrefix| && sku[..|SkuPrefix|] == SkuPrefix
    ensures forall n: int :: id == Defined(IdNum(n)) ==> sku[|SkuPrefix|..] == Decimal.IntText(n)
    ensures forall s: string :: id == Defined(IdStr(s)) ==> sku[|SkuPrefix|..] == s
    ensures id == Undefined ==> sku == SkuPrefix + "undefined"
    ensures id == Null ==> sku == SkuPrefix + "null"
  {
    SkuPrefix + IdText(id)
  }

  /** Two integer ids never derive the same sku. */
  lemma DerivedSkuInjective(a: int, b: int)
    requires DerivedSku(Defined(IdNum(a))) == DerivedSku(Defined(IdNum(b)))
    ensures a == b
  {
    var sa := DerivedSku(Defined(IdNum(a)));
    var sb := DerivedSku(Defined(IdNum(b)));
    assert sa[|SkuPrefix|..] == sb[|SkuPrefix|..];
    Decimal.IntTextInjective(a, b);
  }
}
