/** Synthesis of raw records from the bundled fallback entries, used when the
    live fetch fails: entry `idx` becomes a record with ordinal id `idx + 1`. */
module Fallback {
  import opened JsValues
  import opened Catalog
  import opened Normalizer

  /** The record built from one entry at position `idx`. */
  function SynthesizeRecord(e: FallbackEntry, idx: nat): (r: RawRecord)
    ensures r.id == Defined(IdNum(idx + 1))
    ensures r.sku == e.sku && r.price == e.price && r.category == e.site
    ensures r.title == Defined(DemoTitlePrefix + TemplateText(e.sku))
    ensures r.rating == Defined(FallbackRating)
    ensures r.description == Defined(FallbackDescription)
    ensures r.image == Defined(PlaceholderImage)
  {
    RawRecord(
      id := Defined(IdNum(idx + 1)),
      sku := e.sku,
      title := Defined(DemoTitlePrefix + TemplateText(e.sku)),
      price := e.price,
      category := e.site,
      rating := Defined(FallbackRating),
      description := Defined(FallbackDescription),
      image := Defined(PlaceholderImage))
  }

  /** `records.map((record, idx) => …)`: one record per entry, in order. */
  function Synthesize(entries: seq<FallbackEntry>): (rs: seq<RawRecord>)
    ensures |rs| == |entries|
    ensures forall i :: 0 <= i < |rs| ==> rs[i] == SynthesizeRecord(entries[i], i)
  {
    seq(|entries|, i requires 0 <= i < |entries| => SynthesizeRecord(entries[i], i))
  }

  /** The entry a synthesised record came from. */
  function EntryOf(r: RawRecord): FallbackEntry {
    FallbackEntry(r.sku, r.price, r.category)
  }

  function EntriesOf(rs: seq<RawRecord>): (es: seq<FallbackEntry>)
    ensures |es| == |rs|
    ensures forall i :: 0 <= i < |rs| ==> es[i] == EntryOf(rs[i])
  {
    seq(|rs|, i requires 0 <= i < |rs| => EntryOf(rs[i]))
  }

  /** Synthesis keeps every entry's data: the entries are recovered in order. */
  lemma SynthesizeRoundTrip(entries: seq<FallbackEntry>)
    ensures EntriesOf(Synthesize(entries)) == entries
  {
  }

  /** The synthesised ids are exactly 1, 2, …, n, hence pairwise distinct. */
  lemma SynthesizedIdsAreOrdinals(entries: seq<FallbackEntry>)
    ensures forall i :: 0 <= i < |entries| ==> Synthesize(entries)[i].id == Defined(IdNum(i + 1))
    ensures forall i, j :: 0 <= i < j < |entries| ==> Synthesize(entries)[i].id != Synthesize(entries)[j].id
  {
  }

  /** The sku a synthesised record normalises to: the entry's own when it is
      non-empty, otherwise the one derived from the ordinal id. */
  lemma FallbackSkuOf(e: FallbackEntry, idx: nat, parse: string -> real)
    ensures TextTruthy(e.sku) ==> Normalize(SynthesizeRecord(e, idx), parse).sku == e.sku.value
    ensures !TextTruthy(e.sku) ==> Normalize(SynthesizeRecord(e, idx), parse).sku == DerivedSku(Defined(IdNum(idx + 1)))
  {
  }
}
