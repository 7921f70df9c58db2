/**
 * `SerpAPIClient._extract_product_data`: one raw shopping result (a JSON value) becomes the record
 * the service caches and returns, with a brand and a weight guessed from the title and the extensions.
 * Extraction fails, and the search skips the record, exactly where the Python code raises.
 */
module Extractor {
  import opened Wrappers
  import opened PyText
  import opened Json
  import WeightPattern

  /** The `additional_data` member of a record. */
  datatype AdditionalData = AdditionalData(
    position: Json,
    badge: Json,
    extensions: Json,
    secondHandCondition: Json,
    delivery: Json)

  /** The record built from one raw result; JNull stands for Python's None. */
  datatype ProductRecord = ProductRecord(
    title: string,
    productId: Json,
    price: Json,
    extractedPrice: Json,
    oldPrice: Json,
    extractedOldPrice: Json,
    source: Json,
    sourceIcon: Json,
    multipleSources: Json,
    rating: Json,
    reviews: Json,
    snippet: Json,
    thumbnail: Json,
    brand: Option<string>,
    weight: Option<string>,
    productLink: Json,
    additionalData: AdditionalData)

  /** The exception that makes a raw result unusable. */
  datatype ExtractError =
    | NotAnObject            // `raw_result.get`: the result is not a dict
    | TitleNotText           // `title.split(" ")`: the title is not a string
    | ExtensionsNotIterable  // `for ext in extensions`: null, a boolean or a number
    | ExtensionNotText       // `ext.lower()`: an extension reached by the scan is not a string

  /** The brand guess: the first `" "`-separated field of the title, kept only when longer than two characters. */
  function Brand(title: string): (r: Option<string>)
    ensures r.Some? <==> |FirstField(title)| > 2
    ensures r.Some? ==> r.value <= title && ' ' !in r.value && (|r.value| == |title| || title[|r.value|] == ' ')
  {
    var first := FirstField(title);
    if |first| > 2 then Some(first) else None
  }

  /** `any(unit in ext.lower() for unit in ["oz", "lb", "kg", "g", "ml", "l"])` */
  predicate MentionsUnit(ext: string) {
    exists u :: 0 <= u < |WeightPattern.Units| && Contains(Lower(ext), WeightPattern.Units[u])
  }

  /** The first n extensions are all strings, and none mentions a unit. */
  predicate ScannedPast(exts: seq<Json>, n: nat)
    requires n <= |exts|
  {
    forall k :: 0 <= k < n ==> exts[k].JString? && !MentionsUnit(exts[k].s)
  }

  /** The loop over the extensions: the first one that mentions a unit, or an error at the first non-string before it. */
  function WeightFromExtensions(exts: seq<Json>): (r: Result<Option<string>, ExtractError>)
    ensures r.Success? && r.value.Some? ==>
      exists i :: 0 <= i < |exts| && exts[i] == JString(r.value.value) && MentionsUnit(r.value.value) && ScannedPast(exts, i)
    ensures r == Success(None) <==> ScannedPast(exts, |exts|)
    ensures r.Failure? ==> r.error == ExtensionNotText
    ensures r.Failure? ==> exists i :: 0 <= i < |exts| && !exts[i].JString? && ScannedPast(exts, i)
  {
    if exts == [] then Success(None)
    else if !exts[0].JString? then Failure(ExtensionNotText)
    else if MentionsUnit(exts[0].s) then Success(Some(exts[0].s))
    else
      var r := WeightFromExtensions(exts[1..]);
      assert forall n :: 0 <= n <= |exts| - 1 ==> (ScannedPast(exts[1..], n) <==> ScannedPast(exts, n + 1));
      r
  }

  /** The weight guess: the extensions first; only when they give nothing, the weight pattern in the lower-cased title. */
  function Weight(title: string, exts: seq<Json>): Result<Option<string>, ExtractError> {
    match WeightFromExtensions(exts)
    case Failure(e) => Failure(e)
    case Success(w) =>
      if w.None? || w.value == "" then Success(WeightPattern.Search(Lower(title))) else Success(w)
  }

  /** `_extract_product_data(raw_result)` */
  function ExtractProductData(raw: Json): Result<ProductRecord, ExtractError> {
    if !raw.JObject? then Failure(NotAnObject)
    else
      var title := Get(raw, "title", JString(""));
      if !title.JString? then Failure(TitleNotText)
      else
        var extensions := Get(raw, "extensions", JArray([]));
        match Iterate(extensions)
        case None => Failure(ExtensionsNotIterable)
        case Some(exts) =>
          match Weight(title.s, exts)
          case Failure(e) => Failure(e)
          case Success(weight) =>
            Success(ProductRecord(
              title := title.s,
              productId := Get(raw, "product_id", JString("")),
              price := Get(raw, "price", JString("")),
              extractedPrice := Get(raw, "extracted_price", JNull),
              oldPrice := Get(raw, "old_price", JNull),
              extractedOldPrice := Get(raw, "extracted_old_price", JNull),
              source := Get(raw, "source", JString("")),
              sourceIcon := Get(raw, "source_icon", JNull),
              multipleSources := Get(raw, "multiple_sources", JBool(false)),
              rating := Get(raw, "rating", JNull),
              reviews := Get(raw, "reviews", JNull),
              snippet := Get(raw, "snippet", JNull),
              thumbnail := Get(raw, "thumbnail", JNull),
              brand := Brand(title.s),
              weight := weight,
              productLink := Get(raw, "product_link", JString("")),
              additionalData := AdditionalData(
                position := Get(raw, "position", JNull),
                badge := Get(raw, "badge", JNull),
                extensions := extensions,
                secondHandCondition := Get(raw, "second_hand_condition", JNull),
                delivery := Get(raw, "delivery", JNull))))
  }

  /** The values `f` succeeds with over a sequence, in order; the inputs on which it fails are skipped. */
  function KeepSuccesses<X, T, E>(f: X -> Result<T, E>, xs: seq<X>): seq<T> {
    if xs == [] then []
    else
      var init := KeepSuccesses(f, xs[..|xs| - 1]);
      var last := f(xs[|xs| - 1]);
      if last.Success? then init + [last.value] else init
  }

  /** The records the search keeps from a batch, in order: each raw result that extracts, the others skipped. */
  function ExtractAll(raws: seq<Json>): (r: seq<ProductRecord>)
    ensures |r| <= |raws|
    ensures forall p :: p in r ==> exists i :: 0 <= i < |raws| && ExtractProductData(raws[i]) == Success(p)
    ensures forall i :: 0 <= i < |raws| && ExtractProductData(raws[i]).Success? ==> ExtractProductData(raws[i]).value in r
  {
    KeepSuccessesBounds(ExtractProductData, raws);
    KeepSuccesses(ExtractProductData, raws)
  }

  // ---------------------------------------------------------------------------------------------
  // Lemmas

  /** A title that starts with a space has an empty first field, hence no brand. */
  lemma LeadingSpaceHasNoBrand(title: string)
    requires |title| > 0 && title[0] == ' '
    ensures Brand(title) == None
  {
  }

  lemma {:induction false} ContainsNonEmpty(s: string, u: string)
    requires Contains(s, u) && |u| > 0
    ensures |s| > 0
  {
  }

  /** An extension that mentions a unit is never empty, so the title is never consulted after it. */
  lemma ExtensionsTakePriority(title: string, exts: seq<Json>, w: string)
    requires WeightFromExtensions(exts) == Success(Some(w))
    ensures Weight(title, exts) == Success(Some(w))
  {
    var u :| 0 <= u < |WeightPattern.Units| && Contains(Lower(w), WeightPattern.Units[u]);
    WeightPattern.UnitsStartWithLetter(u);
    ContainsNonEmpty(Lower(w), WeightPattern.Units[u]);
  }

  /** With no extension mentioning a unit, the weight is the leftmost pattern match in the lower-cased title. */
  lemma TitleIsTheFallback(title: string, exts: seq<Json>)
    requires ScannedPast(exts, |exts|)
    ensures Weight(title, exts) == Success(WeightPattern.Search(Lower(title)))
  {
  }

  /** The defaults of a successful extraction: a missing title, product id, price, source or product link
      becomes "", a missing multi-source flag false, extensions an empty list, and every other missing field None. */
  lemma MissingFieldDefaults(raw: Json)
    requires ExtractProductData(raw).Success?
    ensures raw.JObject?
    ensures var p := ExtractProductData(raw).value;
      && (Lookup(raw.members, "title").None? ==> p.title == "")
      && (Lookup(raw.members, "product_id").None? ==> p.productId == JString(""))
      && (Lookup(raw.members, "price").None? ==> p.price == JString(""))
      && (Lookup(raw.members, "extracted_price").None? ==> p.extractedPrice == JNull)
      && (Lookup(raw.members, "old_price").None? ==> p.oldPrice == JNull)
      && (Lookup(raw.members, "extracted_old_price").None? ==> p.extractedOldPrice == JNull)
      && (Lookup(raw.members, "source").None? ==> p.source == JString(""))
      && (Lookup(raw.members, "source_icon").None? ==> p.sourceIcon == JNull)
      && (Lookup(raw.members, "multiple_sources").None? ==> p.multipleSources == JBool(false))
      && (Lookup(raw.members, "rating").None? ==> p.rating == JNull)
      && (Lookup(raw.members, "reviews").None? ==> p.reviews == JNull)
      && (Lookup(raw.members, "snippet").None? ==> p.snippet == JNull)
      && (Lookup(raw.members, "thumbnail").None? ==> p.thumbnail == JNull)
      && (Lookup(raw.members, "product_link").None? ==> p.productLink == JString(""))
      && (Lookup(raw.members, "position").None? ==> p.additionalData.position == JNull)
      && (Lookup(raw.members, "badge").None? ==> p.additionalData.badge == JNull)
      && (Lookup(raw.members, "extensions").None? ==> p.additionalData.extensions == JArray([]))
      && (Lookup(raw.members, "second_hand_condition").None? ==> p.additionalData.secondHandCondition == JNull)
      && (Lookup(raw.members, "delivery").None? ==> p.additionalData.delivery == JNull)
  {
  }

  /** A field the raw result has is copied into the record as it is; the title is its text. */
  lemma PresentFieldsPassThrough(raw: Json)
    requires ExtractProductData(raw).Success?
    ensures raw.JObject?
    ensures var p := ExtractProductData(raw).value;
      && (Lookup(raw.members, "title").Some? ==> Lookup(raw.members, "title").value == JString(p.title))
      && (Lookup(raw.members, "product_id").Some? ==> p.productId == Lookup(raw.members, "product_id").value)
      && (Lookup(raw.members, "price").Some? ==> p.price == Lookup(raw.members, "price").value)
      && (Lookup(raw.members, "extracted_price").Some? ==> p.extractedPrice == Lookup(raw.members, "extracted_price").value)
      && (Lookup(raw.members, "old_price").Some? ==> p.oldPrice == Lookup(raw.members, "old_price").value)
      && (Lookup(raw.members, "extracted_old_price").Some? ==> p.extractedOldPrice == Lookup(raw.members, "extracted_old_price").value)
      && (Lookup(raw.members, "source").Some? ==> p.source == Lookup(raw.members, "source").value)
      && (Lookup(raw.members, "source_icon").Some? ==> p.sourceIcon == Lookup(raw.members, "source_icon").value)
      && (Lookup(raw.members, "multiple_sources").Some? ==> p.multipleSources == Lookup(raw.members, "multiple_sources").value)
      && (Lookup(raw.members, "rating").Some? ==> p.rating == Lookup(raw.members, "rating").value)
      && (Lookup(raw.members, "reviews").Some? ==> p.reviews == Lookup(raw.members, "reviews").value)
      && (Lookup(raw.members, "snippet").Some? ==> p.snippet == Lookup(raw.members, "snippet").value)
      && (Lookup(raw.members, "thumbnail").Some? ==> p.thumbnail == Lookup(raw.members, "thumbnail").value)
      && (Lookup(raw.members, "product_link").Some? ==> p.productLink == Lookup(raw.members, "product_link").value)
      && (Lookup(raw.members, "position").Some? ==> p.additionalData.position == Lookup(raw.members, "position").value)
      && (Lookup(raw.members, "badge").Some? ==> p.additionalData.badge == Lookup(raw.members, "badge").value)
      && (Lookup(raw.members, "extensions").Some? ==> p.additionalData.extensions == Lookup(raw.members, "extensions").value)
      && (Lookup(raw.members, "second_hand_condition").Some? ==> p.additionalData.secondHandCondition == Lookup(raw.members, "second_hand_condition").value)
      && (Lookup(raw.members, "delivery").Some? ==> p.additionalData.delivery == Lookup(raw.members, "delivery").value)
  {
  }

  /** Extraction fails exactly when Python raises: not a dict, a non-string title, a non-iterable extensions
      value, or a non-string extension met before any extension that mentions a unit. */
  lemma ExtractionFailures(raw: Json)
    ensures ExtractProductData(raw).Failure? <==>
      || !raw.JObject?
      || !Get(raw, "title", JString("")).JString?
      || Iterate(Get(raw, "extensions", JArray([]))).None?
      || WeightFromExtensions(Iterate(Get(raw, "extensions", JArray([]))).value).Failure?
  {
  }

  /** Nothing is kept that `f` did not produce, and everything `f` produced is kept. */
  lemma {:induction false} KeepSuccessesBounds<X, T, E>(f: X -> Result<T, E>, xs: seq<X>)
    ensures |KeepSuccesses(f, xs)| <= |xs|
    ensures forall p :: p in KeepSuccesses(f, xs) ==> exists i :: 0 <= i < |xs| && f(xs[i]) == Success(p)
    ensures forall i :: 0 <= i < |xs| && f(xs[i]).Success? ==> f(xs[i]).value in KeepSuccesses(f, xs)
  {
    if xs != [] {
      var init := xs[..|xs| - 1];
      KeepSuccessesBounds(f, init);
      forall p | p in KeepSuccesses(f, xs) ensures exists i :: 0 <= i < |xs| && f(xs[i]) == Success(p) {
        if p in KeepSuccesses(f, init) {
          var i :| 0 <= i < |init| && f(init[i]) == Success(p);
          assert init[i] == xs[i];
        } else {
          assert f(xs[|xs| - 1]) == Success(p);
        }
      }
      forall i | 0 <= i < |xs| && f(xs[i]).Success? ensures f(xs[i]).value in KeepSuccesses(f, xs) {
        if i < |init| {
          assert init[i] == xs[i];
        }
      }
    }
  }

  /** Running over two parts and joining what is kept is running over the whole. */
  lemma {:induction false} KeepSuccessesConcat<X, T, E>(f: X -> Result<T, E>, a: seq<X>, b: seq<X>)
    ensures KeepSuccesses(f, a + b) == KeepSuccesses(f, a) + KeepSuccesses(f, b)
    decreases |b|
  {
    if b == [] {
      assert a + b == a;
    } else {
      var front := b[..|b| - 1];
      assert (a + b)[..|a + b| - 1] == a + front;
      assert (a + b)[|a + b| - 1] == b[|b| - 1];
      KeepSuccessesConcat(f, a, front);
    }
  }

  /** When `f` succeeds everywhere, every value is kept, in place. */
  lemma {:induction false} KeepSuccessesOfTotal<X, T, E>(f: X -> Result<T, E>, xs: seq<X>)
    requires forall i :: 0 <= i < |xs| ==> f(xs[i]).Success?
    ensures |KeepSuccesses(f, xs)| == |xs|
    ensures forall i :: 0 <= i < |xs| ==> KeepSuccesses(f, xs)[i] == f(xs[i]).value
  {
    if xs != [] {
      var init := xs[..|xs| - 1];
      forall i | 0 <= i < |init| ensures f(init[i]).Success? {
        assert init[i] == xs[i];
      }
      KeepSuccessesOfTotal(f, init);
      forall i | 0 <= i < |xs| ensures KeepSuccesses(f, xs)[i] == f(xs[i]).value {
        if i < |init| {
          assert init[i] == xs[i];
        }
      }
    }
  }

  /** A batch in which every raw result extracts keeps all of them, in order. */
  lemma ExtractAllKeepsGoodRecords(raws: seq<Json>)
    requires forall i :: 0 <= i < |raws| ==> ExtractProductData(raws[i]).Success?
    ensures |ExtractAll(raws)| == |raws|
    ensures forall i :: 0 <= i < |raws| ==> ExtractAll(raws)[i] == ExtractProductData(raws[i]).value
  {
    KeepSuccessesOfTotal(ExtractProductData, raws);
  }

  /** A raw result that fails to extract is skipped, and the search goes on with the ones after it. */
  lemma ExtractAllSkipsFailure(raws: seq<Json>, i: nat)
    requires i < |raws| && ExtractProductData(raws[i]).Failure?
    ensures ExtractAll(raws) == ExtractAll(raws[..i]) + ExtractAll(raws[i + 1..])
  {
    var f := ExtractProductData;
    assert raws == raws[..i] + [raws[i]] + raws[i + 1..];
    KeepSuccessesConcat(f, raws[..i] + [raws[i]], raws[i + 1..]);
    KeepSuccessesConcat(f, raws[..i], [raws[i]]);
    assert [raws[i]][..0] == [];
  }

  /** The records kept from a prefix of the batch come first, in the same order. */
  lemma ExtractAllKeepsOrder(raws: seq<Json>, k: nat)
    requires k <= |raws|
    ensures ExtractAll(raws[..k]) <= ExtractAll(raws)
  {
    assert raws == raws[..k] + raws[k..];
    KeepSuccessesConcat(ExtractProductData, raws[..k], raws[k..]);
  }

  /** A raw result whose title is text and whose weight guess succeeds extracts, with the brand and weight guessed from that title. */
  lemma TitleDrivesExtraction(raw: Json, title: string, exts: seq<Json>)
    requires raw.JObject? && Get(raw, "title", JString("")) == JString(title)
    requires Iterate(Get(raw, "extensions", JArray([]))) == Some(exts)
    requires Weight(title, exts).Success?
    ensures ExtractProductData(raw).Success?
    ensures ExtractProductData(raw).value.title == title
    ensures ExtractProductData(raw).value.brand == Brand(title)
    ensures ExtractProductData(raw).value.weight == Weight(title, exts).value
  {
  }

  /** The brand of a typical title is its first word. */
  lemma BrandExample(title: string)
    requires title == "Jif Peanut Butter 16 oz"
    ensures Brand(title) == Some("Jif")
  {
    assert title[..3] == "Jif";
    FirstFieldEndsAtSpace(title, 3);
  }

  /** Lower-casing the example title keeps what the weight pattern needs: no digit before "16 oz". */
  lemma LowerExample(title: string)
    requires title == "Jif Peanut Butter 16 oz"
    ensures WeightPattern.SixteenOuncesAt18(Lower(title))
  {
    LowerChars(title);
  }

  /** A raw result with only a title: brand and weight both come from it. */
  lemma JifExample(raw: Json, title: string)
    requires title == "Jif Peanut Butter 16 oz"
    requires raw.JObject? && Lookup(raw.members, "title") == Some(JString(title))
    requires Lookup(raw.members, "extensions") == None
    ensures ExtractProductData(raw).Success?
    ensures ExtractProductData(raw).value.brand == Some("Jif")
    ensures ExtractProductData(raw).value.weight == Some("16 oz")
  {
    LowerExample(title);
    WeightPattern.WeightExample(Lower(title));
    BrandExample(title);
    TitleIsTheFallback(title, []);
    TitleDrivesExtraction(raw, title, []);
  }
}
