/**
 * The catalog routes (backend/routes/productRoutes.js): the product list with its
 * filters and price sort, and product creation from a multipart form with uploaded
 * files and image URLs.
 *
 * The collection is a sequence in its natural order. `JSON.parse` and `Number` are not
 * re-implemented: the form carries, beside each raw field, the value they give for it.
 * The image host is a function that returns the hosted URL or fails.
 */
module ProductRoutes {
  import opened Optional
  import opened JsText
  import opened Seqs
  import opened ProductModel

  // ---------------------------------------------------------------- GET /

  /** The query string of `GET /`. A parameter that is absent is `""`: both are falsy. */
  datatype ListQuery = ListQuery(category: string, subCategory: string, search: string, sort: string)

  /**
   * The Mongo filter the handler assembles: exact `category` and `subCategory` when given,
   * and a case-insensitive match of `search` inside the name (a regular expression in the
   * source, taken here as plain text).
   */
  predicate Matches(p: Product, q: ListQuery) {
    && (q.category != "" ==> p.category == q.category)
    && (q.subCategory != "" ==> p.subCategory == Some(q.subCategory))
    && (q.search != "" ==> Includes(ToLower(p.name), ToLower(q.search)))
  }

  /** The sort keys of the two comparators, `a.price - b.price` and `b.price - a.price`. */
  function Price(p: Product): real { p.price }
  function NegatedPrice(p: Product): real { -p.price }

  /**
   * The comparator sort shared by the server and the client mock: `price-low-high` sorts
   * by ascending price, `price-high-low` by descending price, any other value keeps the order.
   */
  function SortProducts(ps: seq<Product>, sort: string): (r: seq<Product>)
    ensures multiset(r) == multiset(ps)
    ensures sort == "price-low-high" ==> forall i, j :: 0 <= i < j < |r| ==> r[i].price <= r[j].price
    ensures sort == "price-high-low" ==> forall i, j :: 0 <= i < j < |r| ==> r[i].price >= r[j].price
    ensures sort != "price-low-high" && sort != "price-high-low" ==> r == ps
  {
    if sort == "price-low-high" then
      var r := SortByKey(ps, Price);
      r
    else if sort == "price-high-low" then
      var r := SortByKey(ps, NegatedPrice);
      r
    else
      ps
  }

  function Matcher(q: ListQuery): Product -> bool { p => Matches(p, q) }

  /** `GET /`: the matching products of `db`, sorted as the query asks. */
  function ListProducts(db: seq<Product>, q: ListQuery): (r: seq<Product>)
    ensures forall i :: 0 <= i < |r| ==> r[i] in db && Matches(r[i], q)
    ensures forall j :: 0 <= j < |db| && Matches(db[j], q) ==> db[j] in r
    ensures multiset(r) == multiset(Filter(db, Matcher(q)))
    ensures q.sort == "price-low-high" ==> forall i, j :: 0 <= i < j < |r| ==> r[i].price <= r[j].price
    ensures q.sort == "price-high-low" ==> forall i, j :: 0 <= i < j < |r| ==> r[i].price >= r[j].price
    ensures q.sort != "price-low-high" && q.sort != "price-high-low" ==> r == Filter(db, Matcher(q))
  {
    var found := Filter(db, Matcher(q));
    FilterComplete(db, Matcher(q));
    var r := SortProducts(found, q.sort);
    SameElements(found, r);
    r
  }

  /** Without a filter and without a sort key, the list is the whole collection in its own order. */
  lemma ListAllUnsorted(db: seq<Product>)
    ensures ListProducts(db, ListQuery("", "", "", "")) == db
  {
    FilterKeepsAll(db, Matcher(ListQuery("", "", "", "")));
  }

  // ---------------------------------------------------------------- POST /

  /** A JSON value, as `JSON.parse` returns it. */
  datatype JsonValue =
    | JNull
    | JBool(b: bool)
    | JNumber(n: real)
    | JString(s: string)
    | JArray(items: seq<JsonValue>)
    | JObject(fields: seq<(string, JsonValue)>)

  /** The JSON values JavaScript treats as false: `null`, `false`, `0` and `""`. */
  predicate Falsy(v: JsonValue) {
    v.JNull? || (v.JBool? && !v.b) || (v.JNumber? && v.n == 0.0) || (v.JString? && v.s == "")
  }

  /**
   * The test `url && url.trim()` evaluates without throwing: the entry is falsy (and is
   * dropped) or is a string. Any other entry has no `trim` method and throws a TypeError.
   */
  predicate Filterable(v: JsonValue) {
    Falsy(v) || v.JString?
  }

  /** The entries `filter(url => url && url.trim())` keeps: the non-blank strings, untrimmed, in order. */
  function KeptUrls(items: seq<JsonValue>): (r: seq<string>)
    requires forall i :: 0 <= i < |items| ==> Filterable(items[i])
    ensures |r| <= |items|
    ensures forall i :: 0 <= i < |r| ==> !IsBlank(r[i])
  {
    if items == [] then []
    else
      var rest := KeptUrls(items[1..]);
      if items[0].JString? && !IsBlank(items[0].s) then [items[0].s] + rest else rest
  }

  /** The strings among the entries, in order; `null`, booleans, numbers, arrays and objects are skipped. */
  function StringEntries(items: seq<JsonValue>): seq<string> {
    if items == [] then []
    else (if items[0].JString? then [items[0].s] else []) + StringEntries(items[1..])
  }

  /**
   * On an array whose entries pass the test without throwing, the filter keeps exactly
   * the string entries that are not blank, in their order: whatever falsy entries sit
   * between them are dropped.
   */
  lemma {:induction false} KeptUrlsFilter(items: seq<JsonValue>)
    requires forall i :: 0 <= i < |items| ==> Filterable(items[i])
    ensures KeptUrls(items) == Filter(StringEntries(items), NotBlank())
  {
    if items != [] {
      KeptUrlsFilter(items[1..]);
      var head := if items[0].JString? then [items[0].s] else [];
      FilterAppend(head, StringEntries(items[1..]), NotBlank());
      if items[0].JString? {
        FilterSingleton(items[0].s, NotBlank());
      }
    }
  }

  /** One entry is kept exactly when it is a non-blank string; a falsy entry is dropped. */
  lemma KeptUrlsSingle(v: JsonValue)
    requires Filterable(v)
    ensures KeptUrls([v]) == if v.JString? && !IsBlank(v.s) then [v.s] else []
  {
    assert [v][1..] == [];
  }

  /**
   * `urlsFromForm`, built from the `imageUrls` field `raw` and `parsed`, what `JSON.parse(raw)`
   * returns (None when it throws). A JSON array with only strings and falsy entries gives
   * its non-blank strings; anything else falls back to the whole field, trimmed, unless it
   * is blank.
   */
  function UrlsFromForm(raw: string, parsed: Option<JsonValue>): (r: seq<string>)
    ensures forall i :: 0 <= i < |r| ==> !IsBlank(r[i])
    ensures IsBlank(raw) && !(parsed.Some? && parsed.value.JArray?) ==> r == []
    ensures raw == "" ==> r == []
  {
    if raw == "" then []
    else if parsed.Some? && parsed.value.JArray?
            && forall i :: 0 <= i < |parsed.value.items| ==> Filterable(parsed.value.items[i]) then
      KeptUrls(parsed.value.items)
    else if IsBlank(raw) then []
    else
      TrimIdempotent(raw);
      [Trim(raw)]
  }

  /** The test `url.trim()` passes: the entry is not blank. */
  function NotBlank(): string -> bool { (u: string) => !IsBlank(u) }

  /**
   * The URL list the admin form sends, `JSON.stringify(imageUrls)`, arrives as its
   * non-blank entries in order; `items` is that array as parsed back.
   */
  lemma UrlsFromStringArray(raw: string, urls: seq<string>, items: seq<JsonValue>)
    requires raw != ""
    requires |items| == |urls| && forall i :: 0 <= i < |urls| ==> items[i] == JString(urls[i])
    ensures UrlsFromForm(raw, Some(JArray(items))) == Filter(urls, NotBlank())
  {
    KeptUrlsOfStrings(urls, items);
  }

  lemma {:induction false} KeptUrlsOfStrings(urls: seq<string>, items: seq<JsonValue>)
    requires |items| == |urls| && forall i :: 0 <= i < |urls| ==> items[i] == JString(urls[i])
    ensures forall i :: 0 <= i < |items| ==> Filterable(items[i])
    ensures KeptUrls(items) == Filter(urls, NotBlank())
  {
    if urls != [] {
      KeptUrlsOfStrings(urls[1..], items[1..]);
    }
  }

  /** `JSON.parse` gives an array whose every entry passes `url && url.trim()` without throwing. */
  predicate FilterableArray(parsed: Option<JsonValue>) {
    && parsed.Some? && parsed.value.JArray?
    && forall i :: 0 <= i < |parsed.value.items| ==> Filterable(parsed.value.items[i])
  }

  /**
   * The `catch` branch: when the field is not JSON, is JSON but not an array (`filter` is
   * not a function), or is an array holding a truthy entry that is not a string (`trim` is
   * not a function), a field that is not blank becomes that one URL, trimmed.
   */
  lemma UnfilterableUrlTrimmed(raw: string, parsed: Option<JsonValue>)
    requires !IsBlank(raw) && !FilterableArray(parsed)
    ensures UrlsFromForm(raw, parsed) == [Trim(raw)]
  {
  }

  /** `imageUrls = "[1]"`: the entry `1` has no `trim`, so the whole field is taken as one URL. */
  lemma NumberEntryFallsBack(raw: string, n: real)
    requires !IsBlank(raw) && n != 0.0
    ensures UrlsFromForm(raw, Some(JArray([JNumber(n)]))) == [Trim(raw)]
  {
    assert !Filterable([JNumber(n)][0]);
  }

  /** An uploaded file's contents. */
  type Buffer = seq<bv8>

  /** The hosted URLs of all files, in file order, when every upload succeeds. */
  function Uploaded(files: seq<Buffer>, upload: Buffer -> Option<string>): (r: Option<seq<string>>)
    ensures r.Some? <==> forall i :: 0 <= i < |files| ==> upload(files[i]).Some?
    ensures r.Some? ==> |r.value| == |files| && forall i :: 0 <= i < |files| ==> r.value[i] == upload(files[i]).value
  {
    if files == [] then Some([])
    else
      match upload(files[0])
      case None => None
      case Some(url) =>
        match Uploaded(files[1..], upload)
        case None => None
        case Some(rest) => Some([url] + rest)
  }

  /**
   * The upload loop: each file is sent to the image host in turn and its URL appended;
   * the first failure ends the loop. `attempted` counts the uploads started.
   */
  method UploadFiles(files: seq<Buffer>, upload: Buffer -> Option<string>) returns (urls: Option<seq<string>>, attempted: nat)
    ensures urls == Uploaded(files, upload)
    ensures attempted <= |files|
    ensures urls.Some? ==> attempted == |files|
    ensures urls.None? ==> && attempted >= 1 && upload(files[attempted - 1]).None?
                           && forall i :: 0 <= i < attempted - 1 ==> upload(files[i]).Some?
  {
    var pushed: seq<string> := [];
    attempted := 0;
    while attempted < |files|
      invariant attempted <= |files| && |pushed| == attempted
      invariant forall i :: 0 <= i < attempted ==> upload(files[i]) == Some(pushed[i])
    {
      var result := upload(files[attempted]);
      attempted := attempted + 1;
      if result.None? {
        return None, attempted;
      }
      pushed := pushed + [result.value];
    }
    assert Uploaded(files, upload).Some?;
    assert Uploaded(files, upload).value == pushed;
    urls := Some(pushed);
  }

  /**
   * The multipart form of `POST /`. Every field is a string, `""` when absent. Beside a
   * field that the handler converts, the form holds what the conversion gives:
   * `Number(price)` (None for NaN) and `JSON.parse(...)` (None when it throws).
   */
  datatype CreateForm = CreateForm(
    name: string,
    description: string,
    price: string,
    priceNumber: Option<real>,
    originalPrice: string,
    originalPriceNumber: Option<real>,
    category: string,
    subCategory: Option<string>,
    sizes: string,
    sizesJson: Option<JsonValue>,
    colors: string,
    colorsJson: Option<JsonValue>,
    bestseller: string,
    featured: string,
    imageUrls: string,
    imageUrlsJson: Option<JsonValue>,
    specifications: string,
    specificationsJson: Option<JsonValue>)

  /**
   * The replies of `POST /`: 201, the two 400s, the upload 500, the 500 of anything thrown
   * later, and the refusal of the upload middleware before the handler runs.
   */
  datatype CreateReply =
    | Created(product: Product)
    | BadRequest(message: string)
    | UploadFailed
    | Failed
    | TooManyFiles

  /** `upload.array("images", 5)`: the most files the upload middleware lets through. */
  const MaxFiles := 5

  /** `specifications ? JSON.parse(specifications) : {}` throws: the field is given and is not JSON. */
  predicate SpecificationsThrow(f: CreateForm) {
    f.specifications != "" && f.specificationsJson.None?
  }

  const RequiredMessage := "Name, description, price, and category are required"
  const ImageMessage := "At least one image (file upload or URL) is required"

  /** `!name || !description || !price || !category`. */
  predicate MissingRequired(f: CreateForm) {
    f.name == "" || f.description == "" || f.price == "" || f.category == ""
  }

  /** A JSON array whose entries are all strings. */
  predicate StringArray(v: JsonValue) {
    v.JArray? && forall i :: 0 <= i < |v.items| ==> v.items[i].JString?
  }

  /**
   * `x ? JSON.parse(x) : []` for `sizes` and `colors`, as the `[String]` path then casts it:
   * an array of strings is kept and a lone string is wrapped into a one-entry list. None
   * stands for the 500 of a field that is not JSON, and for every other value (see the
   * README's list of what is left out).
   */
  function StringList(raw: string, parsed: Option<JsonValue>): (r: Option<seq<string>>)
    ensures raw == "" ==> r == Some([])
    ensures raw != "" && parsed.None? ==> r.None?
    ensures raw != "" && parsed.Some? && StringArray(parsed.value) ==>
              && r.Some? && |r.value| == |parsed.value.items|
              && forall i :: 0 <= i < |r.value| ==> parsed.value.items[i] == JString(r.value[i])
    ensures raw != "" && parsed.Some? && parsed.value.JString? ==> r == Some([parsed.value.s])
    ensures raw != "" && parsed.Some? && !StringArray(parsed.value) && !parsed.value.JString? ==> r.None?
  {
    if raw == "" then Some([])
    else if parsed.None? then None
    else if StringArray(parsed.value) then
      Some(seq(|parsed.value.items|, i requires 0 <= i < |parsed.value.items| => parsed.value.items[i].s))
    else if parsed.value.JString? then Some([parsed.value.s])
    else None
  }

  /** `originalPrice ? Number(originalPrice) : undefined`; None stands for the cast failure of NaN. */
  function OptionalNumber(raw: string, number: Option<real>): (r: Option<Option<real>>)
    ensures raw == "" ==> r == Some(None)
    ensures raw != "" ==> (r.Some? <==> number.Some?) && (r.Some? ==> r.value == number)
  {
    if raw == "" then Some(None)
    else if number.Some? then Some(Some(number.value))
    else None
  }

  /** The document built from the form once the image list is known, saved or rejected with a 500. */
  function Assemble(f: CreateForm, images: seq<string>, id: string): (r: CreateReply)
    requires !MissingRequired(f)
    ensures r.Created? || r == Failed
    ensures r.Created? <==>
              && StringList(f.sizes, f.sizesJson).Some? && StringList(f.colors, f.colorsJson).Some?
              && OptionalNumber(f.originalPrice, f.originalPriceNumber).Some?
              && !SpecificationsThrow(f)
              && f.priceNumber.Some? && f.category in Categories
              && forall i :: 0 <= i < |images| ==> images[i] != ""
    ensures r.Created? ==> && Valid(r.product) && r.product.id == id && r.product.images == images
                           && r.product.name == f.name && r.product.description == f.description
                           && r.product.category == f.category && r.product.subCategory == f.subCategory
                           && Some(r.product.price) == f.priceNumber
                           && r.product.originalPrice == OptionalNumber(f.originalPrice, f.originalPriceNumber).value
                           && r.product.sizes == StringList(f.sizes, f.sizesJson).value
                           && r.product.colors == StringList(f.colors, f.colorsJson).value
                           && (r.product.bestseller <==> f.bestseller == "true")
                           && (r.product.featured <==> f.featured == "true")
                           && r.product.inStock
  {
    var sizes := StringList(f.sizes, f.sizesJson);
    var colors := StringList(f.colors, f.colorsJson);
    var original := OptionalNumber(f.originalPrice, f.originalPriceNumber);
    if sizes.None? || colors.None? || original.None? || SpecificationsThrow(f) then Failed
    else
      var draft := Draft(
        Some(f.name), Some(f.description), f.priceNumber, original.value,
        Some(f.category), f.subCategory, images, sizes.value, colors.value,
        Some(f.bestseller == "true"), Some(f.featured == "true"), None);
      match Save(id, draft)
      case Some(p) => Created(p)
      case None => Failed
  }

  /** A form without `sizes` and `colors` creates a product with both lists empty. */
  lemma ListsDefaultEmpty(f: CreateForm, images: seq<string>, id: string)
    requires !MissingRequired(f) && f.sizes == "" && f.colors == ""
    requires Assemble(f, images, id).Created?
    ensures Assemble(f, images, id).product.sizes == [] && Assemble(f, images, id).product.colors == []
  {
  }

  /** A `specifications` field that is not JSON makes the route answer 500, whatever the rest of the form. */
  lemma BadSpecificationsFail(f: CreateForm, images: seq<string>, id: string)
    requires !MissingRequired(f) && SpecificationsThrow(f)
    ensures Assemble(f, images, id) == Failed
  {
  }

  /**
   * `POST /` (admin only; the admin guard is the caller's). The upload middleware first
   * refuses more than five files; the handler then checks the required fields,
   * then that some image is given, then uploads the files in order and appends the form's
   * URLs; the document is then assembled and saved.
   */
  method CreateProduct(f: CreateForm, files: seq<Buffer>, upload: Buffer -> Option<string>, id: string)
    returns (reply: CreateReply, attempted: nat)
    ensures reply == TooManyFiles <==> |files| > MaxFiles
    ensures |files| > MaxFiles ==> attempted == 0
    ensures |files| <= MaxFiles && MissingRequired(f) ==> reply == BadRequest(RequiredMessage) && attempted == 0
    ensures |files| <= MaxFiles && !MissingRequired(f) && files == [] && UrlsFromForm(f.imageUrls, f.imageUrlsJson) == []
            ==> reply == BadRequest(ImageMessage) && attempted == 0
    ensures |files| <= MaxFiles && !MissingRequired(f) && (files != [] || UrlsFromForm(f.imageUrls, f.imageUrlsJson) != []) ==>
              && (Uploaded(files, upload).None? ==> reply == UploadFailed)
              && (Uploaded(files, upload).Some? ==>
                    reply == Assemble(f, Uploaded(files, upload).value + UrlsFromForm(f.imageUrls, f.imageUrlsJson), id))
    ensures reply.Created? ==> Valid(reply.product) && |reply.product.images| >= 1
  {
    attempted := 0;
    if |files| > MaxFiles {
      return TooManyFiles, 0;
    }
    if MissingRequired(f) {
      return BadRequest(RequiredMessage), 0;
    }
    var urlsFromForm := UrlsFromForm(f.imageUrls, f.imageUrlsJson);
    var hasFiles := |files| > 0;
    var hasUrls := |urlsFromForm| > 0;
    if !hasFiles && !hasUrls {
      return BadRequest(ImageMessage), 0;
    }
    var finalImageUrls: seq<string> := [];
    if hasFiles {
      var uploaded;
      uploaded, attempted := UploadFiles(files, upload);
      if uploaded.None? {
        return UploadFailed, attempted;
      }
      finalImageUrls := uploaded.value;
    }
    if hasUrls {
      finalImageUrls := finalImageUrls + urlsFromForm;
    }
    assert finalImageUrls == Uploaded(files, upload).value + urlsFromForm;
    reply := Assemble(f, finalImageUrls, id);
  }
}
