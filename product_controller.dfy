/** The product controller: create, list, fetch, partially update and delete
    products held in the database, keeping Cloudinary's store of uploaded
    images in step where the code does so.

    The database is a map from id to stored product; Cloudinary is the set of
    live public ids plus the log of every `destroy` call made. Uploading is
    done by middleware before a handler runs, so a handler receives the
    uploaded files as values. Whether a `destroy` call throws is not
    decided here: each handler that destroys takes the set of public ids
    whose `destroy` throws as a parameter. */
module ProductController {
  import opened Wrappers
  import opened ProductSchema

  // ---------------------------------------------------------------------
  // Requests and replies
  // ---------------------------------------------------------------------

  /** A number field of a multipart body: the text as sent, which decides
      truthiness, and the number Mongoose casts non-empty text to (the empty
      text casts to null, see `CastNumeral`). */
  datatype Numeral = Numeral(text: string, value: real)

  /** `isFeatured`: multipart text, or a boolean from a JSON body. */
  datatype FlagInput = FlagText(text: string) | FlagBool(flag: bool)

  /** The `variants` field: its text, and what `JSON.parse` makes of it
      (`None` when the parse throws). */
  datatype VariantsInput = VariantsInput(text: string, parsed: Option<seq<VariantDraft>>)

  /** The fields of a create or update body; an absent field is `None`. */
  datatype ProductRequest = ProductRequest(
    name: Option<string>,
    description: Option<string>,
    price: Option<Numeral>,
    discountPrice: Option<Numeral>,
    stock: Option<Numeral>,
    category: Option<string>,
    brand: Option<string>,
    variants: Option<VariantsInput>,
    isFeatured: Option<FlagInput>,
    rating: Option<Numeral>)

  /** A file as the upload middleware hands it over. A property the file
      object lacks is the empty string. */
  datatype UploadedFile = UploadedFile(filename: string, publicId: string,
                                       path: string, secureUrl: string)

  /** What a handler sends back, by HTTP status. */
  datatype Reply =
    | Created(id: ProductId, product: Product)          // 201
    | Listing(products: seq<(ProductId, Product)>)      // 200
    | Found(id: ProductId, product: Product)            // 200
    | Updated(id: ProductId, product: Product)          // 200
    | Deleted                                           // 200, "Product deleted"
    | NotFound                                          // 404, "Product not found"
    | BadRequest(message: string)                       // 400
    | ServerError                                       // 500, any exception caught

  const InvalidVariantsMessage: string := "Invalid variants format"
  const RatingRangeMessage: string := "Rating must be between 1 and 5"
  const MinRating: real := 1.0
  const MaxRating: real := 5.0

  // ---------------------------------------------------------------------
  // JavaScript truthiness and coercions
  // ---------------------------------------------------------------------

  /** A multipart text field is truthy unless it is absent or empty; "0"
      and "false" are truthy. */
  predicate Truthy(s: Option<string>) {
    s.Some? && s.value != ""
  }

  predicate TruthyNumeral(n: Option<Numeral>) {
    n.Some? && n.value.text != ""
  }

  predicate TruthyVariants(v: Option<VariantsInput>) {
    v.Some? && v.value.text != ""
  }

  /** JavaScript's `a || b` on strings: one of the two, the first when it
      is truthy, and empty only when both are. */
  function Or(a: string, b: string): (r: string)
    ensures r == a || r == b
    ensures a != "" ==> r == a
    ensures r == "" <==> a == "" && b == ""
  {
    if a != "" then a else b
  }

  /** The update handler's coercion of `isFeatured`: true exactly for the
      boolean `true` and the string "true". */
  function Featured(f: FlagInput): (b: bool)
    ensures b <==> (f == FlagBool(true) || f == FlagText("true"))
  {
    match f
    case FlagBool(v) => v
    case FlagText(t) => t == "true"
  }

  /** Mongoose's cast of a value given for a Boolean path when a document is
      constructed; `None` is a cast error, which makes `save` fail. */
  function CastBoolean(f: FlagInput): (r: Option<bool>)
    ensures f.FlagBool? ==> r == Some(f.flag)
    ensures r == Some(true) <==> (f == FlagBool(true) || (f.FlagText? && f.text in {"true", "1", "yes"}))
    ensures r == Some(false) <==> (f == FlagBool(false) || (f.FlagText? && f.text in {"false", "0", "no"}))
  {
    match f
    case FlagBool(v) => Some(v)
    case FlagText(t) =>
      if t == "true" || t == "1" || t == "yes" then Some(true)
      else if t == "false" || t == "0" || t == "no" then Some(false)
      else None
  }

  // ---------------------------------------------------------------------
  // Image bindings
  // ---------------------------------------------------------------------

  /** The image entry the create handler makes of an uploaded file: the
      public id from `filename`, else `public_id`; the URL from `path`, else
      `secure_url`. Either is empty only when both of its sources are. */
  function CreateBinding(f: UploadedFile): (img: Image)
    ensures img.publicId == (if f.filename != "" then f.filename else f.publicId)
    ensures img.url == (if f.path != "" then f.path else f.secureUrl)
    ensures ValidImage(img) <==> (f.filename != "" || f.publicId != "") && (f.path != "" || f.secureUrl != "")
  {
    Image(Or(Or(f.filename, f.publicId), ""), Or(f.path, f.secureUrl))
  }

  /** The image entry the update handler makes of an uploaded file: the
      same public id as on creation, but no fallback to `secure_url` for
      the URL, so a file without a `path` gets an empty URL. */
  function UpdateBinding(f: UploadedFile): (img: Image)
    ensures img.publicId == CreateBinding(f).publicId
    ensures img.url == f.path
    ensures f.path != "" ==> img == CreateBinding(f)
    ensures ValidImage(img) <==> (f.filename != "" || f.publicId != "") && f.path != ""
  {
    Image(Or(f.filename, f.publicId), f.path)
  }

  /** One image entry per uploaded file, in upload order. */
  function CreateBindings(files: seq<UploadedFile>): (r: seq<Image>)
    ensures |r| == |files|
    ensures forall i :: 0 <= i < |files| ==> r[i] == CreateBinding(files[i])
  {
    seq(|files|, i requires 0 <= i < |files| => CreateBinding(files[i]))
  }

  /** One image entry per uploaded file, in upload order. */
  function UpdateBindings(files: seq<UploadedFile>): (r: seq<Image>)
    ensures |r| == |files|
    ensures forall i :: 0 <= i < |files| ==> r[i] == UpdateBinding(files[i])
  {
    seq(|files|, i requires 0 <= i < |files| => UpdateBinding(files[i]))
  }

  /** The public id of every image, in order (what the delete handler destroys). */
  function PublicIds(images: seq<Image>): (ids: seq<string>)
    ensures |ids| == |images|
    ensures forall i :: 0 <= i < |images| ==> ids[i] == images[i].publicId
  {
    seq(|images|, i requires 0 <= i < |images| => images[i].publicId)
  }

  /** The public ids of the images that have a truthy one, in order (what the
      update handler destroys). */
  function NamedIds(images: seq<Image>): (ids: seq<string>)
    ensures |ids| <= |images|
    ensures forall x :: x in ids ==> x != ""
    ensures forall i :: 0 <= i < |images| && images[i].publicId != "" ==> images[i].publicId in ids
    ensures forall x :: x in ids ==> x in PublicIds(images)
  {
    if images == [] then []
    else
      var rest := NamedIds(images[1..]);
      assert forall i :: 1 <= i < |images| ==> images[i] == images[1..][i - 1];
      if images[0].publicId != "" then [images[0].publicId] + rest else rest
  }

  /** The filter works image by image: the ids of two lists of images
      joined are the ids of the first followed by those of the second, so
      each truthy public id is destroyed once per image, in image order. */
  lemma {:induction false} NamedIdsAppend(a: seq<Image>, b: seq<Image>)
    ensures NamedIds(a + b) == NamedIds(a) + NamedIds(b)
  {
    if a == [] {
      assert a + b == b;
    } else {
      var ab := a + b;
      assert ab[0] == a[0];
      assert ab[1..] == a[1..] + b;
      NamedIdsAppend(a[1..], b);
    }
  }

  /** A single image contributes its public id exactly when it is truthy. */
  lemma NamedIdsOfOne(img: Image)
    ensures NamedIds([img]) == if img.publicId != "" then [img.publicId] else []
  {
    assert [img][1..] == [];
  }

  /** For stored, valid images nothing is skipped: the update handler
      destroys the same ids as the delete handler. */
  lemma {:induction false} NamedIdsOfValid(images: seq<Image>)
    requires ValidImages(images)
    ensures NamedIds(images) == PublicIds(images)
  {
    if images != [] {
      assert ValidImages(images[1..]) by {
        forall i | 0 <= i < |images[1..]| ensures ValidImage(images[1..][i]) {
          assert images[1..][i] == images[i + 1];
        }
      }
      NamedIdsOfValid(images[1..]);
      assert ValidImage(images[0]);
      assert PublicIds(images) == [images[0].publicId] + PublicIds(images[1..]);
    }
  }

  // ---------------------------------------------------------------------
  // The destroy loop
  // ---------------------------------------------------------------------

  /** The position of the first id whose `destroy` throws, or `|ids|`. */
  function FirstFailure(ids: seq<string>, failing: set<string>): (k: nat)
    ensures k <= |ids|
    ensures forall i :: 0 <= i < k ==> ids[i] !in failing
    ensures k < |ids| ==> ids[k] in failing
  {
    if ids == [] || ids[0] in failing then 0
    else 1 + FirstFailure(ids[1..], failing)
  }

  /** Every `destroy` in the sequence succeeds. */
  predicate AllReleased(ids: seq<string>, failing: set<string>) {
    forall i :: 0 <= i < |ids| ==> ids[i] !in failing
  }

  /** The `destroy` calls a loop over `ids` makes: each id in order, up to and
      including the first that throws. */
  function Attempted(ids: seq<string>, failing: set<string>): (calls: seq<string>)
    ensures |calls| <= |ids| && calls == ids[..|calls|]
    ensures AllReleased(ids, failing) <==> calls == ids && (calls == [] || calls[|calls| - 1] !in failing)
    ensures !AllReleased(ids, failing) ==> calls != [] && calls[|calls| - 1] in failing
    ensures forall i :: 0 <= i < |calls| - 1 ==> calls[i] !in failing
  {
    var k := FirstFailure(ids, failing);
    if k < |ids| then ids[..k + 1] else ids
  }

  /** The public ids the loop removed from Cloudinary: those before the first
      failing call. */
  function Released(ids: seq<string>, failing: set<string>): (gone: set<string>)
    ensures gone <= set x | x in ids
    ensures AllReleased(ids, failing) ==> gone == set x | x in ids
    ensures forall x :: x in gone ==> x !in failing
    ensures gone == set x | x in Attempted(ids, failing) && x !in failing
  {
    var k := FirstFailure(ids, failing);
    var calls := Attempted(ids, failing);
    var gone := set i | 0 <= i < k :: ids[i];
    assert gone == set x | x in calls && x !in failing by {
      forall x | x in calls && x !in failing ensures x in gone {
        var i :| 0 <= i < |calls| && calls[i] == x;
        assert i < k;
      }
    }
    gone
  }

  // ---------------------------------------------------------------------
  // The partial update of a fetched document
  // ---------------------------------------------------------------------

  /** The seven scalar paths of `q` agree with those of `p`. */
  predicate SameScalars(p: Product, q: Product) {
    && p.name == q.name && p.description == q.description && p.price == q.price
    && p.discountPrice == q.discountPrice && p.stock == q.stock
    && p.category == q.category && p.brand == q.brand
  }

  /** The scalar assignments: each path is overwritten only when its input is
      truthy (a name through the `trim` setter); every other path is kept. */
  function ApplyScalars(p: Product, req: ProductRequest): (q: Product)
    ensures Truthy(req.name) ==> q.name == Trim(req.name.value)
    ensures !Truthy(req.name) ==> q.name == p.name
    ensures Truthy(req.description) ==> q.description == req.description.value
    ensures !Truthy(req.description) ==> q.description == p.description
    ensures TruthyNumeral(req.price) ==> q.price == req.price.value.value
    ensures !TruthyNumeral(req.price) ==> q.price == p.price
    ensures TruthyNumeral(req.discountPrice) ==> q.discountPrice == Some(req.discountPrice.value.value)
    ensures !TruthyNumeral(req.discountPrice) ==> q.discountPrice == p.discountPrice
    ensures TruthyNumeral(req.stock) ==> q.stock == req.stock.value.value
    ensures !TruthyNumeral(req.stock) ==> q.stock == p.stock
    ensures Truthy(req.category) ==> q.category == req.category.value
    ensures !Truthy(req.category) ==> q.category == p.category
    ensures Truthy(req.brand) ==> q.brand == req.brand
    ensures !Truthy(req.brand) ==> q.brand == p.brand
    ensures q.images == p.images && q.variants == p.variants && q.ratings == p.ratings
    ensures q.isFeatured == p.isFeatured && q.createdAt == p.createdAt
  {
    var name := if Truthy(req.name) then Trim(req.name.value) else p.name;
    p.(name := name,
       description := TextOr(req.description, p.description),
       price := NumeralOr(req.price, p.price),
       discountPrice := if TruthyNumeral(req.discountPrice) then Some(req.discountPrice.value.value)
                        else p.discountPrice,
       stock := NumeralOr(req.stock, p.stock),
       category := TextOr(req.category, p.category),
       brand := if Truthy(req.brand) then req.brand else p.brand)
  }

  /** `if (s) product.x = s`: the input when truthy, else the kept value. */
  function TextOr(s: Option<string>, keep: string): string {
    if Truthy(s) then s.value else keep
  }

  /** `if (n) product.x = n`: the cast input when truthy, else the kept value. */
  function NumeralOr(n: Option<Numeral>, keep: real): real {
    if TruthyNumeral(n) then n.value.value else keep
  }

  /** One new score folded into the running mean: rejected outside [1, 5];
      otherwise the count grows by exactly one and the new mean times the
      new count is the old total plus the score. */
  function RateOnce(rt: Ratings, score: real): (r: Result<Ratings, string>)
    ensures r.Failure? <==> score < MinRating || score > MaxRating
    ensures r.Failure? ==> r.error == RatingRangeMessage
    ensures r.Success? ==> r.value.count == rt.count + 1
  {
    if score < MinRating || score > MaxRating then Failure(RatingRangeMessage)
    else
      var count := rt.count + 1;
      Success(Ratings(Mean(rt.average * (rt.count as real) + score, count as real), count))
  }

  /** `total / weight`. */
  function Mean(total: real, weight: real): real
    requires weight > 0.0
  {
    total / weight
  }

  /** An accepted score is folded into the running total: the new average
      times the new count is the old average times the old count plus the
      score, so no earlier rating is lost. */
  lemma RateKeepsTotal(rt: Ratings, score: real)
    requires MinRating <= score <= MaxRating
    ensures RateOnce(rt, score).Success?
    ensures RateOnce(rt, score).value.average * (RateOnce(rt, score).value.count as real)
              == rt.average * (rt.count as real) + score
  {
    var total := rt.average * (rt.count as real) + score;
    var weight := (rt.count + 1) as real;
    var next := RateOnce(rt, score).value;
    assert next == Ratings(Mean(total, weight), rt.count + 1);
    MeanTimesWeight(total, weight);
    assert next.average * (next.count as real) == Mean(total, weight) * weight;
  }

  /** Multiplying a mean back by its weight gives the total. */
  lemma MeanTimesWeight(total: real, weight: real)
    requires weight > 0.0
    ensures Mean(total, weight) * weight == total
  {
  }

  /** A mean in [0, 5] stays in [0, 5] when an accepted score is folded in, so
      the schema's bound on `ratings.average` never rejects a rating. */
  lemma RatingStaysInRange(rt: Ratings, score: real)
    requires 0.0 <= rt.average <= MaxAverage
    requires MinRating <= score <= MaxRating
    ensures RateOnce(rt, score).Success?
    ensures 0.0 <= RateOnce(rt, score).value.average <= MaxAverage
  {
    var n := rt.count as real;
    var weight := (rt.count + 1) as real;
    TotalBounds(rt.average, n, score);
    assert MaxAverage * weight == MaxAverage * (n + 1.0);
    MeanBound(rt.average * n + score, weight);
    assert RateOnce(rt, score).Success?;
    assert RateOnce(rt, score).value.average == Mean(rt.average * n + score, weight);
  }

  /** The old total plus an accepted score lies between 0 and 5 times the
      new count. */
  lemma TotalBounds(average: real, n: real, score: real)
    requires 0.0 <= average <= MaxAverage && 0.0 <= n
    requires MinRating <= score <= MaxRating
    ensures 0.0 <= average * n + score <= MaxAverage * (n + 1.0)
  {
    ScaleMonotone(average, 5.0, n);
    assert average * n <= 5.0 * n;
    ScaleMonotone(0.0, average, n);
    assert 0.0 <= average * n;
    AddScore(average * n, n, score);
  }

  /** The linear step of `TotalBounds`. */
  lemma AddScore(scaled: real, n: real, score: real)
    requires 0.0 <= scaled <= 5.0 * n
    requires MinRating <= score <= MaxRating
    ensures 0.0 <= scaled + score <= MaxAverage * (n + 1.0)
  {
    assert MaxAverage == 5.0 && MinRating == 1.0 && MaxRating == 5.0;
  }

  /** A total between 0 and 5 times a positive weight has a mean in [0, 5]. */
  lemma MeanBound(total: real, weight: real)
    requires 0.0 < weight && 0.0 <= total <= MaxAverage * weight
    ensures 0.0 <= Mean(total, weight) <= MaxAverage
  {
    assert MaxAverage == 5.0;
    var mean := Mean(total, weight);
    assert mean * weight == total;
    if mean > 5.0 {
      ScaleMonotone(5.0, mean, weight);
      assert false;
    }
    if mean < 0.0 {
      ScaleMonotone(mean, 0.0, weight);
      assert false;
    }
  }

  /** Multiplying by a non-negative factor keeps the order. */
  lemma ScaleMonotone(a: real, b: real, n: real)
    requires a <= b && 0.0 <= n
    ensures a * n <= b * n
  {
    assert b * n - a * n == (b - a) * n;
  }

  /** The old images the update handler destroys: those with a truthy public
      id, and only when new files were uploaded. */
  function OldBindings(p: Product, files: seq<UploadedFile>): (ids: seq<string>)
    ensures files == [] ==> ids == []
    ensures files != [] ==> ids == NamedIds(p.images)
  {
    if |files| > 0 then NamedIds(p.images) else []
  }

  /** For a stored (valid) product, an update with new files releases the
      same public ids, in the same order, as deleting the product would. */
  lemma UpdateReleasesWhatDeleteReleases(p: Product, files: seq<UploadedFile>)
    requires Valid(p) && files != []
    ensures OldBindings(p, files) == PublicIds(p.images)
  {
    NamedIdsOfValid(p.images);
  }

  /** The assignments that follow the image replacement: the scalar paths
      follow `ApplyScalars`; variants are replaced as a whole when present
      and truthy, with a parse failure rejected; `isFeatured` is set whenever
      present; a truthy rating is folded in after the range check. Images
      and `createdAt` are not written. */
  function Amend(p: Product, req: ProductRequest): (r: Result<Product, string>)
    ensures r.Failure? <==>
              || (TruthyVariants(req.variants) && req.variants.value.parsed.None?)
              || (TruthyNumeral(req.rating) && RateOnce(p.ratings, req.rating.value.value).Failure?)
    ensures r.Failure? ==>
              r.error == if TruthyVariants(req.variants) && req.variants.value.parsed.None?
                         then InvalidVariantsMessage else RatingRangeMessage
    ensures r.Success? ==> SameScalars(r.value, ApplyScalars(p, req))
    ensures r.Success? ==> r.value.images == p.images && r.value.createdAt == p.createdAt
    ensures r.Success? ==>
              r.value.variants == if TruthyVariants(req.variants)
                                  then VariantsWithDefaults(req.variants.value.parsed.value)
                                  else p.variants
    ensures r.Success? ==>
              r.value.isFeatured == if req.isFeatured.Some? then Featured(req.isFeatured.value)
                                    else p.isFeatured
    ensures r.Success? ==>
              r.value.ratings == if TruthyNumeral(req.rating)
                                 then RateOnce(p.ratings, req.rating.value.value).value
                                 else p.ratings
  {
    var scalars := ApplyScalars(p, req);
    if TruthyVariants(req.variants) && req.variants.value.parsed.None? then
      Failure(InvalidVariantsMessage)
    else
      var withVariants :=
        if TruthyVariants(req.variants)
        then scalars.(variants := VariantsWithDefaults(req.variants.value.parsed.value))
        else scalars;
      var featured :=
        if req.isFeatured.Some? then withVariants.(isFeatured := Featured(req.isFeatured.value))
        else withVariants;
      if TruthyNumeral(req.rating) then
        match RateOnce(featured.ratings, req.rating.value.value)
        case Failure(message) => Failure(message)
        case Success(rt) => Success(featured.(ratings := rt))
      else Success(featured)
  }

  /** The document the update handler would save, or the 400 message it
      answers with: the images replaced as a whole when files were uploaded,
      then `Amend`. */
  function Patch(p: Product, req: ProductRequest, files: seq<UploadedFile>): (r: Result<Product, string>)
    ensures r.Failure? <==>
              || (TruthyVariants(req.variants) && req.variants.value.parsed.None?)
              || (TruthyNumeral(req.rating) && RateOnce(p.ratings, req.rating.value.value).Failure?)
    ensures r.Success? ==> SameScalars(r.value, ApplyScalars(p, req))
    ensures r.Success? ==> r.value.images == if files != [] then UpdateBindings(files) else p.images
    ensures r.Success? ==> r.value.createdAt == p.createdAt
    ensures r.Success? ==>
              r.value.variants == if TruthyVariants(req.variants)
                                  then VariantsWithDefaults(req.variants.value.parsed.value)
                                  else p.variants
    ensures r.Success? ==>
              r.value.isFeatured == if req.isFeatured.Some? then Featured(req.isFeatured.value)
                                    else p.isFeatured
    ensures r.Success? ==>
              r.value.ratings == if TruthyNumeral(req.rating)
                                 then RateOnce(p.ratings, req.rating.value.value).value
                                 else p.ratings
  {
    Amend(if |files| > 0 then p.(images := UpdateBindings(files)) else p, req)
  }

  /** What `save` makes of the patched document: the 400 of `Patch`, or the
      validators' verdict, whose failure is a 500. */
  function SaveReply(id: ProductId, patched: Result<Product, string>): (reply: Reply)
    ensures reply.Updated? ==> reply.id == id && Valid(reply.product) && patched == Success(reply.product)
    ensures reply.BadRequest? <==> patched.Failure?
    ensures reply.BadRequest? ==> reply.message == patched.error
    ensures patched.Success? && !Valid(patched.value) ==> reply == ServerError
    ensures patched.Success? && Valid(patched.value) ==> reply == Updated(id, patched.value)
    ensures reply.Updated? || reply.BadRequest? || reply.ServerError?
  {
    match patched
    case Failure(message) => BadRequest(message)
    case Success(q) => if Valid(q) then Updated(id, q) else ServerError
  }

  /** The reply of the update handler once the document has been found:
      a failing `destroy` is a 500; then the 400s of `Patch`; then `save`
      runs the validators, whose failure is a 500. */
  function UpdateReply(id: ProductId, p: Product, req: ProductRequest,
                       files: seq<UploadedFile>, failing: set<string>): (reply: Reply)
    ensures reply.Updated? ==> reply.id == id && Valid(reply.product)
    ensures reply.Updated? || reply.BadRequest? || reply.ServerError?
    ensures !AllReleased(OldBindings(p, files), failing) ==> reply == ServerError
    ensures reply.BadRequest? ==> Patch(p, req, files) == Failure(reply.message)
    ensures reply.Updated? ==> Patch(p, req, files) == Success(reply.product)
    ensures AllReleased(OldBindings(p, files), failing) && Patch(p, req, files).Failure? ==>
              reply == BadRequest(Patch(p, req, files).error)
    ensures AllReleased(OldBindings(p, files), failing) && Patch(p, req, files).Success?
              && Valid(Patch(p, req, files).value) ==>
              reply == Updated(id, Patch(p, req, files).value)
    ensures AllReleased(OldBindings(p, files), failing) && Patch(p, req, files).Success?
              && !Valid(Patch(p, req, files).value) ==>
              reply == ServerError
  {
    if !AllReleased(OldBindings(p, files), failing) then ServerError
    else SaveReply(id, Patch(p, req, files))
  }

  /** A rating outside [1, 5] is a 400, whatever else the request holds,
      unless a variants parse failure (also a 400) or a throwing `destroy`
      (a 500) comes first; the stored product is then not replaced. */
  lemma OutOfRangeRatingRejected(id: ProductId, p: Product, req: ProductRequest,
                                 files: seq<UploadedFile>, failing: set<string>)
    requires TruthyNumeral(req.rating)
    requires req.rating.value.value < MinRating || req.rating.value.value > MaxRating
    requires AllReleased(OldBindings(p, files), failing)
    requires !(TruthyVariants(req.variants) && req.variants.value.parsed.None?)
    ensures UpdateReply(id, p, req, files, failing) == BadRequest(RatingRangeMessage)
  {
  }

  /** An update whose fields are all absent or empty, with no files, saves
      the document exactly as it was. */
  lemma EmptyUpdateKeepsProduct(id: ProductId, p: Product, req: ProductRequest, failing: set<string>)
    requires Valid(p)
    requires !Truthy(req.name) && !Truthy(req.description) && !Truthy(req.category) && !Truthy(req.brand)
    requires !TruthyNumeral(req.price) && !TruthyNumeral(req.discountPrice)
    requires !TruthyNumeral(req.stock) && !TruthyNumeral(req.rating)
    requires !TruthyVariants(req.variants) && req.isFeatured.None?
    ensures UpdateReply(id, p, req, [], failing) == Updated(id, p)
  {
  }

  /** Every update the handler saves keeps a valid stored product valid, as
      far as the rating bound is concerned: a stored mean in [0, 5] and an
      accepted score give a mean the `max` validator accepts. */
  lemma PatchKeepsAverageInRange(p: Product, req: ProductRequest, files: seq<UploadedFile>)
    requires 0.0 <= p.ratings.average <= MaxAverage
    requires Patch(p, req, files).Success?
    ensures 0.0 <= Patch(p, req, files).value.ratings.average <= MaxAverage
  {
    if TruthyNumeral(req.rating) {
      RatingStaysInRange(p.ratings, req.rating.value.value);
    }
  }

  // ---------------------------------------------------------------------
  // Creation
  // ---------------------------------------------------------------------

  /** Mongoose's number cast of a field handed to `new Product({...})`: an
      absent field stays undefined, the empty text becomes null, any other
      text its number. */
  function CastNumeral(n: Option<Numeral>): (r: Numeric)
    ensures r.Undefined? <==> n.None?
    ensures r.Null? <==> n.Some? && n.value.text == ""
    ensures r.Given? <==> TruthyNumeral(n)
    ensures r.Given? ==> r.value == n.value.value
  {
    match n
    case None => Undefined
    case Some(x) => if x.text == "" then Null else Given(x.value)
  }

  /** The document `new Product({...})` receives: each field of the body
      as it was sent (number fields cast), the images bound from the files,
      the parsed variants or `[]`, and the cast `isFeatured`. */
  function CreateDocument(req: ProductRequest, files: seq<UploadedFile>,
                          variants: seq<VariantDraft>, featured: Option<bool>): (d: Document)
    ensures d.name == req.name && d.description == req.description
    ensures d.category == req.category && d.brand == req.brand
    ensures d.price == CastNumeral(req.price) && d.discountPrice == CastNumeral(req.discountPrice)
    ensures d.stock == CastNumeral(req.stock)
    ensures d.images == CreateBindings(files) && d.variants == variants && d.isFeatured == featured
  {
    Document(req.name, req.description, CastNumeral(req.price),
             CastNumeral(req.discountPrice), CastNumeral(req.stock),
             req.category, req.brand, CreateBindings(files), variants, featured)
  }

  /** The body fields and files pass every validator of the schema: a name
      of 1 to 100 code units once trimmed, a non-empty description and
      category, a price of at least 0, no blank stock (blank text is cast to
      null, which `required` rejects) and a public id and URL for every
      image. */
  predicate FieldsAccepted(req: ProductRequest, files: seq<UploadedFile>) {
    && req.name.Some? && ValidName(Trim(req.name.value))
    && Truthy(req.description) && Truthy(req.category)
    && TruthyNumeral(req.price) && req.price.value.value >= 0.0
    && (req.stock.Some? ==> TruthyNumeral(req.stock))
    && ValidImages(CreateBindings(files))
  }

  /** The conditions under which the create handler stores a product: the
      variants parse, `isFeatured` casts, and every validator passes. */
  predicate CreateAccepted(req: ProductRequest, files: seq<UploadedFile>) {
    && !(TruthyVariants(req.variants) && req.variants.value.parsed.None?)
    && (req.isFeatured.Some? ==> CastBoolean(req.isFeatured.value).Some?)
    && FieldsAccepted(req, files)
  }

  /** The validators find nothing wrong with the defaulted document exactly
      when the body fields and files are acceptable; the variants and the
      flag play no part. */
  lemma CreateDocumentPasses(req: ProductRequest, files: seq<UploadedFile>,
                             variants: seq<VariantDraft>, featured: Option<bool>)
    ensures FieldsAccepted(req, files) <==>
              Violations(WithDefaults(CreateDocument(req, files, variants, featured))) == {}
  {
  }

  /** The product the create handler stores, or `None` when it answers 500:
      `JSON.parse` of the variants throws, `isFeatured` does not cast, or a
      validator fails. */
  function NewProduct(req: ProductRequest, files: seq<UploadedFile>, now: int): (r: Option<Product>)
    ensures r.Some? <==> CreateAccepted(req, files)
    ensures r.Some? ==> Valid(r.value)
    ensures r.Some? ==> r.value.name == Trim(req.name.value) && r.value.price == req.price.value.value
    ensures r.Some? ==>
              && r.value.description == req.description.value
              && r.value.category == req.category.value
              && r.value.brand == req.brand
    ensures r.Some? ==> r.value.images == CreateBindings(files)
    ensures r.Some? && !TruthyVariants(req.variants) ==> r.value.variants == []
    ensures r.Some? && TruthyVariants(req.variants) ==>
              r.value.variants == VariantsWithDefaults(req.variants.value.parsed.value)
    ensures r.Some? ==> r.value.ratings == InitialRatings && r.value.createdAt == now
    ensures r.Some? && req.discountPrice.None? ==> r.value.discountPrice == Some(0.0)
    ensures r.Some? && req.discountPrice.Some? ==>
              r.value.discountPrice == if req.discountPrice.value.text == "" then None
                                       else Some(req.discountPrice.value.value)
    ensures r.Some? && req.stock.None? ==> r.value.stock == 0.0
    ensures r.Some? && req.stock.Some? ==> r.value.stock == req.stock.value.value
    ensures r.Some? && req.isFeatured.None? ==> !r.value.isFeatured
    ensures r.Some? && req.isFeatured.Some? ==> Some(r.value.isFeatured) == CastBoolean(req.isFeatured.value)
  {
    if TruthyVariants(req.variants) && req.variants.value.parsed.None? then None
    else
      var variants := if TruthyVariants(req.variants) then req.variants.value.parsed.value else [];
      var featured := if req.isFeatured.Some? then CastBoolean(req.isFeatured.value) else None;
      if req.isFeatured.Some? && featured.None? then None
      else
        var doc := WithDefaults(CreateDocument(req, files, variants, featured));
        CreateDocumentPasses(req, files, variants, featured);
        match Validate(doc, now)
        case Failure(_) => None
        case Success(p) => Some(p)
  }

  // ---------------------------------------------------------------------
  // The store
  // ---------------------------------------------------------------------

  /** No stored id is one the database will hand out again. */
  ghost predicate IdsBelow(m: map<ProductId, Product>, bound: ProductId) {
    forall id :: id in m ==> id < bound
  }

  /** Every stored product passed the validators. */
  ghost predicate AllValid(m: map<ProductId, Product>) {
    forall id :: id in m ==> ProductSchema.Valid(m[id])
  }

  /** `list` holds the entries of `m`, each under its id, each once, in
      ascending id order. */
  ghost predicate InIdOrder(m: map<ProductId, Product>, list: seq<(ProductId, Product)>) {
    && (forall k :: 0 <= k < |list| ==> list[k].0 in m && m[list[k].0] == list[k].1)
    && (forall j, k :: 0 <= j < k < |list| ==> list[j].0 < list[k].0)
    && (forall id :: id in m ==> exists k :: 0 <= k < |list| && list[k].0 == id)
  }

  /** Storing a valid product under an issued id keeps the collection valid. */
  lemma StoringKeepsValid(m: map<ProductId, Product>, bound: ProductId, id: ProductId, p: Product)
    requires IdsBelow(m, bound) && AllValid(m)
    requires id < bound && ProductSchema.Valid(p)
    ensures IdsBelow(m[id := p], bound) && AllValid(m[id := p])
  {
  }

  /** Storing a valid product under the next id to issue, and moving the
      bound past it, keeps the collection valid. */
  lemma IssuingKeepsValid(m: map<ProductId, Product>, bound: ProductId, p: Product)
    requires IdsBelow(m, bound) && AllValid(m) && ProductSchema.Valid(p)
    ensures IdsBelow(m[bound := p], bound + 1) && AllValid(m[bound := p])
  {
  }

  /** The scan behind `find()`: every id the database has handed out, in order. */
  method ListInIdOrder(stored: map<ProductId, Product>, bound: ProductId)
    returns (list: seq<(ProductId, Product)>)
    requires IdsBelow(stored, bound)
    ensures InIdOrder(stored, list)
  {
    var ids: seq<ProductId> := [];
    ghost var position: map<ProductId, nat> := map[];
    var k := 0;
    while k < bound
      invariant 0 <= k <= bound
      invariant forall j :: 0 <= j < |ids| ==> ids[j] < k && ids[j] in stored
      invariant forall i, j :: 0 <= i < j < |ids| ==> ids[i] < ids[j]
      invariant forall id :: id in stored && id < k ==>
                  id in position && position[id] < |ids| && ids[position[id]] == id
    {
      if k in stored {
        position := position[k := |ids|];
        ids := ids + [k];
      }
      k := k + 1;
    }
    list := seq(|ids|, i requires 0 <= i < |ids| => (ids[i], stored[ids[i]]));
    forall id | id in stored
      ensures exists j :: 0 <= j < |list| && list[j].0 == id
    {
      assert list[position[id]].0 == id;
    }
  }

  /** The scalar assignments of the update handler, path by path. */
  method AssignScalars(p: Product, req: ProductRequest) returns (product: Product)
    ensures product == ApplyScalars(p, req)
  {
    product := p;
    if Truthy(req.name) { product := product.(name := Trim(req.name.value)); }
    if Truthy(req.description) { product := product.(description := req.description.value); }
    if TruthyNumeral(req.price) { product := product.(price := req.price.value.value); }
    if TruthyNumeral(req.discountPrice) {
      product := product.(discountPrice := Some(req.discountPrice.value.value));
    }
    if TruthyNumeral(req.stock) { product := product.(stock := req.stock.value.value); }
    if Truthy(req.category) { product := product.(category := req.category.value); }
    if Truthy(req.brand) { product := product.(brand := req.brand); }
    assert SameScalars(product, ApplyScalars(p, req));
  }

  /** The rating step of the update handler: the range check, then
      `totalRating = average * count`, `count += 1` and
      `average = (totalRating + newRating) / count`. */
  method RateProduct(ratings: Ratings, newRating: real) returns (r: Result<Ratings, string>)
    ensures r == RateOnce(ratings, newRating)
  {
    if newRating < MinRating || newRating > MaxRating {
      return Failure(RatingRangeMessage);
    }
    var totalRating := ratings.average * (ratings.count as real);
    var count := ratings.count + 1;
    var average := Mean(totalRating + newRating, count as real);
    r := Success(Ratings(average, count));
    assert RateOnce(ratings, newRating).value == Ratings(average, count);
  }

  /** The assignments of the update handler after the images, one path at
      a time, returning early with the 400 message. */
  method AmendFields(p: Product, req: ProductRequest) returns (r: Result<Product, string>)
    ensures r == Amend(p, req)
  {
    var product := AssignScalars(p, req);

    if TruthyVariants(req.variants) {
      match req.variants.value.parsed
      case None =>
        return Failure(InvalidVariantsMessage);
      case Some(vs) =>
        product := product.(variants := VariantsWithDefaults(vs));
    }

    if req.isFeatured.Some? {
      product := product.(isFeatured := Featured(req.isFeatured.value));
    }

    if TruthyNumeral(req.rating) {
      var rated := RateProduct(product.ratings, req.rating.value.value);
      match rated
      case Failure(message) =>
        return Failure(message);
      case Success(ratings) =>
        product := product.(ratings := ratings);
    }
    r := Success(product);
  }

  /** The save step of the update handler: `Patch` computed path by path,
      then the validators. */
  method Save(id: ProductId, p: Product, req: ProductRequest, files: seq<UploadedFile>)
    returns (reply: Reply)
    ensures reply == SaveReply(id, Patch(p, req, files))
  {
    var product := p;
    if |files| > 0 {
      product := product.(images := UpdateBindings(files));
    }
    var amended := AmendFields(product, req);
    match amended
    case Failure(message) =>
      reply := BadRequest(message);
    case Success(saved) =>
      if !ProductSchema.Valid(saved) {
        return ServerError;
      }
      reply := Updated(id, saved);
  }

  class Store {
    /** The products collection. */
    var products: map<ProductId, Product>
    /** The id the database assigns to the next created product. */
    var nextId: ProductId
    /** The public ids live in Cloudinary. */
    var media: set<string>
    /** Every `destroy` call made, in order. */
    var destroyCalls: seq<string>

    /** Every stored product passed the validators, and no stored id is one
        the database will hand out again. */
    ghost predicate Valid()
      reads this
    {
      IdsBelow(products, nextId) && AllValid(products)
    }

    constructor (live: set<string>)
      ensures Valid()
      ensures products == map[] && nextId == 0 && media == live && destroyCalls == []
    {
      products := map[];
      nextId := 0;
      media := live;
      destroyCalls := [];
    }

    /** `destroy` each id in order, stopping at the first that throws; `ok`
        says whether none threw. */
    method DestroyAll(ids: seq<string>, failing: set<string>) returns (ok: bool)
      modifies this`media, this`destroyCalls
      ensures ok <==> AllReleased(ids, failing)
      ensures destroyCalls == old(destroyCalls) + Attempted(ids, failing)
      ensures media == old(media) - Released(ids, failing)
    {
      var i := 0;
      while i < |ids|
        invariant 0 <= i <= FirstFailure(ids, failing)
        invariant destroyCalls == old(destroyCalls) + ids[..i]
        invariant media == old(media) - set j | 0 <= j < i :: ids[j]
      {
        destroyCalls := destroyCalls + [ids[i]];
        if ids[i] in failing {
          assert ids[..i + 1] == Attempted(ids, failing);
          return false;
        }
        media := media - {ids[i]};
        i := i + 1;
        assert ids[..i] == ids[..i - 1] + [ids[i - 1]];
      }
      assert ids[..i] == ids;
      ok := true;
    }

    /** POST /product: store the product under a fresh id, or answer 500 and
        store nothing. Files were uploaded before the handler runs, so
        Cloudinary is not touched either way. */
    method Create(req: ProductRequest, files: seq<UploadedFile>, now: int) returns (reply: Reply)
      requires Valid()
      modifies this`products, this`nextId
      ensures Valid()
      ensures old(nextId) !in old(products)
      ensures match NewProduct(req, files, now)
              case None =>
                reply == ServerError && products == old(products) && nextId == old(nextId)
              case Some(p) =>
                && reply == Created(old(nextId), p)
                && products == old(products)[old(nextId) := p]
                && nextId == old(nextId) + 1
    {
      var created := NewProduct(req, files, now);
      if created.None? {
        return ServerError;
      }
      var p := created.value;
      IssuingKeepsValid(products, nextId, p);
      reply := Created(nextId, p);
      products := products[nextId := p];
      nextId := nextId + 1;
    }

    /** GET /product: every stored product, in ascending id order, each once. */
    method GetAll() returns (reply: Reply)
      requires Valid()
      ensures reply.Listing? && InIdOrder(products, reply.products)
    {
      var list := ListInIdOrder(products, nextId);
      reply := Listing(list);
    }

    /** GET /product/:id. */
    method GetById(id: ProductId) returns (reply: Reply)
      ensures id in products ==> reply == Found(id, products[id])
      ensures id !in products ==> reply == NotFound
    {
      if id !in products {
        return NotFound;
      }
      reply := Found(id, products[id]);
    }

    /** PUT /product/:id. An unknown id changes nothing. Otherwise, when
        files were uploaded, the old images are destroyed first; then the
        request is applied to the fetched document and saved. A 400, or a
        document the validators reject, leaves the stored product as it
        was, but the images destroyed before are gone from Cloudinary. */
    method Update(id: ProductId, req: ProductRequest, files: seq<UploadedFile>,
                  failing: set<string>) returns (reply: Reply)
      requires Valid()
      modifies this`products, this`media, this`destroyCalls
      ensures Valid() && nextId == old(nextId)
      ensures id !in old(products) ==>
                && reply == NotFound && products == old(products)
                && media == old(media) && destroyCalls == old(destroyCalls)
      ensures id in old(products) ==>
                var ids := OldBindings(old(products)[id], files);
                && destroyCalls == old(destroyCalls) + Attempted(ids, failing)
                && media == old(media) - Released(ids, failing)
                && reply == UpdateReply(id, old(products)[id], req, files, failing)
                && products == if reply.Updated? then old(products)[id := reply.product]
                               else old(products)
    {
      if id !in products {
        return NotFound;
      }
      var product := products[id];
      ghost var expected := UpdateReply(id, product, req, files, failing);
      var ok := ReleaseOld(product, files, failing);
      if !ok {
        assert expected == ServerError;
        return ServerError;
      }
      reply := Save(id, product, req, files);
      assert reply == expected;
      Commit(id, reply);
    }

    /** The last step of the update handler: a saved reply's document
        replaces the stored one; any other reply leaves the collection. */
    method Commit(id: ProductId, reply: Reply)
      requires Valid() && id in products
      requires reply.Updated? ==> ProductSchema.Valid(reply.product)
      modifies this`products
      ensures Valid()
      ensures products == if reply.Updated? then old(products)[id := reply.product] else old(products)
    {
      if reply.Updated? {
        StoringKeepsValid(products, nextId, id, reply.product);
        products := products[id := reply.product];
      }
    }

    /** The first step of the update handler: when files were uploaded, the
        old images with a public id are destroyed in order. */
    method ReleaseOld(p: Product, files: seq<UploadedFile>, failing: set<string>) returns (ok: bool)
      modifies this`media, this`destroyCalls
      ensures ok <==> AllReleased(OldBindings(p, files), failing)
      ensures destroyCalls == old(destroyCalls) + Attempted(OldBindings(p, files), failing)
      ensures media == old(media) - Released(OldBindings(p, files), failing)
    {
      ok := DestroyAll(OldBindings(p, files), failing);
    }

    /** DELETE /product/:id. An unknown id changes nothing. Otherwise every
        image is destroyed in order; the record is removed only if no
        `destroy` threw, and a throw is a 500 that keeps the record. */
    method Delete(id: ProductId, failing: set<string>) returns (reply: Reply)
      requires Valid()
      modifies this`products, this`media, this`destroyCalls
      ensures Valid() && nextId == old(nextId)
      ensures id !in old(products) ==>
                && reply == NotFound && products == old(products)
                && media == old(media) && destroyCalls == old(destroyCalls)
      ensures id in old(products) ==>
                var ids := PublicIds(old(products)[id].images);
                && destroyCalls == old(destroyCalls) + Attempted(ids, failing)
                && media == old(media) - Released(ids, failing)
                && (AllReleased(ids, failing) ==> reply == Deleted && products == old(products) - {id})
                && (!AllReleased(ids, failing) ==> reply == ServerError && products == old(products))
    {
      if id !in products {
        return NotFound;
      }
      var ok := DestroyAll(PublicIds(products[id].images), failing);
      if !ok {
        return ServerError;
      }
      products := products - {id};
      reply := Deleted;
    }
  }
}
