/** The product schema: the shape of a stored product, the defaults Mongoose
    fills in when a new document leaves a path undefined, the `trim` setter
    on `name`, and the validators (`required`, `min`, `max`, `maxlength`)
    that `save` runs. */
module ProductSchema {
  import opened Wrappers

  /** The opaque identifier the database assigns at creation. */
  type ProductId = nat

  /** One entry of `images`: the Cloudinary public id and the delivery URL. */
  datatype Image = Image(publicId: string, url: string)

  /** A variant as the request supplies it: every path may be missing. */
  datatype VariantDraft = VariantDraft(color: Option<string>, size: Option<string>,
                                       stock: Option<real>, price: Option<real>)

  /** A stored variant: `stock` has been defaulted. */
  datatype Variant = Variant(color: Option<string>, size: Option<string>,
                             stock: real, price: Option<real>)

  /** The running rating aggregate. */
  datatype Ratings = Ratings(average: real, count: nat)

  /** A stored product document. A `discountPrice` of `None` is the null a
      blank discount price was cast to. */
  datatype Product = Product(
    name: string,
    description: string,
    price: real,
    discountPrice: Option<real>,
    stock: real,
    category: string,
    brand: Option<string>,
    images: seq<Image>,
    variants: seq<Variant>,
    ratings: Ratings,
    isFeatured: bool,
    createdAt: int)

  /** What a Number path holds once Mongoose has cast the value given for
      it: `Undefined` when the creating code leaves it out, `Null` when it is
      the empty string (the number cast turns `""` into null, and a default
      applies only to an undefined path), the number otherwise. */
  datatype Numeric = Undefined | Null | Given(value: real)

  /** The values handed to `new Product({...})`: a string path the creating
      code leaves undefined is `None`. */
  datatype Document = Document(
    name: Option<string>,
    description: Option<string>,
    price: Numeric,
    discountPrice: Numeric,
    stock: Numeric,
    category: Option<string>,
    brand: Option<string>,
    images: seq<Image>,
    variants: seq<VariantDraft>,
    isFeatured: Option<bool>)

  /** The schema paths whose validators can fail. */
  datatype Path = NamePath | DescriptionPath | PricePath | StockPath | CategoryPath | ImagesPath

  const NameMaxLength: nat := 100
  const MaxAverage: real := 5.0
  const InitialRatings: Ratings := Ratings(0.0, 0)

  // ---------------------------------------------------------------------
  // The `trim` setter on `name` (JavaScript's String.prototype.trim)
  // ---------------------------------------------------------------------

  /** The white-space and line-terminator characters `trim` removes. */
  predicate IsSpace(c: char) {
    || c == ' ' || c == '\t' || c == '\n' || c == '\r' || c == '\U{000B}' || c == '\U{000C}'
    || c == '\U{00A0}' || c == '\U{1680}' || ('\U{2000}' <= c <= '\U{200A}')
    || c == '\U{2028}' || c == '\U{2029}' || c == '\U{202F}' || c == '\U{205F}'
    || c == '\U{3000}' || c == '\U{FEFF}'
  }

  /** `s` without its leading white space. */
  function TrimStart(s: string): (r: string)
    ensures |r| <= |s| && r == s[|s| - |r|..]
    ensures forall i :: 0 <= i < |s| - |r| ==> IsSpace(s[i])
    ensures r == [] || !IsSpace(r[0])
  {
    if s != [] && IsSpace(s[0]) then TrimStart(s[1..]) else s
  }

  /** `s` without its trailing white space. */
  function TrimEnd(s: string): (r: string)
    ensures |r| <= |s| && r == s[..|r|]
    ensures forall i :: |r| <= i < |s| ==> IsSpace(s[i])
    ensures r == [] || !IsSpace(r[|r| - 1])
  {
    if s != [] && IsSpace(s[|s| - 1]) then TrimEnd(s[..|s| - 1]) else s
  }

  /** `s` without white space at either end. The result neither starts nor
      ends with white space, and a string that already does not is left as
      it is, so a trimmed name passes through the setter unchanged. */
  function Trim(s: string): (r: string)
    ensures |r| <= |s|
    ensures r == [] || (!IsSpace(r[0]) && !IsSpace(r[|r| - 1]))
    ensures (s == [] || (!IsSpace(s[0]) && !IsSpace(s[|s| - 1]))) ==> r == s
  {
    TrimEnd(TrimStart(s))
  }

  /** What `Trim` keeps is the part of `s` between a run of white space at
      the front (of length `a`) and a run at the back: nothing else is
      removed and nothing is reordered. */
  lemma TrimKeepsMiddle(s: string) returns (a: nat)
    ensures a + |Trim(s)| <= |s| && Trim(s) == s[a..a + |Trim(s)|]
    ensures forall i :: 0 <= i < a ==> IsSpace(s[i])
    ensures forall i :: a + |Trim(s)| <= i < |s| ==> IsSpace(s[i])
  {
    var t := TrimStart(s);
    var r := TrimEnd(t);
    assert Trim(s) == r;
    a := |s| - |t|;
    assert s[a..a + |r|] == t[..|r|];
    SpacesShifted(s, a, |r|);
  }

  /** White space at the back of the suffix `s[a..]` is white space at the
      back of `s`. */
  lemma SpacesShifted(s: string, a: nat, n: nat)
    requires a <= |s|
    requires forall i :: n <= i < |s[a..]| ==> IsSpace(s[a..][i])
    ensures forall i :: a + n <= i < |s| ==> IsSpace(s[i])
  {
    forall i | a + n <= i < |s| ensures IsSpace(s[i]) {
      assert s[i] == s[a..][i - a];
    }
  }

  /** `s.length` in JavaScript: one UTF-16 code unit per character of the
      Basic Multilingual Plane, two (a surrogate pair) per character above
      it. */
  function Utf16Length(s: string): (n: nat)
    ensures |s| <= n <= 2 * |s|
    ensures (forall i :: 0 <= i < |s| ==> s[i] <= '\U{FFFF}') ==> n == |s|
  {
    if s == [] then 0
    else (if s[0] <= '\U{FFFF}' then 1 else 2) + Utf16Length(s[1..])
  }

  // ---------------------------------------------------------------------
  // Validators of a stored product
  // ---------------------------------------------------------------------

  /** Both paths of an image subdocument are required. */
  predicate ValidImage(img: Image) {
    img.publicId != "" && img.url != ""
  }

  /** `name`: required (a non-empty string) and, once trimmed, at most 100
      UTF-16 code units long, as `maxlength` measures it. */
  predicate ValidName(name: string) {
    name != "" && Utf16Length(name) <= NameMaxLength
  }

  /** A name written only in characters of the Basic Multilingual Plane is
      accepted when it has 1 to 100 characters; one of 51 characters from
      above that plane is already too long. */
  lemma NameLengthInCodeUnits(name: string)
    ensures (forall i :: 0 <= i < |name| ==> name[i] <= '\U{FFFF}') ==>
              (ValidName(name) <==> 1 <= |name| <= NameMaxLength)
    ensures (|name| == 51 && forall i :: 0 <= i < |name| ==> name[i] > '\U{FFFF}') ==>
              !ValidName(name)
  {
    if |name| == 51 && forall i :: 0 <= i < |name| ==> name[i] > '\U{FFFF}' {
      AstralLength(name);
    }
  }

  /** Every character above the Basic Multilingual Plane takes two code units. */
  lemma {:induction false} AstralLength(s: string)
    requires forall i :: 0 <= i < |s| ==> s[i] > '\U{FFFF}'
    ensures Utf16Length(s) == 2 * |s|
  {
    if s != [] {
      assert forall i :: 0 <= i < |s[1..]| ==> s[1..][i] == s[i + 1];
      AstralLength(s[1..]);
    }
  }

  /** Every image subdocument has both of its paths. */
  predicate ValidImages(imgs: seq<Image>) {
    forall i :: 0 <= i < |imgs| ==> ValidImage(imgs[i])
  }

  /** What `save` demands of a stored product: the `required`, `maxlength`,
      `min` and `max` validators of every path. The conjunct
      `Trim(p.name) == p.name` is not a validator Mongoose runs: it is the
      invariant the `trim` setter keeps, since every assignment to `name`
      goes through it. */
  predicate Valid(p: Product) {
    && ValidName(p.name)
    && Trim(p.name) == p.name
    && p.description != ""
    && p.price >= 0.0
    && p.category != ""
    && ValidImages(p.images)
    && 0.0 <= p.ratings.average <= MaxAverage
  }

  // ---------------------------------------------------------------------
  // Defaults and validation of a new document
  // ---------------------------------------------------------------------

  /** A variant subdocument with its `stock` default applied. */
  function VariantWithDefaults(v: VariantDraft): (r: Variant)
    ensures r.color == v.color && r.size == v.size && r.price == v.price
    ensures v.stock.Some? ==> r.stock == v.stock.value
    ensures v.stock.None? ==> r.stock == 0.0
  {
    Variant(v.color, v.size, v.stock.GetOr(0.0), v.price)
  }

  /** Every variant of a list with its defaults applied, in order. */
  function VariantsWithDefaults(vs: seq<VariantDraft>): (r: seq<Variant>)
    ensures |r| == |vs|
    ensures forall i :: 0 <= i < |vs| ==> r[i] == VariantWithDefaults(vs[i])
  {
    seq(|vs|, i requires 0 <= i < |vs| => VariantWithDefaults(vs[i]))
  }

  /** The paths that have a default are set, including every variant's `stock`. */
  predicate Defaulted(d: Document) {
    && !d.discountPrice.Undefined? && !d.stock.Undefined? && d.isFeatured.Some?
    && forall i :: 0 <= i < |d.variants| ==> d.variants[i].stock.Some?
  }

  /** `d` with the schema defaults filled in on the undefined paths:
      `discountPrice = 0`, `stock = 0`, `isFeatured = false` and every
      variant's `stock = 0`; a value the caller supplied, null included, is
      kept. */
  function WithDefaults(d: Document): (r: Document)
    ensures Defaulted(r)
    ensures r.name == d.name && r.description == d.description && r.price == d.price
    ensures r.category == d.category && r.brand == d.brand && r.images == d.images
    ensures !d.discountPrice.Undefined? ==> r.discountPrice == d.discountPrice
    ensures d.discountPrice.Undefined? ==> r.discountPrice == Given(0.0)
    ensures !d.stock.Undefined? ==> r.stock == d.stock
    ensures d.stock.Undefined? ==> r.stock == Given(0.0)
    ensures d.isFeatured.Some? ==> r.isFeatured == d.isFeatured
    ensures d.isFeatured.None? ==> r.isFeatured == Some(false)
    ensures |r.variants| == |d.variants|
    ensures forall i :: 0 <= i < |d.variants| ==>
              VariantWithDefaults(r.variants[i]) == VariantWithDefaults(d.variants[i])
  {
    var vs := seq(|d.variants|, i requires 0 <= i < |d.variants| =>
                    d.variants[i].(stock := Some(d.variants[i].stock.GetOr(0.0))));
    d.(discountPrice := if d.discountPrice.Undefined? then Given(0.0) else d.discountPrice,
       stock := if d.stock.Undefined? then Given(0.0) else d.stock,
       isFeatured := Some(d.isFeatured.GetOr(false)),
       variants := vs)
  }

  /** Applying the defaults a second time changes nothing. */
  lemma WithDefaultsIdempotent(d: Document)
    ensures WithDefaults(WithDefaults(d)) == WithDefaults(d)
  {
    var r := WithDefaults(d);
    assert WithDefaults(r).variants == r.variants;
  }

  /** Every path that has a validator. */
  const AllPaths: set<Path> :=
    {NamePath, DescriptionPath, PricePath, StockPath, CategoryPath, ImagesPath}

  /** Whether the validators of `path` reject the document. */
  predicate Fails(d: Document, path: Path) {
    match path
    case NamePath => d.name.None? || !ValidName(Trim(d.name.value))
    case DescriptionPath => d.description.None? || d.description.value == ""
    case PricePath => !d.price.Given? || d.price.value < 0.0
    case StockPath => !d.stock.Given?
    case CategoryPath => d.category.None? || d.category.value == ""
    case ImagesPath => !ValidImages(d.images)
  }

  /** The paths of a defaulted document whose validator fails. */
  function Violations(d: Document): (paths: set<Path>)
    ensures NamePath in paths <==> d.name.None? || !ValidName(Trim(d.name.value))
    ensures DescriptionPath in paths <==> d.description.None? || d.description.value == ""
    ensures PricePath in paths <==> !d.price.Given? || d.price.value < 0.0
    ensures StockPath in paths <==> !d.stock.Given?
    ensures CategoryPath in paths <==> d.category.None? || d.category.value == ""
    ensures ImagesPath in paths <==> !ValidImages(d.images)
  {
    set path | path in AllPaths && Fails(d, path)
  }

  /** What `save` makes of a new, defaulted document created at time `now`:
      the stored product, with `name` trimmed, ratings `{0, 0}` and
      `createdAt = now`, or the non-empty set of paths that fail. */
  function Validate(d: Document, now: int): (r: Result<Product, set<Path>>)
    requires Defaulted(d)
    ensures r.Success? <==> Violations(d) == {}
    ensures r.Failure? ==> r.error == Violations(d) && r.error != {}
    ensures r.Success? ==> Valid(r.value)
    ensures r.Success? ==>
              && r.value.name == Trim(d.name.value)
              && r.value.description == d.description.value
              && r.value.price == d.price.value
              && (d.discountPrice.Given? ==> r.value.discountPrice == Some(d.discountPrice.value))
              && (d.discountPrice.Null? ==> r.value.discountPrice == None)
              && r.value.stock == d.stock.value
              && r.value.category == d.category.value
              && r.value.brand == d.brand
              && r.value.images == d.images
              && r.value.variants == VariantsWithDefaults(d.variants)
              && r.value.isFeatured == d.isFeatured.value
              && r.value.ratings == InitialRatings
              && r.value.createdAt == now
  {
    var paths := Violations(d);
    if paths != {} then Failure(paths)
    else
      var name := Trim(d.name.value);
      var discountPrice := if d.discountPrice.Given? then Some(d.discountPrice.value) else None;
      Success(Product(name, d.description.value, d.price.value, discountPrice,
                      d.stock.value, d.category.value, d.brand, d.images,
                      VariantsWithDefaults(d.variants), InitialRatings,
                      d.isFeatured.value, now))
  }

  /** A document with a negative price is never stored, whatever else it holds. */
  lemma NegativePriceRejected(d: Document, now: int)
    requires Defaulted(d) && d.price.Given? && d.price.value < 0.0
    ensures Validate(d, now).Failure? && PricePath in Validate(d, now).error
  {
  }
}
