/** The product form: its field values in key order, the edits its inputs
    make, the multipart body a submit sends, and the reset and
    `isSubmitting` rules around the submit. */
module ProductForm {
  import opened Wrappers
  import ProductSchema
  import ProductController

  /** A variant path as the form holds it: text typed into an input, or a
      number (the defaults, and the values of a product being edited). */
  datatype Scalar = Str(text: string) | Num(number: real)

  /** One entry of `form.variants`. */
  datatype FormVariant = FormVariant(color: Scalar, size: Scalar, stock: Scalar, price: Scalar)

  /** The four variant paths the inputs edit. */
  datatype VariantField = Color | Size | Stock | Price

  /** One entry of `form.images`: a file picked in the file input, or an
      image entry of the product being edited. */
  datatype Attachment = LocalFile(name: string) | StoredImage(image: ProductSchema.Image)

  /** A value of the form object. `Other` is any other value (a number, an
      object of the product being edited), given by its `String(...)` text. */
  datatype FormValue =
    | Text(text: string)
    | Flag(flag: bool)
    | VariantList(variants: seq<FormVariant>)
    | Files(files: seq<Attachment>)
    | Other(rendered: string)

  /** The form object: its keys in `Object.keys` order and the value of each. */
  datatype Form = Form(keys: seq<string>, values: map<string, FormValue>)

  /** The change event of an input: its `name`, `value`, `type` and `checked`. */
  datatype InputTarget = InputTarget(name: string, value: string, kind: string, checked: bool)

  const VariantsKey: string := "variants"
  const ImagesKey: string := "images"

  // ---------------------------------------------------------------------
  // The form object
  // ---------------------------------------------------------------------

  /** No key appears twice, as in any JavaScript object. */
  predicate DistinctKeys(keys: seq<string>) {
    forall i, j :: 0 <= i < j < |keys| ==> keys[i] != keys[j]
  }

  /** Only `variants` holds a variant list and only `images` a file list. */
  predicate Shaped(key: string, v: FormValue) {
    && (key == VariantsKey <==> v.VariantList?)
    && (key == ImagesKey <==> v.Files?)
  }

  /** The shape every form state has: each key once and with a value, each
      value shaped, and both lists present. */
  predicate WellFormed(f: Form) {
    && DistinctKeys(f.keys)
    && (forall k :: k in f.values ==> k in f.keys)
    && (forall i :: 0 <= i < |f.keys| ==> f.keys[i] in f.values)
    && (forall k :: k in f.values ==> Shaped(k, f.values[k]))
    && VariantsKey in f.values
    && ImagesKey in f.values
  }

  /** `{...form, [key]: value}`: an existing key keeps its place and takes
      the new value; a new key goes last. */
  function Assign(f: Form, key: string, value: FormValue): Form {
    Form(if key in f.keys then f.keys else f.keys + [key], f.values[key := value])
  }

  /** A spread assignment sets that key, keeps every other value, and
      keeps the key order, a new key going last. */
  lemma AssignSpreads(f: Form, key: string, value: FormValue)
    requires WellFormed(f) && Shaped(key, value)
    ensures WellFormed(Assign(f, key, value))
    ensures Assign(f, key, value).values[key] == value
    ensures forall k :: k != key && k in f.values ==>
              k in Assign(f, key, value).values && Assign(f, key, value).values[k] == f.values[k]
    ensures Assign(f, key, value).values.Keys == f.values.Keys + {key}
    ensures key in f.values ==> Assign(f, key, value).keys == f.keys
    ensures key !in f.values ==> Assign(f, key, value).keys == f.keys + [key]
  {
    if key !in f.keys {
      AppendKeepsDistinct(f.keys, key);
    }
  }

  /** A key not yet listed can go last without repeating any key. */
  lemma AppendKeepsDistinct(keys: seq<string>, key: string)
    requires DistinctKeys(keys) && key !in keys
    ensures DistinctKeys(keys + [key])
  {
    var r := keys + [key];
    forall i, j | 0 <= i < j < |r|
      ensures r[i] != r[j]
    {
      if j == |keys| {
        assert r[i] == keys[i] && keys[i] in keys;
      }
    }
  }

  /** Assigning a property the value it already has changes nothing. */
  lemma AssignSameValue(f: Form, key: string)
    requires WellFormed(f) && key in f.values
    ensures Assign(f, key, f.values[key]) == f
  {
    assert f.values[key := f.values[key]] == f.values;
  }

  /** A later assignment of the same key wins. */
  lemma AssignTwice(f: Form, key: string, v: FormValue, w: FormValue)
    ensures Assign(Assign(f, key, v), key, w) == Assign(f, key, w)
  {
    assert f.values[key := v][key := w] == f.values[key := w];
  }

  /** The form's initial state, which a create resets it to. */
  const DefaultVariant: FormVariant := FormVariant(Str(""), Str(""), Num(0.0), Num(0.0))

  const InitialKeys: seq<string> :=
    ["name", "description", "price", "discountPrice", "stock", "category", "brand",
     "isFeatured", VariantsKey, ImagesKey]

  /** The initial value of each initial key. */
  function InitialValue(key: string): FormValue {
    if key == VariantsKey then VariantList([DefaultVariant])
    else if key == ImagesKey then Files([])
    else if key == "isFeatured" then Flag(false)
    else Text("")
  }

  function InitialForm(): (f: Form)
    ensures WellFormed(f)
    ensures f.keys == InitialKeys
    ensures VariantsOf(f) == [DefaultVariant]
    ensures f.values[ImagesKey] == Files([])
  {
    assert DistinctKeys(InitialKeys);
    Form(InitialKeys, map k | k in InitialKeys :: InitialValue(k))
  }

  /** The variant list of a well-formed form. */
  function VariantsOf(f: Form): (vs: seq<FormVariant>)
    requires WellFormed(f)
    ensures f.values[VariantsKey] == VariantList(vs)
  {
    assert Shaped(VariantsKey, f.values[VariantsKey]);
    f.values[VariantsKey].variants
  }

  // ---------------------------------------------------------------------
  // The input handlers
  // ---------------------------------------------------------------------

  /** `handleChange`: the named property becomes `checked` for a checkbox
      and the input's text otherwise; the lists have their own handlers. */
  function HandleChange(f: Form, target: InputTarget): (r: Form)
    requires WellFormed(f)
    requires target.name != VariantsKey && target.name != ImagesKey
    ensures WellFormed(r)
    ensures target.name in f.values ==> r.keys == f.keys
    ensures target.name !in f.values ==> r.keys == f.keys + [target.name]
    ensures r.values.Keys == f.values.Keys + {target.name}
    ensures target.kind == "checkbox" ==> r.values[target.name] == Flag(target.checked)
    ensures target.kind != "checkbox" ==> r.values[target.name] == Text(target.value)
    ensures forall k :: k != target.name && k in f.values ==> r.values[k] == f.values[k]
  {
    var value := if target.kind == "checkbox" then Flag(target.checked) else Text(target.value);
    AssignSpreads(f, target.name, value);
    Assign(f, target.name, value)
  }

  /** The file input: `images` becomes the picked files, in order. */
  function PickFiles(f: Form, names: seq<string>): (r: Form)
    requires WellFormed(f)
    ensures WellFormed(r) && r.keys == f.keys && r.values.Keys == f.values.Keys
    ensures |r.values[ImagesKey].files| == |names|
    ensures forall i :: 0 <= i < |names| ==> r.values[ImagesKey].files[i] == LocalFile(names[i])
    ensures forall k :: k != ImagesKey && k in f.values ==> r.values[k] == f.values[k]
  {
    var files := Files(seq(|names|, i requires 0 <= i < |names| => LocalFile(names[i])));
    AssignSpreads(f, ImagesKey, files);
    Assign(f, ImagesKey, files)
  }

  /** `addVariant`: one default variant appended, the others kept. */
  function AddVariant(f: Form): (r: Form)
    requires WellFormed(f)
    ensures WellFormed(r) && r.keys == f.keys && r.values.Keys == f.values.Keys
    ensures |VariantsOf(r)| == |VariantsOf(f)| + 1
    ensures VariantsOf(r)[..|VariantsOf(f)|] == VariantsOf(f)
    ensures VariantsOf(r)[|VariantsOf(f)|] == DefaultVariant
    ensures forall k :: k != VariantsKey && k in f.values ==> r.values[k] == f.values[k]
  {
    var value := VariantList(VariantsOf(f) + [DefaultVariant]);
    AssignSpreads(f, VariantsKey, value);
    var r := Assign(f, VariantsKey, value);
    assert VariantsOf(r) == VariantsOf(f) + [DefaultVariant];
    r
  }

  /** `filter((_, i) => i !== index)`: every entry but the one at `index`. */
  function Without(vs: seq<FormVariant>, index: int): (r: seq<FormVariant>)
    ensures 0 <= index < |vs| ==> r == vs[..index] + vs[index + 1..]
    ensures !(0 <= index < |vs|) ==> r == vs
  {
    if vs == [] then []
    else
      var rest := Without(vs[1..], index - 1);
      if index == 0 then rest
      else
        assert 0 < index < |vs| ==> vs[1..][..index - 1] == vs[1..index] && vs[1..][index..] == vs[index + 1..];
        [vs[0]] + rest
  }

  /** `removeVariant`: the entry at `index` dropped, the order of the rest
      kept; an index outside the list leaves the form as it was. */
  function RemoveVariant(f: Form, index: int): (r: Form)
    requires WellFormed(f)
    ensures WellFormed(r) && r.keys == f.keys && r.values.Keys == f.values.Keys
    ensures 0 <= index < |VariantsOf(f)| ==>
              |VariantsOf(r)| == |VariantsOf(f)| - 1
              && VariantsOf(r)[..index] == VariantsOf(f)[..index]
              && VariantsOf(r)[index..] == VariantsOf(f)[index + 1..]
    ensures !(0 <= index < |VariantsOf(f)|) ==> r == f
    ensures forall k :: k != VariantsKey && k in f.values ==> r.values[k] == f.values[k]
  {
    var value := VariantList(Without(VariantsOf(f), index));
    AssignSpreads(f, VariantsKey, value);
    if !(0 <= index < |VariantsOf(f)|) then
      AssignSameValue(f, VariantsKey);
      Assign(f, VariantsKey, value)
    else
      var r := Assign(f, VariantsKey, value);
      assert VariantsOf(r) == VariantsOf(f)[..index] + VariantsOf(f)[index + 1..];
      r
  }

  /** `variant[field] = value`: the one path set to the typed text. */
  function WithField(v: FormVariant, field: VariantField, value: string): FormVariant {
    match field
    case Color => v.(color := Str(value))
    case Size => v.(size := Str(value))
    case Stock => v.(stock := Str(value))
    case Price => v.(price := Str(value))
  }

  /** The copy-and-write of `handleVariantChange`: `[...form.variants]`,
      then `updated[index][field] = value`. */
  method ChangeVariant(vs: seq<FormVariant>, index: nat, field: VariantField, value: string)
    returns (updated: seq<FormVariant>)
    requires index < |vs|
    ensures |updated| == |vs|
    ensures updated[index] == WithField(vs[index], field, value)
    ensures forall j :: 0 <= j < |vs| && j != index ==> updated[j] == vs[j]
  {
    var copy := new FormVariant[|vs|];
    var i := 0;
    while i < |vs|
      invariant 0 <= i <= |vs|
      invariant forall j :: 0 <= j < i ==> copy[j] == vs[j]
    {
      copy[i] := vs[i];
      i := i + 1;
    }
    copy[index] := WithField(copy[index], field, value);
    updated := copy[..];
  }

  /** `handleVariantChange(index, field, value)` on a form: only that path
      of that variant changes, and the list keeps its length. */
  method HandleVariantChange(f: Form, index: nat, field: VariantField, value: string)
    returns (r: Form)
    requires WellFormed(f) && index < |VariantsOf(f)|
    ensures WellFormed(r) && r.keys == f.keys && r.values.Keys == f.values.Keys
    ensures |VariantsOf(r)| == |VariantsOf(f)|
    ensures VariantsOf(r)[index] == WithField(VariantsOf(f)[index], field, value)
    ensures forall j :: 0 <= j < |VariantsOf(f)| && j != index ==> VariantsOf(r)[j] == VariantsOf(f)[j]
    ensures forall k :: k != VariantsKey && k in f.values ==> r.values[k] == f.values[k]
  {
    var updated := ChangeVariant(VariantsOf(f), index, field, value);
    AssignSpreads(f, VariantsKey, VariantList(updated));
    r := Assign(f, VariantsKey, VariantList(updated));
  }

  // ---------------------------------------------------------------------
  // The multipart body of a submit
  // ---------------------------------------------------------------------

  /** A value appended to the `FormData`: text, a file, or the JSON text of
      a variant list (the encoding itself is not modelled; the part carries
      the list it encodes). */
  datatype PartValue = StringValue(text: string) | FileValue(name: string) | JsonValue(variants: seq<FormVariant>)

  datatype Part = Part(key: string, value: PartValue)

  /** `String(value)` for a property that is neither list. */
  function Render(v: FormValue): string
    requires !v.VariantList? && !v.Files?
  {
    match v
    case Text(t) => t
    case Flag(b) => if b then "true" else "false"
    case Other(r) => r
  }

  /** `formData.append("images", file)`: a picked file is sent as a file; an
      image entry of an edited product is not a `Blob` and is sent as the
      text `String` makes of an object. */
  function AttachmentPart(a: Attachment): (p: Part)
    ensures p.key == ImagesKey
    ensures a.LocalFile? <==> p.value.FileValue?
  {
    match a
    case LocalFile(name) => Part(ImagesKey, FileValue(name))
    case StoredImage(_) => Part(ImagesKey, StringValue("[object Object]"))
  }

  /** What one property of a shaped form contributes to the body. */
  function FieldParts(key: string, v: FormValue): (parts: seq<Part>)
    requires Shaped(key, v)
    ensures forall i :: 0 <= i < |parts| ==> parts[i].key == key
  {
    if key == VariantsKey then [Part(VariantsKey, JsonValue(v.variants))]
    else if key == ImagesKey then
      seq(|v.files|, i requires 0 <= i < |v.files| => AttachmentPart(v.files[i]))
    else [Part(key, StringValue(Render(v)))]
  }

  /** Every key has a shaped value. */
  predicate KeysShaped(keys: seq<string>, values: map<string, FormValue>) {
    forall i :: 0 <= i < |keys| ==> keys[i] in values && Shaped(keys[i], values[keys[i]])
  }

  /** The body `Object.keys(form).forEach(...)` builds, key by key. */
  function Parts(keys: seq<string>, values: map<string, FormValue>): seq<Part>
    requires KeysShaped(keys, values)
  {
    if keys == [] then []
    else
      var last := keys[|keys| - 1];
      Parts(keys[..|keys| - 1], values) + FieldParts(last, values[last])
  }

  /** The body of a submit of form `f`. */
  function Body(f: Form): seq<Part>
    requires WellFormed(f)
  {
    assert KeysShaped(f.keys, f.values) by {
      forall i | 0 <= i < |f.keys| ensures f.keys[i] in f.values {
        assert f.keys[i] in f.keys;
      }
    }
    Parts(f.keys, f.values)
  }

  /** The loop of `handleSubmit` that builds the `FormData`. */
  method Serialize(f: Form) returns (parts: seq<Part>)
    requires WellFormed(f)
    ensures parts == Body(f)
  {
    assert KeysShaped(f.keys, f.values) by {
      forall i | 0 <= i < |f.keys| ensures f.keys[i] in f.values {
        assert f.keys[i] in f.keys;
      }
    }
    parts := [];
    var i := 0;
    while i < |f.keys|
      invariant 0 <= i <= |f.keys|
      invariant parts == Parts(f.keys[..i], f.values)
    {
      var key := f.keys[i];
      var v := f.values[key];
      if key == VariantsKey {
        parts := parts + [Part(VariantsKey, JsonValue(v.variants))];
      } else if key == ImagesKey {
        parts := AppendFiles(parts, v.files);
      } else {
        parts := parts + [Part(key, StringValue(Render(v)))];
      }
      assert f.keys[..i + 1][..i] == f.keys[..i];
      i := i + 1;
    }
    assert f.keys[..i] == f.keys;
  }

  /** `form.images.forEach(file => formData.append("images", file))`. */
  method AppendFiles(parts: seq<Part>, files: seq<Attachment>) returns (out: seq<Part>)
    ensures out == parts + FieldParts(ImagesKey, Files(files))
  {
    out := parts;
    var j := 0;
    while j < |files|
      invariant 0 <= j <= |files|
      invariant out == parts + FieldParts(ImagesKey, Files(files))[..j]
    {
      out := out + [AttachmentPart(files[j])];
      j := j + 1;
      assert FieldParts(ImagesKey, Files(files))[..j]
          == FieldParts(ImagesKey, Files(files))[..j - 1] + [FieldParts(ImagesKey, Files(files))[j - 1]];
    }
    assert FieldParts(ImagesKey, Files(files))[..j] == FieldParts(ImagesKey, Files(files));
  }

  /** The parts sent under one key, in order. */
  function PartsUnder(parts: seq<Part>, key: string): seq<Part> {
    if parts == [] then []
    else PartsUnder(parts[..|parts| - 1], key)
         + (if parts[|parts| - 1].key == key then [parts[|parts| - 1]] else [])
  }

  /** Picking out one key's parts distributes over concatenation. */
  lemma {:induction false} PartsUnderAppend(a: seq<Part>, b: seq<Part>, key: string)
    ensures PartsUnder(a + b, key) == PartsUnder(a, key) + PartsUnder(b, key)
    decreases |b|
  {
    if b == [] {
      assert a + b == a;
    } else {
      assert (a + b)[..|a + b| - 1] == a + b[..|b| - 1];
      PartsUnderAppend(a, b[..|b| - 1], key);
    }
  }

  /** Parts all under the key are kept whole. */
  lemma {:induction false} PartsUnderSameKey(parts: seq<Part>, key: string)
    requires forall i :: 0 <= i < |parts| ==> parts[i].key == key
    ensures PartsUnder(parts, key) == parts
  {
    if parts != [] {
      PartsUnderSameKey(parts[..|parts| - 1], key);
    }
  }

  /** Parts under other keys contribute nothing. */
  lemma {:induction false} PartsUnderOtherKey(parts: seq<Part>, key: string)
    requires forall i :: 0 <= i < |parts| ==> parts[i].key != key
    ensures PartsUnder(parts, key) == []
  {
    if parts != [] {
      PartsUnderOtherKey(parts[..|parts| - 1], key);
    }
  }

  /** Under each key the body holds exactly that key's contribution, and
      nothing under a key the form lacks. */
  lemma {:induction false} PartsUnderKey(keys: seq<string>, values: map<string, FormValue>, key: string)
    requires DistinctKeys(keys) && KeysShaped(keys, values)
    ensures key !in keys ==> PartsUnder(Parts(keys, values), key) == []
    ensures key in keys ==> PartsUnder(Parts(keys, values), key) == FieldParts(key, values[key])
  {
    if keys != [] {
      var init, last := keys[..|keys| - 1], keys[|keys| - 1];
      assert keys == init + [last];
      assert last !in init;
      PartsUnderKey(init, values, key);
      PartsUnderAppend(Parts(init, values), FieldParts(last, values[last]), key);
      if last == key {
        PartsUnderSameKey(FieldParts(last, values[last]), key);
      } else {
        PartsUnderOtherKey(FieldParts(last, values[last]), key);
      }
    }
  }

  /** The body sends the variants once, as the whole list. */
  lemma VariantsSentOnce(f: Form)
    requires WellFormed(f)
    ensures PartsUnder(Body(f), VariantsKey) == [Part(VariantsKey, JsonValue(VariantsOf(f)))]
  {
    PartsUnderKey(f.keys, f.values, VariantsKey);
  }

  /** The body sends one `images` part per entry of `images`, in order. */
  lemma ImagesSentInOrder(f: Form)
    requires WellFormed(f)
    ensures f.values[ImagesKey].Files?
    ensures var files := f.values[ImagesKey].files;
            && |PartsUnder(Body(f), ImagesKey)| == |files|
            && forall i :: 0 <= i < |files| ==> PartsUnder(Body(f), ImagesKey)[i] == AttachmentPart(files[i])
  {
    assert Shaped(ImagesKey, f.values[ImagesKey]);
    PartsUnderKey(f.keys, f.values, ImagesKey);
  }

  /** Every other property is sent exactly once, as its `String` text. */
  lemma OtherKeysSentOnce(f: Form, key: string)
    requires WellFormed(f) && key != VariantsKey && key != ImagesKey && key in f.values
    ensures !f.values[key].VariantList? && !f.values[key].Files?
    ensures PartsUnder(Body(f), key) == [Part(key, StringValue(Render(f.values[key])))]
  {
    assert Shaped(key, f.values[key]);
    PartsUnderKey(f.keys, f.values, key);
  }

  /** A key the form lacks sends nothing. */
  lemma AbsentKeysNotSent(f: Form, key: string)
    requires WellFormed(f) && key !in f.values
    ensures PartsUnder(Body(f), key) == []
  {
    PartsUnderKey(f.keys, f.values, key);
  }

  /** The checkbox's text reads back as the same flag on the server, both
      where the update handler compares it and where the create handler
      casts it. */
  lemma FlagTextReadsBack(b: bool)
    ensures ProductController.Featured(ProductController.FlagText(Render(Flag(b)))) == b
    ensures ProductController.CastBoolean(ProductController.FlagText(Render(Flag(b)))) == Some(b)
  {
  }

  // ---------------------------------------------------------------------
  // The component state around a submit
  // ---------------------------------------------------------------------

  class FormComponent {
    var form: Form
    var isSubmitting: bool
    /** The `editingProduct` prop, as form properties. */
    var editingProduct: Option<Form>

    ghost predicate Valid()
      reads this
    {
      && WellFormed(form)
      && (editingProduct.Some? ==> WellFormed(editingProduct.value))
    }

    /** The first render: the initial form, not submitting. */
    constructor ()
      ensures Valid()
      ensures form == InitialForm() && !isSubmitting && editingProduct == None
    {
      form := InitialForm();
      isSubmitting := false;
      editingProduct := None;
    }

    /** A new `editingProduct` prop and the effect it triggers: a product
        replaces the form, and a cleared prop leaves the form as it is. */
    method ReceiveEditing(product: Option<Form>)
      requires Valid()
      requires product.Some? ==> WellFormed(product.value)
      modifies this`form, this`editingProduct
      ensures Valid() && editingProduct == product
      ensures product.Some? ==> form == product.value
      ensures product.None? ==> form == old(form)
    {
      editingProduct := product;
      if product.Some? {
        form := product.value;
      }
    }

    /** The start of `handleSubmit`: `isSubmitting` is set and the body is
        built from the current form. */
    method BeginSubmit() returns (body: seq<Part>)
      requires Valid()
      modifies this`isSubmitting
      ensures Valid() && isSubmitting
      ensures body == Body(form)
    {
      isSubmitting := true;
      body := Serialize(form);
    }

    /** The end of `handleSubmit`, once `onSubmit` has settled (`resolved`
        says whether its promise resolved): in create mode a resolved submit
        resets the form; an edit, or a rejected submit, keeps it; either
        way `isSubmitting` is cleared. */
    method FinishSubmit(resolved: bool)
      requires Valid()
      modifies this`form, this`isSubmitting
      ensures Valid() && !isSubmitting
      ensures resolved && editingProduct.None? ==> form == InitialForm()
      ensures !(resolved && editingProduct.None?) ==> form == old(form)
    {
      if resolved && editingProduct.None? {
        form := InitialForm();
      }
      isSubmitting := false;
    }
  }
}
