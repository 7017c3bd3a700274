# Product catalogue: a Dafny model

This project models the core of a small product catalogue. The REST server
stores products in MongoDB and their images in Cloudinary. The React client
lists, creates, edits and deletes products through a Redux slice.

The model covers:

- **The product schema** (`ProductSchema`): the stored document, the `trim`
  setter on `name`, the defaults (`discountPrice`, `stock`, `isFeatured`, each
  variant's `stock`) and the validators that `save` runs.
- **The server controller** (`ProductController`): the five handlers over a
  `Store` class. The class holds the products collection, the next id, the
  set of public ids live in Cloudinary and the log of `destroy` calls.
  - Create binds uploaded files to image entries and stores a validated
    document.
  - List returns every product, in id order.
  - Fetch returns one product or 404.
  - Update first destroys the old images when new files arrive, then applies
    the truthy scalar fields, the variants, `isFeatured` and an optional
    rating, then revalidates.
  - Delete destroys every image in order and removes the record.
- **The client slice** (`ProductsSlice`): the `items`, `loading`, `error` and
  `editing` state, as a `ProductsState` class whose reducers update only the
  fields they touch. It also covers the payloads the create and update thunks
  deliver.
- **The product form** (`ProductForm`): the form object as its keys in
  `Object.keys` order plus a value map, the input handlers, and the multipart
  body a submit builds. A `FormComponent` class holds the `isSubmitting` flag
  and the reset-after-create rule.
- **The product card** (`ProductCard`): the discount, the price line, the
  stock badge, the star row, the variant summary and the image fallback.

Parameters stand in for what the handlers cannot decide themselves:

- Whether a Cloudinary `destroy` throws is a `failing` set of public ids.
- Creation time is a `now` argument.
- The outcome of `JSON.parse` on a variants field is carried by the request
  value (`VariantsInput.parsed`).
- Mongoose's cast of a non-empty number field is carried as `Numeral.value`,
  beside the text that decides truthiness. The empty text casts to null
  (`ProductController.CastNumeral`).
- Whether the parent's `onSubmit` promise resolved is a `resolved` argument.

Numbers are `real`. `ratings.count` is a `nat`, since it only starts at 0
and goes up by one.

Some behaviours of the code are easy to miss. The model states them as the
code has them:

- A validator failure on `save` is caught and answered with a 500 carrying
  the error message. It is not a 400, and it is not reported per field.
- The number cast turns the empty text of a blank form field into null, and
  a default applies only to an undefined path. On create, an absent `stock`
  therefore defaults to 0, but a blank one is null and `required` rejects it
  with a 500. A blank `price` is rejected the same way. A blank
  `discountPrice` is stored as null, and the card shows no discount for it.
- `stock` has no `min`, so a negative stock is stored.
- `maxlength: 100` on `name` counts UTF-16 code units, so a character outside
  the Basic Multilingual Plane counts twice.
- The update handler destroys the old images before it checks the variants
  and the rating. A 400, or a `save` that fails, therefore leaves the stored
  product pointing at destroyed images. Uploading happens in middleware
  before the handler runs, and the handler makes no compensating release.
- The delete handler stops at the first `destroy` that throws and answers
  500. The record is then kept.
- The low-stock badge tests `0 < stock <= 10` on a number. For a
  whole-number stock that is `1..10` (`ProductCard.LowStockOfCount`), but a
  fractional stock such as 0.5 is low too.

## Model

| member | source | states |
|---|---|---|
| `ProductSchema.TrimStart` | server/models/product.js:21 | the result is a suffix of the input, everything dropped is white space, and it does not start with white space |
| `ProductSchema.TrimEnd` | server/models/product.js:21 | the result is a prefix of the input, everything dropped is white space, and it does not end with white space |
| `ProductSchema.Trim` | server/models/product.js:21 | the trimmed name neither starts nor ends with white space, is no longer than the input, and an already trimmed name passes through unchanged |
| `ProductSchema.TrimKeepsMiddle` | server/models/product.js:21 | the trimmed name is the input's middle, `s[a..a + n]`, with only white space before offset `a` and after it |
| `ProductSchema.Utf16Length` | server/models/product.js:22 | the length `maxlength` measures is between the number of characters and twice it, and equals it when every character is in the Basic Multilingual Plane |
| `ProductSchema.ValidImage` | server/models/product.js:6-15 | an image entry needs a non-empty public id and a non-empty URL |
| `ProductSchema.ValidName` | server/models/product.js:18-23 | a name is non-empty and at most 100 UTF-16 code units long |
| `ProductSchema.NameLengthInCodeUnits` | server/models/product.js:22 | a name in Basic Multilingual Plane characters is accepted exactly when it has 1 to 100 of them; 51 characters from above that plane are already too long |
| `ProductSchema.AstralLength` | server/models/product.js:22 | every character above the Basic Multilingual Plane counts as two code units |
| `ProductSchema.ValidImages` | server/models/product.js:50 | every image entry of the list is valid |
| `ProductSchema.Valid` | server/models/product.js:17-57 | a stored product passes every validator: a valid name, non-empty description and category, a price of at least 0, valid images and an average in [0, 5]; its name is also a fixed point of `trim`, an invariant of the setter rather than a validator |
| `ProductSchema.VariantWithDefaults` | server/models/product.js:63-70 | a variant keeps its color, size and price; an undefined stock becomes 0 and a given one is kept |
| `ProductSchema.VariantsWithDefaults` | server/models/product.js:63-70 | the stock default is applied to every variant, in order, and none is added or dropped |
| `ProductSchema.WithDefaults` | server/models/product.js:33-74 | `discountPrice`, `stock`, `isFeatured` and each variant's `stock` end up set (0, 0, false, 0 when undefined); supplied values, null included, and all other paths are kept |
| `ProductSchema.WithDefaultsIdempotent` | server/models/product.js:33-74 | applying the defaults twice gives the same document as applying them once |
| `ProductSchema.Fails` | server/models/product.js:17-50 | the validators of one path reject the document |
| `ProductSchema.Violations` | server/models/product.js:6-50 | each path is reported exactly when its validator fails: name missing, empty or over 100 UTF-16 code units once trimmed; description or category missing or empty; price undefined, null or negative; stock null; an image lacking a public id or URL |
| `ProductSchema.Validate` | server/models/product.js:17-79 | `save` succeeds exactly when no path is violated; the stored product is valid, has the trimmed name, ratings `{0, 0}` and `createdAt = now`, carries the defaulted values, and a null discount price stays null |
| `ProductSchema.NegativePriceRejected` | server/models/product.js:28-32 | a document with a negative price is never stored |
| `ProductController.Featured` | server/controllers/product.js:110-112 | the update handler's `isFeatured` is true exactly for the boolean `true` and the text "true" |
| `ProductController.CastBoolean` | server/controllers/product.js:26 | Mongoose's Boolean cast gives true exactly for true, "true", "1" and "yes", false exactly for false, "false", "0" and "no", and a cast error otherwise |
| `ProductController.Truthy` | server/controllers/product.js:94-100 | a text field is truthy exactly when it is present and non-empty |
| `ProductController.TruthyNumeral` | server/controllers/product.js:96-98 | a number field is truthy exactly when its text is present and non-empty |
| `ProductController.TruthyVariants` | server/controllers/product.js:102 | the variants field is truthy exactly when its text is present and non-empty |
| `ProductController.Or` | server/controllers/product.js:11-12 | `a || b` on strings is one of the two, the first when it is non-empty, and empty only when both are |
| `ProductController.CreateBinding` | server/controllers/product.js:11-14 | the public id is `filename`, else `public_id`; the URL is `path`, else `secure_url`; the entry is valid exactly when each has a non-empty source |
| `ProductController.UpdateBinding` | server/controllers/product.js:87-90 | the same public id as on creation, the URL taken from `path` alone; valid exactly when there is an id source and a `path` |
| `ProductController.CreateBindings` | server/controllers/product.js:9-15 | the create handler makes one image entry per uploaded file, in upload order |
| `ProductController.UpdateBindings` | server/controllers/product.js:87-91 | the update handler makes one image entry per uploaded file, in upload order |
| `ProductController.PublicIds` | server/controllers/product.js:141-143 | the delete handler destroys the public id of every image, in order |
| `ProductController.NamedIds` | server/controllers/product.js:82-86 | the update handler destroys only non-empty public ids, each of them the id of one of the images, and skips none of the entries that have one |
| `ProductController.NamedIdsAppend` | server/controllers/product.js:82-86 | the loop works image by image: the ids of joined lists are the ids of the first followed by those of the second, so each truthy id is destroyed once per image, in image order |
| `ProductController.NamedIdsOfOne` | server/controllers/product.js:83-85 | a single image contributes its public id exactly when the id is truthy |
| `ProductController.NamedIdsOfValid` | server/controllers/product.js:82-86 | for stored (valid) images, the update handler destroys exactly what the delete handler destroys |
| `ProductController.FirstFailure` | server/controllers/product.js:141-143 | the position of the first `destroy` that throws: every call before it succeeds |
| `ProductController.AllReleased` | server/controllers/product.js:141-143 | no `destroy` in the sequence throws |
| `ProductController.Attempted` | server/controllers/product.js:141-143 | the calls a sequential `destroy` loop makes are a prefix of the ids; every call but the last succeeds; they are all of them with no throw, and a throw is always the last call |
| `ProductController.Released` | server/controllers/product.js:141-143 | the loop removes from Cloudinary exactly the attempted ids whose `destroy` does not throw: only ids it was given, and all of them when none throws |
| `ProductController.ApplyScalars` | server/controllers/product.js:94-100 | each scalar path is overwritten exactly when its input is truthy (a name through `trim`), and every other path is kept |
| `ProductController.RateOnce` | server/controllers/product.js:114-122 | the rating is rejected with "Rating must be between 1 and 5" exactly when it is outside [1, 5]; otherwise the count grows by exactly one |
| `ProductController.RateKeepsTotal` | server/controllers/product.js:119-121 | the new average times the new count equals the old average times the old count plus the score |
| `ProductController.RatingStaysInRange` | server/controllers/product.js:114-122 | an average in [0, 5] stays in [0, 5] after an accepted score, so the `max: 5` validator never rejects a rating |
| `ProductController.OldBindings` | server/controllers/product.js:81-86 | old images are destroyed only when new files were uploaded |
| `ProductController.UpdateReleasesWhatDeleteReleases` | server/controllers/product.js:81-86 | for a stored product, an update with files destroys the same ids, in the same order, as a delete |
| `ProductController.Amend` | server/controllers/product.js:94-122 | the 400s come exactly from a variants parse failure or an out-of-range rating, with that message; otherwise the scalars follow `ApplyScalars`, variants are replaced wholesale, `isFeatured` is set when present, the rating folds in, and images and `createdAt` are untouched |
| `ProductController.Patch` | server/controllers/product.js:81-122 | the images are replaced as a whole exactly when files were uploaded; the 400 cases, scalars, variants, `isFeatured` and rating are as in `Amend` |
| `ProductController.SaveReply` | server/controllers/product.js:124-129 | a valid patched document is saved and answered with the id and that document; an invalid one is a 500; a 400 exactly when the patch failed, carrying its message |
| `ProductController.UpdateReply` | server/controllers/product.js:76-129 | a thrown `destroy` is a 500; otherwise a failed patch is the 400 with its message, a valid patched document is saved and answered with it, and an invalid one is a 500 |
| `ProductController.OutOfRangeRatingRejected` | server/controllers/product.js:114-118 | an out-of-range rating is a 400 with the range message whatever the other fields are, unless the variants fail to parse or a `destroy` throws first |
| `ProductController.EmptyUpdateKeepsProduct` | server/controllers/product.js:94-125 | an update with no truthy field, no flag and no files saves the product unchanged |
| `ProductController.PatchKeepsAverageInRange` | server/controllers/product.js:114-124 | every patch that succeeds keeps the stored average within the schema's [0, 5] |
| `ProductController.CastNumeral` | server/controllers/product.js:17-28 | a number field left out stays undefined, blank text becomes null, and any other text becomes its number |
| `ProductController.CreateDocument` | server/controllers/product.js:17-28 | `new Product` receives each body field as sent (number fields cast), the images bound from the files, the parsed variants and the cast flag |
| `ProductController.FieldsAccepted` | server/models/product.js:17-50 | the body passes the validators: a name of 1 to 100 code units once trimmed, non-empty description and category, a non-blank price of at least 0, no blank stock, and a public id and URL for every image |
| `ProductController.CreateAccepted` | server/controllers/product.js:17-31 | creation succeeds when the variants parse, `isFeatured` casts and the fields are accepted |
| `ProductController.CreateDocumentPasses` | server/controllers/product.js:17-30 | the validators find nothing wrong with the defaulted document exactly when the fields are accepted |
| `ProductController.NewProduct` | server/controllers/product.js:5-35 | a product is stored exactly when the variants parse, `isFeatured` casts and every validator passes; it is valid, bound to the uploaded files, carries the trimmed name and the body's description, category, brand and price, the parsed variants or `[]`, ratings `{0, 0}`, `createdAt = now`, the cast flag, and the given or defaulted discount price (null when blank) and stock |
| `ProductController.StoringKeepsValid` | server/controllers/product.js:124-125 | saving a valid product under an existing id keeps every stored product valid |
| `ProductController.IssuingKeepsValid` | server/controllers/product.js:30-31 | saving a valid product under a fresh id keeps every stored product valid and every id below the next one |
| `ProductController.ListInIdOrder` | server/controllers/product.js:42 | the listing holds every stored product under its id, each exactly once, in ascending id order |
| `ProductController.AssignScalars` | server/controllers/product.js:94-100 | the seven `if (x) product.x = x` steps compute `ApplyScalars` |
| `ProductController.RateProduct` | server/controllers/product.js:114-122 | the range check and the `totalRating` / `count += 1` / division steps compute `RateOnce` |
| `ProductController.AmendFields` | server/controllers/product.js:94-122 | the handler's assignments with their early 400 returns compute `Amend` |
| `ProductController.Save` | server/controllers/product.js:87-125 | replacing the images, amending and validating gives `SaveReply` of `Patch` |
| `ProductController.Store.constructor` | server/controllers/product.js:1-2 | the store starts with no products, the first id to issue, the given live public ids and no `destroy` call, and is valid |
| `ProductController.Store.DestroyAll` | server/controllers/product.js:141-143 | a sequential `destroy` loop logs exactly the `Attempted` calls, removes exactly the `Released` ids, and reports success exactly when no call throws |
| `ProductController.Store.Create` | server/controllers/product.js:5-35 | a valid new product is stored under a fresh id and the next id moves on; otherwise a 500 changes nothing; the store stays valid |
| `ProductController.Store.GetAll` | server/controllers/product.js:40-47 | the reply lists every stored product exactly once, in id order |
| `ProductController.Store.GetById` | server/controllers/product.js:50-58 | a stored id gives that product and an unknown id gives 404 |
| `ProductController.Store.Update` | server/controllers/product.js:61-131 | an unknown id changes nothing; otherwise the old images are destroyed as `Attempted`/`Released` say, the reply is `UpdateReply`, and the stored product changes only on a saved reply; the store stays valid |
| `ProductController.Store.Commit` | server/controllers/product.js:124-125 | a saved reply's document replaces the stored one and any other reply leaves the collection as it was; the store stays valid |
| `ProductController.Store.ReleaseOld` | server/controllers/product.js:81-86 | the update handler's destroy step performs the `DestroyAll` of `OldBindings` |
| `ProductController.Store.Delete` | server/controllers/product.js:136-150 | an unknown id changes nothing; otherwise every image is destroyed in order, and the record is removed exactly when no `destroy` throws (else 500 and kept) |
| `ProductsSlice.IdOf` | client/src/store/products/productsSlice.js:104 | only a product document has an `_id`; a response envelope's is undefined |
| `ProductsSlice.ReplaceById` | client/src/store/products/productsSlice.js:103-105 | the list keeps its length; entries with the payload's `_id` become the payload and all others are kept in place |
| `ProductsSlice.RemoveById` | client/src/store/products/productsSlice.js:111 | no kept entry has the id, every kept entry was in the list, and every entry without the id is kept |
| `ProductsSlice.RemoveDistributes` | client/src/store/products/productsSlice.js:111 | the filter distributes over concatenation, so the kept entries stay in order |
| `ProductsSlice.RemoveAbsentKeeps` | client/src/store/products/productsSlice.js:111 | deleting an id no entry has leaves the list as it was |
| `ProductsSlice.RemoveIdempotent` | client/src/store/products/productsSlice.js:110-112 | deleting the same id twice is deleting it once |
| `ProductsSlice.Hits` | client/src/store/products/productsSlice.js:111 | the number of entries carrying the id, the ones the filter drops |
| `ProductsSlice.RemoveCount` | client/src/store/products/productsSlice.js:111 | the entries kept plus the entries carrying the id make up the whole list |

| `ProductsSlice.ReplaceIdempotent` | client/src/store/products/productsSlice.js:102-106 | replacing with the same payload twice is replacing it once |
| `ProductsSlice.ResponseData` | client/src/store/products/productsSlice.js:25 | the thunk payload as written is the response body, whose `_id` is undefined |
| `ProductsSlice.ResponseProduct` | client/src/store/products/productsSlice.js:25 | the intended payload is the product document, whose `_id` is the product's id |
| `ProductsSlice.UpdateWithBodyReplacesNothing` | client/src/store/products/productsSlice.js:38 | as written, an update over fetched documents replaces nothing |
| `ProductsSlice.UpdateWithBodyOverwritesEnvelopes` | client/src/store/products/productsSlice.js:102-105 | as written, every envelope an earlier create pushed is overwritten by the next update's payload |
| `ProductsSlice.CreatedBodyIsNotDeleted` | client/src/store/products/productsSlice.js:96-98 | as written, deleting a just-created product leaves its pushed entry in the list |
| `ProductsSlice.UpdateWithProductReplacesTarget` | client/src/store/products/productsSlice.js:103-105 | with the product as payload, an update replaces exactly the entries with its id |
| `ProductsSlice.CreatedProductIsDeleted` | client/src/store/products/productsSlice.js:110-112 | with the product as payload, deleting a just-created product removes its entry |
| `ProductsSlice.ProductsState.constructor` | client/src/store/products/productsSlice.js:64-69 | the state starts with no items, not loading, no error and nothing being edited |
| `ProductsSlice.ProductsState.SetEditing` | client/src/store/products/productsSlice.js:71-73 | only `editing` changes, to the payload |
| `ProductsSlice.ProductsState.ClearEditing` | client/src/store/products/productsSlice.js:74-76 | only `editing` changes, to null |
| `ProductsSlice.ProductsState.FetchPending` | client/src/store/products/productsSlice.js:81-84 | loading is set and the error cleared; the items are kept |
| `ProductsSlice.ProductsState.FetchFulfilled` | client/src/store/products/productsSlice.js:85-88 | loading is cleared and the items become the fetched documents, in order; the error is kept |
| `ProductsSlice.ProductsState.FetchRejected` | client/src/store/products/productsSlice.js:89-92 | loading is cleared and the error becomes the message; the items are kept |
| `ProductsSlice.ProductsState.CreateFulfilled` | client/src/store/products/productsSlice.js:96-98 | the payload is appended after the existing items |
| `ProductsSlice.ProductsState.UpdateFulfilled` | client/src/store/products/productsSlice.js:102-106 | the items become `ReplaceById` of the old items |
| `ProductsSlice.ProductsState.DeleteFulfilled` | client/src/store/products/productsSlice.js:110-112 | the items become `RemoveById` of the old items |
| `ProductForm.WellFormed` | client/src/components/ProductForm.jsx:8-19 | every form state has each key once with a value, each value of its key's shape, and both the `variants` and `images` lists |
| `ProductForm.Assign` | client/src/components/ProductForm.jsx:31 | `{...form, [key]: value}`: an existing key keeps its place and takes the new value, a new key goes last |
| `ProductForm.WithField` | client/src/components/ProductForm.jsx:36 | `variant[field] = value` sets that one path to the typed text |
| `ProductForm.Render` | client/src/components/ProductForm.jsx:65 | `formData.append` sends a text as it is and a flag as "true" or "false" |
| `ProductForm.Parts` | client/src/components/ProductForm.jsx:59-67 | the parts of the body are the contributions of the keys, in key order |
| `ProductForm.Body` | client/src/components/ProductForm.jsx:56-67 | the body of a submit is the parts of the form's keys in `Object.keys` order |
| `ProductForm.AssignSpreads` | client/src/components/ProductForm.jsx:31 | a spread assignment keeps the form well formed, sets that key, keeps every other value, and keeps the key order, with a new key going last |
| `ProductForm.AssignSameValue` | client/src/components/ProductForm.jsx:48-49 | re-assigning a key its own value leaves the form unchanged |
| `ProductForm.AssignTwice` | client/src/components/ProductForm.jsx:31 | a later assignment of the same key wins |
| `ProductForm.InitialForm` | client/src/components/ProductForm.jsx:8-19 | the initial form is well formed, has the ten keys in declaration order, one default variant and no images |
| `ProductForm.HandleChange` | client/src/components/ProductForm.jsx:29-32 | the named property becomes the checkbox's `checked` or the input's text; every other property and the key order are kept (a new name goes last) |
| `ProductForm.PickFiles` | client/src/components/ProductForm.jsx:146 | `images` becomes the picked files, in order, and nothing else changes |
| `ProductForm.AddVariant` | client/src/components/ProductForm.jsx:40-45 | one default variant is appended after the existing ones, which are kept; nothing else changes |
| `ProductForm.Without` | client/src/components/ProductForm.jsx:48 | filtering by index drops exactly the entry at an index in range and keeps the rest in order; an index out of range keeps everything |
| `ProductForm.RemoveVariant` | client/src/components/ProductForm.jsx:47-50 | the variant at the index is dropped and the others keep their order; an index out of range leaves the form as it was; nothing else changes |
| `ProductForm.ChangeVariant` | client/src/components/ProductForm.jsx:35-36 | the copied list keeps its length, the one variant gets the new path value, and every other variant is unchanged |
| `ProductForm.HandleVariantChange` | client/src/components/ProductForm.jsx:34-38 | only that path of that variant changes; the list keeps its length and the form its other properties and key order |
| `ProductForm.AttachmentPart` | client/src/components/ProductForm.jsx:63 | each attachment is sent under `images`, and as a file exactly when it is a picked file |
| `ProductForm.FieldParts` | client/src/components/ProductForm.jsx:59-66 | every part one property contributes is sent under that property's key |
| `ProductForm.Serialize` | client/src/components/ProductForm.jsx:56-67 | the `forEach` over the keys builds the body `Body` describes |
| `ProductForm.AppendFiles` | client/src/components/ProductForm.jsx:63 | the inner `forEach` appends one `images` part per attachment, in order |
| `ProductForm.PartsUnderKey` | client/src/components/ProductForm.jsx:59-67 | under each key the body holds exactly that key's contribution, and nothing under a key the form lacks |
| `ProductForm.VariantsSentOnce` | client/src/components/ProductForm.jsx:60-61 | the variants are sent once, as the JSON of the whole list |
| `ProductForm.ImagesSentInOrder` | client/src/components/ProductForm.jsx:62-63 | one `images` part per attachment is sent, in order |
| `ProductForm.OtherKeysSentOnce` | client/src/components/ProductForm.jsx:64-65 | every other property is sent exactly once, as its string text |
| `ProductForm.AbsentKeysNotSent` | client/src/components/ProductForm.jsx:59-67 | a key the form lacks sends nothing |
| `ProductForm.FlagTextReadsBack` | client/src/components/ProductForm.jsx:65 | the checkbox's text reads back as the same flag on the server, both in the update handler's comparison and in the create handler's cast |
| `ProductForm.FormComponent.constructor` | client/src/components/ProductForm.jsx:8-21 | the component starts with the initial form, not submitting and editing nothing |
| `ProductForm.FormComponent.ReceiveEditing` | client/src/components/ProductForm.jsx:23-27 | a product being edited replaces the form; a cleared prop leaves the form as it is |
| `ProductForm.FormComponent.BeginSubmit` | client/src/components/ProductForm.jsx:52-67 | `isSubmitting` is set and the body is the serialisation of the current form |
| `ProductForm.FormComponent.FinishSubmit` | client/src/components/ProductForm.jsx:69-87 | a resolved submit in create mode resets the form to its initial state; an edit or a rejected submit keeps it; `isSubmitting` is cleared either way |
| `ProductCard.DiscountActive` | client/src/components/ProductCard.jsx:7 | the discount shows exactly when a discount price is set, positive and below the price |
| `ProductCard.ShownPrice` | client/src/components/ProductCard.jsx:170 | the bold price never exceeds the price, is either the price or the set discount price, and is strictly below the price exactly when the discount is active |
| `ProductCard.StruckPrice` | client/src/components/ProductCard.jsx:172-174 | the struck-through price appears exactly when the discount is active, and then it is the price, above the bold one |
| `ProductCard.DefaultDiscountShowsPrice` | client/src/components/ProductCard.jsx:7 | the default discount price of 0, and a null one, show the plain price and no struck price |
| `ProductCard.Badge` | client/src/components/ProductCard.jsx:8-9 | exactly one badge applies: out of stock at or below 0, low in (0, 10], in stock above 10; the low and in-stock badges print the stock |
| `ProductCard.LowStockOfCount` | client/src/components/ProductCard.jsx:185-215 | for a whole-number stock the low badge covers exactly 1 to 10 and the out-of-stock badge exactly 0 and below |
| `ProductCard.Stars` | client/src/components/ProductCard.jsx:227 | the row has five stars |
| `ProductCard.StarsPrefix` | client/src/components/ProductCard.jsx:227-233 | star `i` is filled exactly when `i < average`, and the filled stars form a prefix of the row |
| `ProductCard.Filled` | client/src/components/ProductCard.jsx:227-233 | the number of filled stars of a row |
| `ProductCard.FilledOfPrefix` | client/src/components/ProductCard.jsx:227-233 | a row whose filled stars are exactly its first k has k filled |
| `ProductCard.StarsFilledCount` | client/src/components/ProductCard.jsx:231 | an average in (k-1, k] fills exactly k stars (none at or below 0, all five above 4) |
| `ProductCard.Summarize` | client/src/components/ProductCard.jsx:239-261 | the block is shown exactly when there are variants; at most three chips, the first ones, are shown; "+N more" appears exactly when there are more than three; chips plus N account for every variant |
| `ProductCard.SummaryAccountsForAll` | client/src/components/ProductCard.jsx:248-259 | up to three variants are all chips with no "+N more"; beyond three, the first three are chips and N is the rest |
| `ProductCard.ChipText` | client/src/components/ProductCard.jsx:254 | a chip reads the color, a space, then `- size` only when the size is a non-empty string |
| `ProductCard.ImageSource` | client/src/components/ProductCard.jsx:61 | the image source is never empty: the first image's URL when it has one, the placeholder otherwise |
| `ProductCard.StoredImageShown` | client/src/components/ProductCard.jsx:61 | a stored product with images always shows its first image |

## Left out

- JSON: `JSON.parse` of the variants and `JSON.stringify` of the form's variant list are not modelled. A request carries the parse outcome, and a body part carries the list it encodes.
- Mongoose's cast of number text and of a JSON variant list into schema types: a non-empty number field carries its cast value as given, and text that is not a number (a cast error) is not modelled. The cast of blank text to null (`ProductController.CastNumeral`) and of the Boolean `isFeatured` on create (`ProductController.CastBoolean`) are modelled.
- ProductSchema.VariantWithDefaults: a variant's `stock` or `price` given as blank text in the JSON list casts to null and is stored as null; the model's `VariantDraft` has no null, so such a stock is treated as undefined and becomes the default 0, and such a price as absent.
- Floating point: numbers are exact reals. The percent-off label (`Math.round` at client/src/components/ProductCard.jsx:123) and the `NaN` that `Number(rating)` gives for non-numeric text are left out. A rating is taken to be numeric.
- JSON request bodies (accepted through `express.json()` at server/index.js:23) are modelled only for a boolean `isFeatured` (`FlagInput.FlagBool`). Their native numbers and arrays are not: a JSON `price: 0` is falsy in `if (price)`, but `Numeral` decides truthiness from text alone, and the update handler's branch that takes `variants` already parsed is not modelled. The form sends multipart bodies, where every field arrives as text.
- Concurrency: each handler runs to completion on its own. Interleaved requests and two clients racing on one product are not modelled.
- The upload middleware (multer and Cloudinary storage) is not modelled. Its output is the handler's `files` argument.
- Cloudinary `destroy` is modelled only by its effect on the set of live ids and by whether it throws. Network behaviour, logs and the `console.error` calls are left out.
- Uploads are not tracked in `media`: the upload middleware's public ids never enter the set, so the model cannot state that a create or update answered with 400 or 500 (server/controllers/product.js:30-33, :104-107, :116-118, :124-129) leaves the uploaded files orphaned in Cloudinary.
- Time: `createdAt` is the `now` argument given to `Create`. The date type is not modelled.
- MongoDB ids are issued from a counter. The real ObjectId format, and its ordering (which need not follow creation order), are not modelled. An `:id` that is not a well-formed ObjectId makes `findById` throw a CastError, which the fetch, update and delete handlers answer with a 500, not a 404; `ProductId = nat` cannot express such an id, so that path is not modelled.
- Client networking: axios, the toasts and the `useProducts` hook are left out. The hook always resolves `onSubmit`, even when the server rejects, because the thunks catch the error. A create therefore resets the form even after a failed request. `FormComponent.FinishSubmit` takes that outcome as `resolved`. The refetch after every mutation (client/src/hooks/useProducts.js:20-33) is left out as well; it replaces the items and so hides the finding below on screen.
- Turning a product being edited into form properties (what the page hands to `editingProduct`) is not modelled. Any well-formed form is accepted.
- JavaScript's ordering of `Object.keys` puts integer-like keys first. The model keeps insertion order, which is the same for every key the form uses.
- `handleVariantChange` aliasing: the spread copies the list but not the variant objects, so the write also mutates the variant in the previous state object. The model treats the previous state as a value. The new form is modelled exactly; the mutation of the old one is not.
- Presentation: JSX markup, animations, the ui components, `ProductList.jsx` and `ProductPage.jsx` are left out. They hold no stateable logic.
- `ProductCard.Stars`: the row is shown only when `product.ratings` is truthy. Stored products always have ratings, so the model always shows it.

## Findings

| source | as written | input that shows it | evidently intended | confidence | as-written member | corrected member |
|---|---|---|---|---|---|---|
| client/src/store/products/productsSlice.js:38 | `updateProductThunk` returns `res.data`, the body `{success, product}`, and the reducer matches `p._id === action.payload._id` | items fetched as product documents; updating one of them returns `{success: true, product: {_id: X, ...}}`; the payload's `_id` is undefined, so no entry is replaced and the edited product shows stale data until a refetch | return `res.data.product`, so the entry with id X is replaced | not executed | `ProductsSlice.UpdateWithBodyReplacesNothing` | `ProductsSlice.UpdateWithProductReplacesTarget` |
| client/src/store/products/productsSlice.js:25 | `createProductThunk` returns `res.data`, and the reducer pushes that body into `items` | create product X, then delete X; the filter compares X with the pushed body's undefined `_id`, so the pushed entry stays | return `res.data.product`, so the pushed entry is a product that deleting removes | not executed | `ProductsSlice.CreatedBodyIsNotDeleted` | `ProductsSlice.CreatedProductIsDeleted` |

The refetch that `useProducts` dispatches after each mutation overwrites
`items` with fresh documents, which hides both effects on screen. The list
also keys cards by `p._id || index`, with an inline comment about a missing
`_id` (client/src/components/ProductList.jsx:20). That fallback fits entries
that lack an `_id`.
