/** The product handlers: creating and updating a product from a multipart
    request, and creating, replacing and deleting the caller's review. */
module ProductController {
  import opened Common
  import opened Text
  import opened Js
  import opened Joi
  import opened ProductModel
  import opened ProductValidation
  import opened Store

  /** A number the request schema accepted is cast by Mongoose to the same
      number. */
  lemma JoiNumberCasts(v: Json)
    requires JoiNumber(v).Some?
    ensures MongooseNumber(v) == JoiNumber(v)
  {
    if v.JStr? && v.s == "" {
      assert Trim(v.s) == [];
    }
  }

  // ----------------------------------------------------------- createProduct

  const ImagesMessage := "Product images are required"
  const JsonMessage := "Invalid JSON format in description or FAQs"
  const CreateFailedMessage := "Failed to create product"

  /** A field sent as text is parsed as JSON (`parse` is `JSON.parse`, None when
      it throws); any other value, or its absence, is taken as it is. The outer
      None is a parse failure. */
  function ParsedField(v: Option<Json>, parse: string -> Option<Json>): (r: Option<Option<Json>>)
    ensures (v.None? || !v.value.JStr?) ==> r == Some(v)
    ensures v.Some? && v.value.JStr? ==> (r.None? <==> parse(v.value.s).None?)
  {
    match v
    case Some(JStr(s)) => (match parse(s) case None => None case Some(j) => Some(Some(j)))
    case _ => Some(v)
  }

  /** Adds a property whose value is present; an undefined one is left out, as
      Joi and Mongoose both treat it as missing. */
  function Put(m: map<string, Json>, key: string, v: Option<Json>): map<string, Json>
  {
    if v.Some? then m[key := v.value] else m
  }

  /** The object `createProduct` validates and stores: the seven fields of the
      body, with description and FAQs parsed, and the caller as creator. Other
      properties of the body are not part of it. */
  function CreatePayload(body: map<string, Json>, description: Option<Json>, faqs: Option<Json>, creator: Id)
    : (m: map<string, Json>)
    ensures m.Keys <= ProductKeys
    ensures "createdUser" in m && m["createdUser"] == JStr(creator)
    ensures ("description" in m <==> description.Some?) && ("faqs" in m <==> faqs.Some?)
  {
    var m := Put(map[], "name", Get(body, "name"));
    var m := Put(m, "price", Get(body, "price"));
    var m := Put(m, "category", Get(body, "category"));
    var m := Put(m, "brand", Get(body, "brand"));
    var m := Put(m, "stock", Get(body, "stock"));
    var m := Put(m, "description", description);
    var m := Put(m, "faqs", faqs);
    m["createdUser" := JStr(creator)]
  }

  /** The payload holds a property of the body exactly when the body does, with
      the same value. */
  predicate Copied(m: map<string, Json>, body: map<string, Json>, key: string)
  {
    (key in m <==> key in body) && (key in m ==> m[key] == body[key])
  }

  /** The five plain fields are copied from the body as they are. */
  lemma CreatePayloadCopies(body: map<string, Json>, description: Option<Json>, faqs: Option<Json>, creator: Id)
    ensures var m := CreatePayload(body, description, faqs, creator);
      Copied(m, body, "name") && Copied(m, body, "price") && Copied(m, body, "category")
      && Copied(m, body, "brand") && Copied(m, body, "stock")
  {
  }

  /** The image entries for the uploaded files, in upload order. */
  function ImagesOf(files: seq<string>): (r: seq<Image>)
    ensures |r| == |files|
    ensures forall i :: 0 <= i < |files| ==> r[i].publicId == files[i] && r[i].url == "/uploads/products/" + files[i]
  {
    seq(|files|, i requires 0 <= i < |files| => Image("/uploads/products/" + files[i], files[i]))
  }

  /** The new document as Mongoose builds it from an accepted payload: the name
      and the description texts trimmed by their setters, numbers cast, no
      reviews and the default ratings. */
  function BuildProduct(payload: map<string, Json>, images: seq<Image>): (p: Product)
    requires CreateSchemaOk(payload)
    ensures Some(p.price) == JoiNumber(payload["price"]) && Some(p.stock) == JoiNumber(payload["stock"])
  {
    JoiNumberCasts(payload["price"]);
    JoiNumberCasts(payload["stock"]);
    StrictImpliesLenient("description", payload["description"]);
    StrictImpliesLenient("faqs", payload["faqs"]);
    Product(
      Trim(payload["name"].s),
      MongooseNumber(payload["price"]).value,
      payload["category"].s,
      payload["brand"].s,
      MongooseNumber(payload["stock"]).value,
      SectionsOf(payload["description"], true),
      FaqsOf(payload["faqs"]),
      images,
      0, 0, [],
      payload["createdUser"].s)
  }

  /** A created product has the images of the upload in order, the trimmed
      name, the caller as creator and no reviews, and it passes every validator
      of the schema. */
  lemma CreatedProduct(payload: map<string, Json>, files: seq<string>, q: Product)
    requires CreateSchemaOk(payload)
    requires Save(BuildProduct(payload, ImagesOf(files)), false) == Some(q)
    ensures ProductValid(q)
    ensures q.images == ImagesOf(files)
    ensures q.reviews == [] && q.ratings == 0 && q.numReviews == 0
    ensures q.name == Trim(payload["name"].s) && q.createdUser == payload["createdUser"].s
  {
    SaveAsIs(BuildProduct(payload, ImagesOf(files)), q);
  }

  /** A created product has the price and stock the request schema accepted. */
  lemma CreatedProductNumbers(payload: map<string, Json>, files: seq<string>, q: Product)
    requires CreateSchemaOk(payload)
    requires Save(BuildProduct(payload, ImagesOf(files)), false) == Some(q)
    ensures Some(q.price) == JoiNumber(payload["price"]) && Some(q.stock) == JoiNumber(payload["stock"])
  {
    SaveAsIs(BuildProduct(payload, ImagesOf(files)), q);
  }

  /** The request schema lets a negative price through; the document's validator
      refuses it, so the request ends in a 500 rather than a 400. */
  lemma NegativePriceFailsOnSave(payload: map<string, Json>, images: seq<Image>)
    requires CreateSchemaOk(payload) && JoiNumber(payload["price"]).Some? && JoiNumber(payload["price"]).value < 0
    ensures Save(BuildProduct(payload, images), false).None?
  {
    JoiNumberCasts(payload["price"]);
  }

  /** The reply of `createProduct` (`newProduct` is what is stored on 201). */
  function CreateReply(creator: Id, body: map<string, Json>, files: Option<seq<string>>,
                       parse: string -> Option<Json>): Response<Product>
  {
    if files.None? || files.value == [] then Fail(400, ImagesMessage)
    else
      var d := ParsedField(Get(body, "description"), parse);
      var f := ParsedField(Get(body, "faqs"), parse);
      if d.None? || f.None? then Fail(400, JsonMessage)
      else
        var payload := CreatePayload(body, d.value, f.value, creator);
        if !CreateSchemaOk(payload) then Fail(400, SchemaMessage)
        else match Save(BuildProduct(payload, ImagesOf(files.value)), false)
          case None => Fail(500, CreateFailedMessage)
          case Some(q) => Ok(201, q)
  }

  /** Every product `createProduct` stores is valid, carries the uploaded images
      in order, no reviews and ratings 0, and was created by the caller; a
      request without files is refused whatever else it holds. */
  lemma CreateReplySpec(creator: Id, body: map<string, Json>, files: Option<seq<string>>, parse: string -> Option<Json>)
    ensures files.None? || files.value == [] ==> CreateReply(creator, body, files, parse) == Fail(400, ImagesMessage)
    ensures CreateReply(creator, body, files, parse).Ok? ==>
      var q := CreateReply(creator, body, files, parse).body;
      files.Some? && ProductValid(q) && q.images == ImagesOf(files.value)
      && q.reviews == [] && q.ratings == 0 && q.numReviews == 0 && q.createdUser == creator
  {
    var r := CreateReply(creator, body, files, parse);
    if r.Ok? {
      var d := ParsedField(Get(body, "description"), parse);
      var f := ParsedField(Get(body, "faqs"), parse);
      var payload := CreatePayload(body, d.value, f.value, creator);
      CreatedProduct(payload, files.value, r.body);
    }
  }

  /** Past the file, JSON and schema checks, the reply is the save's outcome. */
  lemma CreateReplyAfterChecks(creator: Id, body: map<string, Json>, files: Option<seq<string>>,
                               parse: string -> Option<Json>, payload: map<string, Json>)
    requires files.Some? && files.value != []
    requires ParsedField(Get(body, "description"), parse).Some? && ParsedField(Get(body, "faqs"), parse).Some?
    requires payload == CreatePayload(body, ParsedField(Get(body, "description"), parse).value,
                                      ParsedField(Get(body, "faqs"), parse).value, creator)
    requires CreateSchemaOk(payload)
    ensures CreateReply(creator, body, files, parse) ==
      match Save(BuildProduct(payload, ImagesOf(files.value)), false)
      case None => Fail(500, CreateFailedMessage)
      case Some(q) => Ok(201, q)
  {
  }

  /** `createProduct`. `files` holds the stored names of the uploaded files (None
      when the request carried none), `parse` is `JSON.parse` and `newId` the
      id the database assigns. */
  method CreateProduct(db: Database, creator: Id, body: map<string, Json>, files: Option<seq<string>>,
                       parse: string -> Option<Json>, newId: Id) returns (r: Response<Product>)
    requires newId !in db.products
    modifies db
    ensures db.carts == old(db.carts) && db.orders == old(db.orders) && db.users == old(db.users)
    ensures r == CreateReply(creator, body, files, parse)
    ensures r.Fail? ==> db.products == old(db.products)
    ensures r.Ok? ==> db.products == old(db.products)[newId := r.body]
  {
    if files.None? || files.value == [] {
      return Fail(400, ImagesMessage);
    }
    var description := ParsedField(Get(body, "description"), parse);
    var faqs := ParsedField(Get(body, "faqs"), parse);
    if description.None? || faqs.None? {
      return Fail(400, JsonMessage);
    }
    var payload := CreatePayload(body, description.value, faqs.value, creator);
    if !CreateSchemaOk(payload) {
      return Fail(400, SchemaMessage);
    }
    CreateReplyAfterChecks(creator, body, files, parse, payload);
    var images := ImagesOf(files.value);
    var saved := Save(BuildProduct(payload, images), false);
    if saved.None? {
      return Fail(500, CreateFailedMessage);
    }
    db.products := db.products[newId := saved.value];
    return Ok(201, saved.value);
  }

  // ----------------------------------------------------------- updateProduct

  /** The value a body property takes in the update payload: description and
      FAQs sent as text are parsed, everything else is copied. None when the
      parse throws. */
  function FieldValue(key: string, v: Json, parse: string -> Option<Json>): (r: Option<Json>)
    ensures (key != "description" && key != "faqs") || !v.JStr? ==> r == Some(v)
  {
    if (key == "description" || key == "faqs") && v.JStr? then parse(v.s) else Some(v)
  }

  datatype Payload = Built(payload: map<string, Json>) | BadJson(key: string)

  predicate DistinctKeys(entries: seq<(string, Json)>)
  {
    forall i, j :: 0 <= i < j < |entries| ==> entries[i].0 != entries[j].0
  }

  /** The payload holds exactly the body's keys, each with its field value. */
  predicate PayloadOf(payload: map<string, Json>, entries: seq<(string, Json)>, parse: string -> Option<Json>)
  {
    payload.Keys == (set i | 0 <= i < |entries| :: entries[i].0)
    && forall i :: 0 <= i < |entries| ==> Some(payload[entries[i].0]) == FieldValue(entries[i].0, entries[i].1, parse)
  }

  /** A payload exists only when every property's value could be taken. */
  lemma PayloadOfParsed(entries: seq<(string, Json)>, parse: string -> Option<Json>)
    ensures forall payload :: PayloadOf(payload, entries, parse) ==>
      forall i :: 0 <= i < |entries| ==> FieldValue(entries[i].0, entries[i].1, parse).Some?
  {
    forall payload, i | PayloadOf(payload, entries, parse) && 0 <= i < |entries|
      ensures FieldValue(entries[i].0, entries[i].1, parse).Some?
    {
      assert Some(payload[entries[i].0]) == FieldValue(entries[i].0, entries[i].1, parse);
    }
  }

  /** The body's properties determine the payload. */
  lemma PayloadOfUnique(a: map<string, Json>, entries: seq<(string, Json)>, parse: string -> Option<Json>)
    requires PayloadOf(a, entries, parse)
    ensures forall b :: PayloadOf(b, entries, parse) ==> b == a
  {
    forall b | PayloadOf(b, entries, parse)
      ensures b == a
    {
      forall k | k in a.Keys
        ensures a[k] == b[k]
      {
        var i :| 0 <= i < |entries| && entries[i].0 == k;
        assert Some(a[k]) == Some(b[k]);
      }
    }
  }

  /** The loop of `updateProduct` over the body's properties, in their order: each
      value is copied into the payload, parsed first for description and FAQs;
      the first parse that throws ends the loop, naming its key. */
  method BuildUpdatePayload(entries: seq<(string, Json)>, parse: string -> Option<Json>) returns (r: Payload)
    requires DistinctKeys(entries)
    ensures r.Built? <==> forall i :: 0 <= i < |entries| ==> FieldValue(entries[i].0, entries[i].1, parse).Some?
    ensures r.Built? ==> PayloadOf(r.payload, entries, parse)
    ensures r.BadJson? ==>
      exists i :: 0 <= i < |entries| && entries[i].0 == r.key && FieldValue(entries[i].0, entries[i].1, parse).None?
        && forall j :: 0 <= j < i ==> FieldValue(entries[j].0, entries[j].1, parse).Some?
  {
    var payload: map<string, Json> := map[];
    var i := 0;
    while i < |entries|
      invariant 0 <= i <= |entries|
      invariant forall j :: 0 <= j < i ==> FieldValue(entries[j].0, entries[j].1, parse).Some?
      invariant payload.Keys == (set j | 0 <= j < i :: entries[j].0)
      invariant forall j :: 0 <= j < i ==> Some(payload[entries[j].0]) == FieldValue(entries[j].0, entries[j].1, parse)
    {
      var (key, value) := entries[i];
      if key == "description" || key == "faqs" {
        if value.JStr? {
          var parsed := parse(value.s);
          if parsed.None? {
            return BadJson(key);
          }
          payload := payload[key := parsed.value];
        } else {
          payload := payload[key := value];
        }
      } else {
        payload := payload[key := value];
      }
      assert (set j | 0 <= j < i + 1 :: entries[j].0) == (set j | 0 <= j < i :: entries[j].0) + {key};
      i := i + 1;
    }
    return Built(payload);
  }

  /** A present, accepted text field, or the old value. */
  function TextOr(payload: map<string, Json>, key: string, old_value: string, trim: bool): string
  {
    if key in payload && payload[key].JStr? then (if trim then Trim(payload[key].s) else payload[key].s) else old_value
  }

  /** `$set` of the accepted payload with the schema's setters and casts and no
      validators (`findByIdAndUpdate` runs none by default). Properties outside
      the product schema's eight request keys are not applied here. */
  function ApplyUpdate(p: Product, payload: map<string, Json>): (q: Product)
    requires UpdateSchemaOk(payload)
    ensures q.reviews == p.reviews && q.ratings == p.ratings && q.numReviews == p.numReviews && q.images == p.images
    ensures "price" in payload ==> Some(q.price) == JoiNumber(payload["price"])
    ensures "stock" in payload ==> Some(q.stock) == JoiNumber(payload["stock"])
    ensures "price" !in payload ==> q.price == p.price
    ensures "stock" !in payload ==> q.stock == p.stock
    ensures "name" in payload ==> q.name == Trim(payload["name"].s)
    ensures "name" !in payload ==> q.name == p.name
    ensures "description" !in payload ==> q.description == p.description
    ensures "faqs" !in payload ==> q.faqs == p.faqs
  {
    var price := if "price" in payload then JoiNumberCasts(payload["price"]); MongooseNumber(payload["price"]).value else p.price;
    var stock := if "stock" in payload then JoiNumberCasts(payload["stock"]); MongooseNumber(payload["stock"]).value else p.stock;
    p.(name := TextOr(payload, "name", p.name, true),
       price := price,
       category := TextOr(payload, "category", p.category, false),
       brand := TextOr(payload, "brand", p.brand, false),
       stock := stock,
       description := if "description" in payload then SectionsOf(payload["description"], true) else p.description,
       faqs := if "faqs" in payload then FaqsOf(payload["faqs"]) else p.faqs,
       createdUser := TextOr(payload, "createdUser", p.createdUser, false))
  }

  /** Category, brand and creator are stored as sent when given and kept
      otherwise. */
  lemma UpdateSetsText(p: Product, payload: map<string, Json>)
    requires UpdateSchemaOk(payload)
    ensures "category" in payload ==> payload["category"] == JStr(ApplyUpdate(p, payload).category)
    ensures "category" !in payload ==> ApplyUpdate(p, payload).category == p.category
    ensures "brand" in payload ==> payload["brand"] == JStr(ApplyUpdate(p, payload).brand)
    ensures "brand" !in payload ==> ApplyUpdate(p, payload).brand == p.brand
    ensures "createdUser" in payload ==> payload["createdUser"] == JStr(ApplyUpdate(p, payload).createdUser)
    ensures "createdUser" !in payload ==> ApplyUpdate(p, payload).createdUser == p.createdUser
  {
  }

  /** A given description or FAQ list replaces the stored one entry by entry, in
      the order sent: description titles and points trimmed, FAQ answers as sent. */
  lemma UpdateSetsSections(p: Product, payload: map<string, Json>)
    requires UpdateSchemaOk(payload)
    ensures "description" in payload ==>
      var given := payload["description"].elems;
      var q := ApplyUpdate(p, payload);
      |q.description| == |given|
      && forall i :: 0 <= i < |given| ==>
           q.description[i].title == Trim(given[i].fields["title"].s)
           && q.description[i].points == PointsOf(given[i].fields["points"], true)
    ensures "faqs" in payload ==>
      var given := payload["faqs"].elems;
      var q := ApplyUpdate(p, payload);
      |q.faqs| == |given|
      && forall i :: 0 <= i < |given| ==>
           q.faqs[i].question == given[i].fields["question"].s
           && q.faqs[i].answer == SectionsOf(given[i].fields["answer"], false)
  {
    if "description" in payload {
      assert FieldOk("description", payload["description"], true);
    }
    if "faqs" in payload {
      assert FieldOk("faqs", payload["faqs"], true);
    }
  }

  /** The update stores what the document's validators would refuse: a valid
      product updated with a negative price keeps it. */
  lemma UpdateSkipsValidators(p: Product)
    ensures var payload := map["price" := JNum(-5)];
      UpdateSchemaOk(payload) && ApplyUpdate(p, payload).price == -5 && !ProductValid(ApplyUpdate(p, payload))
  {
    var payload := map["price" := JNum(-5)];
    assert "price" in payload.Keys * ProductKeys;
  }

  /** The update with the validators run, as the schema's `min` rules intend:
      an update that would leave the product invalid is refused. */
  function ApplyUpdateValidated(p: Product, payload: map<string, Json>): (r: Option<Product>)
    requires UpdateSchemaOk(payload)
    ensures r.Some? ==> ProductValid(r.value) && r.value == ApplyUpdate(p, payload)
    ensures r.None? <==> !ProductValid(ApplyUpdate(p, payload))
  {
    var q := ApplyUpdate(p, payload);
    if ProductValid(q) then Some(q) else None
  }

  /** With the validators, the negative price is refused and the stored product
      stays valid. */
  lemma ValidatedUpdateRefusesNegativePrice(p: Product)
    ensures var payload := map["price" := JNum(-5)];
      UpdateSchemaOk(payload) && ApplyUpdateValidated(p, payload).None?
  {
    UpdateSkipsValidators(p);
  }

  /** `updateProduct`: a description or FAQ text that is not JSON is a 500 naming
      the key; a payload the update schema refuses is a 400; an unknown product
      a 404; otherwise the accepted fields are set without validation. */
  method UpdateProduct(db: Database, id: Id, entries: seq<(string, Json)>, parse: string -> Option<Json>)
    returns (r: Response<Product>)
    requires DistinctKeys(entries)
    modifies db
    ensures db.carts == old(db.carts) && db.orders == old(db.orders) && db.users == old(db.users)
    ensures r.Fail? ==> db.products == old(db.products)
    ensures r.Ok? ==> r.status == 200 && id in old(db.products) && db.products == old(db.products)[id := r.body]
    ensures r.Ok? ==>
      (exists payload :: PayloadOf(payload, entries, parse) && UpdateSchemaOk(payload)
                         && id in old(db.products) && r.body == ApplyUpdate(old(db.products)[id], payload))
    ensures (exists i :: 0 <= i < |entries| && FieldValue(entries[i].0, entries[i].1, parse).None?) ==>
      r.Fail? && r.status == 500
    ensures (exists i :: 0 <= i < |entries| && FieldValue(entries[i].0, entries[i].1, parse).None?) ==>
      exists i :: 0 <= i < |entries| && FieldValue(entries[i].0, entries[i].1, parse).None?
        && (forall j :: 0 <= j < i ==> FieldValue(entries[j].0, entries[j].1, parse).Some?)
        && r == Fail(500, "Invalid JSON format in " + entries[i].0)
    ensures forall payload :: PayloadOf(payload, entries, parse) ==>
      (!UpdateSchemaOk(payload) ==> r == Fail(400, SchemaMessage))
      && (UpdateSchemaOk(payload) && id !in old(db.products) ==> r == Fail(404, "Product not found"))
      && (UpdateSchemaOk(payload) && id in old(db.products) ==> r == Ok(200, ApplyUpdate(old(db.products)[id], payload)))
    ensures id !in old(db.products) ==> r.Fail?
  {
    var built := BuildUpdatePayload(entries, parse);
    if built.BadJson? {
      PayloadOfParsed(entries, parse);
      ghost var i :| 0 <= i < |entries| && entries[i].0 == built.key
        && FieldValue(entries[i].0, entries[i].1, parse).None?
        && forall j :: 0 <= j < i ==> FieldValue(entries[j].0, entries[j].1, parse).Some?;
      r := Fail(500, "Invalid JSON format in " + built.key);
      assert r == Fail(500, "Invalid JSON format in " + entries[i].0);
    } else {
      var payload := built.payload;
      PayloadOfUnique(payload, entries, parse);
      if !UpdateSchemaOk(payload) {
        r := Fail(400, SchemaMessage);
      } else if id !in db.products {
        r := Fail(404, "Product not found");
      } else {
        var updated := ApplyUpdate(db.products[id], payload);
        db.products := db.products[id := updated];
        r := Ok(200, updated);
      }
    }
  }

  // ---------------------------------------------------- createProductReview

  const RatingMessage := "Please provide a rating between 1 and 5"
  const ReviewFailedMessage := "Failed to create review"

  /** The rating guard: falsy, below 1 or above 5, with JavaScript's comparisons. */
  predicate RatingRejected(rating: Option<Json>)
  {
    !Truthy(rating) || LessThan(rating, 1) || GreaterThan(rating, 5)
  }

  /** A rating that gets past the guard and is a number lies in 1..5. */
  lemma AcceptedRatingInRange(rating: Option<Json>)
    requires !RatingRejected(rating) && ToNumber(rating).Finite?
    ensures 1 <= ToNumber(rating).n <= 5
  {
  }

  /** The caller's review replaces their earlier one in place, or is appended. */
  function UpsertReview(reviews: seq<Review>, review: Review): seq<Review>
  {
    match FirstIndex(reviews, (x: Review) => x.user == review.user)
    case Some(k) => reviews[k := review]
    case None => reviews + [review]
  }

  predicate OneReviewPerUser(reviews: seq<Review>)
  {
    forall i, j :: 0 <= i < j < |reviews| ==> reviews[i].user != reviews[j].user
  }

  /** After the upsert the caller's first review is replaced in its place, and
      only a caller without a review gets one appended; every other review is
      unchanged and in place, and a product with one review per user keeps
      that. */
  lemma UpsertSpec(reviews: seq<Review>, review: Review)
    ensures var r := UpsertReview(reviews, review);
      (|r| == |reviews| || |r| == |reviews| + 1)
      && ((exists k :: 0 <= k < |reviews| && reviews[k].user == review.user) <==> |r| == |reviews|)
      && ((forall j :: 0 <= j < |reviews| ==> reviews[j].user != review.user) ==> r == reviews + [review])
      && (forall k :: 0 <= k < |reviews| && reviews[k].user == review.user
                      && (forall j :: 0 <= j < k ==> reviews[j].user != review.user) ==>
            r == reviews[k := review])
      && review in r
      && (forall j :: 0 <= j < |reviews| && reviews[j].user != review.user ==> r[j] == reviews[j])
      && (OneReviewPerUser(reviews) ==>
            OneReviewPerUser(r) && forall j :: 0 <= j < |r| && r[j].user == review.user ==> r[j] == review)
      && (RatingsInRange(reviews) && 1 <= review.rating <= 5 ==> RatingsInRange(r))
  {
    var r := UpsertReview(reviews, review);
    match FirstIndex(reviews, (x: Review) => x.user == review.user)
    case Some(k) =>
      assert r[k] == review;
    case None =>
      assert r[|reviews|] == review;
  }

  /** The comment as Mongoose stores it: a missing comment is empty (and fails
      `required`); None when the value cannot be cast to a string. */
  function CommentOf(comment: Option<Json>): Option<string>
  {
    match comment
    case None => Some("")
    case Some(v) => MongooseString(v)
  }

  /** `createProductReview`. A rating that passes the guard but is not a number
      (`Number` gives NaN) fails the cast on save, as does a comment that is
      missing, empty or not castable: each is a 500. */
  method CreateProductReview(db: Database, user: Id, id: Id, body: map<string, Json>) returns (r: Response<Product>)
    modifies db
    ensures db.carts == old(db.carts) && db.orders == old(db.orders) && db.users == old(db.users)
    ensures r.Fail? ==> db.products == old(db.products)
    ensures var rating := Get(body, "rating");
      if RatingRejected(rating) then r == Fail(400, RatingMessage)
      else if id !in old(db.products) then r == Fail(404, "Product not found")
      else if ToNumber(rating).NaN? || CommentOf(Get(body, "comment")).None? then r == Fail(500, ReviewFailedMessage)
      else
        var p := old(db.products)[id];
        var review := Review(user, ToNumber(rating).n, CommentOf(Get(body, "comment")).value);
        match Save(p.(reviews := UpsertReview(p.reviews, review)), true)
        case None => r == Fail(500, ReviewFailedMessage)
        case Some(q) => r == Ok(200, q) && db.products == old(db.products)[id := q]
  {
    var rating := Get(body, "rating");
    if !Truthy(rating) || LessThan(rating, 1) || GreaterThan(rating, 5) {
      return Fail(400, RatingMessage);
    }
    if id !in db.products {
      return Fail(404, "Product not found");
    }
    var product := db.products[id];
    var value := ToNumber(rating);
    var comment := CommentOf(Get(body, "comment"));
    if value.NaN? || comment.None? {
      return Fail(500, ReviewFailedMessage);
    }
    var review := Review(user, value.n, comment.value);
    var reviews := product.reviews;
    var existing := FirstIndex(reviews, (x: Review) => x.user == user);
    if existing.Some? {
      reviews := reviews[existing.value := review];
    } else {
      reviews := reviews + [review];
    }
    var saved := Save(product.(reviews := reviews), true);
    if saved.None? {
      return Fail(500, ReviewFailedMessage);
    }
    db.products := db.products[id := saved.value];
    return Ok(200, saved.value);
  }

  /** A review with a non-empty comment on a valid product is saved, and the
      saved product holds the review, counts its reviews and carries their
      average; with every rating in 1..5 the product stays valid. */
  lemma ReviewSaved(p: Product, review: Review)
    requires ProductValid(p) && RatingsInRange(p.reviews)
    requires review.user != "" && review.comment != "" && 1 <= review.rating <= 5
    ensures var s := Save(p.(reviews := UpsertReview(p.reviews, review)), true);
      s.Some? && review in s.value.reviews && RatingsInRange(s.value.reviews)
      && s.value.numReviews == |s.value.reviews| && s.value.ratings == AverageRatingTenths(s.value.reviews)
      && ProductValid(s.value)
  {
    var rs := UpsertReview(p.reviews, review);
    UpsertSpec(p.reviews, review);
    var q := p.(reviews := rs);
    forall i | 0 <= i < |rs| ensures ReviewValid(rs[i]) {
      var k := FirstIndex(p.reviews, (x: Review) => x.user == review.user);
      if k.Some? && i == k.value {
      } else if i < |p.reviews| {
        assert rs[i] == p.reviews[i];
      }
    }
    assert ProductValid(q);
    PreSaveKeepsValid(q, true);
  }

  // ------------------------------------------------------------ deleteReview

  const DeleteFailedMessage := "Failed to delete review"

  /** The reviews that remain once the caller's are removed. */
  function WithoutReviewsOf(reviews: seq<Review>, user: Id): seq<Review>
  {
    Filter(reviews, (x: Review) => x.user != user)
  }

  /** Deletion removes every review by the caller and no other, keeping their
      order; when the caller had none nothing changes. */
  lemma WithoutReviewsSpec(reviews: seq<Review>, user: Id, a: seq<Review>, b: seq<Review>)
    ensures forall x :: x in WithoutReviewsOf(reviews, user) <==> x in reviews && x.user != user
    ensures WithoutReviewsOf(a + b, user) == WithoutReviewsOf(a, user) + WithoutReviewsOf(b, user)
    ensures (forall j :: 0 <= j < |reviews| ==> reviews[j].user != user) ==> WithoutReviewsOf(reviews, user) == reviews
  {
    var p := (x: Review) => x.user != user;
    FilterAppend(a, b, p);
    if forall j :: 0 <= j < |reviews| ==> reviews[j].user != user {
      FilterKeepsAll(reviews, p);
    }
  }

  /** `deleteReview`: 404 for an unknown product; otherwise the filtered reviews
      are saved, and the hook recomputes the ratings only when the list changed. */
  method DeleteReview(db: Database, user: Id, id: Id) returns (r: Response<Product>)
    modifies db
    ensures db.carts == old(db.carts) && db.orders == old(db.orders) && db.users == old(db.users)
    ensures r.Fail? ==> db.products == old(db.products)
    ensures id !in old(db.products) ==> r == Fail(404, "Product not found")
    ensures id in old(db.products) ==>
      var p := old(db.products)[id];
      var rs := WithoutReviewsOf(p.reviews, user);
      match Save(p.(reviews := rs), rs != p.reviews)
      case None => r == Fail(500, DeleteFailedMessage)
      case Some(q) => r == Ok(200, q) && db.products == old(db.products)[id := q]
  {
    if id !in db.products {
      return Fail(404, "Product not found");
    }
    var product := db.products[id];
    var reviews := Filter(product.reviews, (x: Review) => x.user != user);
    var saved := Save(product.(reviews := reviews), reviews != product.reviews);
    if saved.None? {
      return Fail(500, DeleteFailedMessage);
    }
    db.products := db.products[id := saved.value];
    return Ok(200, saved.value);
  }

  /** After a deletion that changed the reviews, none is by the caller and the
      count and average describe the remaining ones. */
  lemma DeleteRecomputes(p: Product, user: Id)
    requires WithoutReviewsOf(p.reviews, user) != p.reviews
    requires Save(p.(reviews := WithoutReviewsOf(p.reviews, user)), true).Some?
    ensures var q := Save(p.(reviews := WithoutReviewsOf(p.reviews, user)), true).value;
      (forall x :: x in q.reviews ==> x.user != user)
      && q.numReviews == |q.reviews| && q.ratings == AverageRatingTenths(q.reviews)
  {
  }
}
