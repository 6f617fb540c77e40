/** The product request schemas and the product fields read from a payload
    that passed them. The create schema requires every field; the update schema
    takes any non-empty subset of them and lets unknown keys through. */
module ProductValidation {
  import opened Common
  import opened Js
  import opened Text
  import opened Joi
  import opened ProductModel

  const ProductKeys: set<string> :=
    {"name", "price", "category", "brand", "stock", "createdUser", "description", "faqs"}
  const SectionKeys: set<string> := {"title", "points"}
  const FaqKeys: set<string> := {"question", "answer"}
  const TextKeys: set<string> := {"name", "category", "brand", "createdUser"}

  /** `points`: an array of non-empty strings with at least one element (its item
      schema is marked required). */
  predicate PointsOk(v: Json)
  {
    v.JArr? && |v.elems| >= 1 && forall i :: 0 <= i < |v.elems| ==> IsString(v.elems[i])
  }

  /** `pointsSchema` as an object; unknown keys fail unless allowed. */
  predicate SectionOk(v: Json, allowUnknown: bool)
  {
    v.JObj? && (allowUnknown || OnlyKeys(v.fields, SectionKeys))
    && "title" in v.fields && IsString(v.fields["title"])
    && "points" in v.fields && PointsOk(v.fields["points"])
  }

  predicate SectionsOk(v: Json, allowUnknown: bool)
  {
    v.JArr? && forall i :: 0 <= i < |v.elems| ==> SectionOk(v.elems[i], allowUnknown)
  }

  predicate FaqOk(v: Json, allowUnknown: bool)
  {
    v.JObj? && (allowUnknown || OnlyKeys(v.fields, FaqKeys))
    && "question" in v.fields && IsString(v.fields["question"])
    && "answer" in v.fields && SectionsOk(v.fields["answer"], allowUnknown)
  }

  predicate FaqsOk(v: Json, allowUnknown: bool)
  {
    v.JArr? && forall i :: 0 <= i < |v.elems| ==> FaqOk(v.elems[i], allowUnknown)
  }

  /** The rule for one key of `baseProductSchema`; `stock` must be a whole
      number, which every number here is. A key outside the schema passes only
      when unknown keys are allowed. */
  predicate FieldOk(key: string, v: Json, allowUnknown: bool)
  {
    if key in TextKeys then IsString(v)
    else if key == "price" || key == "stock" then JoiNumber(v).Some?
    else if key == "description" then SectionsOk(v, allowUnknown)
    else if key == "faqs" then FaqsOk(v, allowUnknown)
    else allowUnknown
  }

  /** `productValidationSchema`: all eight keys present and valid, nothing else. */
  predicate CreateSchemaOk(payload: map<string, Json>)
  {
    payload.Keys == ProductKeys && forall k :: k in payload ==> FieldOk(k, payload[k], false)
  }

  /** `productUpdateValidationSchema` with allowUnknown and stripUnknown: the
      listed keys that are present are valid, and after unknown keys are
      stripped at least one key is left (`min(1)`). */
  predicate UpdateSchemaOk(payload: map<string, Json>)
  {
    (forall k :: k in payload && k in ProductKeys ==> FieldOk(k, payload[k], true))
    && payload.Keys * ProductKeys != {}
  }

  /** Every field is required on create; on update, an empty payload or one with
      only unknown keys fails, and any single valid field passes. */
  lemma SchemaPresence(payload: map<string, Json>, key: string, v: Json)
    ensures key in ProductKeys && key !in payload ==> !CreateSchemaOk(payload)
    ensures !UpdateSchemaOk(map[])
    ensures key !in ProductKeys ==> !UpdateSchemaOk(map[key := v])
    ensures key in ProductKeys && FieldOk(key, v, true) ==> UpdateSchemaOk(map[key := v])
  {
    if key !in ProductKeys {
      assert map[key := v].Keys * ProductKeys == {};
    }
    if key in ProductKeys {
      assert key in map[key := v].Keys * ProductKeys;
    }
  }

  /** A description entry needs a title and at least one point. */
  lemma SectionsNeedPoints(title: string)
    requires title != ""
    ensures !SectionOk(JObj(map["title" := JStr(title), "points" := JArr([])]), true)
    ensures SectionOk(JObj(map["title" := JStr(title), "points" := JArr([JStr("x")])]), false)
  {
    var m := map["title" := JStr(title), "points" := JArr([JStr("x")])];
    assert m.Keys == SectionKeys;
  }

  /** Stock text that is a word, not starting with a digit or a sign, fails. */
  lemma StockNeedsNumber(word: string)
    requires word != [] && !IsDigit(word[0]) && word[0] != '-' && word[0] != '+'
    requires forall i :: 0 <= i < |word| ==> !IsSpace(word[i])
    ensures !FieldOk("stock", JStr(word), true)
  {
    assert "stock" !in TextKeys;
    WordIsNaN(word);
  }

  /** Stock is accepted as a number or as its decimal text exactly when the
      number is a safe integer. */
  lemma StockTakesNumbers(n: int)
    ensures FieldOk("stock", JNum(n), true) <==> SafeInteger(n)
    ensures FieldOk("stock", JStr(IntToString(n)), true) <==> SafeInteger(n)
  {
    assert "stock" !in TextKeys;
    JoiNumberOfText(n);
  }

  /** The decoded fields. Description titles and points are trimmed by the
      schema's setters; FAQ answers are stored as sent. */
  function PointsOf(v: Json, trim: bool): seq<string>
    requires PointsOk(v)
  {
    seq(|v.elems|, i requires 0 <= i < |v.elems| => if trim then Trim(v.elems[i].s) else v.elems[i].s)
  }

  function SectionOf(v: Json, trim: bool): Section
    requires SectionOk(v, true)
  {
    var t := v.fields["title"].s;
    Section(if trim then Trim(t) else t, PointsOf(v.fields["points"], trim))
  }

  function SectionsOf(v: Json, trim: bool): seq<Section>
    requires SectionsOk(v, true)
  {
    seq(|v.elems|, i requires 0 <= i < |v.elems| => SectionOf(v.elems[i], trim))
  }

  function FaqOf(v: Json): Faq
    requires FaqOk(v, true)
  {
    Faq(v.fields["question"].s, SectionsOf(v.fields["answer"], false))
  }

  function FaqsOf(v: Json): seq<Faq>
    requires FaqsOk(v, true)
  {
    seq(|v.elems|, i requires 0 <= i < |v.elems| => FaqOf(v.elems[i]))
  }

  lemma {:induction false} SectionsLoosen(v: Json)
    requires SectionsOk(v, false)
    ensures SectionsOk(v, true)
  {
    forall i | 0 <= i < |v.elems| ensures SectionOk(v.elems[i], true) {
      assert SectionOk(v.elems[i], false);
    }
  }

  /** What passes the strict create schema also passes the lenient one. */
  lemma {:induction false} StrictImpliesLenient(key: string, v: Json)
    requires FieldOk(key, v, false)
    ensures FieldOk(key, v, true)
  {
    if key == "description" {
      SectionsLoosen(v);
    } else if key == "faqs" {
      forall i | 0 <= i < |v.elems| ensures FaqOk(v.elems[i], true) {
        assert FaqOk(v.elems[i], false);
        SectionsLoosen(v.elems[i].fields["answer"]);
      }
    }
  }
}
