/**
 * Translation of the result texts into Russian. The remote call is an
 * oracle; what is modelled is the gating around it (empty, already Russian,
 * no key, failed call), the clean-up of the reply, and the element-wise
 * translation of validation messages and of arbitrary JSON values.
 */
module Translator {
  import opened Wrappers
  import opened Text

  /** A code point of `/[А-Яа-яЁё]/`. */
  predicate IsCyrillic(c: char) {
    ('А' <= c <= 'я') || c == 'Ё' || c == 'ё'
  }

  /** `isRussian(text)`: the text contains a Cyrillic letter (so the empty text is not Russian). */
  predicate IsRussian(text: string) {
    exists i :: 0 <= i < |text| && IsCyrillic(text[i])
  }

  /** A text whose letters are all Latin is not Russian. */
  lemma {:induction false} LatinIsNotRussian(text: string)
    requires forall i :: 0 <= i < |text| ==> text[i] < 'Ѐ'
    ensures !IsRussian(text)
  {
  }

  /** The fields `translateToRussian` looks for when the reply is a JSON object. */
  datatype Wrapped = Wrapped(translation: Option<string>, text: Option<string>, content: Option<string>)

  /**
   * What the translation endpoint answers: the message content and, for a
   * content that is a JSON object, what `JSON.parse` makes of it (`None` when
   * it does not parse).
   */
  datatype Reply = Reply(content: string, parsed: Option<Wrapped>)

  /** The translation endpoint, given the text to translate. */
  type Backend = string -> Result<Reply, string>

  predicate IsQuote(c: char) { c == '"' || c == '\'' }

  /** 1 when the text opens with a quote, 0 otherwise. */
  function Lead(s: string): nat {
    if |s| > 0 && IsQuote(s[0]) then 1 else 0
  }

  /** `s.replace(/^["']|["']$/g, '')`: one quote removed at each end, if there is one. */
  function StripQuotes(s: string): (r: string)
    ensures |r| <= |s| <= |r| + 2
    ensures Lead(s) + |r| <= |s| && r == s[Lead(s)..Lead(s) + |r|]
    ensures |s| > 0 && !IsQuote(s[0]) && !IsQuote(s[|s| - 1]) ==> r == s
  {
    var head := s[Lead(s)..];
    if |head| > 0 && IsQuote(head[|head| - 1]) then head[..|head| - 1] else head
  }

  /** A quoted reply loses exactly its quotes. */
  lemma {:induction false} StripQuotesRoundTrip(m: string, open: char, close: char)
    requires IsQuote(open) && IsQuote(close)
    ensures StripQuotes([open] + m + [close]) == m
  {
    var s := [open] + m + [close];
    assert s[1..] == m + [close];
    assert (m + [close])[..|m|] == m;
  }

  /** `parsed.translation || parsed.text || parsed.content || content` */
  function Unwrap(content: string, parsed: Option<Wrapped>): string {
    if StartsWith(content, "{") && parsed.Some? then
      var w := parsed.value;
      if w.translation.Some? && w.translation.value != "" then w.translation.value
      else if w.text.Some? && w.text.value != "" then w.text.value
      else if w.content.Some? && w.content.value != "" then w.content.value
      else content
    else content
  }

  /** The text a successful reply stands for: trimmed, unwrapped when it is an object, unquoted. */
  function Cleaned(reply: Reply): string {
    StripQuotes(Unwrap(Trim(reply.content), reply.parsed))
  }

  /**
   * `translateToRussian(text)`: blank and Russian texts, a missing key and a
   * failed call all give the text back; otherwise the trimmed reply,
   * unwrapped from JSON when it is an object, without its outer quotes.
   */
  function TranslateToRussian(text: string, hasKey: bool, backend: Backend): (r: string)
    ensures IsBlank(text) || IsRussian(text) || !hasKey ==> r == text
    ensures backend(text).Failure? ==> r == text
    ensures !IsBlank(text) && !IsRussian(text) && hasKey && backend(text).Success? ==>
      r == Cleaned(backend(text).value)
  {
    TrimEmptyIffBlank(text);
    if Trim(text) == "" then text
    else if IsRussian(text) then text
    else if !hasKey then text
    else
      match backend(text)
      case Failure(_) => text
      case Success(reply) => Cleaned(reply)
  }

  /** Translating a second time changes nothing once the first translation is Russian. */
  lemma {:induction false} TranslateIdempotent(text: string, hasKey: bool, backend: Backend)
    requires IsRussian(TranslateToRussian(text, hasKey, backend))
    ensures TranslateToRussian(TranslateToRussian(text, hasKey, backend), hasKey, backend)
      == TranslateToRussian(text, hasKey, backend)
  {
  }

  /** Every successful reply of the endpoint, once cleaned, is Russian. */
  ghost predicate RepliesInRussian(backend: Backend) {
    forall t :: backend(t).Success? ==> IsRussian(Cleaned(backend(t).value))
  }

  /** The endpoint always answers, and its cleaned answer is Russian. */
  ghost predicate AnswersInRussian(backend: Backend) {
    forall t :: backend(t).Success? && IsRussian(Cleaned(backend(t).value))
  }

  /** With a key and such an endpoint, every text that is not blank comes back Russian. */
  lemma {:induction false} TranslateSettles(text: string, backend: Backend)
    requires AnswersInRussian(backend) && !IsBlank(text)
    ensures IsRussian(TranslateToRussian(text, true, backend))
  {
    if !IsRussian(text) {
      assert backend(text).Success? && IsRussian(Cleaned(backend(text).value));
    }
  }

  /**
   * With an endpoint that answers in Russian (or without a key), translating
   * the translation changes nothing: a text is either given back as it is, and
   * the second call gives it back again, or replaced by a Russian reply, which
   * the second call leaves alone.
   */
  lemma {:induction false} TranslateTwice(text: string, hasKey: bool, backend: Backend)
    requires !hasKey || RepliesInRussian(backend)
    ensures TranslateToRussian(TranslateToRussian(text, hasKey, backend), hasKey, backend)
      == TranslateToRussian(text, hasKey, backend)
  {
    var r := TranslateToRussian(text, hasKey, backend);
    if IsBlank(text) || IsRussian(text) || !hasKey || backend(text).Failure? {
      assert r == text;
    } else {
      assert r == Cleaned(backend(text).value);
      assert IsRussian(r);
    }
  }

  /** Element-wise translation of a list of texts. */
  function TranslateAll(texts: seq<string>, hasKey: bool, backend: Backend): (r: seq<string>)
    ensures |r| == |texts|
    ensures forall k :: 0 <= k < |r| ==> r[k] == TranslateToRussian(texts[k], hasKey, backend)
  {
    seq(|texts|, k requires 0 <= k < |texts| => TranslateToRussian(texts[k], hasKey, backend))
  }

  /** The `for ... of` loop that pushes each translated text. */
  method TranslateList(texts: seq<string>, hasKey: bool, backend: Backend) returns (r: seq<string>)
    ensures r == TranslateAll(texts, hasKey, backend)
  {
    ghost var all := TranslateAll(texts, hasKey, backend);
    r := [];
    for i := 0 to |texts|
      invariant r == all[..i]
    {
      var translated := TranslateToRussian(texts[i], hasKey, backend);
      assert all[..i + 1] == all[..i] + [all[i]];
      r := r + [translated];
    }
    assert all[..|texts|] == all;
  }

  /** Already Russian lists come back unchanged. */
  lemma {:induction false} TranslateAllRussian(texts: seq<string>, hasKey: bool, backend: Backend)
    requires forall k :: 0 <= k < |texts| ==> IsRussian(texts[k])
    ensures TranslateAll(texts, hasKey, backend) == texts
  {
  }

  /**
   * The validation record as `translateValidation` sees it: the three
   * message lists (`None` when missing or not an array) and the rest of the
   * record, carried along unchanged.
   */
  datatype ValidationTexts<R> = ValidationTexts(
    errors: Option<seq<string>>,
    warnings: Option<seq<string>>,
    recommendations: Option<seq<string>>,
    rest: R)

  function TranslateOpt(texts: Option<seq<string>>, hasKey: bool, backend: Backend): Option<seq<string>> {
    match texts
    case None => None
    case Some(t) => Some(TranslateAll(t, hasKey, backend))
  }

  /**
   * `translateValidation(validation)`: a missing record is returned as it
   * is; otherwise each present list is translated element-wise, with its
   * length and order kept, and every other field is copied.
   */
  method TranslateValidation<R>(validation: Option<ValidationTexts<R>>, hasKey: bool, backend: Backend)
    returns (r: Option<ValidationTexts<R>>)
    ensures validation.None? ==> r.None?
    ensures validation.Some? ==> r.Some? && r.value.rest == validation.value.rest
    ensures validation.Some? ==>
      && r.value.errors == TranslateOpt(validation.value.errors, hasKey, backend)
      && r.value.warnings == TranslateOpt(validation.value.warnings, hasKey, backend)
      && r.value.recommendations == TranslateOpt(validation.value.recommendations, hasKey, backend)
  {
    if validation.None? {
      return None;
    }
    var translated := validation.value;
    if validation.value.errors.Some? {
      var errors := TranslateList(validation.value.errors.value, hasKey, backend);
      translated := translated.(errors := Some(errors));
    }
    if validation.value.warnings.Some? {
      var warnings := TranslateList(validation.value.warnings.value, hasKey, backend);
      translated := translated.(warnings := Some(warnings));
    }
    if validation.value.recommendations.Some? {
      var recommendations := TranslateList(validation.value.recommendations.value, hasKey, backend);
      translated := translated.(recommendations := Some(recommendations));
    }
    r := Some(translated);
  }

  /** A JSON value. An object is its `key: value` fields in insertion order. */
  datatype Json = JNull | JBool(b: bool) | JNum(x: real) | JStr(s: string) | JArr(items: seq<Json>) | JObj(fields: seq<Field>)
  datatype Field = Field(key: string, value: Json)

  /** JavaScript falsiness of a JSON value. */
  predicate Falsy(j: Json) {
    j == JNull || j == JBool(false) || j == JNum(0.0) || j == JStr("")
  }

  /** The keys the code calls technical. */
  predicate Technical(key: string) {
    key in {"grade", "standard", "steel_class", "weldability", "popularity", "chemical_composition",
            "mechanical_properties", "carbon_equivalent", "steel_input", "status", "cached", "timestamp",
            "pipeline", "overall_score", "criteria_scores", "passed", "checks_performed", "iterations_used"}
  }

  /** The technical keys whose value is still translated (when it is a string). */
  predicate LabelKey(key: string) {
    key == "weldability" || key == "popularity" || key == "steel_class"
  }

  /** `translateToRussian(value)` on an arbitrary value: only strings are translated. */
  function TranslateValue(j: Json, hasKey: bool, backend: Backend): (r: Json)
    ensures !j.JStr? ==> r == j
  {
    if j.JStr? then JStr(TranslateToRussian(j.s, hasKey, backend)) else j
  }

  /**
   * `translateObject(obj)` as the code has it: the branch for technical keys
   * calls `translateObject` on every technical key other than the three
   * labels, which is exactly what the branch for ordinary keys does.
   */
  function TranslateObjectAsWritten(j: Json, hasKey: bool, backend: Backend): (r: Json)
    ensures Falsy(j) || j.JBool? || j.JNum? || j.JNull? ==> r == j
    ensures j.JStr? && j.s != "" ==> r == JStr(TranslateToRussian(j.s, hasKey, backend))
    ensures j.JArr? ==> (r.JArr? && |r.items| == |j.items|
      && forall k :: 0 <= k < |j.items| ==> r.items[k] == TranslateObjectAsWritten(j.items[k], hasKey, backend))
    ensures j.JObj? ==> (r.JObj? && |r.fields| == |j.fields|
      && forall k :: 0 <= k < |j.fields| ==> r.fields[k] == FieldAsWritten(j.fields[k], hasKey, backend))
    decreases j
  {
    if Falsy(j) then j
    else
      match j
      case JStr(s) => JStr(TranslateToRussian(s, hasKey, backend))
      case JArr(items) => JArr(ItemsAsWritten(items, hasKey, backend))
      case JObj(fields) => JObj(FieldsAsWritten(fields, hasKey, backend))
      case _ => j
  }

  function ItemsAsWritten(items: seq<Json>, hasKey: bool, backend: Backend): (r: seq<Json>)
    ensures |r| == |items|
    ensures forall k :: 0 <= k < |items| ==> r[k] == TranslateObjectAsWritten(items[k], hasKey, backend)
    decreases items
  {
    if items == [] then []
    else [TranslateObjectAsWritten(items[0], hasKey, backend)] + ItemsAsWritten(items[1..], hasKey, backend)
  }

  function FieldsAsWritten(fields: seq<Field>, hasKey: bool, backend: Backend): (r: seq<Field>)
    ensures |r| == |fields|
    ensures forall k :: 0 <= k < |fields| ==> r[k] == FieldAsWritten(fields[k], hasKey, backend)
    decreases fields
  {
    if fields == [] then []
    else [FieldAsWritten(fields[0], hasKey, backend)] + FieldsAsWritten(fields[1..], hasKey, backend)
  }

  /** The technical branch recurses into every technical key but the labels, like the ordinary branch. */
  function FieldAsWritten(f: Field, hasKey: bool, backend: Backend): (r: Field)
    ensures r.key == f.key
    ensures LabelKey(f.key) ==> r.value == TranslateValue(f.value, hasKey, backend)
    ensures !LabelKey(f.key) ==> r.value == TranslateObjectAsWritten(f.value, hasKey, backend)
    decreases f
  {
    if Technical(f.key) && LabelKey(f.key) then Field(f.key, TranslateValue(f.value, hasKey, backend))
    else Field(f.key, TranslateObjectAsWritten(f.value, hasKey, backend))
  }

  /**
   * A grade is sent to the translator although the code marks it as a field
   * not to translate: with a backend that answers `904Л` for `904L`, the
   * grade comes back changed.
   */
  lemma {:induction false} GradeTranslatedAsWritten()
    ensures var backend: Backend := (t: string) => Success(Reply("904Л", None));
      TranslateObjectAsWritten(JObj([Field("grade", JStr("904L"))]), true, backend)
        == JObj([Field("grade", JStr("904Л"))])
  {
    var backend: Backend := (t: string) => Success(Reply("904Л", None));
    LatinIsNotRussian("904L");
    assert Trim("904L") == "904L" by {
      assert !IsWhitespace('9') && !IsWhitespace('L');
    }
    assert Trim("904Л") == "904Л" by {
      assert !IsWhitespace('9') && !IsWhitespace('Л');
    }
    assert !StartsWith("904Л", "{");
    assert StripQuotes("904Л") == "904Л";
    assert TranslateToRussian("904L", true, backend) == "904Л";
    assert TranslateObjectAsWritten(JStr("904L"), true, backend) == JStr("904Л");
  }

  /**
   * `translateObject(obj)` as its comment intends: technical fields are
   * copied as they are, except the three labels, whose string values are
   * translated; everything else is translated recursively.
   */
  function TranslateObject(j: Json, hasKey: bool, backend: Backend): (r: Json)
    ensures Falsy(j) || j.JBool? || j.JNum? || j.JNull? ==> r == j
    ensures j.JArr? ==> r.JArr? && |r.items| == |j.items|
    ensures j.JObj? ==> r.JObj? && |r.fields| == |j.fields|
    ensures j.JObj? ==> forall k :: 0 <= k < |j.fields| ==>
      r.fields[k].key == j.fields[k].key
      && (Technical(j.fields[k].key) && !LabelKey(j.fields[k].key) ==> r.fields[k].value == j.fields[k].value)
    ensures j.JStr? && j.s != "" ==> r == JStr(TranslateToRussian(j.s, hasKey, backend))
    ensures j.JArr? ==> forall k :: 0 <= k < |j.items| ==> r.items[k] == TranslateObject(j.items[k], hasKey, backend)
    ensures j.JObj? ==> forall k :: 0 <= k < |j.fields| ==> r.fields[k] == TranslateField(j.fields[k], hasKey, backend)
    decreases j
  {
    if Falsy(j) then j
    else
      match j
      case JStr(s) => JStr(TranslateToRussian(s, hasKey, backend))
      case JArr(items) => JArr(TranslateItems(items, hasKey, backend))
      case JObj(fields) => JObj(TranslateFields(fields, hasKey, backend))
      case _ => j
  }

  function TranslateItems(items: seq<Json>, hasKey: bool, backend: Backend): (r: seq<Json>)
    ensures |r| == |items|
    ensures forall k :: 0 <= k < |items| ==> r[k] == TranslateObject(items[k], hasKey, backend)
    decreases items
  {
    if items == [] then []
    else [TranslateObject(items[0], hasKey, backend)] + TranslateItems(items[1..], hasKey, backend)
  }

  function TranslateFields(fields: seq<Field>, hasKey: bool, backend: Backend): (r: seq<Field>)
    ensures |r| == |fields|
    ensures forall k :: 0 <= k < |fields| ==> r[k] == TranslateField(fields[k], hasKey, backend)
    decreases fields
  {
    if fields == [] then []
    else [TranslateField(fields[0], hasKey, backend)] + TranslateFields(fields[1..], hasKey, backend)
  }

  function TranslateField(f: Field, hasKey: bool, backend: Backend): (r: Field)
    ensures r.key == f.key
    ensures Technical(f.key) && !LabelKey(f.key) ==> r.value == f.value
    ensures LabelKey(f.key) ==> r.value == TranslateValue(f.value, hasKey, backend)
    ensures !Technical(f.key) ==> r.value == TranslateObject(f.value, hasKey, backend)
    decreases f
  {
    if Technical(f.key) then
      if LabelKey(f.key) then Field(f.key, TranslateValue(f.value, hasKey, backend)) else f
    else Field(f.key, TranslateObject(f.value, hasKey, backend))
  }

  /** Two JSON values with the same structure: only string contents may differ. */
  predicate SameShape(a: Json, b: Json)
    decreases a
  {
    match a
    case JStr(_) => b.JStr?
    case JArr(xs) => b.JArr? && |xs| == |b.items| && forall k :: 0 <= k < |xs| ==> SameShape(xs[k], b.items[k])
    case JObj(fs) =>
      b.JObj? && |fs| == |b.fields|
      && forall k :: 0 <= k < |fs| ==> fs[k].key == b.fields[k].key && SameShape(fs[k].value, b.fields[k].value)
    case _ => a == b
  }

  lemma {:induction false} SameShapeRefl(a: Json)
    ensures SameShape(a, a)
    decreases a
  {
    match a
    case JArr(xs) =>
      forall k | 0 <= k < |xs| ensures SameShape(xs[k], xs[k]) {
        SameShapeRefl(xs[k]);
      }
    case JObj(fs) =>
      forall k | 0 <= k < |fs| ensures SameShape(fs[k].value, fs[k].value) {
        SameShapeRefl(fs[k].value);
      }
    case _ =>
  }

  /** Translation keeps the structure: array lengths and orders, object keys, every non-string scalar. */
  lemma {:induction false} TranslateObjectShape(j: Json, hasKey: bool, backend: Backend)
    ensures SameShape(j, TranslateObject(j, hasKey, backend))
    decreases j
  {
    if Falsy(j) {
      SameShapeRefl(j);
    } else {
      match j
      case JArr(items) =>
        forall k | 0 <= k < |items| ensures SameShape(items[k], TranslateObject(j, hasKey, backend).items[k]) {
          TranslateObjectShape(items[k], hasKey, backend);
        }
      case JObj(fields) =>
        var r := TranslateObject(j, hasKey, backend);
        forall k | 0 <= k < |fields|
          ensures fields[k].key == r.fields[k].key && SameShape(fields[k].value, r.fields[k].value)
        {
          var f := fields[k];
          assert r.fields[k] == TranslateField(f, hasKey, backend);
          if Technical(f.key) && !LabelKey(f.key) {
            SameShapeRefl(f.value);
          } else if Technical(f.key) {
            SameShapeRefl(f.value);
          } else {
            TranslateObjectShape(f.value, hasKey, backend);
          }
        }
      case _ =>
    }
  }

  /** Without a key nothing is sent to the endpoint, so every value comes back as it is. */
  lemma {:induction false} TranslateObjectWithoutKey(j: Json, backend: Backend)
    ensures TranslateObject(j, false, backend) == j
    decreases j
  {
    if !Falsy(j) {
      match j
      case JArr(items) =>
        var r := TranslateObject(j, false, backend);
        forall k | 0 <= k < |items| ensures r.items[k] == items[k] {
          TranslateObjectWithoutKey(items[k], backend);
        }
        assert r.items == items;
      case JObj(fields) =>
        var r := TranslateObject(j, false, backend);
        forall k | 0 <= k < |fields| ensures r.fields[k] == fields[k] {
          if !Technical(fields[k].key) {
            TranslateObjectWithoutKey(fields[k].value, backend);
          }
        }
        assert r.fields == fields;
      case _ =>
    }
  }

  /** A label translated twice is the label translated once. */
  lemma {:induction false} TranslateValueTwice(v: Json, hasKey: bool, backend: Backend)
    requires !hasKey || RepliesInRussian(backend)
    ensures TranslateValue(TranslateValue(v, hasKey, backend), hasKey, backend) == TranslateValue(v, hasKey, backend)
  {
    if v.JStr? {
      TranslateTwice(v.s, hasKey, backend);
    }
  }

  /**
   * Translating a translated value again changes nothing, whenever the
   * endpoint answers in Russian: the translation is a fixed point.
   */
  lemma {:induction false} TranslateObjectTwice(j: Json, hasKey: bool, backend: Backend)
    requires !hasKey || RepliesInRussian(backend)
    ensures TranslateObject(TranslateObject(j, hasKey, backend), hasKey, backend) == TranslateObject(j, hasKey, backend)
    decreases j
  {
    var r := TranslateObject(j, hasKey, backend);
    if !Falsy(j) {
      match j
      case JStr(s) =>
        TranslateTwice(s, hasKey, backend);
      case JArr(items) =>
        var rr := TranslateObject(r, hasKey, backend);
        forall k | 0 <= k < |items| ensures rr.items[k] == r.items[k] {
          TranslateObjectTwice(items[k], hasKey, backend);
        }
        assert rr.items == r.items;
      case JObj(fields) =>
        var rr := TranslateObject(r, hasKey, backend);
        forall k | 0 <= k < |fields| ensures rr.fields[k] == r.fields[k] {
          var f := fields[k];
          if LabelKey(f.key) {
            TranslateValueTwice(f.value, hasKey, backend);
          } else if !Technical(f.key) {
            TranslateObjectTwice(f.value, hasKey, backend);
          }
        }
        assert rr.fields == r.fields;
      case _ =>
    }
  }

  /** No technical key other than the three labels occurs anywhere in the value. */
  predicate OnlyTranslatedKeys(j: Json)
    decreases j
  {
    match j
    case JArr(xs) => forall k :: 0 <= k < |xs| ==> OnlyTranslatedKeys(xs[k])
    case JObj(fs) =>
      forall k :: 0 <= k < |fs| ==> (!Technical(fs[k].key) || LabelKey(fs[k].key)) && OnlyTranslatedKeys(fs[k].value)
    case _ => true
  }

  /** Where no copied technical key occurs, the code as written and as intended agree. */
  lemma {:induction false} AsWrittenAgreesOnTranslatedKeys(j: Json, hasKey: bool, backend: Backend)
    requires OnlyTranslatedKeys(j)
    ensures TranslateObjectAsWritten(j, hasKey, backend) == TranslateObject(j, hasKey, backend)
    decreases j
  {
    if !Falsy(j) {
      match j
      case JArr(items) =>
        var a := TranslateObjectAsWritten(j, hasKey, backend);
        var r := TranslateObject(j, hasKey, backend);
        forall k | 0 <= k < |items| ensures a.items[k] == r.items[k] {
          AsWrittenAgreesOnTranslatedKeys(items[k], hasKey, backend);
        }
        assert a.items == r.items;
      case JObj(fields) =>
        var a := TranslateObjectAsWritten(j, hasKey, backend);
        var r := TranslateObject(j, hasKey, backend);
        forall k | 0 <= k < |fields| ensures a.fields[k] == r.fields[k] {
          if !LabelKey(fields[k].key) {
            AsWrittenAgreesOnTranslatedKeys(fields[k].value, hasKey, backend);
          }
        }
        assert a.fields == r.fields;
      case _ =>
    }
  }

  /**
   * The recursive walk with its loops: each array item and each object
   * field is translated and pushed in order.
   */
  method TranslateObjectWalk(j: Json, hasKey: bool, backend: Backend) returns (r: Json)
    ensures r == TranslateObject(j, hasKey, backend)
    decreases j
  {
    if Falsy(j) {
      return j;
    }
    match j
    case JStr(s) =>
      r := JStr(TranslateToRussian(s, hasKey, backend));
    case JArr(items) =>
      var translated := TranslateItemsWalk(items, hasKey, backend);
      r := JArr(translated);
    case JObj(fields) =>
      var translated := TranslateFieldsWalk(fields, hasKey, backend);
      r := JObj(translated);
    case _ =>
      r := j;
  }

  /** Pushing the next element of `all` onto its first `i` elements gives its first `i + 1`. */
  lemma {:induction false} PushNext<T>(all: seq<T>, done: seq<T>, i: nat, x: T)
    requires i < |all| && done == all[..i] && x == all[i]
    ensures done + [x] == all[..i + 1]
  {
  }

  /** `for (const item of obj) translated.push(await translateObject(item))` */
  method TranslateItemsWalk(items: seq<Json>, hasKey: bool, backend: Backend) returns (translated: seq<Json>)
    ensures translated == TranslateItems(items, hasKey, backend)
    decreases items
  {
    ghost var all := TranslateItems(items, hasKey, backend);
    translated := [];
    for i := 0 to |items|
      invariant translated == all[..i]
    {
      var item := TranslateObjectWalk(items[i], hasKey, backend);
      PushNext(all, translated, i, item);
      translated := translated + [item];
    }
    assert all[..|items|] == all;
  }

  /** `for (const [key, value] of Object.entries(obj)) translated[key] = ...` */
  method TranslateFieldsWalk(fields: seq<Field>, hasKey: bool, backend: Backend) returns (translated: seq<Field>)
    ensures translated == TranslateFields(fields, hasKey, backend)
    decreases fields
  {
    ghost var all := TranslateFields(fields, hasKey, backend);
    translated := [];
    for i := 0 to |fields|
      invariant translated == all[..i]
    {
      var f := fields[i];
      var value := f.value;
      if Technical(f.key) {
        if LabelKey(f.key) {
          value := TranslateValue(f.value, hasKey, backend);
        }
      } else {
        value := TranslateObjectWalk(f.value, hasKey, backend);
      }
      PushNext(all, translated, i, Field(f.key, value));
      translated := translated + [Field(f.key, value)];
    }
    assert all[..|fields|] == all;
  }
}
