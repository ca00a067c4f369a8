/** The aiming model of llms/models.py: which models may aim, the ordered
    fallback list sent with every request, and the parser that turns a
    model reply into a screen point or `None`. */
module Aiming {
  import opened Py
  import opened PyText
  import opened Json
  import PyInt

  /** Models that may aim: the Qwen 2.5 VL family supports grounding. */
  const AllowedModels: seq<string> := [
    "qwen/qwen2.5-vl-3b-instruct:free",
    "qwen/qwen-2.5-vl-7b-instruct:free",
    "qwen/qwen-2.5-vl-7b-instruct",
    "qwen/qwen2.5-vl-32b-instruct:free",
    "qwen/qwen2.5-vl-32b-instruct",
    "qwen/qwen2.5-vl-72b-instruct"
  ]

  /** The allowed list of the Gemini subclass, which overrides the class
      attribute but inherits `ModelsOrdered`. */
  const GeminiAllowedModels: seq<string> := [
    "google/gemini-2.0-flash-exp:free",
    "google/gemini-2.5-flash-preview"
  ]

  /** The default fallback order. */
  const ModelsOrdered: seq<string> := [
    "qwen/qwen2.5-vl-32b-instruct",
    "qwen/qwen2.5-vl-72b-instruct",
    "qwen/qwen-2.5-vl-7b-instruct",
    "qwen/qwen2.5-vl-32b-instruct:free"
  ]

  /** Which class is being constructed: `AimingModel` or `GeminiAimingModel`. */
  datatype Family = Qwen | Gemini

  function Allowed(family: Family): seq<string> {
    match family
    case Qwen => AllowedModels
    case Gemini => GeminiAllowedModels
  }

  /** A constructed aiming model; the client and system message are left out. */
  datatype AimingModel = AimingModel(
    model: string,
    fallbackModels: seq<string>,
    temperature: Option<real>)

  /** `[m for m in xs if m != model]`. */
  function Without(xs: seq<string>, model: string): (r: seq<string>)
    ensures |r| <= |xs|
    ensures forall m :: m in r <==> m in xs && m != model
  {
    if xs == [] then []
    else if xs[0] == model then Without(xs[1..], model)
    else [xs[0]] + Without(xs[1..], model)
  }

  /** `AimingModel.__init__`: refuses a model outside the class's allowed
      list with `ValueError`, otherwise records the model and the fallback
      list, which is the default order minus the chosen model. */
  function NewAimingModel(family: Family, model: string, temperature: Option<real>): (r: Outcome<AimingModel>)
    ensures r.Raised? <==> model !in Allowed(family)
    ensures r.Raised? ==> r.error == ValueError
    ensures r.Returned? ==> r.value.model == model && r.value.temperature == temperature
    ensures r.Returned? ==> model !in r.value.fallbackModels
    ensures r.Returned? ==> forall m :: m in r.value.fallbackModels <==> m in ModelsOrdered && m != model
    ensures r.Returned? ==> |r.value.fallbackModels| == if model in ModelsOrdered then 3 else 4
  {
    if model !in Allowed(family) then Raised(ValueError)
    else
      FallbackLength(model);
      Returned(AimingModel(model, Without(ModelsOrdered, model), temperature))
  }

  /** The default order has four different models, so removing one that
      occurs leaves three. */
  lemma FallbackLength(model: string)
    ensures |Without(ModelsOrdered, model)| == if model in ModelsOrdered then 3 else 4
  {
    if model in ModelsOrdered {
      var i :| 0 <= i < 4 && ModelsOrdered[i] == model;
      WithoutDistinct(ModelsOrdered, i);
    } else {
      WithoutAbsent(ModelsOrdered, model);
    }
  }

  /** The models of `xs` are pairwise different. */
  predicate Distinct(xs: seq<string>) {
    forall i, j :: 0 <= i < j < |xs| ==> xs[i] != xs[j]
  }

  /** Removing a model that does not occur keeps the list as it is. */
  lemma {:induction false} WithoutAbsent(xs: seq<string>, model: string)
    requires model !in xs
    ensures Without(xs, model) == xs
  {
    if xs != [] {
      WithoutAbsent(xs[1..], model);
      assert xs == [xs[0]] + xs[1..];
    }
  }

  /** Removing the model at position `i` of a list without repetitions keeps
      the models before it and the models after it, each in their order. */
  lemma {:induction false} WithoutDistinct(xs: seq<string>, i: nat)
    requires i < |xs| && Distinct(xs)
    ensures Without(xs, xs[i]) == xs[..i] + xs[i + 1..]
  {
    if i == 0 {
      assert xs[i] !in xs[1..];
      WithoutAbsent(xs[1..], xs[0]);
    } else {
      assert Distinct(xs[1..]);
      assert xs[1..][i - 1] == xs[i];
      WithoutDistinct(xs[1..], i - 1);
      assert xs[..i] == [xs[0]] + xs[1..][..i - 1];
      assert xs[i + 1..] == xs[1..][i..];
    }
  }

  /** The fallback list keeps the default order: it is the default order
      with the chosen model cut out where it stood. */
  lemma FallbackOrder(family: Family, model: string, temperature: Option<real>)
    requires model in Allowed(family)
    ensures NewAimingModel(family, model, temperature).Returned?
    ensures model !in ModelsOrdered ==> NewAimingModel(family, model, temperature).value.fallbackModels == ModelsOrdered
    ensures forall i :: 0 <= i < |ModelsOrdered| && ModelsOrdered[i] == model ==>
              NewAimingModel(family, model, temperature).value.fallbackModels == ModelsOrdered[..i] + ModelsOrdered[i + 1..]
  {
    if model !in ModelsOrdered {
      WithoutAbsent(ModelsOrdered, model);
    }
    forall i | 0 <= i < |ModelsOrdered| && ModelsOrdered[i] == model
      ensures Without(ModelsOrdered, model) == ModelsOrdered[..i] + ModelsOrdered[i + 1..]
    {
      WithoutDistinct(ModelsOrdered, i);
    }
  }

  /** Every Gemini model falls back to all four Qwen models, none of which
      the Gemini class itself would accept. `GeminiAimingModel.__init__`
      takes no temperature, so it is always `None`. */
  lemma GeminiFallsBackToQwen(model: string)
    requires model in GeminiAllowedModels
    ensures NewAimingModel(Gemini, model, None).Returned?
    ensures NewAimingModel(Gemini, model, None).value.fallbackModels == ModelsOrdered
    ensures NewAimingModel(Gemini, model, None).value.temperature.None?
    ensures forall m :: m in ModelsOrdered ==> m !in GeminiAllowedModels && m in AllowedModels
  {
    WithoutAbsent(ModelsOrdered, model);
  }

  /** The model each constructor uses when none is given. */
  function DefaultModel(family: Family): string {
    match family
    case Qwen => "qwen/qwen2.5-vl-32b-instruct"
    case Gemini => "google/gemini-2.0-flash-exp:free"
  }

  /** `AimingModel()` succeeds: the default Qwen model heads the default
      order, so the other three remain as fallbacks, in order. */
  lemma QwenDefaultConstruction()
    ensures DefaultModel(Qwen) in AllowedModels
    ensures NewAimingModel(Qwen, DefaultModel(Qwen), None).Returned?
    ensures NewAimingModel(Qwen, DefaultModel(Qwen), None).value.fallbackModels == ModelsOrdered[1..]
  {
    assert ModelsOrdered[0] == DefaultModel(Qwen);
    WithoutDistinct(ModelsOrdered, 0);
    assert ModelsOrdered[..0] + ModelsOrdered[1..] == ModelsOrdered[1..];
  }

  /** `GeminiAimingModel()` succeeds, and its default model falls back to
      the whole default order. */
  lemma GeminiDefaultConstruction()
    ensures DefaultModel(Gemini) in GeminiAllowedModels
    ensures NewAimingModel(Gemini, DefaultModel(Gemini), None).Returned?
    ensures NewAimingModel(Gemini, DefaultModel(Gemini), None).value.fallbackModels == ModelsOrdered
  {
    GeminiFallsBackToQwen(DefaultModel(Gemini));
  }

  // ---------------------------------------------------------------- parsing

  /** The reply handed to the parser: text, or an already-decoded value (a
      dict, or `None` when the reply was blocked). */
  datatype Reply = Text(text: string) | Data(value: Json)

  predicate IsBacktick(c: char) {
    c == '`'
  }

  /** The characters of the argument of `strip("json")`. */
  predicate IsJsonLetter(c: char) {
    c == 'j' || c == 's' || c == 'o' || c == 'n'
  }

  /** Characters the cleaning may remove from either end of a reply. */
  predicate IsNoise(c: char) {
    IsSpace(c) || IsBacktick(c) || IsJsonLetter(c)
  }

  /** `reply.strip().strip("`").strip("json").strip()`. */
  function Clean(reply: string): string {
    Strip(Strip(Strip(Strip(reply, IsSpace), IsBacktick), IsJsonLetter), IsSpace)
  }

  /** The value the parser inspects: a `str`, whichever way it arrives, is
      cleaned and decoded; anything else is used as it is. `None` is a
      `JSONDecodeError`. */
  function DecodedData(reply: Reply, decode: Decoder): Option<Json> {
    match reply
    case Text(s) => decode(Clean(s))
    case Data(Str(s)) => decode(Clean(s))
    case Data(v) => Some(v)
  }

  /** Lines 236-246: `data["point"]` must be a dict whose `x` and `y` are
      present, not `None`, and accepted by `int()`. */
  function PointOf(data: Json): Outcome<Point> {
    var point :- Get(data, "point", Object(map[]));
    var x :- Get(point, "x", Null);
    // once `point.get("x")` has returned, `point` is a dict and `get("y")` cannot raise
    var y := if "y" in point.fields then point.fields["y"] else Null;
    if x.Null? || y.Null? then Raised(ValueError)
    else
      var px :- IntOf(x);
      var py :- IntOf(y);
      Returned(Point(px, py))
  }

  /** The body of the `try` block of `parse_point_json`. */
  function TryParse(reply: Reply, decode: Decoder): Outcome<Point> {
    match DecodedData(reply, decode)
    case None => Raised(JsonDecodeError)
    case Some(data) => PointOf(data)
  }

  /** What it means for decoded data to name the point `p`. */
  predicate Denotes(data: Json, p: Point) {
    && data.Object? && "point" in data.fields
    && data.fields["point"].Object?
    && "x" in data.fields["point"].fields && "y" in data.fields["point"].fields
    && IntOf(data.fields["point"].fields["x"]) == Returned(p.x)
    && IntOf(data.fields["point"].fields["y"]) == Returned(p.y)
  }

  /** `AimingModel.parse_point_json`: total, every exception becomes `None`.
      It yields a point exactly when the decoded data denotes one. */
  function ParsePointJson(reply: Reply, decode: Decoder): (r: Option<Point>)
    ensures r.None? <==> TryParse(reply, decode).Raised?
    ensures r.Some? ==> DecodedData(reply, decode).Some? && Denotes(DecodedData(reply, decode).value, r.value)
    ensures forall p :: DecodedData(reply, decode).Some? && Denotes(DecodedData(reply, decode).value, p) ==> r == Some(p)
  {
    TryParse(reply, decode).Caught()
  }

  /** No `point`, a `point` without `x` or `y`, or a `None` coordinate: `None`. */
  lemma MissingCoordinateGivesNone(reply: Reply, decode: Decoder, data: Json)
    requires DecodedData(reply, decode) == Some(data) && data.Object?
    requires || "point" !in data.fields
             || (data.fields["point"].Object? &&
                 var f := data.fields["point"].fields;
                 || "x" !in f || "y" !in f
                 || f["x"] == Null || f["y"] == Null)
    ensures ParsePointJson(reply, decode) == None
  {
  }

  /** A reply that is not a `str` is never cleaned or decoded, while a `str`
      is decoded the same whether it arrives as text or as a value. */
  lemma DataSkipsDecoding(v: Json, d1: Decoder, d2: Decoder)
    ensures !v.Str? ==> ParsePointJson(Data(v), d1) == ParsePointJson(Data(v), d2)
    ensures v.Str? ==> ParsePointJson(Data(v), d1) == ParsePointJson(Text(v.s), d1)
  {
  }

  /** A text reply is decoded once, after cleaning: only the decoder's answer
      on the cleaned text matters. */
  lemma TextDecodesCleaned(s: string, d1: Decoder, d2: Decoder)
    requires d1(Clean(s)) == d2(Clean(s))
    ensures ParsePointJson(Text(s), d1) == ParsePointJson(Text(s), d2)
  {
  }

  /** Cleaning only cuts noise from the two ends: the result is an infix of
      the reply, everything cut away is whitespace, a backtick or one of
      `j`, `s`, `o`, `n`, and the result has no whitespace at either end. */
  lemma CleanCutsNoise(s: string)
    ensures PaddedBy(s, Clean(s), IsNoise)
    ensures var c := Clean(s); c == [] || (!IsSpace(c[0]) && !IsSpace(c[|c| - 1]))
  {
    var s2 := Strip(Strip(s, IsSpace), IsBacktick);
    CleanFirstHalf(s);
    CleanSecondHalf(s2);
    PaddingComposes(s, s2, Clean(s), IsNoise);
  }

  /** Stripping a class of noise characters cuts noise. */
  lemma StripCutsNoise(s: string, p: char -> bool)
    requires forall c :: p(c) ==> IsNoise(c)
    ensures PaddedBy(s, Strip(s, p), IsNoise)
  {
    StripRemovesPadding(s, p);
    PaddingWidens(s, Strip(s, p), p, IsNoise);
  }

  lemma CleanFirstHalf(s: string)
    ensures PaddedBy(s, Strip(Strip(s, IsSpace), IsBacktick), IsNoise)
  {
    var s1 := Strip(s, IsSpace);
    StripCutsNoise(s, IsSpace);
    StripCutsNoise(s1, IsBacktick);
    PaddingComposes(s, s1, Strip(s1, IsBacktick), IsNoise);
  }

  lemma CleanSecondHalf(s2: string)
    ensures PaddedBy(s2, Strip(Strip(s2, IsJsonLetter), IsSpace), IsNoise)
  {
    var s3 := Strip(s2, IsJsonLetter);
    StripCutsNoise(s2, IsJsonLetter);
    StripCutsNoise(s3, IsSpace);
    PaddingComposes(s2, s3, Strip(s3, IsSpace), IsNoise);
  }

  /** The reply shown to the model as the expected answer,
      `json.dumps({"point": {"x": "500", "y": "452"}})`. */
  const ExampleResponse: string := "{\"point\": {\"x\": \"500\", \"y\": \"452\"}}"

  /** The value `json.loads` gives for `ExampleResponse`: its coordinates are
      the strings `str(500)` and `str(452)`. */
  const ExampleData: Json := PointData(500, 452)

  /** `{"point": {"x": str(x), "y": str(y)}}`. */
  function PointData(x: int, y: int): Json {
    Object(map["point" := Object(map["x" := Str(PyInt.Str(x)), "y" := Str(PyInt.Str(y))])])
  }

  /** The documented example parses to `{x: 500, y: 452}`, whether it arrives
      as text (typed as a reply or as a `str` value), fenced as a Markdown
      `json` code block, or already decoded. */
  lemma DocumentedExample(decode: Decoder)
    requires decode(ExampleResponse) == Some(ExampleData)
    ensures ParsePointJson(Data(ExampleData), decode) == Some(Point(500, 452))
    ensures ParsePointJson(Text(ExampleResponse), decode) == Some(Point(500, 452))
    ensures ParsePointJson(Data(Str(ExampleResponse)), decode) == Some(Point(500, 452))
    ensures ParsePointJson(Text("```json\n" + ExampleResponse + "\n```"), decode) == Some(Point(500, 452))
  {
    PointDataDenotes(500, 452);
    var e := ExampleResponse;
    assert e[0] == '{' && e[|e| - 1] == '}';
    ObjectParses(e, decode, ExampleData, Point(500, 452));
  }

  /** A JSON object whose data denotes a point parses to it in every form a
      reply can take. */
  lemma ObjectParses(e: string, decode: Decoder, v: Json, p: Point)
    requires |e| > 0 && e[0] == '{' && e[|e| - 1] == '}'
    requires decode(e) == Some(v) && Denotes(v, p)
    ensures ParsePointJson(Data(v), decode) == Some(p)
    ensures ParsePointJson(Text(e), decode) == Some(p)
    ensures ParsePointJson(Data(Str(e)), decode) == Some(p)
    ensures ParsePointJson(Text("```json\n" + e + "\n```"), decode) == Some(p)
  {
    DecodedObject(e, decode, v);
  }

  /** Every text form of a JSON object decodes to what the decoder makes of
      the object itself. */
  lemma DecodedObject(e: string, decode: Decoder, v: Json)
    requires |e| > 0 && e[0] == '{' && e[|e| - 1] == '}'
    requires decode(e) == Some(v)
    ensures DecodedData(Text(e), decode) == Some(v)
    ensures DecodedData(Data(Str(e)), decode) == Some(v)
    ensures DecodedData(Text("```json\n" + e + "\n```"), decode) == Some(v)
  {
    CleanUnfences(e);
  }

  /** The data of a point written with `str()` denotes that point. */
  lemma PointDataDenotes(x: int, y: int)
    ensures Denotes(PointData(x, y), Point(x, y))
  {
    IntOfStr(x);
    IntOfStr(y);
  }

  /** A reply that is a JSON object is left as it is by the cleaning, and
      so is the object inside a Markdown `json` code block. */
  lemma CleanUnfences(e: string)
    requires |e| > 0 && e[0] == '{' && e[|e| - 1] == '}'
    ensures Clean(e) == e
    ensures Clean("```json\n" + e + "\n```") == e
  {
    CleanKeeps(e);
    var inner := "json\n" + e + "\n";
    var fenced := "```json\n" + e + "\n```";
    assert fenced == "```" + inner + "```";
    UnfenceBackticks(fenced, inner);
    UnfenceLetters(inner, e);
    StripUnique("\n", e, "\n", IsSpace);
  }

  /** Text that starts and ends with a character no strip removes is
      left as it is. */
  lemma CleanKeeps(e: string)
    requires |e| > 0 && !IsNoise(e[0]) && !IsNoise(e[|e| - 1])
    ensures Clean(e) == e
  {
    StripKeeps(e, IsSpace);
    StripKeeps(e, IsBacktick);
    StripKeeps(e, IsJsonLetter);
  }

  lemma UnfenceBackticks(fenced: string, inner: string)
    requires fenced == "```" + inner + "```" && |inner| > 0 && inner[0] == 'j' && inner[|inner| - 1] == '\n'
    ensures Strip(Strip(fenced, IsSpace), IsBacktick) == inner
  {
    StripKeeps(fenced, IsSpace);
    StripUnique("```", inner, "```", IsBacktick);
  }

  lemma UnfenceLetters(inner: string, e: string)
    requires inner == "json\n" + e + "\n" && |e| > 0 && e[0] == '{'
    ensures Strip(inner, IsJsonLetter) == "\n" + e + "\n"
  {
    var nl := "\n" + e + "\n";
    assert inner == "json" + nl + [];
    StripUnique("json", nl, [], IsJsonLetter);
  }

  /** The strips run in order: a backtick behind a `json` prefix survives,
      because backticks are stripped before the letters. */
  lemma CleanOrder(t: string)
    requires |t| > 0 && t[0] == '`' && !IsNoise(t[|t| - 1])
    ensures Clean("json" + t) == t
  {
    var s := "json" + t;
    StripKeeps(s, IsSpace);
    StripKeeps(s, IsBacktick);
    assert s == "json" + t + [];
    StripUnique("json", t, [], IsJsonLetter);
    StripKeeps(t, IsSpace);
  }
}
