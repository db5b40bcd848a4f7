/** The generation pipeline of src/streaming-generator.js: a semantic-cache
    check, the chain-of-thought prompt, one streamed request, the quality
    pass, image enrichment and the quality-gated cache write, reported as a
    fixed sequence of progress events; any failure of the stream turns into
    a fallback project. Clock readings, the image search and the transport
    are parameters. */
module StreamingGenerator {
  import opened Wrappers
  import opened Strings
  import opened Json
  import SC = SemanticCache
  import SH = StreamingHandler
  import Scot = ScotEnhancer
  import QE = QualityEnhancer

  // ---------------------------------------------------------------------
  // Object spread
  // ---------------------------------------------------------------------

  /** The own enumerable properties `{...v}` copies: an object's fields, the
      indices of an array or a string, and nothing for null, booleans and
      numbers. */
  function Own(v: Json): (r: seq<Field>) {
    match v
    case JObj(fields) => fields
    case JArr(items) => seq(|items|, i requires 0 <= i < |items| => Field(NatToString(i), items[i]))
    case JStr(s) => seq(|s|, i requires 0 <= i < |s| => Field(NatToString(i), JStr([s[i]])))
    case _ => []
  }

  /** The properties `extra` written one after the other onto `base`, as an
      object literal does after a spread. */
  function Assign(base: seq<Field>, extra: seq<Field>): (r: seq<Field>)
    decreases |extra|
  {
    if extra == [] then base
    else
      var last := extra[|extra| - 1];
      SetField(Assign(base, extra[..|extra| - 1]), last.key, last.value)
  }

  /** `{...v}`. */
  function Spread(v: Json): (r: seq<Field>) {
    Assign([], Own(v))
  }

  /** Assignments keep the keys of an object distinct. */
  lemma {:induction false} AssignUnique(base: seq<Field>, extra: seq<Field>)
    requires UniqueKeys(base)
    ensures UniqueKeys(Assign(base, extra))
    decreases |extra|
  {
    if extra != [] {
      var last := extra[|extra| - 1];
      AssignUnique(base, extra[..|extra| - 1]);
      SetFieldUnique(Assign(base, extra[..|extra| - 1]), last.key, last.value);
    }
  }

  /** The keys of a prefix of distinct keys are distinct. */
  lemma {:induction false} DistinctPrefix(xs: seq<string>, ys: seq<string>)
    requires Distinct(xs + ys)
    ensures Distinct(xs)
    decreases |xs|
  {
    if xs != [] {
      assert (xs + ys)[1..] == xs[1..] + ys;
      DistinctPrefix(xs[1..], ys);
    }
  }

  /** Fields with distinct keys are copied as they are. */
  lemma {:induction false} AssignFresh(fields: seq<Field>)
    requires UniqueKeys(fields)
    ensures Assign([], fields) == fields
    decreases |fields|
  {
    if fields != [] {
      var init, last := fields[..|fields| - 1], fields[|fields| - 1];
      assert fields == init + [last];
      assert KeysOf(fields) == KeysOf(init) + [last.key];
      DistinctPrefix(KeysOf(init), [last.key]);
      DistinctSplit(KeysOf(init), [last.key]);
      AssignFresh(init);
    }
  }

  /** The spread of an object copies its fields, and every spread has
      distinct keys. */
  lemma SpreadFacts(v: Json)
    ensures UniqueKeys(Spread(v))
    ensures v.JObj? && UniqueKeys(v.fields) ==> Spread(v) == v.fields
  {
    AssignUnique([], Own(v));
    if v.JObj? && UniqueKeys(v.fields) {
      AssignFresh(v.fields);
    }
  }

  // ---------------------------------------------------------------------
  // extractImageKeywords
  // ---------------------------------------------------------------------

  const ShopWords: seq<string> := ["ecommerce", "shop"]
  const FoodWords: seq<string> := ["food", "restaurant"]
  const TravelWords: seq<string> := ["travel", "vacation"]
  const TechWords: seq<string> := ["tech", "software"]

  const ShopImages: seq<string> := ["products", "shopping", "business"]
  const FoodImages: seq<string> := ["food", "restaurant", "cooking"]
  const TravelImages: seq<string> := ["travel", "vacation", "landscape"]
  const TechImages: seq<string> := ["technology", "software", "computer"]
  const GenericImages: seq<string> := ["business", "office", "modern"]

  /** The topics an application name can add. */
  const NameTopics: seq<string> := ["music", "fitness", "education"]

  /** The keywords of the first category the lower-cased prompt mentions,
      the generic ones when it mentions none. */
  function CategoryWords(lower: string): (r: seq<string>)
    ensures r in [ShopImages, FoodImages, TravelImages, TechImages, GenericImages]
  {
    if ContainsAny(lower, ShopWords) then ShopImages
    else if ContainsAny(lower, FoodWords) then FoodImages
    else if ContainsAny(lower, TravelWords) then TravelImages
    else if ContainsAny(lower, TechWords) then TechImages
    else GenericImages
  }

  /** The category keywords follow the priority of the if-chain, in both
      directions. */
  lemma CategoryPriority(lower: string)
    ensures var r, s, f, t, c := CategoryWords(lower), ContainsAny(lower, ShopWords), ContainsAny(lower, FoodWords),
        ContainsAny(lower, TravelWords), ContainsAny(lower, TechWords);
      && (r == ShopImages <==> s)
      && (r == FoodImages <==> !s && f)
      && (r == TravelImages <==> !s && !f && t)
      && (r == TechImages <==> !s && !f && !t && c)
      && (r == GenericImages <==> !s && !f && !t && !c)
  {
  }

  /** Each category has three different keywords, none of them a topic. */
  lemma CategoryWordsDistinct(lower: string)
    ensures var r := CategoryWords(lower);
      |r| == 3 && Distinct(r) && forall x :: x in r ==> x !in NameTopics
  {
  }

  /** The topics of `topics` that `lowerName` mentions, in order. */
  function Mentioned(topics: seq<string>, lowerName: string): (r: seq<string>)
    ensures forall x :: x in r <==> x in topics && Contains(lowerName, x)
    decreases |topics|
  {
    if topics == [] then []
    else (if Contains(lowerName, topics[0]) then [topics[0]] else []) + Mentioned(topics[1..], lowerName)
  }

  /** Picking from topics without repetitions repeats none. */
  lemma {:induction false} MentionedDistinct(topics: seq<string>, lowerName: string)
    requires Distinct(topics)
    ensures Distinct(Mentioned(topics, lowerName))
    decreases |topics|
  {
    if topics != [] {
      var rest := Mentioned(topics[1..], lowerName);
      MentionedDistinct(topics[1..], lowerName);
      if Contains(lowerName, topics[0]) {
        assert topics[0] !in rest;
        assert ([topics[0]] + rest)[1..] == rest;
      } else {
        assert [] + rest == rest;
      }
    }
  }

  /** The topics the lower-cased name mentions: music, fitness, education. */
  function NameWords(lowerName: string): (r: seq<string>)
    ensures Distinct(r)
    ensures forall x :: x in r <==> x in NameTopics && Contains(lowerName, x)
  {
    MentionedDistinct(NameTopics, lowerName);
    Mentioned(NameTopics, lowerName)
  }

  /** Two sequences without repetitions and without a common element make one
      without repetitions. */
  lemma {:induction false} DistinctConcat(xs: seq<string>, ys: seq<string>)
    requires Distinct(xs) && Distinct(ys)
    requires forall x :: x in xs ==> x !in ys
    ensures Distinct(xs + ys)
    decreases |xs|
  {
    if xs != [] {
      var zs := xs + ys;
      assert zs[0] == xs[0] && zs[1..] == xs[1..] + ys;
      assert xs[0] in xs;
      assert forall x :: x in xs[1..] ==> x in xs;
      DistinctConcat(xs[1..], ys);
      assert xs[0] !in zs[1..];
    } else {
      assert xs + ys == ys;
    }
  }

  /** `[...new Set(xs)]`: each element at its first occurrence. */
  function Dedup(xs: seq<string>): (r: seq<string>)
    ensures Distinct(r)
    ensures forall x :: x in r <==> x in xs
    decreases |xs|
  {
    if xs == [] then []
    else
      var init, x := xs[..|xs| - 1], xs[|xs| - 1];
      assert xs == init + [x];
      var d := Dedup(init);
      if x in d then d
      else
        DistinctAppend(d, x);
        d + [x]
  }

  /** A sequence without repetitions is left as it is. */
  lemma {:induction false} DedupDistinct(xs: seq<string>)
    requires Distinct(xs)
    ensures Dedup(xs) == xs
    decreases |xs|
  {
    if xs != [] {
      var init, x := xs[..|xs| - 1], xs[|xs| - 1];
      assert xs == init + [x];
      DistinctPrefix(init, [x]);
      DistinctSplit(init, [x]);
      DedupDistinct(init);
    }
  }

  /** `parsedResult && parsedResult.name`: an object with a truthy name. */
  predicate HasName(parsed: Json) {
    parsed.JObj? && Present(Get(parsed.fields, "name"))
  }

  /** The name is there but it is not a string, so `toLowerCase` throws. */
  predicate NameIsNotText(parsed: Json) {
    HasName(parsed) && !Get(parsed.fields, "name").value.JStr?
  }

  /** The keywords `base` of the category and the topics of the name, each
      once; `Err` when the name is truthy but not a string. */
  function Keywords(base: seq<string>, parsed: Json): (r: Result<seq<string>>)
    ensures r.Err? <==> NameIsNotText(parsed)
  {
    if Truthy(parsed) && HasName(parsed) then
      match Get(parsed.fields, "name").value
      case JStr(name) => Ok(Dedup(base + NameWords(ToLower(name))))
      case _ => Err(TypeError)
    else Ok(Dedup(base))
  }

  /** Keywords without repetitions, none of them a topic, followed by the
      topics a name mentions: the list starts with the keywords, repeats
      nothing, and holds a topic exactly when the name mentions it. */
  lemma WithTopics(base: seq<string>, lowerName: string)
    requires Distinct(base) && forall x :: x in base ==> x !in NameTopics
    ensures var r := Dedup(base + NameWords(lowerName));
      && |r| >= |base| && r[..|base|] == base && Distinct(r)
      && forall t :: t in NameTopics ==> (t in r <==> Contains(lowerName, t))
  {
    var extra := NameWords(lowerName);
    DistinctConcat(base, extra);
    DedupDistinct(base + extra);
    assert (base + extra)[..|base|] == base;
  }

  /** From keywords without repetitions none of which is a topic, the list
      starts with them, repeats nothing, and holds a topic exactly when the
      lower-cased name mentions it. */
  lemma KeywordsSpec(base: seq<string>, parsed: Json)
    requires Distinct(base) && forall x :: x in base ==> x !in NameTopics
    requires !NameIsNotText(parsed)
    ensures var r := Keywords(base, parsed).value;
      && |r| >= |base| && r[..|base|] == base && Distinct(r)
      && (HasName(parsed) ==> forall t :: t in NameTopics ==>
            (t in r <==> Contains(ToLower(Get(parsed.fields, "name").value.s), t)))
      && (!HasName(parsed) ==> r == base)
  {
    if HasName(parsed) {
      var name := Get(parsed.fields, "name").value.s;
      assert Keywords(base, parsed) == Ok(Dedup(base + NameWords(ToLower(name))));
      WithTopics(base, ToLower(name));
    } else {
      assert Keywords(base, parsed) == Ok(Dedup(base));
      DedupDistinct(base);
    }
  }

  /** `extractImageKeywords(prompt, parsedResult)`. */
  function ExtractImageKeywords(prompt: string, parsed: Json): (r: Result<seq<string>>)
    ensures r.Err? <==> NameIsNotText(parsed)
    ensures r.Ok? ==> |r.value| >= 3 && r.value[..3] == CategoryWords(ToLower(prompt)) && Distinct(r.value)
  {
    var base := CategoryWords(ToLower(prompt));
    CategoryWordsDistinct(ToLower(prompt));
    var r := Keywords(base, parsed);
    if r.Ok? then KeywordsSpec(base, parsed); r else r
  }

  /** A topic is among the keywords exactly when the lower-cased name
      mentions it; without a name only the category's three remain. */
  lemma KeywordsFromName(prompt: string, parsed: Json, topic: string)
    requires ExtractImageKeywords(prompt, parsed).Ok?
    requires topic in NameTopics
    ensures var r := ExtractImageKeywords(prompt, parsed).value;
      && (HasName(parsed) ==> (topic in r <==> Contains(ToLower(Get(parsed.fields, "name").value.s), topic)))
      && (!HasName(parsed) ==> r == CategoryWords(ToLower(prompt)))
  {
    CategoryWordsDistinct(ToLower(prompt));
    KeywordsSpec(CategoryWords(ToLower(prompt)), parsed);
  }

  // ---------------------------------------------------------------------
  // enrichWithImages
  // ---------------------------------------------------------------------

  /** What `searchImages(keyword, 2)` gives, or `[]` when it throws. */
  function ImageValue(search: string -> Option<Json>, keyword: string): Json {
    search(keyword).GetOr(JArr([]))
  }

  function ImageFields(keywords: seq<string>, search: string -> Option<Json>): seq<Field> {
    seq(|keywords|, i requires 0 <= i < |keywords| => Field(keywords[i], ImageValue(search, keywords[i])))
  }

  /** The `images` object: one property per keyword searched. */
  function Images(keywords: seq<string>, search: string -> Option<Json>): (r: seq<Field>) {
    Assign([], ImageFields(keywords, search))
  }

  /** `imageKeywords.slice(0, 3)`. */
  function FirstThree(keywords: seq<string>): (r: seq<string>) {
    keywords[..if |keywords| < 3 then |keywords| else 3]
  }

  /** One more keyword searched writes one more property. */
  lemma ImagesStep(keywords: seq<string>, i: nat, search: string -> Option<Json>)
    requires i < |keywords|
    ensures Images(keywords[..i + 1], search)
      == SetField(Images(keywords[..i], search), keywords[i], ImageValue(search, keywords[i]))
  {
    var f := ImageFields(keywords[..i + 1], search);
    assert f[..i] == ImageFields(keywords[..i], search);
    assert f[i] == Field(keywords[i], ImageValue(search, keywords[i]));
  }

  /** Each keyword searched reads its images, every other key is absent. */
  lemma {:induction false} ImagesGet(keywords: seq<string>, search: string -> Option<Json>, k: string)
    ensures Get(Images(keywords, search), k) == if k in keywords then Some(ImageValue(search, k)) else None
    decreases |keywords|
  {
    if keywords != [] {
      var i := |keywords| - 1;
      assert keywords[..i + 1] == keywords && keywords == keywords[..i] + [keywords[i]];
      ImagesStep(keywords, i, search);
      ImagesGet(keywords[..i], search, k);
      SetFieldGet(Images(keywords[..i], search), keywords[i], ImageValue(search, keywords[i]), k);
    }
  }

  /** Distinct keywords give the properties in keyword order. */
  lemma ImagesInOrder(keywords: seq<string>, search: string -> Option<Json>)
    requires Distinct(keywords)
    ensures Images(keywords, search) == ImageFields(keywords, search)
  {
    assert KeysOf(ImageFields(keywords, search)) == keywords;
    AssignFresh(ImageFields(keywords, search));
  }

  /** `enrichWithImages(result, prompt)`: a string is parsed first; an
      object or an array gets its `images` property; a
      parse error, a name that is not a string, and an assignment on null
      or on a primitive (which throws in strict mode) all give back
      `result` itself. */
  function Enriched(result: Json, prompt: string, search: string -> Option<Json>): (r: Json) {
    var parsed := if result.JStr? then Parse(result.s) else Some(result);
    if parsed.None? then result else Attach(parsed.value, result, prompt, search)
  }

  /** The part of `enrichWithImages` after parsing: `parsed` is the value
      worked on and `result` what the catch block gives back. */
  function Attach(parsed: Json, result: Json, prompt: string, search: string -> Option<Json>): (r: Json) {
    match ExtractImageKeywords(prompt, parsed)
    case Err(_) => result
    case Ok(keywords) =>
      match parsed
      case JObj(fields) => JObj(SetField(fields, "images", JObj(Images(FirstThree(keywords), search))))
      case JArr(_) => JObj(SetField(Own(parsed), "images", JObj(Images(FirstThree(keywords), search))))
      case _ => result
  }

  /** An array gets its `images` property after its indices: it is kept as
      the object of its own properties, which is what every later spread of
      it copies. */
  lemma AttachArray(parsed: Json, result: Json, prompt: string, search: string -> Option<Json>)
    requires parsed.JArr?
    ensures Attach(parsed, result, prompt, search)
      == JObj(Own(parsed) + [Field("images", JObj(Images(CategoryWords(ToLower(prompt)), search)))])
  {
    var keywords := ExtractImageKeywords(prompt, parsed).value;
    assert FirstThree(keywords) == CategoryWords(ToLower(prompt));
    var own := Own(parsed);
    forall i | 0 <= i < |own| ensures own[i].key != "images" {
      assert IsDigit(own[i].key[0]);
    }
  }

  /** The keyword list is never empty, so an object always gets images, and
      exactly for the three category keywords: the topics of the name come
      after them and are never searched. */
  lemma AttachObject(parsed: Json, result: Json, prompt: string, search: string -> Option<Json>)
    requires parsed.JObj? && !NameIsNotText(parsed)
    ensures var images := Images(CategoryWords(ToLower(prompt)), search);
      && Attach(parsed, result, prompt, search) == JObj(SetField(parsed.fields, "images", JObj(images)))
      && images == ImageFields(CategoryWords(ToLower(prompt)), search)
      && forall t :: t in NameTopics ==> Get(images, t) == None
  {
    var keywords := ExtractImageKeywords(prompt, parsed).value;
    var base := CategoryWords(ToLower(prompt));
    assert FirstThree(keywords) == base;
    CategoryWordsDistinct(ToLower(prompt));
    ImagesInOrder(base, search);
    forall t | t in NameTopics
      ensures Get(Images(base, search), t) == None
    {
      ImagesGet(base, search, t);
    }
  }

  /** An object, given or parsed from the text, gets the images of its
      category's keywords. */
  lemma EnrichedObject(result: Json, prompt: string, search: string -> Option<Json>)
    requires result.JStr? ==> Parse(result.s).Some?
    requires var parsed := if result.JStr? then Parse(result.s).value else result;
      parsed.JObj? && !NameIsNotText(parsed)
    ensures var parsed := if result.JStr? then Parse(result.s).value else result;
      var images := Images(CategoryWords(ToLower(prompt)), search);
      && Enriched(result, prompt, search) == JObj(SetField(parsed.fields, "images", JObj(images)))
      && forall t :: t in NameTopics ==> Get(images, t) == None
  {
    var parsed := if result.JStr? then Parse(result.s).value else result;
    AttachObject(parsed, result, prompt, search);
  }

  /** Text that does not parse, and JSON null or a primitive (parsed or
      given), come back unchanged. */
  lemma EnrichedUnchanged(result: Json, prompt: string, search: string -> Option<Json>)
    requires result.JStr? ==> Parse(result.s).None? || !(Parse(result.s).value.JObj? || Parse(result.s).value.JArr?)
    requires !result.JStr? ==> !(result.JObj? || result.JArr?)
    ensures Enriched(result, prompt, search) == result
  {
  }

  /** `enrichWithImages(result, prompt)`: the loop over the first three
      keywords, one search each. */
  method EnrichWithImages(result: Json, prompt: string, search: string -> Option<Json>) returns (r: Json)
    ensures r == Enriched(result, prompt, search)
  {
    var parsed: Json;
    if result.JStr? {
      var p := Parse(result.s);
      if p.None? {
        return result;
      }
      parsed := p.value;
    } else {
      parsed := result;
    }
    var keywords := ExtractImageKeywords(prompt, parsed);
    if keywords.Err? {
      return result;
    }
    var images := SearchImages(FirstThree(keywords.value), search);
    match parsed
    case JObj(fields) =>
      r := JObj(SetField(fields, "images", JObj(images)));
    case JArr(_) =>
      r := JObj(SetField(Own(parsed), "images", JObj(images)));
    case _ =>
      r := result;
  }

  /** The search loop of `enrichWithImages`: one property per keyword, set
      in turn. */
  method SearchImages(chosen: seq<string>, search: string -> Option<Json>) returns (images: seq<Field>)
    ensures images == Images(chosen, search)
  {
    images := [];
    for i := 0 to |chosen|
      invariant images == Images(chosen[..i], search)
    {
      ImagesStep(chosen, i, search);
      images := SetField(images, chosen[i], ImageValue(search, chosen[i]));
    }
    assert chosen[..|chosen|] == chosen;
  }

  // ---------------------------------------------------------------------
  // extractAppName and createFallbackResult
  // ---------------------------------------------------------------------

  /** A word of more than three characters that is no stop word once
      lower-cased. */
  predicate NameWord(w: string) {
    |w| > 3 && ToLower(w) !in QE.NameStopWords
  }

  /** The first word that qualifies, in its own letter case. */
  function FirstNameWord(words: seq<string>): (r: Option<string>)
    ensures r.None? <==> forall i :: 0 <= i < |words| ==> !NameWord(words[i])
    ensures r.Some? ==> NameWord(r.value) && r.value in words
    decreases |words|
  {
    if words == [] then None
    else if NameWord(words[0]) then Some(words[0])
    else
      var r := FirstNameWord(words[1..]);
      assert forall i :: 1 <= i < |words| ==> words[i] == words[1..][i - 1];
      r
  }

  /** `extractAppName(prompt)`: the first qualifying word of the prompt,
      split on single spaces, capitalized and followed by `App`; `MyApp`
      when there is none. */
  function ExtractAppName(prompt: string): (r: string)
    ensures |r| >= 5 && EndsWith(r, "App")
    ensures FirstNameWord(Split(prompt, " ")).None? <==> r == "MyApp"
  {
    match FirstNameWord(Split(prompt, " "))
    case None => "MyApp"
    case Some(w) =>
      assert (Capitalize(w) + "App")[|Capitalize(w)|..] == "App";
      Capitalize(w) + "App"
  }

  /** The word `FirstNameWord` picks is the first one that qualifies. */
  lemma {:induction false} FirstNameWordIsFirst(words: seq<string>)
    requires FirstNameWord(words).Some?
    ensures exists i :: (&& 0 <= i < |words| && words[i] == FirstNameWord(words).value
                         && forall j :: 0 <= j < i ==> !NameWord(words[j]))
    decreases |words|
  {
    if !NameWord(words[0]) {
      FirstNameWordIsFirst(words[1..]);
      var i :| 0 <= i < |words[1..]| && words[1..][i] == FirstNameWord(words[1..]).value
        && forall j :: 0 <= j < i ==> !NameWord(words[1..][j]);
      assert words[i + 1] == words[1..][i];
      assert forall j :: 1 <= j < i + 1 ==> words[j] == words[1..][j - 1];
    }
  }

  /** The application name is built from the first qualifying word of the
      prompt, in its own case, capitalized and followed by `App`. */
  lemma ExtractAppNameFirst(prompt: string)
    ensures var words := Split(prompt, " ");
      (exists i :: 0 <= i < |words| && NameWord(words[i])) ==>
        exists i :: (&& 0 <= i < |words| && NameWord(words[i])
                     && (forall j :: 0 <= j < i ==> !NameWord(words[j]))
                     && ExtractAppName(prompt) == Capitalize(words[i]) + "App")
  {
    var words := Split(prompt, " ");
    if FirstNameWord(words).Some? {
      FirstNameWordIsFirst(words);
    }
  }

  const FallbackDescription := "Application générée à partir de: \""

  function Component(name: string): Json {
    JObj([Field("name", JStr(name)), Field("props", JArr([])), Field("hooks", JArr([])), Field("dependencies", JArr([]))])
  }

  /** The extracted name, which is never empty, so the `'GeneratedApp'`
      default is never used. */
  function FallbackName(prompt: string): (r: string)
    ensures r != ""
  {
    var n := ExtractAppName(prompt);
    if n != "" then n else "GeneratedApp"
  }

  function Seo(name: string): Json {
    JObj([Field("title", JStr(name)), Field("description", JStr("Generated application"))])
  }

  function HomePage(name: string): Json {
    JObj([
      Field("name", JStr("Home")),
      Field("path", JStr("/")),
      Field("components", JArr([JStr("Header"), JStr("Footer")])),
      Field("layout", JStr("Basic homepage layout")),
      Field("seo", Seo(name))
    ])
  }

  function FallbackPages(name: string): Json {
    JArr([HomePage(name)])
  }

  const AppContext: Json := JObj([
    Field("name", JStr("AppContext")),
    Field("state", JArr([JStr("loading"), JStr("user")])),
    Field("actions", JArr([JStr("setLoading")]))
  ])

  const FallbackContexts: Json := JArr([AppContext])

  const HealthRoute: Json := JObj([
    Field("path", JStr("/api/health")),
    Field("method", JStr("GET")),
    Field("description", JStr("Health check"))
  ])

  const FallbackRoutes: Json := JArr([HealthRoute])

  const Colors: Json := JObj([Field("primary", JStr("#3B82F6")), Field("secondary", JStr("#64748B"))])
  const Typography: Json := JObj([Field("fontFamily", JStr("Inter, sans-serif"))])
  const FallbackDesign: Json := JObj([Field("colors", Colors), Field("typography", Typography)])

  function FallbackMetadata(prompt: string, message: string, now: int): Json {
    JObj([Field("generatedAt", JNum(now, 0)), Field("prompt", JStr(prompt)), Field("fallback", JBool(true)), Field("error", JStr(message))])
  }

  /** `createFallbackResult(prompt, error)`, `error.message` being
      `message` and `Date.now()` being `now`. */
  function FallbackResult(prompt: string, message: string, now: int): (r: Json) {
    var name := FallbackName(prompt);
    JObj([
      Field("projectType", JStr("fallback")),
      Field("name", JStr(name)),
      Field("description", JStr(FallbackDescription + prompt + "\"")),
      Field("error", JStr(message)),
      Field("pages", FallbackPages(name)),
      Field("components", JArr([Component("Header"), Component("Footer")])),
      Field("contexts", FallbackContexts),
      Field("apiRoutes", FallbackRoutes),
      Field("images", JObj([])),
      Field("designSystem", FallbackDesign),
      Field("metadata", FallbackMetadata(prompt, message, now))
    ])
  }

  /** A property of an object with distinct keys reads the value stored
      under it. */
  lemma {:induction false} GetAt(fields: seq<Field>, i: nat)
    requires UniqueKeys(fields) && i < |fields|
    ensures Get(fields, fields[i].key) == Some(fields[i].value)
    decreases i
  {
    KeysOfCons(fields[0], fields[1..]);
    assert fields == [fields[0]] + fields[1..];
    if i > 0 {
      assert fields[i].key in KeysOf(fields[1..]);
      assert fields[1..][i - 1] == fields[i];
      GetAt(fields[1..], i - 1);
    }
  }

  const FallbackKeys: seq<string> := ["projectType", "name", "description", "error", "pages", "components",
    "contexts", "apiRoutes", "images", "designSystem", "metadata"]

  lemma FallbackKeysDistinct()
    ensures Distinct(FallbackKeys)
  {
    var ks := FallbackKeys;
    forall i, j | 0 <= i < j < |ks| ensures ks[i] != ks[j] {
      assert |ks[i]| != |ks[j]| || ks[i][0] != ks[j][0];
    }
    DistinctFromPairs(ks);
  }

  /** An object literal whose keys differ pairwise has distinct keys. */
  lemma ObjectKeys(fields: seq<Field>, ks: seq<string>)
    requires KeysOf(fields) == ks
    requires forall i, j :: 0 <= i < j < |ks| ==> ks[i] != ks[j]
    ensures UniqueKeys(fields)
  {
    DistinctFromPairs(ks);
  }

  // Object literals of two to five properties with distinct keys and
  // well-formed values are well formed.

  lemma Object2(a: Field, b: Field)
    requires a.key != b.key
    requires WellFormed(a.value) && WellFormed(b.value)
    ensures WellFormed(JObj([a, b]))
  {
    ObjectKeys([a, b], [a.key, b.key]);
  }

  lemma Object3(a: Field, b: Field, c: Field)
    requires a.key != b.key && a.key != c.key && b.key != c.key
    requires WellFormed(a.value) && WellFormed(b.value) && WellFormed(c.value)
    ensures WellFormed(JObj([a, b, c]))
  {
    ObjectKeys([a, b, c], [a.key, b.key, c.key]);
  }

  lemma Object4(a: Field, b: Field, c: Field, d: Field)
    requires a.key != b.key && a.key != c.key && a.key != d.key
    requires b.key != c.key && b.key != d.key && c.key != d.key
    requires WellFormed(a.value) && WellFormed(b.value) && WellFormed(c.value) && WellFormed(d.value)
    ensures WellFormed(JObj([a, b, c, d]))
  {
    ObjectKeys([a, b, c, d], [a.key, b.key, c.key, d.key]);
  }

  lemma Object5(a: Field, b: Field, c: Field, d: Field, e: Field)
    requires a.key != b.key && a.key != c.key && a.key != d.key && a.key != e.key
    requires b.key != c.key && b.key != d.key && b.key != e.key
    requires c.key != d.key && c.key != e.key && d.key != e.key
    requires WellFormed(a.value) && WellFormed(b.value) && WellFormed(c.value)
    requires WellFormed(d.value) && WellFormed(e.value)
    ensures WellFormed(JObj([a, b, c, d, e]))
  {
    ObjectKeys([a, b, c, d, e], [a.key, b.key, c.key, d.key, e.key]);
  }

  lemma FallbackPagesWellFormed(name: string)
    ensures WellFormed(FallbackPages(name))
  {
    Object2(Field("title", JStr(name)), Field("description", JStr("Generated application")));
    assert WellFormed(JArr([JStr("Header"), JStr("Footer")]));
    Object5(Field("name", JStr("Home")), Field("path", JStr("/")),
      Field("components", JArr([JStr("Header"), JStr("Footer")])),
      Field("layout", JStr("Basic homepage layout")), Field("seo", Seo(name)));
  }

  lemma ComponentWellFormed(name: string)
    ensures WellFormed(Component(name))
  {
    Object4(Field("name", JStr(name)), Field("props", JArr([])), Field("hooks", JArr([])), Field("dependencies", JArr([])));
  }

  lemma FallbackComponentsWellFormed()
    ensures WellFormed(JArr([Component("Header"), Component("Footer")]))
  {
    ComponentWellFormed("Header");
    ComponentWellFormed("Footer");
  }

  lemma FallbackContextsWellFormed()
    ensures WellFormed(FallbackContexts) && WellFormed(FallbackRoutes)
  {
    assert WellFormed(JArr([JStr("loading"), JStr("user")]));
    assert WellFormed(JArr([JStr("setLoading")]));
    Object3(Field("name", JStr("AppContext")), Field("state", JArr([JStr("loading"), JStr("user")])),
      Field("actions", JArr([JStr("setLoading")])));
    Object3(Field("path", JStr("/api/health")), Field("method", JStr("GET")), Field("description", JStr("Health check")));
  }

  lemma FallbackDesignWellFormed()
    ensures WellFormed(FallbackDesign)
  {
    Object2(Field("primary", JStr("#3B82F6")), Field("secondary", JStr("#64748B")));
    ObjectKeys(Typography.fields, ["fontFamily"]);
    Object2(Field("colors", Colors), Field("typography", Typography));
  }

  lemma FallbackMetadataWellFormed(prompt: string, message: string, now: int)
    ensures WellFormed(FallbackMetadata(prompt, message, now))
  {
    assert WellFormed(JNum(now, 0));
    Object4(Field("generatedAt", JNum(now, 0)), Field("prompt", JStr(prompt)), Field("fallback", JBool(true)), Field("error", JStr(message)));
  }

  /** The fallback has the eleven properties of `createFallbackResult`, in
      order. */
  lemma FallbackKeysOf(prompt: string, message: string, now: int)
    ensures var r := FallbackResult(prompt, message, now);
      r.JObj? && KeysOf(r.fields) == FallbackKeys
  {
  }

  lemma FallbackValues(prompt: string, message: string, now: int)
    ensures var r := FallbackResult(prompt, message, now);
      r.JObj? && ValuesWellFormed(r.fields)
  {
    FallbackPagesWellFormed(FallbackName(prompt));
    FallbackComponentsWellFormed();
    FallbackContextsWellFormed();
    FallbackDesignWellFormed();
    FallbackMetadataWellFormed(prompt, message, now);
    var r := FallbackResult(prompt, message, now);
    var fs := r.fields;
    Values11(fs[0], fs[1], fs[2], fs[3], fs[4], fs[5], fs[6], fs[7], fs[8], fs[9], fs[10]);
    assert fs == [fs[0], fs[1], fs[2], fs[3], fs[4], fs[5], fs[6], fs[7], fs[8], fs[9], fs[10]];
  }

  /** Eleven properties with well-formed values. */
  lemma Values11(a: Field, b: Field, c: Field, d: Field, e: Field, f: Field, g: Field, h: Field, i: Field, j: Field, k: Field)
    requires WellFormed(a.value) && WellFormed(b.value) && WellFormed(c.value) && WellFormed(d.value)
    requires WellFormed(e.value) && WellFormed(f.value) && WellFormed(g.value) && WellFormed(h.value)
    requires WellFormed(i.value) && WellFormed(j.value) && WellFormed(k.value)
    ensures ValuesWellFormed([a, b, c, d, e, f, g, h, i, j, k])
  {
  }

  /** The fallback is a well-formed object. */
  lemma FallbackWellFormed(prompt: string, message: string, now: int)
    ensures var r := FallbackResult(prompt, message, now);
      r.JObj? && KeysOf(r.fields) == FallbackKeys && WellFormed(r)
  {
    FallbackKeysOf(prompt, message, now);
    FallbackKeysDistinct();
    FallbackValues(prompt, message, now);
  }

  /** The fallback serializes to JSON that parses back to it. */
  lemma FallbackRoundTrip(prompt: string, message: string, now: int)
    ensures var r := FallbackResult(prompt, message, now);
      Parse(Serialize(r)) == Some(r)
  {
    FallbackWellFormed(prompt, message, now);
    ParseSerialize(FallbackResult(prompt, message, now));
  }

  /** The fallback is marked as a fallback and carries its metadata. */
  lemma FallbackMarked(prompt: string, message: string, now: int)
    ensures var r := FallbackResult(prompt, message, now);
      && Get(r.fields, "projectType") == Some(JStr("fallback"))
      && Get(r.fields, "metadata") == Some(FallbackMetadata(prompt, message, now))
  {
    var r := FallbackResult(prompt, message, now);
    FallbackWellFormed(prompt, message, now);
    GetAt(r.fields, 0);
    GetAt(r.fields, 10);
  }

  /** The fallback carries the extracted name and the error message. */
  lemma FallbackCarries(prompt: string, message: string, now: int)
    ensures var r := FallbackResult(prompt, message, now);
      && Get(r.fields, "name") == Some(JStr(ExtractAppName(prompt)))
      && Get(r.fields, "error") == Some(JStr(message))
  {
    var r := FallbackResult(prompt, message, now);
    FallbackWellFormed(prompt, message, now);
    assert r.fields[1] == Field("name", JStr(ExtractAppName(prompt)));
    GetAt(r.fields, 1);
    GetAt(r.fields, 3);
  }

  /** Its metadata marks it as a fallback and repeats the message. */
  lemma FallbackMetadataFacts(prompt: string, message: string, now: int)
    ensures var m := FallbackMetadata(prompt, message, now).fields;
      Get(m, "fallback") == Some(JBool(true)) && Get(m, "error") == Some(JStr(message))
  {
    var m := FallbackMetadata(prompt, message, now).fields;
    FallbackMetadataWellFormed(prompt, message, now);
    GetAt(m, 2);
    GetAt(m, 3);
  }

  // ---------------------------------------------------------------------
  // generate
  // ---------------------------------------------------------------------

  /** A progress event: its step and percentage, or the `error` step at 0
      whose message is `Erreur: ` and the error message. */
  datatype Progress = Step(step: string, percent: nat) | Failure(message: string)

  const CacheCheck := "cache_check"
  const CacheHit := "cache_hit"
  const PromptEnhancement := "prompt_enhancement"
  const MainGeneration := "main_generation"
  const QualityEnhancement := "quality_enhancement"
  const ImageFetching := "image_fetching"
  const Caching := "caching"
  const Complete := "complete"

  /** The minimum quality, in tenths (8 points), for a result to be cached. */
  const CacheScore: int := 80

  /** The last event of a run: a cache hit, completion or an error. */
  predicate Terminal(e: Progress) {
    e.Failure? || e.step == CacheHit || e.step == Complete
  }

  /** The settings `useCache`, `enhancePrompts` and `qualityCheck`. */
  datatype Flags = Flags(useCache: bool, enhancePrompts: bool, qualityCheck: bool)

  /** What the run reaches outside the process: the model's transport, the
      image search and the enhancer's regular expressions. */
  datatype Services = Services(transport: SH.Request -> SH.Reply, search: string -> Option<Json>, scan: QE.Patterns)

  /** The events, the request sent (if any), the value returned and the
      cache afterwards. */
  datatype Outcome = Outcome(events: seq<Progress>, sent: Option<SH.Request>, output: Json, store: SC.Store)

  function Prelude(flags: Flags): (r: seq<Progress>) {
    if flags.useCache then [Step(CacheCheck, 5)] else []
  }

  const Phases: seq<Progress> := [Step(PromptEnhancement, 10), Step(MainGeneration, 20)]
  const Finishing: seq<Progress> := [Step(QualityEnhancement, 80), Step(ImageFetching, 90), Step(Caching, 95), Step(Complete, 100)]

  /** The finishing events, one stage at a time. */
  lemma FinishingSteps()
    ensures Phases + [Step(QualityEnhancement, 80), Step(ImageFetching, 90)] + [Step(Caching, 95)] + [Step(Complete, 100)]
      == Phases + Finishing
  {
  }

  /** `{...cached, cached: true, processingTime}`. */
  function CachedOutput(cached: Json, elapsed: int): (r: Json) {
    JObj(SetField(SetField(Spread(cached), "cached", JBool(true)), "processingTime", JNum(elapsed, 0)))
  }

  function Texts(xs: seq<string>): (r: seq<Json>)
    ensures |r| == |xs|
  {
    seq(|xs|, i requires 0 <= i < |xs| => JStr(xs[i]))
  }

  /** `{...metadata, processingTime, qualityScore, improvements, cached:
      false, generatedAt}`. */
  function OutputMetadata(metadata: Json, report: QE.Report, elapsed: int, now: int): (r: seq<Field>) {
    var m1 := SetField(Spread(metadata), "processingTime", JNum(elapsed, 0));
    var m2 := SetField(m1, "qualityScore", Num(report.score, 1));
    var m3 := SetField(m2, "improvements", JArr(Texts(report.improvements)));
    var m4 := SetField(m3, "cached", JBool(false));
    SetField(m4, "generatedAt", JNum(now, 0))
  }

  /** `{...enrichedResult, metadata: {...}}`. */
  function FinishedOutput(enriched: Json, metadata: Json, report: QE.Report, elapsed: int, now: int): (r: Json) {
    JObj(SetField(Spread(enriched), "metadata", JObj(OutputMetadata(metadata, report, elapsed, now))))
  }

  /** `{qualityScore, generatedAt, processingTime, ...metadata}`: the
      caller's metadata overrides the three. */
  function CacheMetadata(score: int, metadata: Json, elapsed: int, now: int): (r: Json) {
    JObj(Assign([Field("qualityScore", Num(score, 1)), Field("generatedAt", JNum(now, 0)), Field("processingTime", JNum(elapsed, 0))], Own(metadata)))
  }

  /** The key the cache check answers from, when the cache is used. */
  function Probe(flags: Flags, st: SC.Store, prompt: string): (k: Option<string>)
    requires st.Valid()
    ensures k.Some? ==> flags.useCache && k.value in st.entries
  {
    if flags.useCache then SC.Lookup(st, SC.Normalize(prompt)) else None
  }

  /** The cache after the check: the hit recorded at `start`. */
  function Probed(flags: Flags, st: SC.Store, prompt: string, start: int): (r: SC.Store)
    requires st.Valid()
    ensures r.Valid()
  {
    var k := Probe(flags, st, prompt);
    if k.Some? then SC.Hit(st, k.value, start) else st
  }

  /** The value the cache check returns: `null` on a miss. */
  function CachedValue(flags: Flags, st: SC.Store, prompt: string): (r: Json)
    requires st.Valid()
  {
    var k := Probe(flags, st, prompt);
    if k.Some? then st.entries[k.value].result else JNull
  }

  /** The prompt the stream is asked for. */
  function EnhancedPrompt(flags: Flags, prompt: string): (r: string) {
    if flags.enhancePrompts then Scot.EnhancePrompt(prompt, "ecommerce") else prompt
  }

  /** The request `generateWithStream` sends: the callback lands in the
      model slot. */
  function Sent(flags: Flags, prompt: string): (q: SH.Request) {
    SH.Prepared(SH.CompressPrompt(EnhancedPrompt(flags, prompt)), SH.Callback)
  }

  /** Whatever the settings, the request is sent with the callback as its
      model, so it gets the 8000-token configuration and the detailed system
      prompt; its content is the compressed (and, when enabled, enhanced)
      prompt. */
  lemma SentWithCallback(flags: Flags, prompt: string)
    ensures var q := Sent(flags, prompt);
      && q.model == SH.Callback && q.maxTokens == 8000 && q.system == SH.DetailedPrompt
      && q.content == SH.CompressPrompt(EnhancedPrompt(flags, prompt))
  {
    SH.PreparedSpec(SH.CompressPrompt(EnhancedPrompt(flags, prompt)), SH.Callback);
  }

  /** The request the stage evidently means to send, with no model and the
      callback as the progress listener: the default model. */
  function IntendedSent(flags: Flags, prompt: string): (q: SH.Request) {
    SH.Prepared(SH.CompressPrompt(EnhancedPrompt(flags, prompt)), SH.Absent)
  }

  /** Sent that way, the request gets the default model with 12000 tokens and
      carries the same content as the request actually sent. */
  lemma IntendedSentSpec(flags: Flags, prompt: string)
    ensures var q := IntendedSent(flags, prompt);
      && q.model == SH.Id(SH.DefaultModel) && q.maxTokens == 12000
      && q.content == Sent(flags, prompt).content
  {
    SH.PreparedSpec(SH.CompressPrompt(EnhancedPrompt(flags, prompt)), SH.Absent);
    SH.PreparedSpec(SH.CompressPrompt(EnhancedPrompt(flags, prompt)), SH.Callback);
  }

  /** The progress event the callback passes on for a call of the handler's
      listener: a `streaming` step at 20 plus a tenth of the deltas
      processed; the `complete` and `error` calls carry no count and give 20.
      The handler reports counts in multiples of ten, so the tenth is exact. */
  function StreamProgress(e: SH.StreamEvent): (p: Progress) {
    Step("streaming", 20 + (if e.Streaming? then e.processed / 10 else 0))
  }

  /** The events the callback passes on, in order. */
  function StreamProgressAll(events: seq<SH.StreamEvent>): seq<Progress> {
    seq(|events|, i requires 0 <= i < |events| => StreamProgress(events[i]))
  }

  /** With the callback as listener, a rejected request passes on nothing; a
      stream of n deltas passes on n/10 + 1 `streaming` steps, the k-th of the
      first n/10 at 21 + k percent and the last, for `complete` or `error`,
      at 20. */
  lemma IntendedStreamProgress(reply: SH.Reply)
    ensures var p := StreamProgressAll(SH.Answered(reply).0);
      && (forall i :: 0 <= i < |p| ==> p[i].Step? && p[i].step == "streaming")
      && (reply.Rejected? ==> p == [])
      && (reply.Streamed? ==>
            var n := |SH.Chunks(reply.messages)| / SH.ProgressEvery;
            && |p| == n + 1 && p[n].percent == 20
            && forall k :: 0 <= k < n ==> p[k].percent == 21 + k)
  {
    if reply.Streamed? {
      var chunks := SH.Chunks(reply.messages);
      var events := SH.Answered(reply).0;
      SH.StreamingEventsSpec(chunks);
      SH.StreamOutcomeSpec(reply.messages, reply.failure);
      var n := |chunks| / SH.ProgressEvery;
      assert events[..n] == SH.StreamingEvents(chunks);
      forall k | 0 <= k < n
        ensures StreamProgress(events[k]).percent == 21 + k
      {
        assert events[k] == SH.StreamingEvents(chunks)[k];
        assert events[k].processed == 10 * (k + 1);
      }
    }
  }

  /** What the streaming stage yields: the request and the streamed text,
      or the message of the error it throws. */
  datatype Streamed = Streamed(sent: SH.Request, raw: Result<string>)

  function Streaming(flags: Flags, prompt: string, transport: SH.Request -> SH.Reply): (s: Streamed) {
    var q := Sent(flags, prompt);
    Streamed(q, SH.Answered(transport(q)).1)
  }

  /** What the quality and image stages yield. */
  datatype Improved = Improved(report: QE.Report, enriched: Json)

  /** The quality report: the enhancer's, or the default score of 10 and no
      improvements. */
  function Quality(flags: Flags, text: string, prompt: string, scan: QE.Patterns): (r: QE.Report) {
    if flags.qualityCheck then QE.Enhancement(text, prompt, scan) else QE.Report(text, 100, [])
  }

  function Improvement(flags: Flags, text: string, prompt: string, env: Services): (i: Improved) {
    var report := Quality(flags, text, prompt, env.scan);
    Improved(report, Enriched(JStr(report.enhanced), prompt, env.search))
  }

  /** With the quality check off the text passes with the score 10; with it
      on the score is that of the text returned, which is the streamed text
      itself when that already scores 8. */
  lemma ImprovementFacts(flags: Flags, text: string, prompt: string, env: Services)
    ensures var r := Improvement(flags, text, prompt, env).report;
      && (!flags.qualityCheck ==> r == QE.Report(text, 100, []))
      && (flags.qualityCheck ==> r.score == QE.Score(r.enhanced, env.scan) && 0 <= r.score <= 100)
      && (flags.qualityCheck && QE.Score(text, env.scan) >= QE.MinScore ==> r.enhanced == text && r.improvements == [])
  {
    if flags.qualityCheck {
      var r := QE.Enhancement(text, prompt, env.scan);
      QE.ScoreRange(r.enhanced, env.scan);
    }
  }

  /** The cache after a generation: written under the prompt's key only
      when the cache is used and the score reaches 8. */
  function Stored(flags: Flags, st: SC.Store, prompt: string, metadata: Json, i: Improved, start: int, now: int): (r: SC.Store)
    requires st.Valid()
    ensures r.Valid()
  {
    if flags.useCache && i.report.score >= CacheScore
    then SC.SetKey(st, SC.Normalize(prompt), i.enriched, CacheMetadata(i.report.score, metadata, now - start, now), now)
    else st
  }

  /** The run after a cache miss, from the prompt enhancement on: the
      fallback when the stream fails, otherwise the finished value and the
      quality-gated cache write. */
  function Fresh(flags: Flags, st: SC.Store, prompt: string, metadata: Json, s: Streamed, i: Improved, start: int, now: int): (o: Outcome)
    requires st.Valid()
  {
    match s.raw
    case Err(m) => Outcome(Phases + [Failure(m)], Some(s.sent), FallbackResult(prompt, m, now), st)
    case Ok(_) =>
      Outcome(Phases + Finishing, Some(s.sent), FinishedOutput(i.enriched, metadata, i.report, now - start, now),
        Stored(flags, st, prompt, metadata, i, start, now))
  }

  /** `generate` put together from what its stages yield: a truthy cached
      value is returned at once, otherwise the run goes on after the cache
      check's event. */
  function Assemble(flags: Flags, st: SC.Store, prompt: string, metadata: Json, s: Streamed, i: Improved, start: int, now: int): (o: Outcome)
    requires st.Valid()
  {
    var cached := CachedValue(flags, st, prompt);
    var st1 := Probed(flags, st, prompt, start);
    if Truthy(cached) then
      Outcome(Prelude(flags) + [Step(CacheHit, 100)], None, CachedOutput(cached, now - start), st1)
    else
      var f := Fresh(flags, st1, prompt, metadata, s, i, start, now);
      Outcome(Prelude(flags) + f.events, f.sent, f.output, f.store)
  }

  /** What the later stages yield when the stream failed: never read. */
  const Skipped: Improved := Improved(QE.Report("", 0, []), JNull)

  /** `generate(userPrompt, metadata)`, every clock reading before the cache
      check being `start` and every later one `now`. */
  function Run(flags: Flags, st: SC.Store, prompt: string, metadata: Json, env: Services, start: int, now: int): (o: Outcome)
    requires st.Valid()
  {
    var s := Streaming(flags, prompt, env.transport);
    var i := if s.raw.Ok? then Improvement(flags, s.raw.value, prompt, env) else Skipped;
    Assemble(flags, st, prompt, metadata, s, i, start, now)
  }

  /** The events come in a fixed order: the cache check first exactly when
      the cache is used, percentages rising, one terminal event at the end,
      and never a `streaming` event, since the callback is passed as the
      model and the handler reports to its own no-op. */
  predicate Orderly(flags: Flags, e: seq<Progress>) {
    && e != [] && Terminal(e[|e| - 1])
    && (forall i :: 0 <= i < |e| - 1 ==> !Terminal(e[i]))
    && (forall i, j :: 0 <= i < j < |e| && e[j].Step? ==> e[i].Step? && e[i].percent < e[j].percent)
    && (forall i :: 0 <= i < |e| && e[i].Step? ==> e[i].step != "streaming")
    && (flags.useCache <==> e[0] == Step(CacheCheck, 5))
  }

  /** Each of the three ways a run can end emits orderly events: a hit, */
  lemma HitOrderly(flags: Flags)
    ensures Orderly(flags, Prelude(flags) + [Step(CacheHit, 100)])
  {
  }

  /** a failed stream, */
  lemma FailureOrderly(flags: Flags, m: string)
    ensures Orderly(flags, Prelude(flags) + (Phases + [Failure(m)]))
  {
  }

  /** and a finished run. */
  lemma FinishedOrderly(flags: Flags)
    ensures Orderly(flags, Prelude(flags) + (Phases + Finishing))
  {
    var e := Prelude(flags) + (Phases + Finishing);
    var p := [10, 20, 80, 90, 95, 100];
    if flags.useCache {
      p := [5] + p;
    }
    assert |e| == |p| && forall i :: 0 <= i < |e| ==> e[i].Step? && e[i].percent == p[i];
  }

  lemma RunEvents(flags: Flags, st: SC.Store, prompt: string, metadata: Json, s: Streamed, i: Improved, start: int, now: int)
    requires st.Valid()
    ensures Orderly(flags, Assemble(flags, st, prompt, metadata, s, i, start, now).events)
  {
    HitOrderly(flags);
    if s.raw.Err? {
      FailureOrderly(flags, s.raw.error);
    } else {
      FinishedOrderly(flags);
    }
  }

  /** On a hit whose result is truthy nothing is generated: no request is
      sent, the hit is recorded, and the cached value comes back marked
      `cached: true` with its processing time; its other properties (a
      well-formed object's fields) are copied. A preloaded pattern, whose
      result is `null`, counts a hit but generates anyway. */
  lemma RunCacheHit(flags: Flags, st: SC.Store, prompt: string, metadata: Json, s: Streamed, i: Improved, start: int, now: int, k: string)
    requires st.Valid() && flags.useCache
    requires SC.Lookup(st, SC.Normalize(prompt)) == Some(k)
    ensures var o, cached := Assemble(flags, st, prompt, metadata, s, i, start, now), st.entries[k].result;
      && (Truthy(cached) ==> o.store == SC.Hit(st, k, start) && o.sent == None && o.output == CachedOutput(cached, now - start))
      && (!Truthy(cached) ==> o.sent == Some(s.sent))
  {
  }

  /** The value a hit returns: `cached: true`, the processing time, and
      every other property of the cached value. */
  lemma CachedOutputFacts(cached: Json, elapsed: int)
    ensures var r := CachedOutput(cached, elapsed);
      && UniqueKeys(r.fields)
      && Get(r.fields, "cached") == Some(JBool(true))
      && Get(r.fields, "processingTime") == Some(JNum(elapsed, 0))
      && (forall key :: key != "cached" && key != "processingTime" ==> Get(r.fields, key) == Get(Spread(cached), key))
      && (cached.JObj? && UniqueKeys(cached.fields) ==> Spread(cached) == cached.fields)
  {
    SpreadFacts(cached);
    var s1 := SetField(Spread(cached), "cached", JBool(true));
    SetFieldUnique(Spread(cached), "cached", JBool(true));
    SetFieldUnique(s1, "processingTime", JNum(elapsed, 0));
    SetFieldGet(s1, "processingTime", JNum(elapsed, 0), "cached");
    SetFieldGet(s1, "processingTime", JNum(elapsed, 0), "processingTime");
    SetFieldGet(Spread(cached), "cached", JBool(true), "cached");
    forall key | key != "cached" && key != "processingTime"
      ensures Get(SetField(s1, "processingTime", JNum(elapsed, 0)), key) == Get(Spread(cached), key)
    {
      SetFieldGet(s1, "processingTime", JNum(elapsed, 0), key);
      SetFieldGet(Spread(cached), "cached", JBool(true), key);
    }
  }

  /** With the cache switched off the cache is neither read nor written and
      the request is always sent. */
  lemma RunCacheOff(flags: Flags, st: SC.Store, prompt: string, metadata: Json, s: Streamed, i: Improved, start: int, now: int)
    requires st.Valid() && !flags.useCache
    ensures var o := Assemble(flags, st, prompt, metadata, s, i, start, now);
      o.store == st && o.sent == Some(s.sent)
  {
  }

  /** A stream that fails ends the run with the error event and the
      fallback project, and nothing is cached. */
  lemma RunFallback(flags: Flags, st: SC.Store, prompt: string, metadata: Json, s: Streamed, i: Improved, start: int, now: int)
    requires st.Valid() && !Truthy(CachedValue(flags, st, prompt))
    requires s.raw.Err?
    ensures var o := Assemble(flags, st, prompt, metadata, s, i, start, now);
      && o.events[|o.events| - 1] == Failure(s.raw.error)
      && o.output == FallbackResult(prompt, s.raw.error, now)
      && o.store == Probed(flags, st, prompt, start)
  {
  }

  /** The quality gate: a generated result is cached exactly when the cache
      is used and its score reaches 8, under the prompt's key, with the
      quality score and the time in its metadata. */
  lemma RunQualityGate(flags: Flags, st: SC.Store, prompt: string, metadata: Json, s: Streamed, i: Improved, start: int, now: int)
    requires st.Valid() && !Truthy(CachedValue(flags, st, prompt))
    requires s.raw.Ok?
    ensures var o, key := Assemble(flags, st, prompt, metadata, s, i, start, now), SC.Normalize(prompt);
      && (!(flags.useCache && i.report.score >= CacheScore) ==> o.store == Probed(flags, st, prompt, start))
      && (flags.useCache && i.report.score >= CacheScore ==>
            && key in o.store.entries
            && o.store.entries[key].result == i.enriched
            && o.store.entries[key].createdAt == now
            && o.store.entries[key].metadata == CacheMetadata(i.report.score, metadata, now - start, now))
  {
  }

  /** With the quality check off every generated result is cached when the
      cache is used. */
  lemma RunQualityOff(flags: Flags, st: SC.Store, prompt: string, metadata: Json, env: Services, text: string, start: int, now: int)
    requires st.Valid() && flags.useCache && !flags.qualityCheck
    ensures var i := Improvement(flags, text, prompt, env);
      var w := Stored(flags, st, prompt, metadata, i, start, now);
      SC.Normalize(prompt) in w.entries && w.entries[SC.Normalize(prompt)].result == i.enriched
  {
  }

  /** A generated result carries its metadata: the caller's properties, then
      `cached: false`, the quality score in points and one improvement per
      fix; every other property is the enriched result's. */
  lemma RunFinished(flags: Flags, st: SC.Store, prompt: string, metadata: Json, s: Streamed, i: Improved, start: int, now: int)
    requires st.Valid() && !Truthy(CachedValue(flags, st, prompt))
    requires s.raw.Ok?
    ensures var o := Assemble(flags, st, prompt, metadata, s, i, start, now);
      && o.events[|o.events| - 1] == Step(Complete, 100)
      && o.output == FinishedOutput(i.enriched, metadata, i.report, now - start, now)
  {
  }

  /** The finished value: the enriched result's properties and its
      metadata, which holds `cached: false`, the quality score in points,
      the improvements and the time. */
  lemma FinishedFacts(enriched: Json, metadata: Json, report: QE.Report, elapsed: int, now: int)
    ensures var r, meta := FinishedOutput(enriched, metadata, report, elapsed, now), OutputMetadata(metadata, report, elapsed, now);
      && UniqueKeys(r.fields) && UniqueKeys(meta)
      && Get(r.fields, "metadata") == Some(JObj(meta))
      && Get(meta, "cached") == Some(JBool(false))
      && Get(meta, "qualityScore") == Some(Num(report.score, 1))
      && Get(meta, "improvements") == Some(JArr(Texts(report.improvements)))
      && Get(meta, "generatedAt") == Some(JNum(now, 0))
      && forall key :: key != "metadata" ==> Get(r.fields, key) == Get(Spread(enriched), key)
  {
    MetadataFacts(metadata, report, elapsed, now);
    var meta := OutputMetadata(metadata, report, elapsed, now);
    SpreadFacts(enriched);
    SetFieldUnique(Spread(enriched), "metadata", JObj(meta));
    SetFieldGet(Spread(enriched), "metadata", JObj(meta), "metadata");
    forall key | key != "metadata"
      ensures Get(SetField(Spread(enriched), "metadata", JObj(meta)), key) == Get(Spread(enriched), key)
    {
      SetFieldGet(Spread(enriched), "metadata", JObj(meta), key);
    }
  }

  lemma MetadataFacts(metadata: Json, report: QE.Report, elapsed: int, now: int)
    ensures var meta := OutputMetadata(metadata, report, elapsed, now);
      && UniqueKeys(meta)
      && Get(meta, "cached") == Some(JBool(false))
      && Get(meta, "qualityScore") == Some(Num(report.score, 1))
      && Get(meta, "improvements") == Some(JArr(Texts(report.improvements)))
      && Get(meta, "generatedAt") == Some(JNum(now, 0))
  {
    var m1 := SetField(Spread(metadata), "processingTime", JNum(elapsed, 0));
    var m2 := SetField(m1, "qualityScore", Num(report.score, 1));
    var m3 := SetField(m2, "improvements", JArr(Texts(report.improvements)));
    var m4 := SetField(m3, "cached", JBool(false));
    SpreadFacts(metadata);
    SetFieldUnique(Spread(metadata), "processingTime", JNum(elapsed, 0));
    SetFieldUnique(m1, "qualityScore", Num(report.score, 1));
    SetFieldUnique(m2, "improvements", JArr(Texts(report.improvements)));
    SetFieldUnique(m3, "cached", JBool(false));
    SetFieldUnique(m4, "generatedAt", JNum(now, 0));
    SetFieldGet(m4, "generatedAt", JNum(now, 0), "cached");
    SetFieldGet(m4, "generatedAt", JNum(now, 0), "qualityScore");
    SetFieldGet(m4, "generatedAt", JNum(now, 0), "improvements");
    SetFieldGet(m4, "generatedAt", JNum(now, 0), "generatedAt");
    SetFieldGet(m3, "cached", JBool(false), "cached");
    SetFieldGet(m3, "cached", JBool(false), "qualityScore");
    SetFieldGet(m3, "cached", JBool(false), "improvements");
    SetFieldGet(m2, "improvements", JArr(Texts(report.improvements)), "qualityScore");
    SetFieldGet(m2, "improvements", JArr(Texts(report.improvements)), "improvements");
    SetFieldGet(m1, "qualityScore", Num(report.score, 1), "qualityScore");
  }

  // ---------------------------------------------------------------------
  // The generator object
  // ---------------------------------------------------------------------

  class Generator {
    var useCache: bool
    var enhancePrompts: bool
    var qualityCheck: bool
    const cache: SC.SemanticCache
    const handler: SH.Handler

    function Settings(): (f: Flags)
      reads this
    {
      Flags(useCache, enhancePrompts, qualityCheck)
    }

    ghost predicate Valid()
      reads this, cache, handler
    {
      cache.Valid() && handler.Valid()
    }

    /** Every feature switched on, an empty cache. */
    constructor ()
      ensures Valid() && fresh(cache) && fresh(handler)
      ensures Settings() == Flags(true, true, true)
      ensures cache.State() == SC.Store([], map[])
    {
      useCache, enhancePrompts, qualityCheck := true, true, true;
      cache := new SC.SemanticCache();
      handler := new SH.Handler();
    }

    /** `init`: the common patterns are preloaded (loading the cache file is
        not modelled). */
    method Init(now: int)
      requires Valid()
      modifies cache
      ensures Valid() && cache.State() == SC.Preload(old(cache.State()), SC.CommonPatterns, now)
    {
      cache.PreloadCommonPatterns(now);
    }

    method SetCacheEnabled(enabled: bool)
      modifies this
      ensures Settings() == old(Settings()).(useCache := enabled)
    {
      useCache := enabled;
    }

    method SetPromptEnhancement(enabled: bool)
      modifies this
      ensures Settings() == old(Settings()).(enhancePrompts := enabled)
    {
      enhancePrompts := enabled;
    }

    method SetQualityCheck(enabled: bool)
      modifies this
      ensures Settings() == old(Settings()).(qualityCheck := enabled)
    {
      qualityCheck := enabled;
    }

    /** `getCacheStats`. */
    method GetCacheStats(now: int) returns (s: SC.Stats)
      requires Valid()
      ensures s.size == |cache.entries| && s.totalHits == SC.SumHits(cache.State(), |cache.order|)
      ensures s.avgHits == if s.size > 0 then s.totalHits as real / s.size as real else 0.0
      ensures s.oldestEntry == SC.Earliest(cache.State(), |cache.order|, now)
      ensures s.newestEntry == SC.Latest(cache.State(), |cache.order|)
    {
      s := cache.GetStats(now);
    }

    /** `clearCache`. */
    method ClearCache()
      requires Valid()
      modifies cache
      ensures Valid() && cache.State() == SC.Store([], map[])
    {
      cache.ClearCache();
    }

    /** The streaming stage under the settings `flags`: the prompt enhanced
        when enabled, then one call of `generateWithStream` with the callback
        in the model slot. */
    method Stream(flags: Flags, userPrompt: string, transport: SH.Request -> SH.Reply) returns (s: Streamed)
      requires Valid()
      modifies handler
      ensures Valid() && s == Streaming(flags, userPrompt, transport)
    {
      var enhanced := userPrompt;
      if flags.enhancePrompts {
        enhanced := Scot.EnhancePrompt(userPrompt, "ecommerce");
      }
      var request, _, raw := handler.GenerateWithStream(enhanced, SH.Callback, transport);
      s := Streamed(request, raw);
    }

    /** `getCached` when the cache is used: the value it returns, `null`
        when the cache is off. */
    method CheckCache(flags: Flags, userPrompt: string, start: int) returns (cached: Json)
      requires Valid()
      modifies cache
      ensures Valid()
      ensures cached == CachedValue(flags, old(cache.State()), userPrompt)
      ensures cache.State() == Probed(flags, old(cache.State()), userPrompt, start)
    {
      cached := JNull;
      if flags.useCache {
        cached := cache.GetCached(userPrompt, start);
      }
    }

    /** The caching stage and the value returned after a stream that
        succeeded. */
    method Finish(flags: Flags, userPrompt: string, metadata: Json, improved: Improved, start: int, now: int) returns (output: Json)
      requires Valid()
      modifies cache
      ensures Valid()
      ensures cache.State() == Stored(flags, old(cache.State()), userPrompt, metadata, improved, start, now)
      ensures output == FinishedOutput(improved.enriched, metadata, improved.report, now - start, now)
    {
      if flags.useCache && improved.report.score >= CacheScore {
        cache.SetCached(userPrompt, improved.enriched, CacheMetadata(improved.report.score, metadata, now - start, now), now);
      }
      output := FinishedOutput(improved.enriched, metadata, improved.report, now - start, now);
    }

    /** The run after a cache miss, under the settings `flags`. */
    method GenerateFresh(flags: Flags, userPrompt: string, metadata: Json, env: Services, start: int, now: int)
      returns (events: seq<Progress>, sent: Option<SH.Request>, output: Json, ghost s: Streamed, ghost i: Improved)
      requires Valid()
      modifies cache, handler
      ensures Valid()
      ensures Fresh(flags, old(cache.State()), userPrompt, metadata, s, i, start, now)
        == Outcome(events, sent, output, cache.State())
      ensures s == Streaming(flags, userPrompt, env.transport)
      ensures s.raw.Ok? ==> i == Improvement(flags, s.raw.value, userPrompt, env)
    {
      events := Phases;
      var streamed := Stream(flags, userPrompt, env.transport);
      s, i := streamed, Skipped;
      sent := Some(streamed.sent);
      if streamed.raw.Err? {
        events := events + [Failure(streamed.raw.error)];
        output := FallbackResult(userPrompt, streamed.raw.error, now);
        return;
      }
      events := events + [Step(QualityEnhancement, 80), Step(ImageFetching, 90)];
      var improved := Improve(flags, streamed.raw.value, userPrompt, env);
      i := improved;
      events := events + [Step(Caching, 95)];
      output := Finish(flags, userPrompt, metadata, improved, start, now);
      events := events + [Step(Complete, 100)];
      FinishingSteps();
    }

    /** `generate(userPrompt, metadata)`: the events emitted, the request
        sent, the value returned and the new cache are those `Assemble`
        makes of what the two stages yielded, `s` and `i` (neither stage
        runs when the cache answers, and the second not when the stream
        fails). The settings are read once, at the start. */
    method Generate(userPrompt: string, metadata: Json, env: Services, start: int, now: int)
      returns (events: seq<Progress>, sent: Option<SH.Request>, output: Json, ghost s: Streamed, ghost i: Improved)
      requires Valid()
      modifies cache, handler
      ensures Valid() && Settings() == old(Settings())
      ensures Assemble(Settings(), old(cache.State()), userPrompt, metadata, s, i, start, now)
        == Outcome(events, sent, output, cache.State())
      ensures sent.Some? ==> s == Streaming(Settings(), userPrompt, env.transport)
      ensures sent.Some? && s.raw.Ok? ==> i == Improvement(Settings(), s.raw.value, userPrompt, env)
    {
      var flags := Settings();
      events, sent, output, s, i := GenerateWith(flags, userPrompt, metadata, env, start, now);
    }

    /** The body of `generate` under the settings `flags`. */
    method GenerateWith(flags: Flags, userPrompt: string, metadata: Json, env: Services, start: int, now: int)
      returns (events: seq<Progress>, sent: Option<SH.Request>, output: Json, ghost s: Streamed, ghost i: Improved)
      requires Valid()
      modifies cache, handler
      ensures Valid()
      ensures Assemble(flags, old(cache.State()), userPrompt, metadata, s, i, start, now)
        == Outcome(events, sent, output, cache.State())
      ensures sent.Some? ==> s == Streaming(flags, userPrompt, env.transport)
      ensures sent.Some? && s.raw.Ok? ==> i == Improvement(flags, s.raw.value, userPrompt, env)
    {
      var prelude := if flags.useCache then [Step(CacheCheck, 5)] else [];
      var cached := CheckCache(flags, userPrompt, start);
      if Truthy(cached) {
        events, sent, output := prelude + [Step(CacheHit, 100)], None, CachedOutput(cached, now - start);
        s, i := Streamed(SH.Request(SH.Absent, 0, 0.0, "", ""), Err("")), Skipped;
        return;
      }
      var rest;
      rest, sent, output, s, i := GenerateFresh(flags, userPrompt, metadata, env, start, now);
      events := prelude + rest;
    }
  }

  /** The quality stage and the image stage, under the settings `flags`. */
  method Improve(flags: Flags, text: string, userPrompt: string, env: Services) returns (i: Improved)
    ensures i == Improvement(flags, text, userPrompt, env)
  {
    var report := QE.Report(text, 100, []);
    if flags.qualityCheck {
      report := QE.Enhance(text, userPrompt, env.scan);
    }
    var enriched := EnrichWithImages(JStr(report.enhanced), userPrompt, env.search);
    i := Improved(report, enriched);
  }
}
