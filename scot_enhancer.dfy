/** The structured chain-of-thought enhancer of
    src/intelligence/scot-enhancer.js: keyword classifiers over the
    lower-cased prompt, and the prompt template they fill in. */
module ScotEnhancer {
  import opened Strings
  import Json

  // ---------------------------------------------------------------------
  // Application type
  // ---------------------------------------------------------------------

  /** The four application types, which are also the template keys. */
  const AppTypes: seq<string> := ["ecommerce", "saas", "dashboard", "landing"]

  const EcommerceWords: seq<string> := ["ecommerce", "shop", "store", "marketplace"]
  const SaasWords: seq<string> := ["saas", "software", "platform"]
  const DashboardWords: seq<string> := ["dashboard", "admin", "analytics"]
  const LandingWords: seq<string> := ["landing", "marketing", "promo"]

  /** `detectAppType`: the first type, in the order ecommerce, saas,
      dashboard, landing, one of whose keywords the lower-cased prompt
      contains; ecommerce when none does. */
  function DetectAppType(prompt: string): (t: string)
    ensures t in AppTypes
  {
    var lower := ToLower(prompt);
    if ContainsAny(lower, EcommerceWords) then "ecommerce"
    else if ContainsAny(lower, SaasWords) then "saas"
    else if ContainsAny(lower, DashboardWords) then "dashboard"
    else if ContainsAny(lower, LandingWords) then "landing"
    else "ecommerce"
  }

  /** The priority order, in both directions: a type is chosen exactly when
      one of its keywords occurs and none of a type before it does; ecommerce
      is also the default. */
  lemma DetectAppTypePriority(prompt: string)
    ensures var l, t := ToLower(prompt), DetectAppType(prompt);
      && (t == "saas" <==> !ContainsAny(l, EcommerceWords) && ContainsAny(l, SaasWords))
      && (t == "dashboard" <==> !ContainsAny(l, EcommerceWords) && !ContainsAny(l, SaasWords)
                                && ContainsAny(l, DashboardWords))
      && (t == "landing" <==> !ContainsAny(l, EcommerceWords) && !ContainsAny(l, SaasWords)
                              && !ContainsAny(l, DashboardWords) && ContainsAny(l, LandingWords))
      && (t == "ecommerce" <==> ContainsAny(l, EcommerceWords)
                                || (!ContainsAny(l, SaasWords) && !ContainsAny(l, DashboardWords)
                                    && !ContainsAny(l, LandingWords)))
  {
  }

  /** The classification ignores letter case. */
  lemma DetectAppTypeCase(prompt: string)
    ensures DetectAppType(ToLower(prompt)) == DetectAppType(prompt)
  {
    ToLowerIdempotent(prompt);
  }

  // ---------------------------------------------------------------------
  // Main features
  // ---------------------------------------------------------------------

  /** A feature label and the keywords that reveal it. */
  datatype Feature = Feature(name: string, keywords: seq<string>)

  /** The features `extractMainFeatures` looks for, in the order it tests
      them. */
  const FeatureTable: seq<Feature> := [
    Feature("Authentication", ["auth", "login", "register"]),
    Feature("Shopping Cart", ["cart", "panier"]),
    Feature("Payment Processing", ["payment", "stripe", "paypal"]),
    Feature("Search & Filter", ["search", "filter"]),
    Feature("Admin Panel", ["admin", "dashboard"]),
    Feature("Messaging System", ["chat", "message"])
  ]

  const NoFeature := "Core functionality"
  const FeatureSep := ", "

  /** The labels of a table, in order. */
  function Labels(table: seq<Feature>): seq<string> {
    seq(|table|, i requires 0 <= i < |table| => table[i].name)
  }

  /** The labels of the features whose keywords occur in `text`, in table
      order (the `push` sequence of `extractMainFeatures`). */
  function Matching(text: string, table: seq<Feature>): (r: seq<string>)
    ensures |r| <= |table|
    decreases |table|
  {
    if table == [] then []
    else if ContainsAny(text, table[0].keywords) then [table[0].name] + Matching(text, table[1..])
    else Matching(text, table[1..])
  }

  /** `xs` is `ys` with some elements left out, the rest in their order. */
  predicate Subsequence(xs: seq<string>, ys: seq<string>)
    decreases |ys|
  {
    xs == [] || (ys != [] && ((xs[0] == ys[0] && Subsequence(xs[1..], ys[1..])) || Subsequence(xs, ys[1..])))
  }

  /** No element occurs twice. */
  predicate Distinct(xs: seq<string>) {
    forall i, j :: 0 <= i < j < |xs| ==> xs[i] != xs[j]
  }

  /** A label is reported exactly when one of its feature's keywords occurs. */
  lemma {:induction false} MatchingMembers(text: string, table: seq<Feature>, x: string)
    ensures x in Matching(text, table) <==>
      exists i :: 0 <= i < |table| && table[i].name == x && ContainsAny(text, table[i].keywords)
    decreases |table|
  {
    if table != [] {
      MatchingMembers(text, table[1..], x);
      if exists i :: 0 <= i < |table[1..]| && table[1..][i].name == x && ContainsAny(text, table[1..][i].keywords) {
        var i :| 0 <= i < |table[1..]| && table[1..][i].name == x && ContainsAny(text, table[1..][i].keywords);
        assert table[i + 1] == table[1..][i];
      }
      if exists i :: 0 <= i < |table| && table[i].name == x && ContainsAny(text, table[i].keywords) {
        var i :| 0 <= i < |table| && table[i].name == x && ContainsAny(text, table[i].keywords);
        if i > 0 {
          assert table[1..][i - 1] == table[i];
        }
      }
    }
  }

  /** The reported labels keep the table's order. */
  lemma {:induction false} MatchingOrdered(text: string, table: seq<Feature>)
    ensures Subsequence(Matching(text, table), Labels(table))
    decreases |table|
  {
    if table != [] {
      MatchingOrdered(text, table[1..]);
      assert Labels(table)[1..] == Labels(table[1..]);
    }
  }

  /** A subsequence of a list without repetitions has none either. */
  lemma {:induction false} SubsequenceDistinct(xs: seq<string>, ys: seq<string>)
    requires Subsequence(xs, ys) && Distinct(ys)
    ensures Distinct(xs)
    ensures forall x :: x in xs ==> x in ys
    decreases |ys|
  {
    if xs != [] {
      assert ys != [];
      assert Distinct(ys[1..]) by {
        forall i, j | 0 <= i < j < |ys[1..]| ensures ys[1..][i] != ys[1..][j] {
          assert ys[1..][i] == ys[i + 1] && ys[1..][j] == ys[j + 1];
        }
      }
      if xs[0] == ys[0] && Subsequence(xs[1..], ys[1..]) {
        SubsequenceDistinct(xs[1..], ys[1..]);
        forall j | 0 < j < |xs| ensures xs[0] != xs[j] {
          assert xs[j] == xs[1..][j - 1];
          assert xs[j] in ys[1..];
          var k :| 0 <= k < |ys[1..]| && ys[1..][k] == xs[j];
          assert ys[k + 1] == xs[j];
        }
        forall x | x in xs ensures x in ys {
          if x != xs[0] {
            assert x in xs[1..];
          }
        }
      } else {
        SubsequenceDistinct(xs, ys[1..]);
      }
    }
  }

  /** The labels the source detects, for the lower-cased prompt. */
  function MatchedFeatures(prompt: string): (r: seq<string>)
    ensures |r| <= |FeatureTable|
  {
    Matching(ToLower(prompt), FeatureTable)
  }

  /** The labels of the table differ from each other: their lengths do. */
  lemma LabelsDistinct()
    ensures Distinct(Labels(FeatureTable))
  {
    var ls := Labels(FeatureTable);
    assert |ls| == 6;
    assert |ls[0]| == 14 && |ls[1]| == 13 && |ls[2]| == 18 && |ls[3]| == 15 && |ls[4]| == 11 && |ls[5]| == 16;
  }

  /** Each label is reported at most once, in the table's order, and only
      labels of the table are reported. */
  lemma MatchedFeaturesShape(prompt: string)
    ensures Subsequence(MatchedFeatures(prompt), Labels(FeatureTable))
    ensures Distinct(MatchedFeatures(prompt))
    ensures forall x :: x in MatchedFeatures(prompt) ==> x in Labels(FeatureTable)
  {
    MatchingOrdered(ToLower(prompt), FeatureTable);
    LabelsDistinct();
    SubsequenceDistinct(MatchedFeatures(prompt), Labels(FeatureTable));
  }

  /** A label that cannot be confused with the fallback text or split by the
      separator: non-empty, not starting like "Core functionality", and
      without a comma. */
  predicate PlainLabel(x: string) {
    x != [] && x[0] != NoFeature[0] && FeatureSep[0] !in x
  }

  lemma LabelsPlain()
    ensures forall x :: x in Labels(FeatureTable) ==> PlainLabel(x)
  {
    forall i | 0 <= i < |FeatureTable| ensures PlainLabel(FeatureTable[i].name) {
      var x := FeatureTable[i].name;
      forall k | 0 <= k < |x| ensures x[k] != ',' {
      }
    }
  }

  /** How a list of detected labels is written: joined by ", ", or "Core
      functionality" when it is empty. */
  function Describe(fs: seq<string>): string {
    if fs == [] then NoFeature else Join(fs, FeatureSep)
  }

  /** The fallback text stands for the empty list only. */
  lemma DescribeDefault(fs: seq<string>)
    requires forall i :: 0 <= i < |fs| ==> PlainLabel(fs[i])
    ensures Describe(fs) == NoFeature <==> fs == []
  {
    if fs != [] {
      JoinStart(fs, FeatureSep);
      assert Describe(fs)[0] == fs[0][0];
    }
  }

  /** Splitting the description at ", " counts the labels, and counts 1 for
      the fallback. */
  lemma DescribeCount(fs: seq<string>)
    requires forall i :: 0 <= i < |fs| ==> PlainLabel(fs[i])
    ensures |Split(Describe(fs), FeatureSep)| == if fs == [] then 1 else |fs|
  {
    if fs == [] {
      FindAbsent(NoFeature, FeatureSep);
    } else {
      SplitJoin(fs, FeatureSep);
    }
  }

  /** `extractMainFeatures`. */
  function ExtractMainFeatures(prompt: string): string {
    Describe(MatchedFeatures(prompt))
  }

  /** Every detected label is plain. */
  lemma MatchedPlain(prompt: string)
    ensures forall i :: 0 <= i < |MatchedFeatures(prompt)| ==> PlainLabel(MatchedFeatures(prompt)[i])
  {
    MatchedFeaturesShape(prompt);
    LabelsPlain();
  }

  /** The fallback text is returned exactly when no feature is detected: no
      join of detected labels can be mistaken for it. */
  lemma ExtractMainFeaturesDefault(prompt: string)
    ensures ExtractMainFeatures(prompt) == NoFeature <==> MatchedFeatures(prompt) == []
  {
    MatchedPlain(prompt);
    DescribeDefault(MatchedFeatures(prompt));
  }

  /** The number of pieces `estimateComplexity` counts,
      `extractMainFeatures(prompt).split(', ').length`. */
  function FeatureCount(prompt: string): (n: nat) {
    |Split(ExtractMainFeatures(prompt), FeatureSep)|
  }

  /** The count is the number of detected labels, and 1 when there is none:
      no label contains a comma, so splitting undoes the join. */
  lemma FeatureCountSpec(prompt: string)
    ensures FeatureCount(prompt) == if MatchedFeatures(prompt) == [] then 1 else |MatchedFeatures(prompt)|
    ensures 1 <= FeatureCount(prompt) <= |FeatureTable|
  {
    MatchedPlain(prompt);
    DescribeCount(MatchedFeatures(prompt));
  }

  // ---------------------------------------------------------------------
  // Complexity
  // ---------------------------------------------------------------------

  const Complexities: seq<string> := ["Simple", "Medium", "Complex"]

  /** `prompt.split(' ').length`. */
  function WordCount(prompt: string): (n: nat) {
    |Split(prompt, " ")|
  }

  /** `estimateComplexity`. */
  function EstimateComplexity(prompt: string): (r: string)
    ensures r in Complexities
  {
    var words := WordCount(prompt);
    var features := FeatureCount(prompt);
    if words < 50 && features < 3 then "Simple"
    else if words < 150 && features < 6 then "Medium"
    else "Complex"
  }

  /** The complexity in terms of the detected features: at most two features
      (or none) and under 50 words is simple; a prompt in which all six
      features are detected is complex whatever its length. */
  lemma EstimateComplexitySpec(prompt: string)
    ensures var n := |MatchedFeatures(prompt)|;
      && (EstimateComplexity(prompt) == "Simple" <==> WordCount(prompt) < 50 && n < 3)
      && (EstimateComplexity(prompt) == "Medium" <==>
            !(WordCount(prompt) < 50 && n < 3) && WordCount(prompt) < 150 && n < 6)
      && (n == |FeatureTable| ==> EstimateComplexity(prompt) == "Complex")
  {
    FeatureCountSpec(prompt);
  }

  // ---------------------------------------------------------------------
  // Templates and the enhanced prompt
  // ---------------------------------------------------------------------

  /** The four parts of a planning template. */
  datatype Template = Template(architecture: string, pages: string, components: string, state: string)

  // The four templates of `getEcommerceTemplate` and its siblings, each part
  // cut to its first line.
  const EcommerceTemplate := Template("\n- Frontend: Next.js 13+ avec App Router", "\n- Homepage avec hero + produits featured", "\n- Header avec navigation et cart", "\n- CartContext pour panier")
  const SaasTemplate := Template("\n- Frontend: Next.js avec TypeScript", "\n- Landing page marketing", "\n- Navigation responsive", "\n- AuthContext pour utilisateur")
  const DashboardTemplate := Template("\n- Frontend: Next.js + TypeScript", "\n- Dashboard overview", "\n- Sidebar navigation", "\n- DataContext pour analytics")
  const LandingTemplate := Template("\n- Frontend: Next.js statique", "\n- Homepage avec sections", "\n- Hero section animée", "\n- ContactContext pour forms")

  /** What the template literal prints for the four parts of an inherited
      member of `Object.prototype`, which has none of them. */
  const UndefinedTemplate := Template("undefined", "undefined", "undefined", "undefined")

  /** `this.templates[appType] || this.templates.ecommerce`: an inherited
      member name reads that member, whose parts are all undefined. */
  function TemplateFor(appType: string): (t: Template)
    ensures appType !in AppTypes && appType !in Json.InheritedNames ==> t == EcommerceTemplate
    ensures appType in Json.InheritedNames ==> t == UndefinedTemplate
  {
    if appType == "saas" then SaasTemplate
    else if appType == "dashboard" then DashboardTemplate
    else if appType == "landing" then LandingTemplate
    else if appType in Json.InheritedNames then UndefinedTemplate
    else EcommerceTemplate
  }

  // The fixed lines of the template literal of `enhancePrompt`; the two
  // lists inside the implementation and verification sections are
  // abbreviated to `...`.
  const RequestLine := "\n<thinking>\nL'utilisateur demande: \""
  const TypeLine := "\"\n\nAnalysons les besoins:\n1. Type d'application: "
  const FeaturesLine := "\n2. Fonctionnalités principales: "
  const ComplexityLine := "\n3. Complexité estimée: "
  const PlanningLine := "\n4. Technologies appropriées: React/Next.js + Tailwind + Context API\n</thinking>\n\n<planning>\nStructure nécessaire pour: "
  const ArchitectureLine := "\n\nArchitecture recommandée:\n"
  const PagesLine := "\n\nPages requises:\n"
  const ComponentsLine := "\n\nComposants clés:\n"
  const StateLine := "\n\nÉtat global:\n"
  const ClosingLine :=
    "\n</planning>\n\n<implementation>\nGénère une application complète avec:\n...\n</implementation>\n\n" +
    "<verification>\nVérifie que:\n...\n</verification>\n\nMaintenant génère l'application complète basée sur: \""
  const EndLine := "\"\n    "

  /** What the analysis section reports about a prompt. */
  datatype Assessment = Assessment(appType: string, features: string, complexity: string)

  /** The three classifiers applied to the prompt. */
  function Assess(prompt: string): Assessment {
    Assessment(DetectAppType(prompt), ExtractMainFeatures(prompt), EstimateComplexity(prompt))
  }

  /** The part of the enhanced prompt before the template: the request, the
      analysis and the planning header. */
  function Analysis(prompt: string, a: Assessment): string {
    RequestLine + prompt + Reported(prompt, a)
  }

  /** The analysis after the quoted request. */
  function Reported(prompt: string, a: Assessment): string {
    TypeLine + a.appType + FeaturesLine + a.features
    + ComplexityLine + a.complexity + PlanningLine + prompt + ArchitectureLine
  }

  /** The four template parts under their headings. */
  function Planning(t: Template): string {
    t.architecture + PagesLine + t.pages + ComponentsLine + t.components + StateLine + t.state
  }

  /** The filled-in template literal. */
  function Fill(prompt: string, a: Assessment, t: Template): string {
    Analysis(prompt, a) + Planning(t) + ClosingLine + prompt + EndLine
  }

  /** `enhancePrompt(userPrompt, appType)`. */
  function EnhancePrompt(prompt: string, appType: string): string {
    Fill(prompt, Assess(prompt), TemplateFor(appType))
  }

  /** An unknown type gets the ecommerce template, except the name of an
      inherited member, which prints undefined for every part. */
  lemma EnhancePromptFallback(prompt: string, appType: string)
    requires appType !in AppTypes
    ensures appType !in Json.InheritedNames ==> EnhancePrompt(prompt, appType) == EnhancePrompt(prompt, "ecommerce")
    ensures appType in Json.InheritedNames ==> EnhancePrompt(prompt, appType) == Fill(prompt, Assess(prompt), UndefinedTemplate)
  {
    if appType in Json.InheritedNames {
      assert TemplateFor(appType) == UndefinedTemplate;
    } else {
      assert TemplateFor(appType) == TemplateFor("ecommerce");
    }
  }

  lemma FillEmbeds(prompt: string, a: Assessment, t: Template)
    ensures OccursAt(Fill(prompt, a, t), prompt, |RequestLine|)
    ensures var r := Fill(prompt, a, t);
      |r| >= |EndLine| + |prompt| && OccursAt(r, prompt, |r| - |EndLine| - |prompt|)
  {
    var head := Analysis(prompt, a);
    var front := head + Planning(t) + ClosingLine;
    var i := |RequestLine|;
    OccursAfter(RequestLine, prompt, Reported(prompt, a));
    OccursExtend(head, prompt, i, Planning(t));
    OccursExtend(head + Planning(t), prompt, i, ClosingLine);
    OccursExtend(front, prompt, i, prompt);
    OccursExtend(front + prompt, prompt, i, EndLine);
    OccursAfter(front, prompt, EndLine);
  }

  /** The user prompt is quoted right after the opening line and is the last
      thing before the closing quote. */
  lemma EnhancePromptEmbeds(prompt: string, appType: string)
    ensures OccursAt(EnhancePrompt(prompt, appType), prompt, |RequestLine|)
    ensures var r := EnhancePrompt(prompt, appType);
      |r| >= |EndLine| + |prompt| && OccursAt(r, prompt, |r| - |EndLine| - |prompt|)
  {
    FillEmbeds(prompt, Assess(prompt), TemplateFor(appType));
  }

  lemma FillDistinct(prompt: string, a: Assessment, t1: Template, t2: Template, k: nat)
    requires k < |t1.architecture| && k < |t2.architecture| && t1.architecture[k] != t2.architecture[k]
    ensures Fill(prompt, a, t1) != Fill(prompt, a, t2)
  {
    FillAt(prompt, a, t1, k);
    FillAt(prompt, a, t2, k);
  }

  /** The template's architecture starts right after the analysis. */
  lemma FillAt(prompt: string, a: Assessment, t: Template, k: nat)
    requires k < |t.architecture|
    ensures |Fill(prompt, a, t)| > |Analysis(prompt, a)| + k
    ensures Fill(prompt, a, t)[|Analysis(prompt, a)| + k] == t.architecture[k]
  {
    var p := Planning(t);
    assert p[k] == t.architecture[k];
    var head := Analysis(prompt, a);
    assert (head + p)[|head| + k] == p[k];
  }

  /** The four types produce four different prompts: each gets its own
      template. */
  lemma EnhancePromptDistinct(prompt: string, t1: string, t2: string)
    requires t1 in AppTypes && t2 in AppTypes && t1 != t2
    ensures EnhancePrompt(prompt, t1) != EnhancePrompt(prompt, t2)
  {
    TemplateStart(t1, t2);
    FillDistinct(prompt, Assess(prompt), TemplateFor(t1), TemplateFor(t2), FrontendAt);
  }

  /** Where the four architecture texts part: each begins with the same
      frontend line, `Next.js` followed by a version, `avec`, `+` or
      `statique`. */
  const FrontendAt := 21

  /** The four architecture texts share their first line's opening and
      differ right after `Next.js `. */
  lemma TemplateStart(t1: string, t2: string)
    requires t1 in AppTypes && t2 in AppTypes && t1 != t2
    ensures FrontendAt < |TemplateFor(t1).architecture| && FrontendAt < |TemplateFor(t2).architecture|
    ensures TemplateFor(t1).architecture[..FrontendAt] == TemplateFor(t2).architecture[..FrontendAt]
    ensures TemplateFor(t1).architecture[FrontendAt] != TemplateFor(t2).architecture[FrontendAt]
  {
  }

  // ---------------------------------------------------------------------
  // Specific instructions and the improved prompt
  // ---------------------------------------------------------------------

  const EcommerceInstructions := "\nSPÉCIFIQUE E-COMMERCE:"
  const SaasInstructions := "\nSPÉCIFIQUE SAAS:"
  const DashboardInstructions := "\nSPÉCIFIQUE DASHBOARD:"
  const LandingInstructions := "\nSPÉCIFIQUE LANDING:"

  /** `getSpecificInstructions(appType)`: the type's own text, the
      ecommerce text for any other key, and for the name of an inherited
      member the text that member converts to. */
  function GetSpecificInstructions(appType: string): (r: string)
    ensures appType !in AppTypes && appType !in Json.InheritedNames ==> r == EcommerceInstructions
    ensures appType in Json.InheritedNames ==> r == Json.InheritedText(appType)
    ensures appType in AppTypes ==> r in [EcommerceInstructions, SaasInstructions, DashboardInstructions, LandingInstructions]
  {
    if appType == "saas" then SaasInstructions
    else if appType == "dashboard" then DashboardInstructions
    else if appType == "landing" then LandingInstructions
    else if appType in Json.InheritedNames then Json.InheritedText(appType)
    else EcommerceInstructions
  }

  /** The four types have four different instruction texts. */
  lemma InstructionsDistinct(t1: string, t2: string)
    requires t1 in AppTypes && t2 in AppTypes && t1 != t2
    ensures GetSpecificInstructions(t1) != GetSpecificInstructions(t2)
  {
    assert GetSpecificInstructions(t1)[12] != GetSpecificInstructions(t2)[12];
  }

  /** `improvePrompt(p)`: `enhancePrompt` with its default type, then the
      instructions of the detected type. */
  function ImprovePrompt(prompt: string): string {
    EnhancePrompt(prompt, "ecommerce") + "\n\n" + GetSpecificInstructions(DetectAppType(prompt))
  }

  /** The improved prompt always plans with the ecommerce template, whatever
      type it detects, and ends with the detected type's instructions. */
  lemma ImprovePromptShape(prompt: string)
    ensures StartsWith(ImprovePrompt(prompt), EnhancePrompt(prompt, "ecommerce"))
    ensures EndsWith(ImprovePrompt(prompt), GetSpecificInstructions(DetectAppType(prompt)))
  {
    ConcatEnds(EnhancePrompt(prompt, "ecommerce"), "\n\n", GetSpecificInstructions(DetectAppType(prompt)));
  }
}
