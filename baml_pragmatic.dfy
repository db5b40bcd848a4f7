/** The pragmatic generator of src/baml-system/baml-pragmatic.js: a keyword
    classifier choosing one of six domains, a fixed step-by-step wrapper
    around the user prompt, and the request it hands to the streaming
    handler. The long domain prompts and the wrapper's fixed text are short
    placeholder constants here. */
module BamlPragmatic {
  import opened Wrappers
  import opened Strings
  import SH = StreamingHandler

  /** The six domains, in the order `detectDomain` tests them. */
  const Domains: seq<string> := ["ecommerce", "saas", "dashboard", "landing", "blog", "api"]

  const EcommerceWords: seq<string> := ["ecommerce", "shop", "store", "cart", "product"]
  const SaasWords: seq<string> := ["saas", "subscription"]
  const DashboardWords: seq<string> := ["dashboard", "analytics", "chart", "data visualization"]
  const LandingWords: seq<string> := ["landing", "marketing", "conversion"]
  const BlogWords: seq<string> := ["blog", "article", "cms"]
  const ApiWords: seq<string> := ["api", "endpoint", "rest"]

  /** `this.domainPrompts`: one expert system prompt per domain. */
  const DomainPrompts: map<string, string> := map[
    "ecommerce" := "domain prompt: e-commerce expert",
    "saas" := "domain prompt: SaaS expert",
    "landing" := "domain prompt: landing page expert",
    "blog" := "domain prompt: blog expert",
    "dashboard" := "domain prompt: dashboard expert",
    "api" := "domain prompt: API expert"
  ]

  /** The if-chain of `detectDomain` over the lower-cased prompt: the
      first domain one of whose keywords occurs, landing when none does. */
  function Classify(lower: string): (d: string)
    ensures d in Domains
  {
    if ContainsAny(lower, EcommerceWords) then "ecommerce"
    else if ContainsAny(lower, SaasWords) then "saas"
    else if ContainsAny(lower, DashboardWords) then "dashboard"
    else if ContainsAny(lower, LandingWords) then "landing"
    else if ContainsAny(lower, BlogWords) then "blog"
    else if ContainsAny(lower, ApiWords) then "api"
    else "landing"
  }

  /** `detectDomain`. */
  function DetectDomain(prompt: string): (d: string) {
    Classify(ToLower(prompt))
  }

  /** Every domain has a prompt, so the structured prompt's system text is
      always defined. */
  lemma DomainsHavePrompts(prompt: string)
    ensures DetectDomain(prompt) in Domains
    ensures DetectDomain(prompt) in DomainPrompts
    ensures DomainPrompts.Keys == set d | d in Domains
  {
  }

  /** The priority order, in both directions: a domain is chosen exactly
      when one of its keywords occurs and no keyword of an earlier domain
      does; landing is also the default. */
  lemma DetectDomainPriority(prompt: string)
    ensures var l, d := ToLower(prompt), DetectDomain(prompt);
      var e, s, b := ContainsAny(l, EcommerceWords), ContainsAny(l, SaasWords), ContainsAny(l, DashboardWords);
      var n, g, a := ContainsAny(l, LandingWords), ContainsAny(l, BlogWords), ContainsAny(l, ApiWords);
      && (d == "ecommerce" <==> e)
      && (d == "saas" <==> !e && s)
      && (d == "dashboard" <==> !e && !s && b)
      && (d == "blog" <==> !e && !s && !b && !n && g)
      && (d == "api" <==> !e && !s && !b && !n && !g && a)
      && (d == "landing" <==> !e && !s && !b && (n || (!g && !a)))
  {
  }

  /** The classification ignores letter case. */
  lemma DetectDomainCase(prompt: string)
    ensures DetectDomain(ToLower(prompt)) == DetectDomain(prompt)
  {
    ToLowerIdempotent(prompt);
  }

  // The fixed text of `enhanceWithSCoT`, around its two copies of the prompt.
  const StepsLine := "Think step by step:\n\n1. ANALYZE: \""
  const RequirementsLine := "\"\n2. ARCHITECTURE\n3. IMPLEMENTATION\n4. OPTIMIZATION\n\nRequirements: "
  const QualityLines := "\n\nGenerate a complete, professional solution."

  /** `enhanceWithSCoT(userPrompt)`. */
  function EnhanceWithSCoT(prompt: string): (r: string) {
    StepsLine + prompt + RequirementsLine + prompt + QualityLines
  }

  /** The prompt appears twice, at fixed places: quoted in the analysis step
      and after "Requirements: ". */
  lemma EnhanceWithSCoTEmbedsTwice(prompt: string)
    ensures OccursAt(EnhanceWithSCoT(prompt), prompt, |StepsLine|)
    ensures OccursAt(EnhanceWithSCoT(prompt), prompt, |StepsLine| + |prompt| + |RequirementsLine|)
    ensures |EnhanceWithSCoT(prompt)| == |StepsLine| + |RequirementsLine| + |QualityLines| + 2 * |prompt|
  {
    var r := EnhanceWithSCoT(prompt);
    var k := |StepsLine| + |prompt| + |RequirementsLine|;
    assert r[|StepsLine|..|StepsLine| + |prompt|] == prompt;
    assert r == (StepsLine + prompt + RequirementsLine) + prompt + QualityLines;
    assert r[k..k + |prompt|] == prompt;
  }

  /** Different prompts are wrapped into different texts: the wrapper loses
      nothing. */
  lemma EnhanceWithSCoTInjective(p: string, q: string)
    requires EnhanceWithSCoT(p) == EnhanceWithSCoT(q)
    ensures p == q
  {
    EnhanceWithSCoTEmbedsTwice(p);
    EnhanceWithSCoTEmbedsTwice(q);
    var r := EnhanceWithSCoT(p);
    assert |p| == |q|;
    assert p == r[|StepsLine|..|StepsLine| + |p|];
  }

  /** `structuredPrompt`: the domain's system prompt, the wrapped user
      prompt, 12000 tokens and temperature 0.7. */
  datatype StructuredPrompt = StructuredPrompt(system: string, user: string, maxTokens: nat, temperature: real)

  function Structured(prompt: string): (s: StructuredPrompt)
    ensures s.system == DomainPrompts[DetectDomain(prompt)]
  {
    var d := DetectDomain(prompt);
    DomainsHavePrompts(prompt);
    StructuredPrompt(DomainPrompts[d], EnhanceWithSCoT(prompt), 12000, 0.7)
  }

  /** What `generate` sends: only the wrapped prompt reaches the handler,
      with no model, so whatever the content, the request is the default
      model's, with 12000 tokens and the handler's comprehensive system
      prompt, which is none of the domain prompts. */
  lemma SentIgnoresDomain(content: string)
    ensures var q := SH.Prepared(content, SH.Absent);
      && q.model == SH.Id(SH.DefaultModel)
      && q.maxTokens == 12000
      && q.system == SH.ComprehensivePrompt
      && forall d :: d in DomainPrompts ==> q.system != DomainPrompts[d]
  {
    SH.PreparedSpec(content, SH.Absent);
  }

  /** The generator with its own streaming handler. */
  class Pragmatic {
    const handler: SH.Handler

    ghost predicate Valid()
      reads this, handler
    {
      handler.Valid()
    }

    constructor ()
      ensures Valid() && fresh(handler)
    {
      handler := new SH.Handler();
    }

    /** `generate(userPrompt)`: classify, build the structured prompt, and
        pass its user text alone to `generateWithStream`. */
    method Generate(userPrompt: string, transport: SH.Request -> SH.Reply)
      returns (sent: SH.Request, events: seq<SH.StreamEvent>, r: Result<string>)
      requires Valid()
      modifies handler
      ensures Valid()
      ensures sent == SH.Prepared(SH.CompressPrompt(Structured(userPrompt).user), SH.Absent)
      ensures (events, r) == SH.Answered(transport(sent))
      ensures handler.memo == old(handler.memo)["comprehensive" := SH.ComprehensivePrompt]
    {
      var structured := Structured(userPrompt);
      sent, events, r := handler.GenerateWithStream(structured.user, SH.Absent, transport);
      SentIgnoresDomain(SH.CompressPrompt(structured.user));
    }
  }
}
