/** The helpers of src/streaming-handler.js around the streaming call:
    prompt compression, the per-model configuration, the memoised system
    prompt, the accumulation of a message stream with its progress calls,
    the sentence-based splitting of a long prompt and the joining of partial
    results. The transport is a function parameter from the request to the
    reply it gets. */
module StreamingHandler {
  import opened Wrappers
  import opened Strings
  import Json

  // ---------------------------------------------------------------------
  // compressPrompt
  // ---------------------------------------------------------------------

  /** The polite phrases `compressPrompt` deletes, in the order of the
      alternation. */
  const Fillers: seq<string> := ["please", "could you", "would you", "can you"]

  /** Whether `pat` (lower-case) matches at the start of `s`, ignoring ASCII
      case (the `i` flag without `u` folds only ASCII letters onto ASCII
      letters). */
  predicate MatchesIgnoringCase(s: string, pat: string)
    decreases |pat|
  {
    |pat| <= |s| && (pat == [] || (LowerChar(s[0]) == pat[0] && MatchesIgnoringCase(s[1..], pat[1..])))
  }

  /** The length of the filler that matches at the start of `s`, or 0. */
  function FillerAt(s: string): (n: nat)
    ensures n <= |s|
  {
    if MatchesIgnoringCase(s, Fillers[0]) then |Fillers[0]|
    else if MatchesIgnoringCase(s, Fillers[1]) then |Fillers[1]|
    else if MatchesIgnoringCase(s, Fillers[2]) then |Fillers[2]|
    else if MatchesIgnoringCase(s, Fillers[3]) then |Fillers[3]|
    else 0
  }

  /** `replace(/please|could you|would you|can you/gi, '')`: scanning left to
      right, every match is removed and the scan resumes after it. */
  function RemoveFillers(s: string): (r: string)
    ensures |r| <= |s|
    decreases |s|
  {
    if s == [] then []
    else
      var n := FillerAt(s);
      if n > 0 then RemoveFillers(s[n..]) else [s[0]] + RemoveFillers(s[1..])
  }

  /** A prompt in which no filler starts anywhere is left as it is. */
  lemma {:induction false} RemoveFillersPlain(s: string)
    requires forall i :: 0 <= i < |s| ==> FillerAt(s[i..]) == 0
    ensures RemoveFillers(s) == s
    decreases |s|
  {
    if s != [] {
      assert s[0..] == s;
      forall i | 0 <= i < |s[1..]| ensures FillerAt(s[1..][i..]) == 0 {
        assert s[1..][i..] == s[i + 1..];
      }
      RemoveFillersPlain(s[1..]);
    }
  }

  /** The number of dots at the start of `s`. */
  function LeadingDots(s: string): (n: nat)
    ensures n <= |s| && (forall i :: 0 <= i < n ==> s[i] == '.')
    ensures n < |s| ==> s[n] != '.'
    decreases |s|
  {
    if s != [] && s[0] == '.' then 1 + LeadingDots(s[1..]) else 0
  }

  /** The leading run of dots is determined by where it stops. */
  lemma {:induction false} LeadingDotsExact(s: string, n: nat)
    requires n <= |s| && (forall i :: 0 <= i < n ==> s[i] == '.')
    requires n < |s| ==> s[n] != '.'
    ensures LeadingDots(s) == n
    decreases n
  {
    if n > 0 {
      LeadingDotsExact(s[1..], n - 1);
    }
  }

  /** `replace(/[.]{2,}/g, '...')`: every maximal run of two or more dots
      becomes exactly three. */
  function CollapseDots(s: string): (r: string)
    ensures s == [] <==> r == []
    ensures s != [] ==> r[0] == s[0]
    decreases |s|
  {
    if s == [] then []
    else if s[0] == '.' then
      var n := LeadingDots(s);
      (if n >= 2 then "..." else ".") + CollapseDots(s[n..])
    else [s[0]] + CollapseDots(s[1..])
  }

  /** `compressPrompt`. */
  function CompressPrompt(prompt: string): string {
    Trim(CollapseDots(CollapseSpaces(RemoveFillers(prompt))))
  }

  /** The lengths of the maximal runs of dots of `s`, from left to right. */
  function DotRuns(s: string): (r: seq<nat>)
    ensures forall k :: 0 <= k < |r| ==> r[k] >= 1
    decreases |s|
  {
    if s == [] then []
    else if s[0] == '.' then [LeadingDots(s)] + DotRuns(s[LeadingDots(s)..])
    else DotRuns(s[1..])
  }

  /** A run of `|d|` dots followed by a non-dot counts as one run. */
  lemma DotRunsCons(d: string, rest: string)
    requires d != [] && (forall i :: 0 <= i < |d| ==> d[i] == '.')
    requires rest == [] || rest[0] != '.'
    ensures DotRuns(d + rest) == [|d|] + DotRuns(rest)
  {
    LeadingDotsExact(d + rest, |d|);
    assert (d + rest)[|d|..] == rest;
  }

  /** A non-dot character adds no run. */
  lemma DotRunsOther(c: char, rest: string)
    requires c != '.'
    ensures DotRuns([c] + rest) == DotRuns(rest)
  {
    assert ([c] + rest)[1..] == rest;
  }

  /** A prefix without dots adds no run. */
  lemma {:induction false} DotRunsPrefix(p: string, s: string)
    requires forall i :: 0 <= i < |p| ==> p[i] != '.'
    ensures DotRuns(p + s) == DotRuns(s)
    decreases |p|
  {
    if p == [] {
      assert p + s == s;
    } else {
      assert p + s == [p[0]] + (p[1..] + s);
      assert forall i :: 0 <= i < |p[1..]| ==> p[1..][i] == p[i + 1];
      DotRunsOther(p[0], p[1..] + s);
      DotRunsPrefix(p[1..], s);
    }
  }

  /** A suffix without dots adds no run. */
  lemma {:induction false} DotRunsSuffix(s: string, q: string)
    requires forall i :: 0 <= i < |q| ==> q[i] != '.'
    ensures DotRuns(s + q) == DotRuns(s)
    decreases |s|
  {
    if s == [] {
      assert s + q == q;
      DotRunsPrefix(q, []);
      assert q + [] == q;
    } else if s[0] == '.' {
      var n := LeadingDots(s);
      LeadingDotsExact(s + q, n);
      assert (s + q)[n..] == s[n..] + q;
      DotRunsSuffix(s[n..], q);
    } else {
      assert (s + q)[1..] == s[1..] + q;
      DotRunsSuffix(s[1..], q);
    }
  }

  /** What `[.]{2,}` -> `...` does to the run lengths: 1 stays 1, anything
      longer becomes 3. */
  function Squashed(runs: seq<nat>): (r: seq<nat>)
    ensures |r| == |runs|
    ensures forall k :: 0 <= k < |r| ==> r[k] == (if runs[k] >= 2 then 3 else 1)
    decreases |runs|
  {
    if runs == [] then [] else [if runs[0] >= 2 then 3 else 1] + Squashed(runs[1..])
  }

  /** Collapsing keeps every run of dots, in order, and brings its length to 1
      or 3. */
  lemma {:induction false} CollapseDotsRuns(s: string)
    ensures DotRuns(CollapseDots(s)) == Squashed(DotRuns(s))
    decreases |s|
  {
    if s != [] {
      if s[0] == '.' {
        var n := LeadingDots(s);
        var d: string := if n >= 2 then "..." else ".";
        var rest := CollapseDots(s[n..]);
        CollapseDotsRuns(s[n..]);
        assert CollapseDots(s) == d + rest;
        DotRunsCons(d, rest);
        assert Squashed(DotRuns(s))[1..] == Squashed(DotRuns(s[n..]));
      } else {
        assert CollapseDots(s) == [s[0]] + CollapseDots(s[1..]);
        DotRunsOther(s[0], CollapseDots(s[1..]));
        CollapseDotsRuns(s[1..]);
      }
    }
  }

  /** Putting a piece before a string keeps white space unrepeated and plain
      when the join itself does not put two white-space characters side by
      side. */
  lemma JoinNoSpaceRun(a: string, b: string)
    requires NoSpaceRun(a) && PlainSpaces(a) && NoSpaceRun(b) && PlainSpaces(b)
    requires a != [] && b != [] ==> !(IsSpace(a[|a| - 1]) && IsSpace(b[0]))
    ensures NoSpaceRun(a + b) && PlainSpaces(a + b)
  {
    var c := a + b;
    assert forall i :: |a| <= i < |c| ==> c[i] == b[i - |a|];
    assert forall i :: 0 <= i < |a| ==> c[i] == a[i];
  }

  /** Collapsing dots replaces dots by dots only, so white space stays
      unrepeated and plain. */
  lemma {:induction false} CollapseDotsSpaces(s: string)
    requires NoSpaceRun(s) && PlainSpaces(s)
    ensures NoSpaceRun(CollapseDots(s)) && PlainSpaces(CollapseDots(s))
    decreases |s|
  {
    if s != [] {
      if s[0] == '.' {
        var n := LeadingDots(s);
        var d: string := if n >= 2 then "..." else ".";
        assert NoSpaceRun(s[n..]) && PlainSpaces(s[n..]) by {
          assert forall i :: 0 <= i < |s[n..]| ==> s[n..][i] == s[n + i];
        }
        CollapseDotsSpaces(s[n..]);
        JoinNoSpaceRun(d, CollapseDots(s[n..]));
      } else {
        assert NoSpaceRun(s[1..]) && PlainSpaces(s[1..]) by {
          assert forall i :: 0 <= i < |s[1..]| ==> s[1..][i] == s[1 + i];
        }
        CollapseDotsSpaces(s[1..]);
        assert |s| > 1 ==> !(IsSpace(s[0]) && IsSpace(s[1]));
        JoinNoSpaceRun([s[0]], CollapseDots(s[1..]));
      }
    }
  }

  /** Parts without dots around a middle add no run. */
  lemma DotRunsAround(pre: string, m: string, post: string)
    requires forall i :: 0 <= i < |pre| ==> pre[i] != '.'
    requires forall i :: 0 <= i < |post| ==> post[i] != '.'
    ensures DotRuns(pre + (m + post)) == DotRuns(m)
  {
    DotRunsPrefix(pre, m + post);
    DotRunsSuffix(m, post);
  }

  /** Cutting off parts without dots keeps the runs of dots. */
  lemma DotRunsSlice(c: string, mid: string, lo: nat, hi: nat)
    requires lo <= hi <= |c| && mid == c[lo..hi]
    requires forall i :: 0 <= i < lo ==> c[i] != '.'
    requires forall i :: hi <= i < |c| ==> c[i] != '.'
    ensures DotRuns(mid) == DotRuns(c)
  {
    var pre, m, post := c[..lo], c[lo..hi], c[hi..];
    assert c == pre + (m + post) by {
      assert c[lo..] == m + post;
      assert c == c[..lo] + c[lo..];
    }
    assert forall i :: 0 <= i < |pre| ==> pre[i] != '.' by {
      assert forall i :: 0 <= i < |pre| ==> pre[i] == c[i];
    }
    assert forall i :: 0 <= i < |post| ==> post[i] != '.' by {
      assert forall i :: 0 <= i < |post| ==> post[i] == c[hi + i];
    }
    DotRunsAround(pre, m, post);
  }

  /** Trimming cuts white space only, so the runs of dots are those of the
      untrimmed text. */
  lemma TrimKeepsRuns(c: string)
    ensures DotRuns(Trim(c)) == DotRuns(c)
  {
    var lo, hi := TrimBounds(c);
    DotRunsSlice(c, Trim(c), lo, hi);
  }

  /** A slice keeps white space unrepeated. */
  lemma SliceNoSpaceRun(c: string, m: string, lo: nat, hi: nat)
    requires lo <= hi <= |c| && m == c[lo..hi] && NoSpaceRun(c)
    ensures NoSpaceRun(m)
  {
    assert forall i :: 0 <= i < |m| ==> m[i] == c[lo + i];
  }

  /** A slice keeps white space plain. */
  lemma SlicePlainSpaces(c: string, m: string, lo: nat, hi: nat)
    requires lo <= hi <= |c| && m == c[lo..hi] && PlainSpaces(c)
    ensures PlainSpaces(m)
  {
    assert forall i :: 0 <= i < |m| ==> m[i] == c[lo + i];
  }

  lemma TrimNoSpaceRun(c: string)
    requires NoSpaceRun(c)
    ensures NoSpaceRun(Trim(c))
  {
    var lo, hi := TrimBounds(c);
    SliceNoSpaceRun(c, Trim(c), lo, hi);
  }

  lemma TrimPlainSpaces(c: string)
    requires PlainSpaces(c)
    ensures PlainSpaces(Trim(c))
  {
    var lo, hi := TrimBounds(c);
    SlicePlainSpaces(c, Trim(c), lo, hi);
  }

  /** `compressPrompt` returns trimmed text with no run of white space, whose
      only white space is the plain space, and in which every maximal run of
      dots has length 1 or 3. */
  lemma CompressPromptShape(prompt: string)
    ensures var r := CompressPrompt(prompt);
      && IsTrimmed(r) && NoSpaceRun(r) && PlainSpaces(r)
      && forall k :: 0 <= k < |DotRuns(r)| ==> DotRuns(r)[k] == 1 || DotRuns(r)[k] == 3
  {
    var a := CollapseSpaces(RemoveFillers(prompt));
    CollapseSpacesShape(RemoveFillers(prompt));
    var b := CollapseDots(a);
    CollapseDotsSpaces(a);
    CollapseDotsRuns(a);
    TrimKeepsRuns(b);
    TrimNoSpaceRun(b);
    TrimPlainSpaces(b);
  }

  // ---------------------------------------------------------------------
  // getModelConfig
  // ---------------------------------------------------------------------

  const HaikuModel := "claude-3-haiku-20240307"
  const SonnetModel := "claude-3-5-sonnet-20241022"
  const Sonnet4Model := "claude-sonnet-4-20250514"

  /** `this.model`, the model used when none is given. */
  const DefaultModel := Sonnet4Model

  datatype ModelConfig = ModelConfig(maxTokens: nat, temperature: real, complexity: string)

  const HaikuConfig := ModelConfig(2000, 0.7, "simple")
  const SonnetConfig := ModelConfig(8000, 0.7, "detailed")
  const Sonnet4Config := ModelConfig(12000, 0.7, "comprehensive")

  /** What the `model` argument of `generateWithStream` can be: a model id,
      nothing (`null`), or a function, which is what the orchestrator passes
      there. */
  datatype ModelArg = Id(name: string) | Absent | Callback

  /** `model || this.model`: `null` and the empty string select the default. */
  function Selected(model: ModelArg): (r: ModelArg)
    ensures r != Absent && r != Id("")
    ensures model == Callback ==> r == Callback
    ensures model.Id? && model.name != "" ==> r == model
  {
    match model
    case Absent => Id(DefaultModel)
    case Id(n) => if n == "" then Id(DefaultModel) else model
    case Callback => model
  }

  /** The configuration for a model id: the table entry, or the 8000-token
      entry for any id that is not a key of the table. */
  function ConfigFor(name: string): ModelConfig {
    if name == HaikuModel then HaikuConfig
    else if name == SonnetModel then SonnetConfig
    else if name == Sonnet4Model then Sonnet4Config
    else SonnetConfig
  }

  /** `getModelConfig`; a function used as a key becomes its source text, which
      is not a key of the table. */
  function GetModelConfig(model: ModelArg): (c: ModelConfig)
    ensures c == HaikuConfig || c == SonnetConfig || c == Sonnet4Config
    ensures model.Callback? ==> c == SonnetConfig
  {
    match model
    case Id(n) => ConfigFor(n)
    case _ => SonnetConfig
  }

  /** The three known ids get 2000, 8000 and 12000 tokens, with the simple,
      detailed and comprehensive prompts; every other id gets the 8000-token
      configuration, among them the Haiku 3.5 id of the fast mode. */
  lemma ConfigForSpec(name: string)
    ensures name == HaikuModel ==> ConfigFor(name).maxTokens == 2000 && ConfigFor(name).complexity == "simple"
    ensures name == SonnetModel ==> ConfigFor(name).maxTokens == 8000 && ConfigFor(name).complexity == "detailed"
    ensures name == Sonnet4Model ==> ConfigFor(name).maxTokens == 12000 && ConfigFor(name).complexity == "comprehensive"
    ensures name !in {HaikuModel, SonnetModel, Sonnet4Model} ==> ConfigFor(name) == SonnetConfig
    ensures ConfigFor("claude-3-5-haiku-20241022") == SonnetConfig
    ensures ConfigFor(name).temperature == 0.7
  {
  }

  /** What `configs[model] || configs[...]` reads as written: an own entry, or
      an inherited member of `Object.prototype`, which has no `maxTokens`. */
  datatype ConfigRead = Own(config: ModelConfig) | Inherited(member: string)

  function ConfigForAsWritten(name: string): (r: ConfigRead)
    ensures name !in Json.InheritedNames ==> r == Own(ConfigFor(name))
  {
    if name in {HaikuModel, SonnetModel, Sonnet4Model} then Own(ConfigFor(name))
    else if name in Json.InheritedNames then Inherited(name)
    else Own(SonnetConfig)
  }

  /** As written, the id "toString" gets back a function instead of a
      configuration, so the request would carry no token limit. */
  lemma InheritedNameNotAConfig()
    ensures ConfigForAsWritten("toString") == Inherited("toString")
    ensures ConfigFor("toString") == SonnetConfig
  {
  }

  // ---------------------------------------------------------------------
  // getSystemPrompt
  // ---------------------------------------------------------------------

  /** The three system prompts (their long texts are not reproduced). */
  const SimplePrompt := "system prompt: simple React components, JSON output"
  const DetailedPrompt := "system prompt: production-ready Next.js application, JSON output"
  const ComprehensivePrompt := "system prompt: enterprise-grade full-stack application, JSON output"

  /** `prompts[complexity] || prompts.detailed`. */
  function SystemPromptFor(complexity: string): (r: string)
    ensures r != ""
    ensures complexity !in {"simple", "comprehensive"} && complexity !in Json.InheritedNames ==> r == DetailedPrompt
  {
    if complexity == "simple" then SimplePrompt
    else if complexity == "comprehensive" then ComprehensivePrompt
    else DetailedPrompt
  }

  /** The three prompts differ, so each complexity gets its own. */
  lemma SystemPromptsDistinct()
    ensures SystemPromptFor("simple") != SystemPromptFor("detailed")
    ensures SystemPromptFor("detailed") != SystemPromptFor("comprehensive")
    ensures SystemPromptFor("simple") != SystemPromptFor("comprehensive")
  {
  }

  // ---------------------------------------------------------------------
  // handleStreamWithProgress
  // ---------------------------------------------------------------------

  const DeltaType := "content_block_delta"
  const ProgressEvery := 10
  const PreviewChunks := 50
  const PreviewLength := 200

  /** A message of the stream: its `type` and `delta.text` (`None` when the
      delta or its text is missing). */
  datatype Message = Message(kind: string, text: Option<string>)

  /** What the stream delivers: its messages, then possibly the message of the
      error its iteration throws. */
  datatype Reply = Rejected(message: string) | Streamed(messages: seq<Message>, failure: Option<string>)

  /** The calls `onProgress` receives. */
  datatype StreamEvent =
    | Streaming(processed: nat, preview: string)
    | Complete(totalChunks: nat, length: nat)
    | StreamError(message: string)

  /** `message.delta?.text || ''`. */
  function DeltaText(m: Message): string {
    m.text.GetOr("")
  }

  /** The texts of the delta messages, in order. */
  function Chunks(messages: seq<Message>): (r: seq<string>)
    ensures |r| <= |messages|
    decreases |messages|
  {
    if messages == [] then []
    else
      var last := messages[|messages| - 1];
      Chunks(messages[..|messages| - 1]) + (if last.kind == DeltaType then [DeltaText(last)] else [])
  }

  /** `chunks.slice(-50).join('').slice(-200)`. */
  function Preview(chunks: seq<string>): (r: string)
    ensures |r| <= PreviewLength
  {
    TakeLast(Join(TakeLast(chunks, PreviewChunks), ""), PreviewLength)
  }

  /** The `streaming` calls made while `chunks` accumulated: one after every
      tenth delta. */
  function StreamingEvents(chunks: seq<string>): (r: seq<StreamEvent>)
    decreases |chunks|
  {
    if chunks == [] then []
    else
      var before := chunks[..|chunks| - 1];
      StreamingEvents(before)
        + (if |chunks| % ProgressEvery == 0 then [Streaming(|chunks|, Preview(chunks))] else [])
  }

  /** The progress calls and the outcome of `handleStreamWithProgress`. */
  function StreamOutcome(messages: seq<Message>, failure: Option<string>): (r: (seq<StreamEvent>, Result<string>))
  {
    var chunks := Chunks(messages);
    match failure
    case None =>
      var full := Join(chunks, "");
      (StreamingEvents(chunks) + [Complete(|chunks|, |full|)], Ok(full))
    case Some(m) => (StreamingEvents(chunks) + [StreamError(m)], Err(m))
  }

  /** Delta texts keep their order across concatenated streams. */
  lemma {:induction false} ChunksAppend(a: seq<Message>, b: seq<Message>)
    ensures Chunks(a + b) == Chunks(a) + Chunks(b)
    decreases |b|
  {
    if b == [] {
      assert a + b == a;
    } else {
      var b' := b[..|b| - 1];
      assert (a + b)[..|a + b| - 1] == a + b';
      ChunksAppend(a, b');
    }
  }

  /** A message of any other type contributes nothing. */
  lemma OtherMessagesIgnored(a: seq<Message>, m: Message, b: seq<Message>)
    requires m.kind != DeltaType
    ensures Chunks(a + [m] + b) == Chunks(a + b)
  {
    ChunksAppend(a + [m], b);
    ChunksAppend(a, [m]);
    ChunksAppend(a, b);
    assert Chunks([m]) == [] by {
      assert [m][..0] == [];
    }
  }

  /** On success the result is the concatenation of the delta texts of the
      two halves of the stream, in order. */
  lemma StreamResultSplits(a: seq<Message>, b: seq<Message>)
    requires Chunks(a) != [] && Chunks(b) != []
    ensures Join(Chunks(a + b), "") == Join(Chunks(a), "") + Join(Chunks(b), "")
  {
    ChunksAppend(a, b);
    JoinAppend(Chunks(a), Chunks(b), "");
    assert Join(Chunks(a), "") + "" == Join(Chunks(a), "");
  }

  /** There is one `streaming` call per ten deltas; the k-th reports 10·k
      deltas processed and a preview of at most 200 characters. */
  lemma {:induction false} StreamingEventsSpec(chunks: seq<string>)
    ensures var e := StreamingEvents(chunks);
      && |e| == |chunks| / ProgressEvery
      && forall k :: 0 <= k < |e| ==>
           e[k].Streaming? && e[k].processed == ProgressEvery * (k + 1) && |e[k].preview| <= PreviewLength
    decreases |chunks|
  {
    if chunks != [] {
      StreamingEventsSpec(chunks[..|chunks| - 1]);
    }
  }

  /** The stream ends with exactly one `complete` call carrying the number of
      deltas and the length of the result, or with one `error` call and the
      error passed on. */
  lemma StreamOutcomeSpec(messages: seq<Message>, failure: Option<string>)
    ensures var (events, r) := StreamOutcome(messages, failure);
      && |events| == |Chunks(messages)| / ProgressEvery + 1
      && (failure.None? ==> r == Ok(Join(Chunks(messages), "")) && events[|events| - 1] == Complete(|Chunks(messages)|, |r.value|))
      && (failure.Some? ==> r == Err(failure.value) && events[|events| - 1] == StreamError(failure.value))
  {
    StreamingEventsSpec(Chunks(messages));
  }

  /** One more message adds its delta text, if it has one, to the chunks. */
  lemma ChunksStep(messages: seq<Message>, i: nat)
    requires i < |messages|
    ensures Chunks(messages[..i + 1])
      == Chunks(messages[..i]) + (if messages[i].kind == DeltaType then [DeltaText(messages[i])] else [])
  {
    assert messages[..i + 1][..i] == messages[..i];
  }

  /** One more chunk adds a `streaming` call exactly when the count reaches a
      multiple of ten. */
  lemma EventsStep(chunks: seq<string>, text: string)
    ensures StreamingEvents(chunks + [text])
      == StreamingEvents(chunks)
         + (if (|chunks| + 1) % ProgressEvery == 0 then [Streaming(|chunks| + 1, Preview(chunks + [text]))] else [])
  {
    assert (chunks + [text])[..|chunks|] == chunks;
  }

  /** `handleStreamWithProgress` over the messages the stream delivers. */
  method HandleStream(messages: seq<Message>, failure: Option<string>)
    returns (events: seq<StreamEvent>, r: Result<string>)
    ensures (events, r) == StreamOutcome(messages, failure)
  {
    var chunks: seq<string> := [];
    var totalChunks := 0;
    events := [];
    for i := 0 to |messages|
      invariant chunks == Chunks(messages[..i]) && totalChunks == |chunks|
      invariant events == StreamingEvents(chunks)
    {
      ChunksStep(messages, i);
      var message := messages[i];
      if message.kind == DeltaType {
        var text := DeltaText(message);
        EventsStep(chunks, text);
        chunks := chunks + [text];
        totalChunks := totalChunks + 1;
        if totalChunks % ProgressEvery == 0 {
          events := events + [Streaming(totalChunks, Preview(chunks))];
        }
      }
    }
    assert messages[..|messages|] == messages;
    if failure.Some? {
      events := events + [StreamError(failure.value)];
      return events, Err(failure.value);
    }
    var fullResult := Join(chunks, "");
    events := events + [Complete(totalChunks, |fullResult|)];
    return events, Ok(fullResult);
  }

  // ---------------------------------------------------------------------
  // generateWithStream
  // ---------------------------------------------------------------------

  /** The request sent to the transport. */
  datatype Request = Request(model: ModelArg, maxTokens: nat, temperature: real, system: string, content: string)

  /** Storing a prompt under a key that already holds it leaves the store as it was. */
  lemma StoreAgain(m: map<string, string>, k: string, v: string)
    requires k in m && m[k] == v
    ensures m[k := v] == m
  {
    assert m[k := v].Keys == m.Keys;
  }

  /** The handler: its default model and the system prompts it has stored,
      keyed by complexity (the `systemPrompt_<complexity>` properties). */
  class Handler {
    var memo: map<string, string>

    /** Every stored prompt is the one its complexity selects. */
    ghost predicate Valid()
      reads this
    {
      forall c :: c in memo ==> memo[c] == SystemPromptFor(c)
    }

    constructor ()
      ensures Valid() && memo == map[]
    {
      memo := map[];
    }

    /** `getSystemPrompt`, whose argument defaults to "detailed". The prompt
        is computed and stored the first time a complexity is asked for and
        read back from the store afterwards. */
    method GetSystemPrompt(complexity: Option<string>) returns (r: string)
      requires Valid()
      modifies this
      ensures Valid()
      ensures r == SystemPromptFor(complexity.GetOr("detailed"))
      ensures memo == old(memo)[complexity.GetOr("detailed") := r]
      ensures complexity.GetOr("detailed") in old(memo) ==> memo == old(memo) && r == old(memo)[complexity.GetOr("detailed")]
    {
      var key := complexity.GetOr("detailed");
      if key !in memo || memo[key] == "" {
        memo := memo[key := SystemPromptFor(key)];
      }
      r := memo[key];
    }

    /** `generateWithStream(prompt, model, onProgress)`: compress the prompt,
        select the model and its configuration, send one streaming request
        and accumulate its reply. `events` are the calls `onProgress`
        receives. */
    method GenerateWithStream(prompt: string, model: ModelArg, transport: Request -> Reply)
      returns (sent: Request, events: seq<StreamEvent>, r: Result<string>)
      requires Valid()
      modifies this
      ensures Valid()
      ensures sent == Prepared(CompressPrompt(prompt), model)
      ensures (events, r) == Answered(transport(sent))
      ensures memo == old(memo)[GetModelConfig(Selected(model)).complexity := sent.system]
    {
      sent := PrepareRequest(prompt, model);
      var reply := transport(sent);
      match reply
      case Rejected(message) =>
        events, r := [], Err(message);
      case Streamed(messages, failure) =>
        events, r := HandleStream(messages, failure);
    }

    /** The first half of `generateWithStream`: the request built from the
        compressed prompt, the selected model, its configuration and its
        system prompt, which is stored on first use. */
    method PrepareRequest(prompt: string, model: ModelArg) returns (sent: Request)
      requires Valid()
      modifies this
      ensures Valid()
      ensures sent == Prepared(CompressPrompt(prompt), model)
      ensures memo == old(memo)[GetModelConfig(Selected(model)).complexity := sent.system]
    {
      var optimized := CompressPrompt(prompt);
      var selected := Selected(model);
      var config := GetModelConfig(selected);
      assert Some(config.complexity).GetOr("detailed") == config.complexity;
      var system := GetSystemPrompt(Some(config.complexity));
      sent := Request(selected, config.maxTokens, config.temperature, system, optimized);
      PreparedFrom(optimized, model, system);
    }

    /** `generateLargeContent(prompt)`: split the prompt into sections, ask
        for each in turn (its progress callback lands in the model slot) and
        combine the answers; the first failing section ends the call with
        its error. */
    method GenerateLargeContent(prompt: string, transport: Request -> Reply) returns (r: Result<string>)
      requires Valid()
      modifies this
      ensures Valid()
      ensures r == LargeContent(prompt, transport)
      ensures memo == old(memo)["detailed" := DetailedPrompt]
    {
      var sections := SplitPromptIntoSections(prompt);
      ghost var answer := Answers(transport);
      var results: seq<string> := [];
      for i := 0 to |sections|
        invariant Valid()
        invariant SectionResults(sections, i, answer) == Ok(results)
        invariant i == 0 ==> memo == old(memo)
        invariant i > 0 ==> memo == old(memo)["detailed" := DetailedPrompt]
      {
        ghost var before := memo;
        var result := AnswerSection(sections[i], transport);
        assert memo == old(memo)["detailed" := DetailedPrompt] by {
          if i > 0 {
            StoreAgain(before, "detailed", DetailedPrompt);
          }
        }
        if result.Err? {
          SectionResultsFail(sections, i + 1, answer);
          return Err(result.error);
        }
        results := results + [result.value];
      }
      assert |sections| > 0;
      r := Ok(CombineResults(results));
    }

    /** One round of the loop of `generateLargeContent`. */
    method AnswerSection(section: string, transport: Request -> Reply) returns (r: Result<string>)
      requires Valid()
      modifies this
      ensures Valid()
      ensures r == Answers(transport)(section)
      ensures memo == old(memo)["detailed" := DetailedPrompt]
    {
      var sent, _, result := GenerateWithStream(section, Callback, transport);
      PreparedSpec(section, Callback);
      r := result;
    }
  }

  /** The request `generateWithStream` sends with the compressed prompt as
      its content: the selected model, its token limit and temperature, and
      the system prompt of its complexity. */
  function Prepared(content: string, model: ModelArg): (q: Request) {
    var selected := Selected(model);
    var config := GetModelConfig(selected);
    Request(selected, config.maxTokens, config.temperature, SystemPromptFor(config.complexity), content)
  }

  /** A request built from the selected configuration and the prompt stored
      for its complexity is the prepared one. */
  lemma PreparedFrom(content: string, model: ModelArg, system: string)
    requires system == SystemPromptFor(Some(GetModelConfig(Selected(model)).complexity).GetOr("detailed"))
    ensures Prepared(content, model) == Request(Selected(model), GetModelConfig(Selected(model)).maxTokens, GetModelConfig(Selected(model)).temperature, system, content)
  {
  }

  /** What `generateWithStream` makes of the reply: a rejected request throws
      before any progress call; a stream is accumulated. */
  function Answered(reply: Reply): (seq<StreamEvent>, Result<string>) {
    match reply
    case Rejected(message) => ([], Err(message))
    case Streamed(messages, failure) => StreamOutcome(messages, failure)
  }

  /** The request sent for a given model id: no model, or an empty id, selects
      the default model with 12000 tokens; a callback in the model slot is
      sent as the model and gets the 8000-token configuration and the
      detailed system prompt. */
  lemma PreparedSpec(content: string, model: ModelArg)
    ensures var q := Prepared(content, model);
      && ((model.Absent? || model == Id("")) ==> q.model == Id(DefaultModel) && q.maxTokens == 12000)
      && (model.Callback? ==> q.model == Callback && q.maxTokens == 8000 && q.system == DetailedPrompt)
      && (model.Id? && model.name != "" ==> q.model == model && q.maxTokens == ConfigFor(model.name).maxTokens)
  {
  }

  // ---------------------------------------------------------------------
  // splitPromptIntoSections, combineResults
  // ---------------------------------------------------------------------

  const SectionLimit := 1000
  const SentenceEnd := ". "

  /** The sections the loop of `splitPromptIntoSections` pushes, untrimmed:
      a sentence is added to the current section while the two together stay
      within 1000 characters; otherwise the current section is closed and the
      sentence starts the next one, or, when the current section is still
      empty, the sentence is dropped. */
  function Pieces(sentences: seq<string>, current: string): (r: seq<string>)
    decreases |sentences|
  {
    if sentences == [] then (if Trim(current) != "" then [current] else [])
    else
      var s := sentences[0];
      if |current + s| > SectionLimit then
        if current != "" then [current] + Pieces(sentences[1..], s + SentenceEnd)
        else Pieces(sentences[1..], current)
      else Pieces(sentences[1..], current + s + SentenceEnd)
  }

  /** `trim` applied to each element. */
  function TrimAll(xs: seq<string>): (r: seq<string>)
    ensures |r| == |xs| && forall i :: 0 <= i < |r| ==> r[i] == Trim(xs[i])
    decreases |xs|
  {
    if xs == [] then [] else [Trim(xs[0])] + TrimAll(xs[1..])
  }

  /** `splitPromptIntoSections`: the sentences are the pieces between
      ". " separators. */
  function SplitSections(prompt: string): (r: seq<string>)
    ensures r != []
  {
    var pieces := Pieces(Split(prompt, SentenceEnd), "");
    if pieces == [] then [prompt] else TrimAll(pieces)
  }

  /** The sentences with ". " after each, one after the other. */
  function Render(sentences: seq<string>): string
    decreases |sentences|
  {
    if sentences == [] then "" else sentences[0] + SentenceEnd + Render(sentences[1..])
  }

  /** The number of leading sentences longer than 1000 characters. */
  function Dropped(sentences: seq<string>): (d: nat)
    ensures d <= |sentences| && (forall i :: 0 <= i < d ==> |sentences[i]| > SectionLimit)
    ensures d < |sentences| ==> |sentences[d]| <= SectionLimit
    decreases |sentences|
  {
    if sentences != [] && |sentences[0]| > SectionLimit then 1 + Dropped(sentences[1..]) else 0
  }

  /** A current section ending in ". " is never blank. */
  lemma EndedNotBlank(current: string)
    requires EndsWith(current, SentenceEnd)
    ensures Trim(current) != ""
  {
    var lo, hi := TrimBounds(current);
    var k := |current| - 2;
    assert current[k..] == SentenceEnd;
    assert current[k] == '.';
    assert !IsSpace(current[k]);
  }

  lemma EndsWithEnd(x: string)
    ensures EndsWith(x + SentenceEnd, SentenceEnd)
  {
    assert (x + SentenceEnd)[|x|..] == SentenceEnd;
  }

  /** Once the current section holds something, there is at least one piece
      and every piece ends with ". ". */
  lemma {:induction false} PiecesEnds(sentences: seq<string>, current: string)
    requires EndsWith(current, SentenceEnd)
    ensures Pieces(sentences, current) != []
    ensures forall i :: 0 <= i < |Pieces(sentences, current)| ==> EndsWith(Pieces(sentences, current)[i], SentenceEnd)
    decreases |sentences|
  {
    if sentences == [] {
      EndedNotBlank(current);
    } else {
      var s := sentences[0];
      var rest := sentences[1..];
      if |current + s| > SectionLimit {
        EndsWithEnd(s);
        PiecesEnds(rest, s + SentenceEnd);
      } else {
        EndsWithEnd(current + s);
        PiecesEnds(rest, current + s + SentenceEnd);
      }
    }
  }

  /** Once the current section holds something, the pieces put together are
      the current section and the remaining sentences, in order, none
      dropped. */
  lemma {:induction false} PiecesJoin(sentences: seq<string>, current: string)
    requires EndsWith(current, SentenceEnd)
    ensures Join(Pieces(sentences, current), "") == current + Render(sentences)
    decreases |sentences|
  {
    if sentences == [] {
      EndedNotBlank(current);
      assert current + "" == current;
    } else {
      var s := sentences[0];
      var rest := sentences[1..];
      assert Render(sentences) == s + SentenceEnd + Render(rest);
      if |current + s| > SectionLimit {
        var next := s + SentenceEnd;
        EndsWithEnd(s);
        PiecesJoin(rest, next);
        assert current != "";
        JoinEmptyCons(current, Pieces(rest, next));
      } else {
        var next := current + s + SentenceEnd;
        EndsWithEnd(current + s);
        PiecesJoin(rest, next);
      }
    }
  }

  /** From an empty section, the leading long sentences are dropped. */
  lemma {:induction false} PiecesDrop(sentences: seq<string>)
    ensures Pieces(sentences, "") == Pieces(sentences[Dropped(sentences)..], "")
    decreases |sentences|
  {
    if sentences != [] && |sentences[0]| > SectionLimit {
      assert "" + sentences[0] == sentences[0];
      PiecesDrop(sentences[1..]);
      assert sentences[1..][Dropped(sentences[1..])..] == sentences[Dropped(sentences)..];
    }
  }

  /** Without a sentence of at most 1000 characters nothing is pushed, and
      the prompt is returned whole; otherwise there are pieces. */
  lemma SplitSectionsWhole(prompt: string)
    ensures var sentences := Split(prompt, SentenceEnd);
      && (Dropped(sentences) == |sentences| <==> Pieces(sentences, "") == [])
      && (Dropped(sentences) == |sentences| ==> SplitSections(prompt) == [prompt])
  {
    var sentences := Split(prompt, SentenceEnd);
    var d := Dropped(sentences);
    PiecesDrop(sentences);
    var kept := sentences[d..];
    if d < |sentences| {
      KeptPieces(kept);
    } else {
      assert kept == [];
      assert Trim("") == "";
    }
  }

  /** Sentences kept from an empty section start it and are not lost. */
  lemma KeptPieces(kept: seq<string>)
    requires kept != [] && |kept[0]| <= SectionLimit
    ensures Pieces(kept, "") == Pieces(kept[1..], kept[0] + SentenceEnd)
    ensures Pieces(kept, "") != []
    ensures Join(Pieces(kept, ""), "") == Render(kept)
  {
    var s := kept[0];
    assert "" + s == s;
    assert "" + s + SentenceEnd == s + SentenceEnd;
    EndsWithEnd(s);
    PiecesEnds(kept[1..], s + SentenceEnd);
    PiecesJoin(kept[1..], s + SentenceEnd);
  }

  /** The pieces put together give back the kept sentences, each followed by
      ". ": only the leading sentences longer than 1000 characters, met while
      no section has started, are lost, and the order is kept. */
  lemma SplitSectionsOrder(prompt: string)
    ensures var sentences := Split(prompt, SentenceEnd);
      Join(Pieces(sentences, ""), "") == Render(sentences[Dropped(sentences)..])
  {
    var sentences := Split(prompt, SentenceEnd);
    var d := Dropped(sentences);
    PiecesDrop(sentences);
    if d < |sentences| {
      KeptPieces(sentences[d..]);
    } else {
      assert sentences[d..] == [];
      assert Trim("") == "";
    }
  }

  /** When some sentence is kept, the sections are the trimmed pieces, each
      trimmed and non-empty. */
  lemma SplitSectionsTrimmed(prompt: string)
    ensures var sentences := Split(prompt, SentenceEnd);
      Dropped(sentences) < |sentences| ==>
        && SplitSections(prompt) == TrimAll(Pieces(sentences, ""))
        && forall i :: 0 <= i < |SplitSections(prompt)| ==>
             IsTrimmed(SplitSections(prompt)[i]) && SplitSections(prompt)[i] != ""
  {
    var sentences := Split(prompt, SentenceEnd);
    var d := Dropped(sentences);
    if d < |sentences| {
      PiecesDrop(sentences);
      var kept := sentences[d..];
      KeptPieces(kept);
      EndsWithEnd(kept[0]);
      PiecesEnds(kept[1..], kept[0] + SentenceEnd);
      var pieces := Pieces(sentences, "");
      forall i | 0 <= i < |pieces| ensures Trim(pieces[i]) != "" {
        EndedNotBlank(pieces[i]);
      }
    }
  }

  lemma TrimAllAppend(xs: seq<string>, x: string)
    ensures TrimAll(xs + [x]) == TrimAll(xs) + [Trim(x)]
  {
    var l, r := TrimAll(xs + [x]), TrimAll(xs) + [Trim(x)];
    forall i | 0 <= i < |l| ensures l[i] == r[i] {
      if i < |xs| {
        assert (xs + [x])[i] == xs[i];
      } else {
        assert (xs + [x])[i] == x;
      }
    }
  }

  lemma PushedAssoc(pushed: seq<string>, x: string, later: seq<string>)
    ensures pushed + ([x] + later) == (pushed + [x]) + later
  {
  }

  /** One step of `Pieces`, its three cases written out. */
  lemma PiecesStep(sentences: seq<string>, current: string)
    requires sentences != []
    ensures var s, rest := sentences[0], sentences[1..];
      && (|current + s| > SectionLimit && current != "" ==> Pieces(sentences, current) == [current] + Pieces(rest, s + SentenceEnd))
      && (|current + s| > SectionLimit && current == "" ==> Pieces(sentences, current) == Pieces(rest, current))
      && (|current + s| <= SectionLimit ==> Pieces(sentences, current) == Pieces(rest, current + s + SentenceEnd))
  {
  }

  /** The loop of `splitPromptIntoSections`. */
  method SplitPromptIntoSections(prompt: string) returns (sections: seq<string>)
    ensures sections == SplitSections(prompt)
  {
    var sentences := Split(prompt, SentenceEnd);
    sections := [];
    var currentSection := "";
    ghost var pushed: seq<string> := [];
    for i := 0 to |sentences|
      invariant sections == TrimAll(pushed)
      invariant Pieces(sentences, "") == pushed + Pieces(sentences[i..], currentSection)
    {
      var sentence := sentences[i];
      ghost var rest := sentences[i + 1..];
      assert sentences[i..][0] == sentence && sentences[i..][1..] == rest;
      PiecesStep(sentences[i..], currentSection);
      if |currentSection + sentence| > SectionLimit {
        if currentSection != "" {
          TrimAllAppend(pushed, currentSection);
          PushedAssoc(pushed, currentSection, Pieces(rest, sentence + SentenceEnd));
          sections := sections + [Trim(currentSection)];
          pushed := pushed + [currentSection];
          currentSection := sentence + SentenceEnd;
        }
      } else {
        currentSection := currentSection + sentence + SentenceEnd;
      }
    }
    assert sentences[|sentences|..] == [];
    ghost var last := Pieces([], currentSection);
    assert Pieces(sentences, "") == pushed + last;
    if Trim(currentSection) != "" {
      assert last == [currentSection];
      TrimAllAppend(pushed, currentSection);
      sections := sections + [Trim(currentSection)];
      pushed := pushed + [currentSection];
    } else {
      assert last == [] && pushed + last == pushed;
    }
    assert Pieces(sentences, "") == pushed;
    assert |sections| == |pushed|;
    if sections == [] {
      sections := [prompt];
    }
  }

  /** `combineResults`. */
  function CombineResults(results: seq<string>): string {
    Join(results, "\n\n")
  }

  /** Combining is associative over consecutive groups of results: combining
      two groups is combining each and putting a blank line between. */
  lemma CombineGroups(xs: seq<string>, ys: seq<string>)
    requires xs != [] && ys != []
    ensures CombineResults(xs + ys) == CombineResults(xs) + "\n\n" + CombineResults(ys)
  {
    JoinAppend(xs, ys, "\n\n");
  }

  // ---------------------------------------------------------------------
  // generateLargeContent
  // ---------------------------------------------------------------------

  /** The answer to one section: its request carries the callback as the
      model, and only the outcome of the stream is kept. */
  function SectionAnswer(section: string, transport: Request -> Reply): Result<string> {
    Answered(transport(Prepared(CompressPrompt(section), Callback))).1
  }

  /** `SectionAnswer` for every section. */
  function Answers(transport: Request -> Reply): string -> Result<string> {
    s => SectionAnswer(s, transport)
  }

  /** The answers to the first `n` sections, or the error of the first
      section among them whose request fails. */
  function SectionResults(sections: seq<string>, n: nat, answer: string -> Result<string>): (r: Result<seq<string>>)
    requires n <= |sections|
  {
    if n == 0 then Ok([])
    else match SectionResults(sections, n - 1, answer)
      case Err(e) => Err(e)
      case Ok(rs) =>
        var a := answer(sections[n - 1]);
        if a.Err? then Err(a.error) else Ok(rs + [a.value])
  }

  /** Once a section has failed, later sections change nothing. */
  lemma {:induction false} SectionResultsFail(sections: seq<string>, i: nat, answer: string -> Result<string>)
    requires i <= |sections| && SectionResults(sections, i, answer).Err?
    ensures SectionResults(sections, |sections|, answer) == SectionResults(sections, i, answer)
    decreases |sections| - i
  {
    if i < |sections| {
      SectionResultsFail(sections, i + 1, answer);
    }
  }

  /** The outcome of `generateLargeContent`. */
  function LargeContent(prompt: string, transport: Request -> Reply): Result<string> {
    var sections := SplitSections(prompt);
    match SectionResults(sections, |sections|, Answers(transport))
    case Err(e) => Err(e)
    case Ok(rs) => Ok(CombineResults(rs))
  }

  /** The answers are collected exactly when every section is answered, one
      per section, in the order of the sections. */
  lemma {:induction false} SectionResultsOk(sections: seq<string>, n: nat, answer: string -> Result<string>)
    requires n <= |sections|
    ensures var r := SectionResults(sections, n, answer);
      && (r.Ok? <==> forall i :: 0 <= i < n ==> answer(sections[i]).Ok?)
      && (r.Ok? ==> |r.value| == n && forall i :: 0 <= i < n ==> r.value[i] == answer(sections[i]).value)
    decreases n
  {
    if n > 0 {
      SectionResultsOk(sections, n - 1, answer);
    }
  }

  /** Otherwise the error is that of the first section whose request
      fails. */
  lemma {:induction false} SectionResultsErr(sections: seq<string>, n: nat, answer: string -> Result<string>)
    requires n <= |sections| && SectionResults(sections, n, answer).Err?
    ensures exists i :: 0 <= i < n && answer(sections[i]) == Err(SectionResults(sections, n, answer).error)
                        && forall j :: 0 <= j < i ==> answer(sections[j]).Ok?
    decreases n
  {
    var prev := SectionResults(sections, n - 1, answer);
    if prev.Err? {
      assert SectionResults(sections, n, answer) == prev;
      SectionResultsErr(sections, n - 1, answer);
    } else {
      SectionResultsOk(sections, n - 1, answer);
      var i := n - 1;
      assert answer(sections[i]) == Err(SectionResults(sections, n, answer).error);
      assert forall j :: 0 <= j < i ==> answer(sections[j]).Ok?;
    }
  }

  /** Every section is sent with the callback in the model slot, so it gets
      the 8000-token configuration and the detailed system prompt, whatever
      its size. */
  lemma SectionRequestSpec(section: string)
    ensures var q := Prepared(CompressPrompt(section), Callback);
      q.model == Callback && q.maxTokens == 8000 && q.system == DetailedPrompt && q.content == CompressPrompt(section)
  {
    PreparedSpec(CompressPrompt(section), Callback);
  }
}
