/** The quality gate of src/quality/enhancer.js. `evaluate` scores a
    generated JSON text, `detectIssues` lists what is wrong with it, the
    `fix*` operations repair it one issue at a time and `enhance` ties them
    together. Scores are kept in tenths of a point (`80` is the source's
    `8`), so every deduction the source makes is an exact integer here. */
module QualityEnhancer {
  import opened Wrappers
  import opened Strings
  import opened Json

  /** `minScore`. */
  const MinScore: int := 80

  function Min(a: int, b: int): int {
    if a <= b then a else b
  }

  function Max(a: int, b: int): int {
    if a >= b then a else b
  }

  function MinNat(a: nat, b: nat): nat {
    if a <= b then a else b
  }

  /** The regular-expression work the model does not spell out: the three
      rewrites of `fixJSONStructure` (trailing commas, single quotes, bare
      keys), and the names, trimmed and in order, that the import lines of
      a file's text bring in from relative paths, as `checkImportCoherence`
      reads them with its three patterns. Each operation that needs one
      takes it as a parameter, so what is proved holds for any of them. */
  datatype Patterns = Patterns(rewrite: string -> string, relativeImports: string -> seq<string>)

  // ----------------------------------------------------------- file texts

  /** What a file's `content` offers to `includes` and `length`: a string
      searches for a substring, an array for an element. Any other value
      has no `includes`, so calling it throws. */
  datatype Searchable = Chars(s: string) | Items(xs: seq<Json>)

  function AsSearchable(o: Option<Json>): (r: Result<Searchable>)
    ensures r.Ok? <==> o.Some? && (o.value.JStr? || o.value.JArr?)
  {
    if o.Some? && o.value.JStr? then Ok(Chars(o.value.s))
    else if o.Some? && o.value.JArr? then Ok(Items(o.value.items))
    else Err(TypeError)
  }

  /** `content.includes(needle)`. */
  predicate Has(c: Searchable, needle: string) {
    match c
    case Chars(s) => Contains(s, needle)
    case Items(xs) => JStr(needle) in xs
  }

  function Length(c: Searchable): nat {
    match c
    case Chars(s) => |s|
    case Items(xs) => |xs|
  }

  /** A property read as a string, for `match` and `split`: only strings
      have them, so anything else throws. */
  function Text(o: Option<Json>): (r: Result<string>)
    ensures r.Ok? <==> o.Some? && o.value.JStr?
  {
    if o.Some? && o.value.JStr? then Ok(o.value.s) else Err(TypeError)
  }

  // ------------------------------------------------------ content scores

  /** The checks of `evaluateReactComponent` that take a point off. */
  predicate NoExport(c: Searchable) {
    !Has(c, "export default") && !Has(c, "export const")
  }

  predicate NoReactImport(c: Searchable) {
    !Has(c, "import React") && !Has(c, "import {")
  }

  predicate LongWithoutHooks(c: Searchable) {
    Has(c, "function ") && !(Has(c, "useState") || Has(c, "useEffect") || Has(c, "useContext"))
    && Length(c) > 200
  }

  predicate LooseClassName(c: Searchable) {
    Has(c, "className") && !Has(c, "className=\"")
  }

  /** `evaluateReactComponent`: two points for a missing export, one each
      for a missing React import, a long function without hooks and a
      `className` not written as a string attribute; at least 5. */
  function ComponentScore(c: Searchable): (r: int)
    ensures 50 <= r <= 100
    ensures r == 100 <==> !NoExport(c) && !NoReactImport(c) && !LongWithoutHooks(c) && !LooseClassName(c)
    ensures NoExport(c) ==> r <= 80
  {
    var s1 := if NoExport(c) then 80 else 100;
    var s2 := if NoReactImport(c) then s1 - 10 else s1;
    var s3 := if LongWithoutHooks(c) then s2 - 10 else s2;
    var s4 := if LooseClassName(c) then s3 - 10 else s3;
    Max(50, s4)
  }

  /** `evaluateReactPage`: two points for a missing default export, one
      for neither `Head` nor `<title>`, one for class names without a
      responsive prefix; at least 5. */
  function PageScore(c: Searchable): (r: int)
    ensures 50 <= r <= 100
    ensures r == 100 <==>
      Has(c, "export default") && (Has(c, "Head") || Has(c, "<title>"))
      && (!Has(c, "className") || Has(c, "md:") || Has(c, "lg:"))
    ensures !Has(c, "export default") ==> r <= 80
  {
    var s1 := if !Has(c, "export default") then 80 else 100;
    var s2 := if !Has(c, "Head") && !Has(c, "<title>") then s1 - 10 else s1;
    var s3 := if Has(c, "className") && !Has(c, "md:") && !Has(c, "lg:") then s2 - 10 else s2;
    Max(50, s3)
  }

  /** `evaluateApiRoute`: two points for no exported handler, one for no
      `try`/`catch`; at least 5. */
  function ApiScore(c: Searchable): (r: int)
    ensures 50 <= r <= 100
    ensures r == 100 <==>
      (Has(c, "export default") || Has(c, "export async function")) && Has(c, "try") && Has(c, "catch")
  {
    var s1 := if !Has(c, "export default") && !Has(c, "export async function") then 80 else 100;
    var s2 := if !Has(c, "try") || !Has(c, "catch") then s1 - 10 else s1;
    Max(50, s2)
  }

  /** `evaluateCSS`: one point for `!important`; at least 7. */
  function StyleScore(c: Searchable): (r: int)
    ensures 70 <= r <= 100
    ensures r == 100 <==> !Has(c, "!important")
  {
    Max(70, if Has(c, "!important") then 90 else 100)
  }

  /** The four file types `evaluateFileContent` scores; any other type,
      strings or not, is neutral. */
  const ScoredTypes: seq<Json> := [JStr("component"), JStr("page"), JStr("api"), JStr("style")]

  /** `evaluateFileContent`: the scorer of the file's type, which throws on
      a content that has no `includes`; 8 for every other type. */
  function ContentScore(kind: Json, content: Json): (r: Result<int>)
    ensures r.Ok? ==> 50 <= r.value <= 100
    ensures kind == JStr("style") && r.Ok? ==> r.value >= 70
    ensures kind !in ScoredTypes ==> r == Ok(80)
    ensures kind in ScoredTypes ==> (r.Ok? <==> content.JStr? || content.JArr?)
  {
    if kind !in ScoredTypes then Ok(80)
    else
      var c :- AsSearchable(Some(content));
      if kind == JStr("component") then Ok(ComponentScore(c))
      else if kind == JStr("page") then Ok(PageScore(c))
      else if kind == JStr("api") then Ok(ApiScore(c))
      else Ok(StyleScore(c))
  }

  // ---------------------------------------------------------- file scores

  /** `file[key]` on a value that is not null: `None` is `undefined`. */
  function Read(v: Json, key: string): Option<Json>
    requires v != JNull
  {
    Prop(v, key).value
  }

  /** One turn of the loop of `evaluateFiles`: a file without a truthy
      path, content and type costs a point; a complete one whose content
      scores below 8 costs a fifth of what it misses. Reading a property of
      a null file throws. */
  function FileStep(score: int, file: Json): (r: Result<int>)
    ensures r.Ok? ==> score - 10 <= r.value <= score
    ensures r.Err? <==>
      (|| file == JNull
       || (&& Present(Read(file, "path")) && Present(Read(file, "content")) && Present(Read(file, "type"))
           && ContentScore(Read(file, "type").value, Read(file, "content").value).Err?))
  {
    if file == JNull then Err(TypeError)
    else
      var path, content, kind := Read(file, "path"), Read(file, "content"), Read(file, "type");
      if !Present(path) || !Present(content) || !Present(kind) then Ok(score - 10)
      else
        var cs :- ContentScore(kind.value, content.value);
        Ok(if cs < 80 then score - (100 - cs) / 5 else score)
  }

  /** The score of `evaluateFiles` before its floor, over a prefix of the
      files. */
  function FilesRaw(files: seq<Json>): (r: Result<int>)
    ensures r.Ok? ==> 100 - 10 * |files| <= r.value <= 100
  {
    if files == [] then Ok(100)
    else
      var s :- FilesRaw(files[..|files| - 1]);
      FileStep(s, files[|files| - 1])
  }

  /** A failure on a prefix is the failure of the whole loop. */
  lemma {:induction false} FilesRawFails(files: seq<Json>, i: nat)
    requires i <= |files| && FilesRaw(files[..i]).Err?
    ensures FilesRaw(files) == FilesRaw(files[..i])
    decreases |files| - i
  {
    if i < |files| {
      var p := files[..i + 1];
      assert p[..i] == files[..i];
      FilesRawFails(files, i + 1);
    } else {
      assert files[..i] == files;
    }
  }

  /** `evaluateFiles`, floored at 5. */
  function FilesScore(files: seq<Json>): (r: Result<int>)
    ensures r.Ok? ==> 50 <= r.value <= 100
    ensures r.Ok? <==> FilesRaw(files).Ok?
  {
    var s :- FilesRaw(files);
    Ok(Max(50, s))
  }

  /** Files that are all complete and score at least 8 keep the full
      score. */
  lemma {:induction false} FilesScoreClean(files: seq<Json>)
    requires forall i :: 0 <= i < |files| ==> files[i] != JNull
    requires forall i :: 0 <= i < |files| ==> FileStep(100, files[i]) == Ok(100)
    ensures FilesScore(files) == Ok(100)
    decreases |files|
  {
    if files != [] {
      var p := files[..|files| - 1];
      assert forall i :: 0 <= i < |p| ==> p[i] == files[i];
      FilesScoreClean(p);
    }
  }

  /** `evaluateFiles(files)`. */
  method EvaluateFiles(files: seq<Json>) returns (r: Result<int>)
    ensures r == FilesScore(files)
  {
    var score := 100;
    for i := 0 to |files|
      invariant FilesRaw(files[..i]) == Ok(score)
    {
      assert files[..i + 1][..i] == files[..i];
      var step := FileStep(score, files[i]);
      if step.Err? {
        FilesRawFails(files, i + 1);
        return Err(step.error);
      }
      score := step.value;
    }
    assert files[..|files|] == files;
    r := Ok(Max(50, score));
  }

  // ----------------------------------------------------- import coherence

  /** The text after the last `/` of `s`, or all of `s`. */
  function AfterLastSlash(s: string): (r: string)
    ensures '/' !in r
    ensures |r| <= |s| && s[|s| - |r|..] == r
    ensures |r| < |s| ==> s[|s| - |r| - 1] == '/'
    decreases |s|
  {
    if s == [] || s[|s| - 1] == '/' then []
    else
      var p := s[..|s| - 1];
      var t := AfterLastSlash(p);
      assert s[|s| - |t| - 1..] == p[|p| - |t|..] + [s[|s| - 1]];
      t + [s[|s| - 1]]
  }

  /** `path.match(/([^/]+)\.js$/)[1]`: the non-empty last segment of a
      path ending in `.js`, without the extension. */
  function ComponentNameOf(path: string): (r: Option<string>)
    ensures r.Some? ==>
      var n := r.value;
      && n != [] && '/' !in n && EndsWith(path, n + ".js")
      && (|path| == |n| + 3 || path[|path| - |n| - 4] == '/')
    ensures r.None? ==> !EndsWith(path, ".js") || path[..|path| - 3] == [] || path[|path| - 4] == '/'
  {
    if !EndsWith(path, ".js") then None
    else
      var stem := path[..|path| - 3];
      var n := AfterLastSlash(stem);
      if n == [] then None
      else
        assert path == stem + ".js";
        assert path[|path| - |n| - 3..] == n + ".js";
        Some(n)
  }

  /** The names the first loop of `checkImportCoherence` collects: those
      of files typed `component` whose path names a `.js` file. Reading the
      type of a null file, or matching a path that is not a string, throws. */
  function ComponentNames(files: seq<Json>): (r: Result<set<string>>)
  {
    if files == [] then Ok({})
    else
      var names :- ComponentNames(files[..|files| - 1]);
      var file := files[|files| - 1];
      var kind :- Prop(file, "type");
      if kind != Some(JStr("component")) then Ok(names)
      else
        var path :- Text(Read(file, "path"));
        match ComponentNameOf(path)
        case None => Ok(names)
        case Some(n) => Ok(names + {n})
  }

  lemma {:induction false} ComponentNamesFails(files: seq<Json>, i: nat)
    requires i <= |files| && ComponentNames(files[..i]).Err?
    ensures ComponentNames(files) == ComponentNames(files[..i])
    decreases |files| - i
  {
    if i < |files| {
      assert files[..i + 1][..i] == files[..i];
      ComponentNamesFails(files, i + 1);
    } else {
      assert files[..i] == files;
    }
  }

  /** An imported name that counts as an issue: not a known component, not
      a hook and not React. */
  predicate Unknown(name: string, names: set<string>) {
    name !in names && !Contains(name, "use") && name != "React"
  }

  /** How many of `imported` are unknown. */
  function CountUnknown(imported: seq<string>, names: set<string>): nat {
    if imported == [] then 0
    else CountUnknown(imported[..|imported| - 1], names) + if Unknown(imported[|imported| - 1], names) then 1 else 0
  }

  /** The count is at most the number of imports, and it is zero exactly
      when none is unknown. */
  lemma {:induction false} CountUnknownSpec(imported: seq<string>, names: set<string>)
    ensures CountUnknown(imported, names) <= |imported|
    ensures CountUnknown(imported, names) == 0 <==> forall j :: 0 <= j < |imported| ==> !Unknown(imported[j], names)
  {
    if imported != [] {
      var p := imported[..|imported| - 1];
      CountUnknownSpec(p, names);
      assert forall j :: 0 <= j < |p| ==> p[j] == imported[j];
    }
  }

  /** The second loop of `checkImportCoherence` over the first `n` files:
      every file's content is matched, so one that is not a string
      throws. */
  function ImportsRaw(files: seq<Json>, n: nat, names: set<string>, scan: Patterns): (r: Result<nat>)
    requires n <= |files|
  {
    if n == 0 then Ok(0)
    else ImportsNext(ImportsRaw(files, n - 1, names, scan), files[n - 1], names, scan)
  }

  /** One turn of the import loop, after the count so far. */
  function ImportsNext(prev: Result<nat>, file: Json, names: set<string>, scan: Patterns): (r: Result<nat>)
  {
    if prev.Err? then prev
    else
      var c := FileImports(file, names, scan);
      if c.Err? then c else Ok(prev.value + c.value)
  }

  /** The unknown relative imports of one file, read from its `content`. */
  function FileImports(file: Json, names: set<string>, scan: Patterns): (r: Result<nat>)
    ensures r.Ok? <==> file != JNull && Text(Read(file, "content")).Ok?
  {
    var content :- Prop(file, "content");
    var s :- Text(content);
    Ok(CountUnknown(scan.relativeImports(s), names))
  }

  /** A file the loop can read adds its count. */
  lemma ImportsRawAdds(files: seq<Json>, names: set<string>, scan: Patterns, i: nat, k: nat, c: nat)
    requires i < |files| && ImportsRaw(files, i, names, scan) == Ok(k)
    requires FileImports(files[i], names, scan) == Ok(c)
    ensures ImportsRaw(files, i + 1, names, scan) == Ok(k + c)
  {
    assert ImportsRaw(files, i + 1, names, scan) == ImportsNext(Ok(k), files[i], names, scan);
  }

  /** A file the loop cannot read throws its error. */
  lemma ImportsRawStops(files: seq<Json>, names: set<string>, scan: Patterns, i: nat, k: nat)
    requires i < |files| && ImportsRaw(files, i, names, scan) == Ok(k)
    requires FileImports(files[i], names, scan).Err?
    ensures ImportsRaw(files, i + 1, names, scan) == Err(FileImports(files[i], names, scan).error)
  {
  }

  /** Once the import loop has thrown, the later files change nothing. */
  lemma {:induction false} ImportsRawFails(files: seq<Json>, names: set<string>, scan: Patterns, i: nat)
    requires i <= |files| && ImportsRaw(files, i, names, scan).Err?
    ensures ImportsRaw(files, |files|, names, scan) == ImportsRaw(files, i, names, scan)
    decreases |files| - i
  {
    if i < |files| {
      ImportsRawFails(files, names, scan, i + 1);
    }
  }

  /** A file whose content is not a string makes the import loop throw. */
  lemma {:induction false} ImportsRawNeedsText(files: seq<Json>, n: nat, names: set<string>, scan: Patterns, i: nat)
    requires i < n <= |files|
    requires files[i] == JNull || Text(Read(files[i], "content")).Err?
    ensures ImportsRaw(files, n, names, scan).Err?
    decreases n
  {
    if i < n - 1 {
      ImportsRawNeedsText(files, n - 1, names, scan, i);
    }
  }

  /** `checkImportCoherence(files)`: the unknown relative imports, at most
      5. */
  function ImportIssues(files: seq<Json>, scan: Patterns): (r: Result<nat>)
    ensures r.Ok? ==> r.value <= 5
  {
    var names :- ComponentNames(files);
    var k :- ImportsRaw(files, |files|, names, scan);
    Ok(MinNat(k, 5))
  }

  /** Whatever the patterns, a file without string content makes the
      check throw (and so `evaluate` score 3). */
  lemma ImportIssuesNeedText(files: seq<Json>, scan: Patterns, i: nat)
    requires i < |files|
    requires files[i] == JNull || Text(Read(files[i], "content")).Err?
    ensures ImportIssues(files, scan).Err?
  {
    if ComponentNames(files).Ok? {
      ImportsRawNeedsText(files, |files|, ComponentNames(files).value, scan, i);
    }
  }

  /** The first loop of `checkImportCoherence`. */
  method CollectComponentNames(files: seq<Json>) returns (r: Result<set<string>>)
    ensures r == ComponentNames(files)
  {
    var names: set<string> := {};
    for i := 0 to |files|
      invariant ComponentNames(files[..i]) == Ok(names)
    {
      assert files[..i + 1][..i] == files[..i];
      var file := files[i];
      if file == JNull {
        ComponentNamesFails(files, i + 1);
        return Err(TypeError);
      }
      if Read(file, "type") == Some(JStr("component")) {
        var path := Text(Read(file, "path"));
        if path.Err? {
          ComponentNamesFails(files, i + 1);
          return Err(path.error);
        }
        var m := ComponentNameOf(path.value);
        if m.Some? {
          names := names + {m.value};
        }
      }
    }
    assert files[..|files|] == files;
    r := Ok(names);
  }

  /** The names of one file's relative imports that are unknown. */
  method CountUnknownImports(imported: seq<string>, names: set<string>) returns (k: nat)
    ensures k == CountUnknown(imported, names)
  {
    k := 0;
    for j := 0 to |imported|
      invariant k == CountUnknown(imported[..j], names)
    {
      assert imported[..j + 1][..j] == imported[..j];
      if Unknown(imported[j], names) {
        k := k + 1;
      }
    }
    assert imported[..|imported|] == imported;
  }

  /** The second loop of `checkImportCoherence`. */
  method CountImportIssues(files: seq<Json>, names: set<string>, scan: Patterns) returns (r: Result<nat>)
    ensures r == ImportsRaw(files, |files|, names, scan)
  {
    var issues: nat := 0;
    for i := 0 to |files|
      invariant ImportsRaw(files, i, names, scan) == Ok(issues)
    {
      var k := CountFileImports(files[i], names, scan);
      if k.Err? {
        ImportsRawStops(files, names, scan, i, issues);
        ImportsRawFails(files, names, scan, i + 1);
        return Err(k.error);
      }
      ImportsRawAdds(files, names, scan, i, issues, k.value);
      issues := issues + k.value;
    }
    r := Ok(issues);
  }

  /** The body of the import loop for one file. */
  method CountFileImports(file: Json, names: set<string>, scan: Patterns) returns (r: Result<nat>)
    ensures r == FileImports(file, names, scan)
  {
    var content := Prop(file, "content");
    if content.Err? {
      return Err(content.error);
    }
    var text := Text(content.value);
    if text.Err? {
      return Err(text.error);
    }
    var k := CountUnknownImports(scan.relativeImports(text.value), names);
    r := Ok(k);
  }

  /** `checkImportCoherence(files)`. */
  method CheckImportCoherence(files: seq<Json>, scan: Patterns) returns (r: Result<nat>)
    ensures r == ImportIssues(files, scan)
  {
    var names := CollectComponentNames(files);
    if names.Err? {
      return Err(names.error);
    }
    var issues := CountImportIssues(files, names.value, scan);
    if issues.Err? {
      return Err(issues.error);
    }
    r := Ok(MinNat(issues.value, 5));
  }

  // ----------------------------------------------------- naming coherence

  /** `/^[A-Z][a-zA-Z]*\.js$/`. */
  predicate PascalJs(path: string) {
    |path| >= 4 && EndsWith(path, ".js") && IsUpper(path[0])
    && forall i :: 1 <= i < |path| - 3 ==> IsLetter(path[i])
  }

  /** `path.split('/').pop().replace('.js', '')`. */
  function FileBase(path: string): string {
    var segments := Split(path, "/");
    ReplaceFirst(segments[|segments| - 1], ".js", "")
  }

  /** One turn of the loop of `checkNamingCoherence`: a component file
      named other than `Name.js` at the top level is an issue, and so is a
      component whose content defines no function or constant of its
      file's name. Every file's path is split, so a path that is not a
      string throws, and so does a component's content without `includes`. */
  function NamingStep(issues: nat, file: Json): (r: Result<nat>)
    ensures r.Ok? ==> issues <= r.value <= issues + 2
    ensures r.Ok? && file != JNull && Read(file, "type") != Some(JStr("component")) ==> r.value == issues
    ensures file == JNull || Text(Read(file, "path")).Err? ==> r.Err?
  {
    var kind :- Prop(file, "type");
    var component := kind == Some(JStr("component"));
    var path :- Text(Read(file, "path"));
    var i1 := if component && !PascalJs(path) && !Contains(path, "/") then issues + 1 else issues;
    if !component then Ok(i1)
    else
      var c :- AsSearchable(Read(file, "content"));
      var name := FileBase(path);
      Ok(if !Has(c, "function " + name) && !Has(c, "const " + name) then i1 + 1 else i1)
  }

  function NamingRaw(files: seq<Json>): (r: Result<nat>)
    ensures r.Ok? ==> r.value <= 2 * |files|
  {
    if files == [] then Ok(0)
    else
      var k :- NamingRaw(files[..|files| - 1]);
      NamingStep(k, files[|files| - 1])
  }

  lemma {:induction false} NamingRawFails(files: seq<Json>, i: nat)
    requires i <= |files| && NamingRaw(files[..i]).Err?
    ensures NamingRaw(files) == NamingRaw(files[..i])
    decreases |files| - i
  {
    if i < |files| {
      assert files[..i + 1][..i] == files[..i];
      NamingRawFails(files, i + 1);
    } else {
      assert files[..i] == files;
    }
  }

  /** `checkNamingCoherence(parsed)`: no files, no issues; files that are
      not an array throw in `forEach`; at most 3. */
  function NamingIssues(parsed: Json): (r: Result<nat>)
    ensures r.Ok? ==> r.value <= 3
    ensures parsed != JNull && !Present(Read(parsed, "files")) ==> r == Ok(0)
  {
    var files :- Prop(parsed, "files");
    if !Present(files) then Ok(0)
    else if !files.value.JArr? then Err(TypeError)
    else
      var k :- NamingRaw(files.value.items);
      Ok(MinNat(k, 3))
  }

  /** `checkNamingCoherence(parsed)`. */
  method CheckNamingCoherence(parsed: Json) returns (r: Result<nat>)
    ensures r == NamingIssues(parsed)
  {
    if parsed == JNull {
      return Err(TypeError);
    }
    var files := Read(parsed, "files");
    if !Present(files) {
      return Ok(0);
    }
    if !files.value.JArr? {
      return Err(TypeError);
    }
    var items := files.value.items;
    var issues: nat := 0;
    for i := 0 to |items|
      invariant NamingRaw(items[..i]) == Ok(issues)
    {
      assert items[..i + 1][..i] == items[..i];
      var step := NamingStep(issues, items[i]);
      if step.Err? {
        NamingRawFails(items, i + 1);
        return Err(step.error);
      }
      issues := step.value;
    }
    assert items[..|items|] == items;
    r := Ok(MinNat(issues, 3));
  }

  // ---------------------------------------------------------- evaluation

  /** `parsed.files || []` as the import check walks it: an absent or falsy
      value is no files, and a truthy one that is not an array throws in
      `forEach`. */
  function FileList(files: Option<Json>): (r: Result<seq<Json>>) {
    if !Present(files) then Ok([])
    else if files.value.JArr? then Ok(files.value.items)
    else Err(TypeError)
  }

  /** `evaluateCoherence(parsed)`: half a point per import issue and 0.3
      per naming issue, at least 6 (the caps keep it above 6.6). */
  function CoherenceScore(parsed: Json, scan: Patterns): (r: Result<int>)
    ensures r.Ok? ==> 66 <= r.value <= 100
  {
    if parsed == JNull then Err(TypeError)
    else
      var list := FileList(Read(parsed, "files"));
      if list.Err? then Err(list.error)
      else Combine(ImportIssues(list.value, scan), NamingIssues(parsed))
  }

  /** The score from the two issue counts, or the first exception. */
  function Combine(imports: Result<nat>, naming: Result<nat>): Result<int> {
    if imports.Err? then Err(imports.error)
    else if naming.Err? then Err(naming.error)
    else Ok(Max(60, 100 - 5 * imports.value - 3 * naming.value))
  }

  /** `evaluateCoherence(parsed)`. */
  method EvaluateCoherence(parsed: Json, scan: Patterns) returns (r: Result<int>)
    ensures r == CoherenceScore(parsed, scan)
  {
    if parsed == JNull {
      return Err(TypeError);
    }
    var list := FileList(Read(parsed, "files"));
    if list.Err? {
      return Err(list.error);
    }
    var imports := CheckImportCoherence(list.value, scan);
    if imports.Err? {
      return Err(imports.error);
    }
    var naming := CheckNamingCoherence(parsed);
    r := Combine(imports, naming);
  }

  /** The body of the `try` in `evaluate`, on a parsed value: two points
      off for a falsy name or files, then the lower of that, the file score
      when the files are an array, and the coherence score. */
  function Checks(v: Json, scan: Patterns): (r: Result<int>)
    ensures r.Ok? ==> 50 <= r.value <= 100
  {
    if v == JNull then Err(TypeError)
    else
    var name, files := Read(v, "name"), Read(v, "files");
    var s1 := if !Present(name) || !Present(files) then 80 else 100;
    var s2 :- if files.Some? && files.value.JArr? then
                var fs :- FilesScore(files.value.items); Ok(Min(s1, fs))
              else Ok(s1);
    var coherence :- CoherenceScore(v, scan);
    Ok(Min(s2, coherence))
  }

  /** `evaluate(output)`: text that is not JSON, or any exception in the
      checks, scores 3; otherwise the checks' score, kept within 0..10. */
  function Score(output: string, scan: Patterns): (score: int) {
    match Parse(output)
    case None => 30
    case Some(v) =>
      match Checks(v, scan)
      case Err(_) => 30
      case Ok(s) => Max(0, Min(100, s))
  }

  /** A score is 3 exactly when something threw, and otherwise lies
      between 5 and 10: a score under 5 always means an exception. */
  lemma ScoreRange(output: string, scan: Patterns)
    ensures var s := Score(output, scan);
      && 0 <= s <= 100
      && (s == 30 <==> Parse(output).None? || Checks(Parse(output).value, scan).Err?)
      && (s != 30 ==> 50 <= s)
  {
  }

  /** Text that is not JSON scores 3, and so does `null`, whose properties
      cannot be read. */
  lemma ScoreInvalid(output: string, scan: Patterns)
    requires !IsValidJson(output) || Parse(output) == Some(JNull)
    ensures Score(output, scan) == 30
  {
  }

  /** In an object whose files are an array, a single file without string
      content makes the import check throw, so the whole output scores 3,
      whatever else it holds. */
  lemma ScoreMissingContent(output: string, scan: Patterns, i: nat)
    requires Parse(output).Some? && Parse(output).value.JObj?
    requires Read(Parse(output).value, "files").Some? && Read(Parse(output).value, "files").value.JArr?
    requires var items := Read(Parse(output).value, "files").value.items;
      i < |items| && (items[i] == JNull || Text(Read(items[i], "content")).Err?)
    ensures Score(output, scan) == 30
  {
    var v := Parse(output).value;
    var items := Read(v, "files").value.items;
    ImportIssuesNeedText(items, scan, i);
    assert FileList(Read(v, "files")) == Ok(items);
    assert CoherenceScore(v, scan).Err?;
  }

  /** `evaluate(output)`. */
  method Evaluate(output: string, scan: Patterns) returns (score: int)
    ensures score == Score(output, scan)
  {
    if !IsValidJson(output) {
      return 30;
    }
    var v := Parse(output).value;
    if v == JNull {
      return 30;
    }
    var name, files := Read(v, "name"), Read(v, "files");
    score := 100;
    if !Present(name) || !Present(files) {
      score := score - 20;
    }
    if files.Some? && files.value.JArr? {
      var fs := EvaluateFiles(files.value.items);
      if fs.Err? {
        return 30;
      }
      score := Min(score, fs.value);
    }
    var coherence := EvaluateCoherence(v, scan);
    if coherence.Err? {
      return 30;
    }
    score := Min(score, coherence.value);
    score := Max(0, Min(100, score));
  }

  // -------------------------------------------------------------- issues

  /** The issues `detectIssues` reports; the source's fixed descriptions
      are not kept, the message of a caught exception is. */
  datatype Issue =
    | JsonInvalid
    | MissingField(field: string)
    | FileInvalid(index: nat)
    | FileEmpty(index: nat)
    | JsonParseError(message: string)

  /** The `type` of an issue. */
  function Kind(issue: Issue): string {
    match issue
    case JsonInvalid => "json_invalid"
    case MissingField(_) => "missing_field"
    case FileInvalid(_) => "file_invalid"
    case FileEmpty(_) => "file_empty"
    case JsonParseError(_) => "json_parse_error"
  }

  /** The `severity` of an issue: a missing files array is critical, a
      missing name high. */
  function Severity(issue: Issue): string {
    match issue
    case MissingField(f) => if f == "files" then "critical" else "high"
    case FileInvalid(_) => "high"
    case FileEmpty(_) => "medium"
    case _ => "critical"
  }

  /** The `forEach` of `detectIssues` over a prefix of the files: for each
      file in turn, a falsy path and then a falsy content. A null file
      throws, which ends the loop (the flag turns false). */
  function FileIssues(items: seq<Json>): (r: (seq<Issue>, bool))
  {
    if items == [] then ([], true)
    else
      var prev := FileIssues(items[..|items| - 1]);
      var file := items[|items| - 1];
      var i := |items| - 1;
      if !prev.1 || file == JNull then (prev.0, false)
      else
        (prev.0 + (if !Present(Read(file, "path")) then [FileInvalid(i)] else [])
                + (if !Present(Read(file, "content")) then [FileEmpty(i)] else []), true)
  }

  lemma FileIssuesStep(items: seq<Json>, i: nat)
    requires i < |items|
    ensures var prev, file := FileIssues(items[..i]), items[i];
      FileIssues(items[..i + 1]) ==
        if !prev.1 || file == JNull then (prev.0, false)
        else (prev.0 + (if !Present(Read(file, "path")) then [FileInvalid(i)] else [])
                     + (if !Present(Read(file, "content")) then [FileEmpty(i)] else []), true)
  {
    assert items[..i + 1][..i] == items[..i];
  }

  lemma {:induction false} FileIssuesStop(items: seq<Json>, i: nat)
    requires i <= |items| && !FileIssues(items[..i]).1
    ensures FileIssues(items) == FileIssues(items[..i])
    decreases |items| - i
  {
    if i < |items| {
      assert items[..i + 1][..i] == items[..i];
      FileIssuesStop(items, i + 1);
    } else {
      assert items[..i] == items;
    }
  }

  /** `detectIssues(output)`: not JSON is the one issue `json_invalid`;
      otherwise a falsy name, falsy or non-array files, then the files'
      issues in order, and `json_parse_error` where reading throws (a null
      value, a null file, or files that have no `forEach`). */
  function Issues(output: string): (r: seq<Issue>) {
    match Parse(output)
    case None => [JsonInvalid]
    case Some(v) => ValueIssues(v)
  }

  /** The `try` of `detectIssues` on the parsed value. */
  function ValueIssues(v: Json): (r: seq<Issue>) {
      if v == JNull then [JsonParseError(TypeError)]
      else
        var name, files := Read(v, "name"), Read(v, "files");
        var head := (if !Present(name) then [MissingField("name")] else [])
                    + (if !Present(files) || !files.value.JArr? then [MissingField("files")] else []);
        if !Present(files) then head
        else if !files.value.JArr? then head + [JsonParseError(TypeError)]
        else
          var found := FileIssues(files.value.items);
          head + found.0 + if found.1 then [] else [JsonParseError(TypeError)]
  }

  /** Where an issue stands in the order `detectIssues` reports: the name,
      the files, then each file's path and content; a parse error comes
      last. */
  function Rank(issue: Issue): nat {
    match issue
    case MissingField(f) => if f == "name" then 0 else 1
    case FileInvalid(i) => 2 + 2 * i
    case FileEmpty(i) => 3 + 2 * i
    case _ => 0
  }

  predicate Before(a: Issue, b: Issue) {
    !a.JsonParseError? && (b.JsonParseError? || Rank(a) < Rank(b))
  }

  /** Every issue comes strictly before the later ones, so no issue is
      reported twice. */
  predicate InOrder(issues: seq<Issue>) {
    forall j, k :: 0 <= j < k < |issues| ==> Before(issues[j], issues[k])
  }

  lemma InOrderAppend(a: seq<Issue>, b: seq<Issue>)
    requires InOrder(a) && InOrder(b)
    requires forall j, k :: 0 <= j < |a| && 0 <= k < |b| ==> Before(a[j], b[k])
    ensures InOrder(a + b)
  {
    var c := a + b;
    forall j, k | 0 <= j < k < |c| ensures Before(c[j], c[k]) {
      if k < |a| {
        assert c[j] == a[j] && c[k] == a[k];
      } else if j < |a| {
        assert c[j] == a[j] && c[k] == b[k - |a|];
      } else {
        assert c[j] == b[j - |a|] && c[k] == b[k - |a|];
      }
    }
  }

  /** The files' issues come in file order, path before content, and name
      only files of the prefix walked. */
  lemma {:induction false} FileIssuesOrdered(items: seq<Json>)
    ensures var r := FileIssues(items).0;
      && InOrder(r)
      && forall j :: 0 <= j < |r| ==> (r[j].FileInvalid? || r[j].FileEmpty?) && r[j].index < |items|
    decreases |items|
  {
    if items != [] {
      var p := items[..|items| - 1];
      FileIssuesOrdered(p);
      var prev := FileIssues(p);
      var file := items[|items| - 1];
      var i := |items| - 1;
      if prev.1 && file != JNull {
        var a := if !Present(Read(file, "path")) then [FileInvalid(i)] else [];
        var b := if !Present(Read(file, "content")) then [FileEmpty(i)] else [];
        InOrderAppend(a, b);
        InOrderAppend(prev.0, a + b);
        assert FileIssues(items).0 == prev.0 + (a + b);
      }
    }
  }

  /** The files' issues name only files of the prefix walked. */
  lemma FileIssuesBounded(items: seq<Json>, i: nat)
    requires |items| <= i
    ensures FileInvalid(i) !in FileIssues(items).0 && FileEmpty(i) !in FileIssues(items).0
  {
    FileIssuesOrdered(items);
  }

  /** Without a null file the loop runs to the end and reports exactly the
      files with a falsy path and those with a falsy content. */
  lemma {:induction false} FileIssuesComplete(items: seq<Json>, i: nat)
    requires forall j :: 0 <= j < |items| ==> items[j] != JNull
    requires i < |items|
    ensures FileIssues(items).1
    ensures FileInvalid(i) in FileIssues(items).0 <==> !Present(Read(items[i], "path"))
    ensures FileEmpty(i) in FileIssues(items).0 <==> !Present(Read(items[i], "content"))
    decreases |items|
  {
    var p := items[..|items| - 1];
    var n := |items| - 1;
    assert forall j :: 0 <= j < |p| ==> p[j] == items[j];
    if p != [] {
      FileIssuesComplete(p, if i < n then i else 0);
    }
    FileIssuesLast(items);
    if i == n {
      FileIssuesBounded(p, i);
    }
  }

  /** The last file, when the walk reaches it, adds only its own issues. */
  lemma FileIssuesLast(items: seq<Json>)
    requires items != [] && FileIssues(items[..|items| - 1]).1 && items[|items| - 1] != JNull
    ensures var n, file := |items| - 1, items[|items| - 1];
      var a := if !Present(Read(file, "path")) then [FileInvalid(n)] else [];
      var b := if !Present(Read(file, "content")) then [FileEmpty(n)] else [];
      FileIssues(items) == (FileIssues(items[..n]).0 + a + b, true)
  {
  }

  /** `detectIssues` reports its issues in a fixed order, each once. */
  lemma IssuesInOrder(output: string)
    ensures InOrder(Issues(output))
  {
    if Parse(output).Some? {
      ValueIssuesInOrder(Parse(output).value);
    }
  }

  lemma ValueIssuesInOrder(v: Json)
    ensures InOrder(ValueIssues(v))
  {
      if v != JNull {
        var name, files := Read(v, "name"), Read(v, "files");
        var n := if !Present(name) then [MissingField("name")] else [];
        var f := if !Present(files) || !files.value.JArr? then [MissingField("files")] else [];
        InOrderAppend(n, f);
        var head := n + f;
        if Present(files) {
          if !files.value.JArr? {
            InOrderAppend(head, [JsonParseError(TypeError)]);
          } else {
            var found := FileIssues(files.value.items);
            FileIssuesOrdered(files.value.items);
            InOrderAppend(head, found.0);
            var tail := if found.1 then [] else [JsonParseError(TypeError)];
            InOrderAppend(head + found.0, tail);
            assert ValueIssues(v) == head + found.0 + tail;
          }
        }
      }
  }

  /** Text that is not JSON has exactly one issue, a critical one. */
  lemma IssuesInvalid(output: string)
    requires !IsValidJson(output)
    ensures Issues(output) == [JsonInvalid] && Severity(JsonInvalid) == "critical"
  {
  }

  /** The `forEach` of `detectIssues`; `ok` is false when a null file
      threw. */
  method CollectFileIssues(items: seq<Json>) returns (found: seq<Issue>, ok: bool)
    ensures (found, ok) == FileIssues(items)
  {
    found := [];
    for i := 0 to |items|
      invariant FileIssues(items[..i]) == (found, true)
    {
      FileIssuesStep(items, i);
      var file := items[i];
      if file == JNull {
        FileIssuesStop(items, i + 1);
        return found, false;
      }
      var invalid := if !Present(Read(file, "path")) then [FileInvalid(i)] else [];
      var empty := if !Present(Read(file, "content")) then [FileEmpty(i)] else [];
      found := found + invalid + empty;
    }
    assert items[..|items|] == items;
    ok := true;
  }

  /** `detectIssues(output)`. */
  method DetectIssues(output: string) returns (issues: seq<Issue>)
    ensures issues == Issues(output)
  {
    if !IsValidJson(output) {
      return [JsonInvalid];
    }
    issues := DetectIn(Parse(output).value);
  }

  /** The `try` of `detectIssues`. */
  method DetectIn(parsed: Json) returns (issues: seq<Issue>)
    ensures issues == ValueIssues(parsed)
  {
    if parsed == JNull {
      return [JsonParseError(TypeError)];
    }
    var name, files := Read(parsed, "name"), Read(parsed, "files");
    var nameIssue := if !Present(name) then [MissingField("name")] else [];
    var filesIssue := if !Present(files) || !files.value.JArr? then [MissingField("files")] else [];
    issues := nameIssue + filesIssue;
    if !Present(files) {
      return;
    }
    if !files.value.JArr? {
      return issues + [JsonParseError(TypeError)];
    }
    var found, ok := CollectFileIssues(files.value.items);
    issues := issues + found;
    if !ok {
      issues := issues + [JsonParseError(TypeError)];
    }
  }

  // --------------------------------------------------------------- fixes

  /** What `fixSingleIssue` returns. */
  datatype Fix = Fix(fixed: string, improvement: string)

  /** `indexOf(c)`. */
  function FirstIndexOf(s: string, c: char): (r: Option<nat>)
    ensures r.Some? ==> r.value < |s| && s[r.value] == c && forall k :: 0 <= k < r.value ==> s[k] != c
    ensures r.None? ==> forall k :: 0 <= k < |s| ==> s[k] != c
  {
    if s == [] then None
    else if s[0] == c then Some(0)
    else
      var r := FirstIndexOf(s[1..], c);
      if r.Some? then Some(r.value + 1) else None
  }

  /** `lastIndexOf(c)`. */
  function LastIndexOf(s: string, c: char): (r: Option<nat>)
    ensures r.Some? ==> r.value < |s| && s[r.value] == c && forall k :: r.value < k < |s| ==> s[k] != c
    ensures r.None? ==> forall k :: 0 <= k < |s| ==> s[k] != c
  {
    if s == [] then None
    else if s[|s| - 1] == c then Some(|s| - 1)
    else LastIndexOf(s[..|s| - 1], c)
  }

  /** `s.match(/\{[\s\S]*\}/)[0]`: from the first `{` to the last `}`, when
      that `}` comes after it. */
  function JsonSpan(s: string): (r: Option<string>)
    ensures r.Some? ==> |r.value| >= 2 && r.value[0] == '{' && r.value[|r.value| - 1] == '}'
    ensures r.None? ==> forall i, j :: 0 <= i < j < |s| && s[i] == '{' ==> s[j] != '}'
  {
    match (FirstIndexOf(s, '{'), LastIndexOf(s, '}'))
    case (Some(i), Some(j)) =>
      if i < j then Some(s[i..j + 1]) else None
    case (_, _) => None
  }

  /** The minimal application `fixJSONStructure` falls back to. */
  const FallbackApp: Json := JObj([
    Field("name", JStr("Generated App")),
    Field("description", JStr("Generated application")),
    Field("files", JArr([])),
    Field("dependencies", JArr([])),
    Field("instructions", JArr([JStr("npm install"), JStr("npm run dev")]))
  ])

  /** `fixJSONStructure(output)`: trim, keep the braced span, apply the
      rewrites; keep the result if it parses, else the fallback. */
  function FixJsonStructure(output: string, rewrite: string -> string): (r: Fix) {
    var t := Trim(output);
    var fixed := rewrite(JsonSpan(t).GetOr(t));
    if Parse(fixed).Some? then Fix(fixed, "Fixed JSON structure")
    else Fix(Serialize(FallbackApp), "Created fallback JSON structure")
  }

  lemma FallbackWellFormed()
    ensures WellFormed(FallbackApp)
  {
    var ks := ["name", "description", "files", "dependencies", "instructions"];
    assert KeysOf(FallbackApp.fields) == ks;
    assert Distinct(ks[4..]);
    assert Distinct(ks[3..]);
    assert Distinct(ks[2..]);
    assert Distinct(ks[1..]);
  }

  /** Whatever the rewrites do, the repaired text is JSON; when they fail
      it is the fallback application. */
  lemma FixJsonStructureParses(output: string, rewrite: string -> string)
    ensures Parse(FixJsonStructure(output, rewrite).fixed).Some?
    ensures FixJsonStructure(output, rewrite).improvement == "Created fallback JSON structure" ==>
      Parse(FixJsonStructure(output, rewrite).fixed) == Some(FallbackApp)
  {
    FallbackWellFormed();
    ParseSerialize(FallbackApp);
  }

  /** The words `generateAppName` skips. */
  const NameStopWords: seq<string> := ["create", "build", "make", "develop", "website", "application", "app"]

  predicate Meaningful(w: string) {
    |w| > 3 && w !in NameStopWords
  }

  /** The first meaningful word. */
  function FirstMeaningful(words: seq<string>): (r: Option<string>)
    ensures r.None? <==> forall i :: 0 <= i < |words| ==> !Meaningful(words[i])
    ensures r.Some? ==> Meaningful(r.value)
    decreases |words|
  {
    if words == [] then None
    else if Meaningful(words[0]) then Some(words[0])
    else
      var r := FirstMeaningful(words[1..]);
      assert forall i :: 1 <= i < |words| ==> words[i] == words[1..][i - 1];
      r
  }

  /** The word `FirstMeaningful` picks is the first one that qualifies. */
  lemma {:induction false} FirstMeaningfulIsFirst(words: seq<string>)
    requires FirstMeaningful(words).Some?
    ensures exists i :: (&& 0 <= i < |words| && words[i] == FirstMeaningful(words).value
                         && forall j :: 0 <= j < i ==> !Meaningful(words[j]))
    decreases |words|
  {
    if !Meaningful(words[0]) {
      FirstMeaningfulIsFirst(words[1..]);
      var i :| 0 <= i < |words[1..]| && words[1..][i] == FirstMeaningful(words[1..]).value
        && forall j :: 0 <= j < i ==> !Meaningful(words[1..][j]);
      assert words[i + 1] == words[1..][i];
      assert forall j :: 1 <= j < i + 1 ==> words[j] == words[1..][j - 1];
    }
  }

  /** `generateAppName(prompt)`: the first lower-cased word of more than
      three letters that is not a stop word, capitalized, with `App`. */
  function GenerateAppName(prompt: string): (r: string)
    ensures |r| > 3 && EndsWith(r, "App")
  {
    match FirstMeaningful(Split(ToLower(prompt), " "))
    case None => "GeneratedApp"
    case Some(w) => Capitalize(w) + "App"
  }

  /** The name is built from the first meaningful word of the lower-cased
      prompt; `GeneratedApp` when no word is meaningful. */
  lemma GenerateAppNameFirst(prompt: string)
    ensures var words := Split(ToLower(prompt), " ");
      (forall i :: 0 <= i < |words| ==> !Meaningful(words[i])) ==> GenerateAppName(prompt) == "GeneratedApp"
    ensures var words := Split(ToLower(prompt), " ");
      (exists i :: 0 <= i < |words| && Meaningful(words[i])) ==>
        exists i :: (&& 0 <= i < |words| && Meaningful(words[i])
                     && (forall j :: 0 <= j < i ==> !Meaningful(words[j]))
                     && GenerateAppName(prompt) == Capitalize(words[i]) + "App")
  {
    var words := Split(ToLower(prompt), " ");
    match FirstMeaningful(words)
    case None =>
      assert GenerateAppName(prompt) == "GeneratedApp";
    case Some(w) =>
      assert GenerateAppName(prompt) == Capitalize(w) + "App";
      FirstMeaningfulIsFirst(words);
      var i :| && 0 <= i < |words| && words[i] == w
               && forall j :: 0 <= j < i ==> !Meaningful(words[j]);
      assert Meaningful(words[i]);
      assert !(forall k :: 0 <= k < |words| ==> !Meaningful(words[k]));
      assert (forall k :: 0 <= k < |words| ==> !Meaningful(words[k])) ==> GenerateAppName(prompt) == "GeneratedApp";
  }

  // The template texts of `generateBasicFileContent`.
  const ComponentTemplate: string :=
    "import React from 'react';\n" +
    "\n" +
    "export default function Component() {\n" +
    "  return (\n" +
    "    <div className=\"p-4\">\n" +
    "      <h1 className=\"text-2xl font-bold\">Component</h1>\n" +
    "    </div>\n" +
    "  );\n" +
    "}"
  const PageTemplate: string :=
    "import React from 'react';\n" +
    "import Head from 'next/head';\n" +
    "\n" +
    "export default function Page() {\n" +
    "  return (\n" +
    "    <>\n" +
    "      <Head>\n" +
    "        <title>Page</title>\n" +
    "      </Head>\n" +
    "      <div className=\"container mx-auto p-4\">\n" +
    "        <h1 className=\"text-3xl font-bold\">Page</h1>\n" +
    "      </div>\n" +
    "    </>\n" +
    "  );\n" +
    "}"
  const ApiTemplate: string :=
    "export default function handler(req, res) {\n" +
    "  if (req.method === 'GET') {\n" +
    "    res.status(200).json({ message: 'API endpoint' });\n" +
    "  } else {\n" +
    "    res.status(405).json({ error: 'Method not allowed' });\n" +
    "  }\n" +
    "}"

  /** What `templates[type]` reads: a template text, `Object.prototype`
      itself or one of its methods. */
  datatype Content = Source(text: string) | Prototype | Method

  /** `generateBasicFileContent(type)`: the template of the key the type
      converts to, the component's for any other key; an inherited member
      name reads that member. */
  function BasicFileContent(kind: Json): (r: Content)
    ensures var key := PropertyKey(kind);
      && (key == "page" ==> r == Source(PageTemplate))
      && (key == "api" ==> r == Source(ApiTemplate))
      && (key !in {"page", "api"} && key !in InheritedNames ==> r == Source(ComponentTemplate))
      && (key == "__proto__" ==> r == Prototype)
      && (key in InheritedNames && key != "__proto__" ==> r == Method)
    ensures r.Source? ==> r.text != ""
  {
    var key := PropertyKey(kind);
    if key == "page" then Source(PageTemplate)
    else if key == "api" then Source(ApiTemplate)
    else if key == "__proto__" then Prototype
    else if key in InheritedNames then Method
    else Source(ComponentTemplate)
  }

  /** The three fields `fixMissingField` can add. */
  const FixableFields: seq<string> := ["name", "files", "dependencies"]

  function MissingValue(field: string, prompt: string): Json {
    if field == "name" then JStr(GenerateAppName(prompt))
    else if field == "files" then JArr([])
    else JArr([JStr("react"), JStr("next"), JStr("tailwindcss")])
  }

  /** `fixMissingField(output, field, prompt)`. Setting a property throws
      on null and on the other primitives; an array takes it but does not
      print it; an unknown field sets nothing. */
  function FixMissingField(output: string, field: string, prompt: string): (r: Fix) {
    match Parse(output)
    case None => Fix(output, "Could not fix missing field: " + field)
    case Some(v) =>
      if field !in FixableFields || v.JArr? then Fix(Serialize(v), "Added missing field: " + field)
      else if v.JObj? then
        Fix(Serialize(JObj(SetField(v.fields, field, MissingValue(field, prompt)))), "Added missing field: " + field)
      else Fix(output, "Could not fix missing field: " + field)
  }

  /** The added value is always truthy and well formed. */
  lemma MissingValueFacts(field: string, prompt: string)
    ensures Truthy(MissingValue(field, prompt)) && WellFormed(MissingValue(field, prompt))
  {
  }

  /** On an object the fix sets the field to a truthy value and
      leaves every other property as it was. */
  lemma FixMissingFieldSets(output: string, field: string, prompt: string, k: string)
    requires Parse(output).Some? && Parse(output).value.JObj?
    requires field in FixableFields
    ensures var fs := Parse(output).value.fields;
      var r := FixMissingField(output, field, prompt);
      && r.improvement == "Added missing field: " + field
      && Parse(r.fixed).Some? && Parse(r.fixed).value.JObj?
      && Get(Parse(r.fixed).value.fields, field) == Some(MissingValue(field, prompt))
      && Present(Get(Parse(r.fixed).value.fields, field))
      && (k != field ==> Get(Parse(r.fixed).value.fields, k) == Get(fs, k))
  {
    ParseWellFormed(output);
    var fs := Parse(output).value.fields;
    var w := MissingValue(field, prompt);
    MissingValueFacts(field, prompt);
    SetFieldWellFormed(fs, field, w);
    ParseSerialize(JObj(SetField(fs, field, w)));
    SetFieldGet(fs, field, w, field);
    SetFieldGet(fs, field, w, k);
  }

  /** `file.type || 'component'`. */
  function TypeOr(kind: Option<Json>): Json {
    if Present(kind) then kind.value else JStr("component")
  }

  /** `if (!file[key]) file[key] = value`. */
  function Fill(fields: seq<Field>, key: string, value: Json): seq<Field> {
    if !Present(Get(fields, key)) then SetField(fields, key, value) else fields
  }

  /** Filling with a truthy well-formed value leaves the key truthy, keeps
      every truthy property and keeps the object well formed. */
  lemma FillFacts(fields: seq<Field>, key: string, value: Json, k: string)
    requires WellFormed(JObj(fields)) && WellFormed(value) && Truthy(value)
    ensures WellFormed(JObj(Fill(fields, key, value)))
    ensures Present(Get(Fill(fields, key, value), key))
    ensures Present(Get(fields, k)) ==> Get(Fill(fields, key, value), k) == Get(fields, k)
  {
    if !Present(Get(fields, key)) {
      SetFieldWellFormed(fields, key, value);
      SetFieldGet(fields, key, value, k);
      SetFieldGet(fields, key, value, key);
    }
  }

  /** `if (!file.content) file.content = ...` as `JSON.stringify` prints
      the result: `Object.prototype` as `{}`, and a method not at all. */
  function FillContent(fields: seq<Field>, c: Content): seq<Field> {
    if Present(Get(fields, "content")) then fields
    else
      match c
      case Source(t) => SetField(fields, "content", JStr(t))
      case Prototype => SetField(fields, "content", JObj([]))
      case Method => RemoveField(fields, "content")
  }

  /** The content is not printed: it was falsy and the type names an
      inherited method. */
  predicate DropsContent(fields: seq<Field>) {
    !Present(Get(fields, "content")) && BasicFileContent(TypeOr(Get(fields, "type"))).Method?
  }

  /** The body of the `if` in `fixFileIssue` on the truthy file at
      `index`: fill a falsy path, content and type. Writing to a primitive
      throws; an array takes the writes but does not print them. */
  function PatchFile(file: Json, index: nat): (r: Result<Json>) {
    match file
    case JObj(gs) =>
      var g1 := Fill(gs, "path", JStr("Component" + NatToString(index) + ".js"));
      var g2 := FillContent(g1, BasicFileContent(TypeOr(Get(g1, "type"))));
      Ok(JObj(Fill(g2, "type", JStr("component"))))
    case JArr(_) => Ok(file)
    case _ => Err(TypeError)
  }

  /** Filling the content keeps the object well formed and every truthy
      property; the content is then truthy unless it is left out. */
  lemma FillContentFacts(fields: seq<Field>, c: Content, k: string)
    requires WellFormed(JObj(fields)) && (c.Source? ==> c.text != "")
    ensures WellFormed(JObj(FillContent(fields, c)))
    ensures Present(Get(FillContent(fields, c), "content")) <==> !(!Present(Get(fields, "content")) && c.Method?)
    ensures k != "content" || Present(Get(fields, k)) ==> Get(FillContent(fields, c), k) == Get(fields, k)
  {
    if !Present(Get(fields, "content")) {
      match c
      case Source(t) =>
        FillFacts(fields, "content", JStr(t), k);
        SetFieldGet(fields, "content", JStr(t), k);
      case Prototype =>
        FillFacts(fields, "content", JObj([]), k);
        SetFieldGet(fields, "content", JObj([]), k);
      case Method =>
        RemoveFieldWellFormed(fields, "content");
        RemoveFieldGet(fields, "content", k);
        RemoveFieldGet(fields, "content", "content");
    }
  }

  /** The patched file has a truthy path and type, and a truthy content
      unless the content is left out; it keeps every property that was
      truthy, and stays well formed. */
  lemma PatchFileFacts(file: Json, index: nat, k: string)
    requires file.JObj? && WellFormed(file)
    ensures PatchFile(file, index).Ok?
    ensures var f := PatchFile(file, index).value;
      && f.JObj? && WellFormed(f)
      && Present(Get(f.fields, "path")) && Present(Get(f.fields, "type"))
      && (Present(Get(f.fields, "content")) <==> !DropsContent(file.fields))
      && (Present(Get(file.fields, k)) ==> Get(f.fields, k) == Get(file.fields, k))
  {
    var gs := file.fields;
    var p := JStr("Component" + NatToString(index) + ".js");
    var g1 := Fill(gs, "path", p);
    FillFacts(gs, "path", p, k);
    if !Present(Get(gs, "path")) {
      SetFieldGet(gs, "path", p, "type");
      SetFieldGet(gs, "path", p, "content");
    }
    var c := BasicFileContent(TypeOr(Get(g1, "type")));
    var g2 := FillContent(g1, c);
    FillContentFacts(g1, c, k);
    FillContentFacts(g1, c, "path");
    FillContentFacts(g1, c, "type");
    var t := JStr("component");
    FillFacts(g2, "type", t, k);
    FillFacts(g2, "type", t, "path");
    if !Present(Get(g2, "type")) {
      SetFieldGet(g2, "type", t, "content");
    }
  }

  /** The `try` of `fixFileIssue` on a parsed value: only the file at
      `index` of a truthy `files` changes. Indexing a string gives a
      one-letter string, whose property cannot be set; other primitives
      have no such entry. */
  function PatchFiles(v: Json, index: nat): (r: Result<Json>) {
    if v == JNull then Err(TypeError)
    else if !v.JObj? then Ok(v)
    else
      var files := Get(v.fields, "files");
      if !Present(files) then Ok(v)
      else
        match files.value
        case JArr(items) =>
          if index < |items| && Truthy(items[index]) then
            var f :- PatchFile(items[index], index);
            Ok(JObj(SetField(v.fields, "files", JArr(items[index := f]))))
          else Ok(v)
        case JStr(s) => if index < |s| then Err(TypeError) else Ok(v)
        case JObj(gs) =>
          var key := NatToString(index);
          var entry := Get(gs, key);
          if Present(entry) then
            var f :- PatchFile(entry.value, index);
            Ok(JObj(SetField(v.fields, "files", JObj(SetField(gs, key, f)))))
          else Ok(v)
        case _ => Ok(v)
  }

  /** `fixFileIssue(output, issue)`. */
  function FixFileIssue(output: string, index: nat, kind: string): (r: Fix) {
    match Parse(output)
    case None => Fix(output, "Could not fix file issue: " + kind)
    case Some(v) =>
      match PatchFiles(v, index)
      case Err(_) => Fix(output, "Could not fix file issue: " + kind)
      case Ok(w) => Fix(Serialize(w), "Fixed file issue at index " + NatToString(index))
  }

  /** On an object whose files are an array with an object at
      `index`, the repaired text holds the same files but that one, which
      now has a truthy path and type, a truthy content unless it is left
      out, and keeps its truthy
      properties. */
  lemma FixFileIssueRepairs(output: string, index: nat, kind: string, k: string)
    requires Parse(output).Some? && Parse(output).value.JObj?
    requires var files := Get(Parse(output).value.fields, "files");
      files.Some? && files.value.JArr? && index < |files.value.items| && files.value.items[index].JObj?
    ensures var fs := Parse(output).value.fields;
      var items := Get(fs, "files").value.items;
      var r := FixFileIssue(output, index, kind);
      var f := PatchFile(items[index], index).value;
      && r.improvement == "Fixed file issue at index " + NatToString(index)
      && Parse(r.fixed) == Some(JObj(SetField(fs, "files", JArr(items[index := f]))))
      && Present(Get(f.fields, "path")) && Present(Get(f.fields, "type"))
      && (Present(Get(f.fields, "content")) <==> !DropsContent(items[index].fields))
      && (Present(Get(items[index].fields, k)) ==> Get(f.fields, k) == Get(items[index].fields, k))
  {
    ParseWellFormed(output);
    var fs := Parse(output).value.fields;
    var items := Get(fs, "files").value.items;
    ItemWellFormed(fs, items, index);
    PatchFileFacts(items[index], index, k);
    var f := PatchFile(items[index], index).value;
    UpdateWellFormed(fs, items, index, f);
    var w := JObj(SetField(fs, "files", JArr(items[index := f])));
    PatchFilesAt(Parse(output).value, items, index);
    ParseSerialize(w);
    assert FixFileIssue(output, index, kind) == Fix(Serialize(w), "Fixed file issue at index " + NatToString(index));
  }

  lemma PatchFilesAt(v: Json, items: seq<Json>, index: nat)
    requires v.JObj? && Get(v.fields, "files") == Some(JArr(items)) && index < |items| && items[index].JObj?
    ensures PatchFile(items[index], index).Ok?
    ensures PatchFiles(v, index) == Ok(JObj(SetField(v.fields, "files", JArr(items[index := PatchFile(items[index], index).value]))))
  {
    assert Truthy(items[index]);
    assert Present(Get(v.fields, "files"));
    var f := PatchFile(items[index], index);
    assert f.Ok?;
  }

  lemma ItemWellFormed(fs: seq<Field>, items: seq<Json>, index: nat)
    requires WellFormed(JObj(fs)) && Get(fs, "files") == Some(JArr(items)) && index < |items|
    ensures WellFormed(JArr(items)) && WellFormed(items[index])
  {
    var i :| 0 <= i < |fs| && fs[i] == Field("files", JArr(items));
    assert WellFormed(fs[i].value);
  }

  lemma UpdateWellFormed(fs: seq<Field>, items: seq<Json>, index: nat, f: Json)
    requires WellFormed(JObj(fs)) && WellFormed(JArr(items)) && WellFormed(f) && index < |items|
    ensures WellFormed(JObj(SetField(fs, "files", JArr(items[index := f]))))
  {
    var items' := items[index := f];
    assert forall j :: 0 <= j < |items'| ==> WellFormed(items'[j]) by {
      forall j | 0 <= j < |items'| ensures WellFormed(items'[j]) {
        if j != index { assert items'[j] == items[j]; }
      }
    }
    SetFieldWellFormed(fs, "files", JArr(items'));
  }

  /** `fixSingleIssue(output, issue, prompt)`; the kinds it does not know
      leave the text unchanged. */
  function FixSingle(output: string, issue: Issue, prompt: string, scan: Patterns): (r: Fix)
    ensures issue.JsonParseError? ==> r.fixed == output
  {
    match issue
    case JsonInvalid => FixJsonStructure(output, scan.rewrite)
    case MissingField(f) => FixMissingField(output, f, prompt)
    case FileInvalid(i) => FixFileIssue(output, i, Kind(issue))
    case FileEmpty(i) => FixFileIssue(output, i, Kind(issue))
    case JsonParseError(_) => Fix(output, "Skipped unknown issue: " + Kind(issue))
  }

  /** The loop of `fixIssues` over a prefix of the issues: each fix works
      on the text the previous one left, and records its improvement. */
  function FixAll(output: string, issues: seq<Issue>, prompt: string, scan: Patterns): (r: (string, seq<string>))
    ensures |r.1| == |issues|
  {
    if issues == [] then (output, [])
    else
      var prev := FixAll(output, issues[..|issues| - 1], prompt, scan);
      var f := FixSingle(prev.0, issues[|issues| - 1], prompt, scan);
      (f.fixed, prev.1 + [f.improvement])
  }

  /** Issues the fixer does not know leave the text as it was. */
  lemma {:induction false} FixAllSkips(output: string, issues: seq<Issue>, prompt: string, scan: Patterns)
    requires forall i :: 0 <= i < |issues| ==> issues[i].JsonParseError?
    ensures FixAll(output, issues, prompt, scan).0 == output
    decreases |issues|
  {
    if issues != [] {
      var p := issues[..|issues| - 1];
      assert forall i :: 0 <= i < |p| ==> p[i] == issues[i];
      FixAllSkips(output, p, prompt, scan);
    }
  }

  /** What `enhance` and `fixIssues` return. */
  datatype Report = Report(enhanced: string, score: int, improvements: seq<string>)

  /** `fixIssues(output, issues, prompt)`: the text after every fix, its
      own score, and one improvement per issue (no fix can throw on a
      string, so the `catch` is never taken). */
  function FixReport(output: string, issues: seq<Issue>, prompt: string, scan: Patterns): (r: Report)
    ensures r.score == Score(r.enhanced, scan)
    ensures |r.improvements| == |issues|
  {
    var (fixed, improvements) := FixAll(output, issues, prompt, scan);
    Report(fixed, Score(fixed, scan), improvements)
  }

  /** A fix loop over issues with one more at the end is the loop over the
      others followed by that fix. */
  lemma FixAllStep(output: string, issues: seq<Issue>, i: nat, prompt: string, scan: Patterns)
    requires i < |issues|
    ensures var prev := FixAll(output, issues[..i], prompt, scan);
      var f := FixSingle(prev.0, issues[i], prompt, scan);
      FixAll(output, issues[..i + 1], prompt, scan) == (f.fixed, prev.1 + [f.improvement])
  {
    assert issues[..i + 1][..i] == issues[..i];
  }

  /** `fixIssues(output, issues, prompt)`. */
  method FixIssues(output: string, issues: seq<Issue>, prompt: string, scan: Patterns) returns (r: Report)
    ensures r == FixReport(output, issues, prompt, scan)
  {
    var fixed := output;
    var improvements: seq<string> := [];
    for i := 0 to |issues|
      invariant FixAll(output, issues[..i], prompt, scan) == (fixed, improvements)
    {
      FixAllStep(output, issues, i, prompt, scan);
      var result := FixSingle(fixed, issues[i], prompt, scan);
      fixed := result.fixed;
      improvements := improvements + [result.improvement];
    }
    assert issues[..|issues|] == issues;
    var finalScore := Evaluate(fixed, scan);
    r := Report(fixed, finalScore, improvements);
  }

  /** `enhance(output, prompt)`: a score of at least 8 keeps the text with
      no improvements; a lower one runs the fixes over the detected
      issues. Either way the reported score is that of the returned text. */
  function Enhancement(output: string, prompt: string, scan: Patterns): (r: Report)
    ensures r.score == Score(r.enhanced, scan)
    ensures Score(output, scan) >= MinScore ==> r == Report(output, Score(output, scan), [])
    ensures Score(output, scan) < MinScore ==> |r.improvements| == |Issues(output)|
  {
    var score := Score(output, scan);
    if score < MinScore then FixReport(output, Issues(output), prompt, scan)
    else Report(output, score, [])
  }

  /** Text that is not JSON always comes back as JSON: its one issue is
      repaired by `fixJSONStructure`. */
  lemma EnhanceRepairsInvalid(output: string, prompt: string, scan: Patterns)
    requires !IsValidJson(output)
    ensures var r := Enhancement(output, prompt, scan);
      && Parse(r.enhanced).Some?
      && |r.improvements| == 1
      && r.enhanced == FixJsonStructure(output, scan.rewrite).fixed
  {
    assert Score(output, scan) == 30;
    assert Issues(output) == [JsonInvalid];
    assert FixAll(output, [JsonInvalid], prompt, scan).0 == FixJsonStructure(output, scan.rewrite).fixed by {
      assert [JsonInvalid][..0] == [];
    }
    FixJsonStructureParses(output, scan.rewrite);
  }

  /** `null` is JSON whose only issue is a parse error that no fix handles:
      it comes back unchanged, scored 3. */
  lemma EnhanceNull(prompt: string, scan: Patterns)
    ensures var r := Enhancement("null", prompt, scan);
      r.enhanced == "null" && r.score == 30 && |r.improvements| == 1
  {
    assert Parse("null") == Some(JNull);
    assert Issues("null") == [JsonParseError(TypeError)];
    FixAllSkips("null", [JsonParseError(TypeError)], prompt, scan);
  }

  /** `enhance(output, prompt)`. */
  method Enhance(output: string, prompt: string, scan: Patterns) returns (r: Report)
    ensures r == Enhancement(output, prompt, scan)
  {
    var score := Evaluate(output, scan);
    if score < MinScore {
      var issues := DetectIssues(output);
      r := FixIssues(output, issues, prompt, scan);
      return;
    }
    r := Report(output, score, []);
  }
}
