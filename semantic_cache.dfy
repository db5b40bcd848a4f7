/** The semantic prompt cache of src/cache/semantic-cache.js: an
    insertion-ordered map from a normalised prompt to an entry, looked up by
    exact key first and then by the first key, in insertion order, whose word
    similarity reaches a threshold; entries are evicted by last access at a
    capacity of 100. Clock readings are parameters; persistence is not
    modelled. */
module SemanticCache {
  import opened Wrappers
  import opened Strings
  import opened Json

  const MaxCacheSize: nat := 100
  const SimilarityThreshold: real := 0.75
  /** Keys are cut to this many characters. */
  const MaxKeyLength: nat := 500

  // ---------------------------------------------------------------------
  // normalizePrompt
  // ---------------------------------------------------------------------

  /** The characters a normalised key is made of: `\w` after lower-casing,
      and the single space. */
  predicate Allowed(c: char) {
    ('a' <= c <= 'z') || IsDigit(c) || c == '_' || c == ' '
  }

  /** No two spaces in a row. */
  predicate SingleSpaced(s: string) {
    forall i :: 0 < i < |s| && s[i] == ' ' ==> s[i - 1] != ' '
  }

  /** Every character is allowed. */
  predicate AllAllowed(s: string) {
    forall i :: 0 <= i < |s| ==> Allowed(s[i])
  }

  /** `replace(/[^\w\s]/g, '')`: drop every character that is neither a word
      character nor white space. */
  function StripPunctuation(s: string): (r: string)
    ensures |r| <= |s|
    decreases |s|
  {
    if s == [] then []
    else if IsWordChar(s[0]) || IsSpace(s[0]) then [s[0]] + StripPunctuation(s[1..])
    else StripPunctuation(s[1..])
  }

  /** Every character is allowed or white space. */
  predicate AllowedOrSpace(s: string) {
    forall i :: 0 <= i < |s| ==> Allowed(s[i]) || IsSpace(s[i])
  }

  /** What survives is word characters that are not upper-case letters when
      the input has none, and white space. */
  lemma {:induction false} StripKeeps(s: string)
    requires forall i :: 0 <= i < |s| ==> !IsUpper(s[i])
    ensures AllowedOrSpace(StripPunctuation(s))
    decreases |s|
  {
    if s != [] {
      var t := s[1..];
      assert forall i :: 0 <= i < |t| ==> t[i] == s[i + 1];
      StripKeeps(t);
      var r := StripPunctuation(t);
      if IsWordChar(s[0]) || IsSpace(s[0]) {
        assert Allowed(s[0]) || IsSpace(s[0]);
        assert StripPunctuation(s) == [s[0]] + r;
      }
    }
  }

  /** Stripping leaves a string of word characters and white space unchanged. */
  lemma {:induction false} StripIdentity(s: string)
    requires forall i :: 0 <= i < |s| ==> IsWordChar(s[i]) || IsSpace(s[i])
    ensures StripPunctuation(s) == s
    decreases |s|
  {
    if s != [] {
      StripIdentity(s[1..]);
    }
  }

  /** Putting an allowed character before an allowed, single-spaced string
      keeps it so, unless both are spaces. */
  lemma ConsShape(ch: char, c: string)
    requires Allowed(ch) && AllAllowed(c) && SingleSpaced(c)
    requires ch == ' ' ==> c == [] || c[0] != ' '
    ensures AllAllowed([ch] + c) && SingleSpaced([ch] + c)
  {
    var r := [ch] + c;
    assert forall i :: 0 < i < |r| ==> r[i] == c[i - 1];
  }

  /** A suffix of a string of allowed characters and white space is one too. */
  lemma SuffixAllowedOrSpace(s: string, k: nat)
    requires k <= |s| && AllowedOrSpace(s)
    ensures AllowedOrSpace(s[k..])
  {
    assert forall i :: 0 <= i < |s| - k ==> s[k..][i] == s[k + i];
  }

  /** After collapsing, white space is single spaces only. */
  lemma {:induction false} CollapseShape(s: string)
    requires AllowedOrSpace(s)
    ensures AllAllowed(CollapseSpaces(s)) && SingleSpaced(CollapseSpaces(s))
    decreases |s|
  {
    if s != [] {
      if IsSpace(s[0]) {
        var t := TrimStart(s);
        assert t == TrimStart(s[1..]);
        SuffixAllowedOrSpace(s, |s| - |t|);
        CollapseShape(t);
        var c := CollapseSpaces(t);
        assert CollapseSpaces(s) == [' '] + c;
        ConsShape(' ', c);
      } else {
        var t := s[1..];
        SuffixAllowedOrSpace(s, 1);
        CollapseShape(t);
        var c := CollapseSpaces(t);
        assert CollapseSpaces(s) == [s[0]] + c;
        assert Allowed(s[0]);
        ConsShape(s[0], c);
      }
    }
  }

  /** Collapsing leaves a single-spaced string whose only white space is the
      space unchanged. */
  lemma {:induction false} CollapseIdentity(s: string)
    requires forall i :: 0 <= i < |s| ==> Allowed(s[i])
    requires SingleSpaced(s)
    ensures CollapseSpaces(s) == s
    decreases |s|
  {
    if s != [] {
      var t := s[1..];
      assert forall i :: 0 < i < |t| && t[i] == ' ' ==> t[i - 1] != ' ' by {
        forall i | 0 < i < |t| && t[i] == ' ' ensures t[i - 1] != ' ' {
          assert s[i + 1] == ' ';
        }
      }
      CollapseIdentity(t);
      if IsSpace(s[0]) {
        assert t == [] || !IsSpace(t[0]);
        assert TrimStart(t) == t;
      }
    }
  }

  /** A slice of an allowed, single-spaced string is allowed and
      single-spaced. */
  lemma SliceShape(c: string, a: nat, b: nat)
    requires a <= b <= |c|
    requires AllAllowed(c) && SingleSpaced(c)
    ensures AllAllowed(c[a..b]) && SingleSpaced(c[a..b])
  {
    var m := c[a..b];
    assert forall i :: 0 <= i < |m| ==> m[i] == c[a + i];
  }

  /** `normalizePrompt`: lower-case, drop punctuation, collapse white space,
      trim, and keep at most 500 characters. */
  function Normalize(prompt: string): string {
    Take(Trim(Cleaned(prompt)), MaxKeyLength)
  }

  /** The stages before trimming and cutting. */
  function Cleaned(prompt: string): string {
    CollapseSpaces(StripPunctuation(ToLower(prompt)))
  }

  /** Before trimming, the text is already allowed characters with single
      spaces. */
  lemma CleanedShape(prompt: string)
    ensures AllAllowed(Cleaned(prompt)) && SingleSpaced(Cleaned(prompt))
  {
    var l := ToLower(prompt);
    assert forall i :: 0 <= i < |l| ==> !IsUpper(l[i]);
    StripKeeps(l);
    CollapseShape(StripPunctuation(l));
  }

  /** The first three stages leave a string made of allowed characters with
      single spaces unchanged. */
  lemma StagesKeep(s: string)
    requires AllAllowed(s)
    requires SingleSpaced(s)
    ensures Cleaned(s) == s
  {
    assert ToLower(s) == s;
    StripIdentity(s);
    CollapseIdentity(s);
  }

  /** A normalised key is at most 500 characters long, is made of lower-case
      letters, digits, `_` and single spaces, and does not start with a
      space. */
  lemma NormalizeShape(prompt: string)
    ensures var r := Normalize(prompt);
      && |r| <= MaxKeyLength
      && AllAllowed(r)
      && SingleSpaced(r)
      && (r == [] || r[0] != ' ')
  {
    CleanedShape(prompt);
    var c := Cleaned(prompt);
    var m := Trim(c);
    var lo, hi := TrimBounds(c);
    SliceShape(c, lo, hi);
    var r := Take(m, MaxKeyLength);
    SliceShape(m, 0, |r|);
    assert r == [] || r[0] == m[0];
  }

  /** A key with no space at either end normalises to its first 500
      characters. */
  lemma NormalizeSettled(s: string)
    requires AllAllowed(s)
    requires SingleSpaced(s)
    requires s == [] || (s[0] != ' ' && s[|s| - 1] != ' ')
    ensures Normalize(s) == Take(s, MaxKeyLength)
  {
    StagesKeep(s);
    assert TrimStart(s) == s;
    assert TrimEnd(s) == s;
  }

  /** Dropping one trailing space: what `trimEnd` does to a string that ends in
      exactly one. */
  lemma TrimOneSpace(s: string)
    requires |s| >= 2 && !IsSpace(s[0]) && IsSpace(s[|s| - 1]) && !IsSpace(s[|s| - 2])
    ensures Trim(s) == s[..|s| - 1]
  {
    var u := s[..|s| - 1];
    assert TrimStart(s) == s;
    assert TrimEnd(s) == TrimEnd(u);
    assert TrimEnd(u) == u;
  }

  /** A key whose 500-character cut left a trailing space loses that space
      when it is normalised again. */
  lemma NormalizeTrailing(s: string)
    requires AllAllowed(s)
    requires SingleSpaced(s)
    requires |s| >= 2 && s[0] != ' ' && s[|s| - 1] == ' '
    ensures Normalize(s) == Take(s[..|s| - 1], MaxKeyLength)
  {
    StagesKeep(s);
    assert s[|s| - 2] != ' ';
    assert Allowed(s[|s| - 2]) && Allowed(s[0]);
    TrimOneSpace(s);
  }

  /** Normalising twice equals normalising once, except that a trailing space
      left by the 500-character cut is dropped the second time. */
  lemma NormalizeTwice(prompt: string)
    ensures var r := Normalize(prompt);
      Normalize(r) == if r != [] && r[|r| - 1] == ' ' then r[..|r| - 1] else r
  {
    var r := Normalize(prompt);
    NormalizeShape(prompt);
    if r != [] && r[|r| - 1] == ' ' {
      NormalizeTrailing(r);
    } else {
      NormalizeSettled(r);
    }
  }

  /** The case is reachable: 499 letters, a space and one more letter cut at
      500 characters end in a space, so normalising again changes the key. */
  lemma NormalizeNotIdempotent()
    ensures var p := seq(499, _ => 'a') + " b";
      Normalize(p) == seq(499, _ => 'a') + " " && Normalize(Normalize(p)) == seq(499, _ => 'a')
  {
    var a := seq(499, _ => 'a');
    var p := a + " b";
    NormalizeSettled(p);
    assert p[..500] == a + " ";
    NormalizeTrailing(a + " ");
    assert (a + " ")[..499] == a;
  }

  // ---------------------------------------------------------------------
  // calculateSimilarity
  // ---------------------------------------------------------------------

  /** The distinct words of a key that are longer than three characters. */
  function Words(s: string): (r: set<string>)
    ensures r != {} ==> |s| > 3
  {
    var parts := Split(s, " ");
    set w | w in parts && |w| > 3
  }

  function Diff(a: nat, b: nat): nat {
    if a < b then b - a else a - b
  }

  function Max(a: nat, b: nat): nat {
    if a < b then b else a
  }

  function MinReal(a: real, b: real): real {
    if a < b then a else b
  }

  /** The score of two keys whose word sets share `common` of `total` words,
      for key lengths `n1` and `n2`. */
  function Score(common: nat, total: nat, n1: nat, n2: nat): real
    requires total > 0 && Max(n1, n2) > 0
  {
    var jaccard := common as real / total as real;
    var bonus := 1.0 - Diff(n1, n2) as real / Max(n1, n2) as real * 0.3;
    MinReal(jaccard * bonus, 1.0)
  }

  /** `calculateSimilarity`: the Jaccard index of the two word sets, scaled
      by a bonus of `1 - 0.3 * |len1 - len2| / max(len1, len2)`, capped at 1;
      0 when neither key has a word longer than three characters. */
  function Similarity(s1: string, s2: string): real {
    var w1, w2 := Words(s1), Words(s2);
    if |w1 + w2| == 0 then 0.0
    else Score(|w1 * w2|, |w1 + w2|, |s1|, |s2|)
  }

  /** The length bonus lies between 0.7 and 1. */
  lemma BonusRange(n1: nat, n2: nat)
    requires Max(n1, n2) > 0
    ensures var b := 1.0 - Diff(n1, n2) as real / Max(n1, n2) as real * 0.3;
      0.7 <= b <= 1.0
  {
    var d, m := Diff(n1, n2) as real, Max(n1, n2) as real;
    assert 0.0 <= d <= m;
    assert d / m <= 1.0 by {
      assert d / m * m == d;
    }
  }

  /** A score lies in [0, 1] when the common words are among all words, and
      does not depend on the order of the two keys. */
  lemma ScoreRange(common: nat, total: nat, n1: nat, n2: nat)
    requires common <= total && total > 0 && Max(n1, n2) > 0
    ensures 0.0 <= Score(common, total, n1, n2) <= 1.0
    ensures Score(common, total, n1, n2) == Score(common, total, n2, n1)
  {
    BonusRange(n1, n2);
    var j := common as real / total as real;
    assert 0.0 <= j;
    var b := 1.0 - Diff(n1, n2) as real / Max(n1, n2) as real * 0.3;
    ProductNonNegative(j, b);
  }

  lemma ProductNonNegative(x: real, y: real)
    requires 0.0 <= x && 0.0 <= y
    ensures 0.0 <= x * y
  {
  }

  /** A subset is no larger than its superset. */
  lemma {:induction false} SubsetSize(a: set<string>, b: set<string>)
    requires a <= b
    ensures |a| <= |b|
    decreases |b|
  {
    if a != {} {
      var x :| x in a;
      SubsetSize(a - {x}, b - {x});
    }
  }

  /** Equal lengths and identical word sets score 1. */
  lemma ScoreFull(total: nat, n: nat)
    requires total > 0 && n > 0
    ensures Score(total, total, n, n) == 1.0
  {
    assert total as real / total as real == 1.0;
    assert Diff(n, n) == 0 && Max(n, n) == n;
  }

  /** The score is 0 without long words, lies in [0, 1], and is symmetric. */
  lemma SimilarityRange(s1: string, s2: string)
    ensures Words(s1) + Words(s2) == {} ==> Similarity(s1, s2) == 0.0
    ensures 0.0 <= Similarity(s1, s2) <= 1.0
    ensures Similarity(s1, s2) == Similarity(s2, s1)
  {
    var w1, w2 := Words(s1), Words(s2);
    assert w1 * w2 == w2 * w1;
    assert w1 + w2 == w2 + w1;
    if |w1 + w2| != 0 {
      SubsetSize(w1 * w2, w1 + w2);
      ScoreRange(|w1 * w2|, |w1 + w2|, |s1|, |s2|);
    }
  }

  /** A key with a long word is fully similar to itself. */
  lemma SimilaritySelf(s: string)
    requires Words(s) != {}
    ensures Similarity(s, s) == 1.0
  {
    var w := Words(s);
    assert w * w == w && w + w == w;
    ScoreFull(|w|, |s|);
  }

  // ---------------------------------------------------------------------
  // The cache contents
  // ---------------------------------------------------------------------

  /** One cached prompt. `result` is `null` for a preloaded pattern. */
  datatype Entry = Entry(prompt: string, result: Json, metadata: Json, createdAt: int, lastAccessed: int, hits: nat)

  /** The `cache` Map: its keys in insertion order and the entry of each. */
  datatype Store = Store(order: seq<string>, entries: map<string, Entry>) {
    /** The keys listed are exactly the keys mapped, each once. */
    ghost predicate Valid() {
      && (forall k :: k in entries <==> k in order)
      && (forall i, j :: 0 <= i < j < |order| ==> order[i] != order[j])
    }
  }

  /** A sequence without repetitions has as many distinct elements as
      positions. */
  lemma {:induction false} DistinctSize(s: seq<string>)
    requires forall i, j :: 0 <= i < j < |s| ==> s[i] != s[j]
    ensures |set x | x in s| == |s|
    decreases |s|
  {
    if s != [] {
      var t := s[..|s| - 1];
      DistinctSize(t);
      assert (set x | x in s) == (set x | x in t) + {s[|s| - 1]};
      assert s[|s| - 1] !in t;
    }
  }

  /** The Map's `size` is the number of keys listed. */
  lemma StoreSize(st: Store)
    requires st.Valid()
    ensures |st.entries| == |st.order|
  {
    DistinctSize(st.order);
    assert st.entries.Keys == set x | x in st.order;
  }

  function LastAccessed(st: Store, i: nat): int
    requires st.Valid() && i < |st.order|
  {
    assert st.order[i] in st.order;
    st.entries[st.order[i]].lastAccessed
  }

  function Created(st: Store, i: nat): int
    requires st.Valid() && i < |st.order|
  {
    assert st.order[i] in st.order;
    st.entries[st.order[i]].createdAt
  }

  /** `map.set(key, entry)`: a new key goes to the end of the order, an
      existing key keeps its place. */
  function Put(st: Store, key: string, e: Entry): (r: Store)
    requires st.Valid()
    ensures r.Valid()
    ensures r.entries == st.entries[key := e]
    ensures r.order == if key in st.entries then st.order else st.order + [key]
  {
    Store(if key in st.entries then st.order else st.order + [key], st.entries[key := e])
  }

  /** `map.delete(order[i])`. */
  function RemoveAt(st: Store, i: nat): (r: Store)
    requires st.Valid() && i < |st.order|
    ensures r.Valid()
    ensures r.entries == st.entries - {st.order[i]}
    ensures r.order == st.order[..i] + st.order[i + 1..]
  {
    var k := st.order[i];
    var o := st.order[..i] + st.order[i + 1..];
    assert forall j :: 0 <= j < |o| ==> o[j] == st.order[if j < i then j else j + 1];
    assert forall x :: x in o <==> x in st.order && x != k by {
      forall x | x in st.order && x != k ensures x in o {
        var j :| 0 <= j < |st.order| && st.order[j] == x;
        assert o[if j < i then j else j - 1] == x;
      }
    }
    Store(o, st.entries - {k})
  }

  // ---------------------------------------------------------------------
  // getCached
  // ---------------------------------------------------------------------

  /** A hit: `lastAccessed` is now and `hits` goes up by one. */
  function Touch(e: Entry, now: int): Entry {
    e.(lastAccessed := now, hits := e.hits + 1)
  }

  /** The similarity of `q` to each key, in insertion order. */
  function Scores(keys: seq<string>, q: string): seq<real> {
    seq(|keys|, i requires 0 <= i < |keys| => Similarity(q, keys[i]))
  }

  /** The first position whose score reaches the threshold. */
  function FirstAtLeast(scores: seq<real>, threshold: real): (r: Option<nat>)
    ensures r.Some? ==> r.value < |scores| && scores[r.value] >= threshold
    ensures r.Some? ==> forall j :: 0 <= j < r.value ==> scores[j] < threshold
    ensures r.None? ==> forall j :: 0 <= j < |scores| ==> scores[j] < threshold
    decreases |scores|
  {
    if scores == [] then None
    else if scores[0] >= threshold then Some(0)
    else match FirstAtLeast(scores[1..], threshold)
      case None => None
      case Some(i) => Some(i + 1)
  }

  /** The key `getCached` answers from: the normalised prompt itself when
      present, otherwise the first key in insertion order that is at least
      75% similar to it. */
  function Lookup(st: Store, q: string): (r: Option<string>)
    requires st.Valid()
    ensures q in st.entries ==> r == Some(q)
    ensures r.Some? ==> r.value in st.entries
    ensures q !in st.entries && r.Some? ==>
      exists i :: 0 <= i < |st.order| && st.order[i] == r.value
        && Similarity(q, r.value) >= SimilarityThreshold
        && forall j :: 0 <= j < i ==> Similarity(q, st.order[j]) < SimilarityThreshold
    ensures q !in st.entries && r.None? ==>
      forall i :: 0 <= i < |st.order| ==> Similarity(q, st.order[i]) < SimilarityThreshold
  {
    if q in st.entries then Some(q)
    else
      var scores := Scores(st.order, q);
      assert |scores| == |st.order|;
      assert forall i :: 0 <= i < |st.order| ==> scores[i] == Similarity(q, st.order[i]);
      match FirstAtLeast(scores, SimilarityThreshold)
      case None => None
      case Some(i) => assert st.order[i] in st.order; Some(st.order[i])
  }

  /** The store after a hit on `k`. */
  function Hit(st: Store, k: string, now: int): (r: Store)
    requires st.Valid() && k in st.entries
    ensures r.Valid() && r.order == st.order
    ensures r.entries == st.entries[k := Touch(st.entries[k], now)]
  {
    Store(st.order, st.entries[k := Touch(st.entries[k], now)])
  }

  // ---------------------------------------------------------------------
  // evictOldest
  // ---------------------------------------------------------------------

  /** What the eviction scan finds: the first position whose `lastAccessed`
      is minimal, provided it is strictly before `now`; none otherwise. */
  predicate IsOldest(st: Store, now: int, r: Option<nat>)
    requires st.Valid()
  {
    match r
    case None => forall j :: 0 <= j < |st.order| ==> LastAccessed(st, j) >= now
    case Some(i) =>
      && i < |st.order|
      && LastAccessed(st, i) < now
      && (forall j :: 0 <= j < |st.order| ==> LastAccessed(st, j) >= LastAccessed(st, i))
      && (forall j :: 0 <= j < i ==> LastAccessed(st, j) > LastAccessed(st, i))
  }

  /** At most one position fits that description. */
  lemma OldestUnique(st: Store, now: int, r1: Option<nat>, r2: Option<nat>)
    requires st.Valid() && IsOldest(st, now, r1) && IsOldest(st, now, r2)
    ensures r1 == r2
  {
  }

  /** The scan from position `i`, with the best position and time so far. */
  function OldestFrom(st: Store, i: nat, best: Option<nat>, bestTime: int): Option<nat>
    requires st.Valid() && i <= |st.order|
    decreases |st.order| - i
  {
    if i == |st.order| then best
    else if LastAccessed(st, i) < bestTime then OldestFrom(st, i + 1, Some(i), LastAccessed(st, i))
    else OldestFrom(st, i + 1, best, bestTime)
  }

  /** What the scan has established after the first `i` positions. */
  predicate ScanSoFar(st: Store, now: int, i: nat, best: Option<nat>, bestTime: int)
    requires st.Valid() && i <= |st.order|
  {
    match best
    case None => bestTime == now && forall j :: 0 <= j < i ==> LastAccessed(st, j) >= now
    case Some(b) =>
      && b < i
      && bestTime == LastAccessed(st, b) && bestTime < now
      && (forall j :: 0 <= j < i ==> LastAccessed(st, j) >= bestTime)
      && (forall j :: 0 <= j < b ==> LastAccessed(st, j) > bestTime)
  }

  lemma {:induction false} OldestFromFinds(st: Store, now: int, i: nat, best: Option<nat>, bestTime: int)
    requires st.Valid() && i <= |st.order|
    requires ScanSoFar(st, now, i, best, bestTime)
    ensures IsOldest(st, now, OldestFrom(st, i, best, bestTime))
    decreases |st.order| - i
  {
    if i < |st.order| {
      var t := LastAccessed(st, i);
      if t < bestTime {
        OldestFromFinds(st, now, i + 1, Some(i), t);
      } else {
        OldestFromFinds(st, now, i + 1, best, bestTime);
      }
    }
  }

  /** The position `evictOldest` picks, if any. */
  function Oldest(st: Store, now: int): (r: Option<nat>)
    requires st.Valid()
    ensures IsOldest(st, now, r)
  {
    OldestFromFinds(st, now, 0, None, now);
    OldestFrom(st, 0, None, now)
  }

  /** `evictOldest`: delete the oldest entry if there is one and its key is
      truthy; an empty key is never deleted. */
  function Evict(st: Store, now: int): (r: Store)
    requires st.Valid()
    ensures r.Valid()
  {
    match Oldest(st, now)
    case None => st
    case Some(i) => if st.order[i] != "" then RemoveAt(st, i) else st
  }

  /** Eviction removes at most one entry, the one the scan picks, leaves every
      other entry as it was, removes nothing when no entry was accessed before
      now, and never removes the empty key. */
  lemma EvictSpec(st: Store, now: int)
    requires st.Valid()
    ensures var r := Evict(st, now);
      && (forall k :: k in r.entries ==> k in st.entries && r.entries[k] == st.entries[k])
      && |r.entries| >= |st.entries| - 1
      && ((forall j :: 0 <= j < |st.order| ==> LastAccessed(st, j) >= now) ==> r == st)
      && ("" in st.entries ==> "" in r.entries)
      && (forall k :: k in st.entries && k !in r.entries ==>
            Oldest(st, now).Some? && st.order[Oldest(st, now).value] == k)
  {
    var r := Evict(st, now);
    StoreSize(st);
    StoreSize(r);
    match Oldest(st, now)
    case None =>
    case Some(i) =>
      if st.order[i] != "" {
        assert |r.order| == |st.order| - 1;
      }
  }

  // ---------------------------------------------------------------------
  // setCached
  // ---------------------------------------------------------------------

  /** The entry `setCached` stores. */
  function NewEntry(key: string, result: Json, metadata: Json, now: int): Entry {
    Entry(key, result, metadata, now, now, 0)
  }

  /** `setCached` on a normalised key: evict first when the Map holds at least
      100 entries, then store a fresh entry under the key. */
  function SetKey(st: Store, key: string, result: Json, metadata: Json, now: int): (r: Store)
    requires st.Valid()
    ensures r.Valid()
  {
    Put(BeforeSet(st, now), key, NewEntry(key, result, metadata, now))
  }

  /** What `setCached` evicts from: the store itself below capacity, the
      store after `evictOldest` at capacity. */
  function BeforeSet(st: Store, now: int): (r: Store)
    requires st.Valid()
    ensures r.Valid()
  {
    if |st.entries| >= MaxCacheSize then Evict(st, now) else st
  }

  /** After `setCached` the key holds a fresh entry with the given result and
      metadata, no hits, and creation and access times equal to now. */
  lemma SetKeyEntry(st: Store, key: string, result: Json, metadata: Json, now: int)
    requires st.Valid()
    ensures var r := SetKey(st, key, result, metadata, now);
      && key in r.entries
      && r.entries[key] == Entry(key, result, metadata, now, now, 0)
  {
  }

  /** Every other key that remains keeps its entry, and below capacity every
      key remains. */
  lemma SetKeyOthers(st: Store, key: string, result: Json, metadata: Json, now: int)
    requires st.Valid()
    ensures var r := SetKey(st, key, result, metadata, now);
      && (forall k :: k in r.entries && k != key ==> k in st.entries && r.entries[k] == st.entries[k])
      && (|st.entries| < MaxCacheSize ==> forall k :: k in st.entries ==> k in r.entries)
  {
    EvictSpec(st, now);
    assert SetKey(st, key, result, metadata, now) == Put(BeforeSet(st, now), key, NewEntry(key, result, metadata, now));
  }

  /** `setCached` grows the Map by at most one entry. */
  lemma SetKeySize(st: Store, key: string, result: Json, metadata: Json, now: int)
    requires st.Valid()
    ensures |SetKey(st, key, result, metadata, now).entries| <= |st.entries| + 1
  {
    EvictSpec(st, now);
    var s := BeforeSet(st, now);
    assert SetKey(st, key, result, metadata, now) == Put(s, key, NewEntry(key, result, metadata, now));
    assert |s.entries| <= |st.entries| by {
      if |st.entries| >= MaxCacheSize {
        assert s.entries.Keys <= st.entries.Keys;
        SubsetSize(s.entries.Keys, st.entries.Keys);
      }
    }
  }

  /** When the clock has not moved past any access time, a full Map is not
      evicted from, so setting a new key takes it past 100 entries. */
  lemma SetKeyOverflow(st: Store, key: string, result: Json, metadata: Json, now: int)
    requires st.Valid() && |st.entries| >= MaxCacheSize && key !in st.entries
    requires forall k :: k in st.entries ==> st.entries[k].lastAccessed >= now
    ensures |SetKey(st, key, result, metadata, now).entries| == |st.entries| + 1
  {
    forall j | 0 <= j < |st.order| ensures LastAccessed(st, j) >= now {
      assert st.order[j] in st.entries;
    }
    EvictSpec(st, now);
  }

  // ---------------------------------------------------------------------
  // preloadCommonPatterns
  // ---------------------------------------------------------------------

  datatype Pattern = Pattern(prompt: string, kind: string, features: seq<string>)

  const CommonPatterns: seq<Pattern> := [
    Pattern("create ecommerce website online store", "ecommerce", ["products", "cart", "checkout", "auth"]),
    Pattern("build saas dashboard analytics platform", "saas", ["dashboard", "charts", "subscription", "auth"]),
    Pattern("make landing page marketing website", "landing", ["hero", "features", "testimonials", "contact"])
  ]

  function Strs(xs: seq<string>): (r: seq<Json>)
    ensures |r| == |xs|
    ensures forall i :: 0 <= i < |xs| ==> r[i] == JStr(xs[i])
    decreases |xs|
  {
    if xs == [] then [] else [JStr(xs[0])] + Strs(xs[1..])
  }

  /** `{ ...pattern, preloaded: true }`. */
  function PreloadMetadata(p: Pattern): Json {
    JObj([Field("prompt", JStr(p.prompt)), Field("type", JStr(p.kind)),
          Field("features", JArr(Strs(p.features))), Field("preloaded", JBool(true))])
  }

  /** A preloaded entry: its result is `null` until a generation fills it. */
  function PreloadEntry(key: string, p: Pattern, now: int): Entry {
    Entry(key, JNull, PreloadMetadata(p), now, now, 0)
  }

  /** One round of `preloadCommonPatterns`: add the pattern under its
      normalised prompt unless that key is present. */
  function PreloadOne(st: Store, p: Pattern, now: int): (r: Store)
    requires st.Valid()
    ensures r.Valid()
  {
    var key := Normalize(p.prompt);
    if key in st.entries then st else Put(st, key, PreloadEntry(key, p, now))
  }

  /** `preloadCommonPatterns` over a list of patterns; no capacity check. */
  function Preload(st: Store, patterns: seq<Pattern>, now: int): (r: Store)
    requires st.Valid()
    ensures r.Valid()
    decreases |patterns|
  {
    if patterns == [] then st else Preload(PreloadOne(st, patterns[0], now), patterns[1..], now)
  }

  /** One round keeps every present key's entry, adds at most one key, and an
      added entry has a `null` result and no hits. */
  lemma PreloadOneSpec(st: Store, p: Pattern, now: int)
    requires st.Valid()
    ensures var r := PreloadOne(st, p, now);
      && (forall k :: k in st.entries ==> k in r.entries && r.entries[k] == st.entries[k])
      && (forall k :: k in r.entries && k !in st.entries ==> r.entries[k].result == JNull && r.entries[k].hits == 0)
      && |r.entries| <= |st.entries| + 1
  {
    var key := Normalize(p.prompt);
    if key !in st.entries {
      assert PreloadOne(st, p, now).entries.Keys == st.entries.Keys + {key};
    }
  }

  /** Preloading never overwrites a key, adds at most one entry per pattern,
      and every entry it adds has a `null` result and no hits. */
  lemma {:induction false} PreloadSpec(st: Store, patterns: seq<Pattern>, now: int)
    requires st.Valid()
    ensures var r := Preload(st, patterns, now);
      && (forall k :: k in st.entries ==> k in r.entries && r.entries[k] == st.entries[k])
      && (forall k :: k in r.entries && k !in st.entries ==> r.entries[k].result == JNull && r.entries[k].hits == 0)
      && |r.entries| <= |st.entries| + |patterns|
    decreases |patterns|
  {
    if patterns != [] {
      var next := PreloadOne(st, patterns[0], now);
      PreloadOneSpec(st, patterns[0], now);
      PreloadSpec(next, patterns[1..], now);
    }
  }

  // ---------------------------------------------------------------------
  // getStats
  // ---------------------------------------------------------------------

  /** The sum of `hits` over the first `n` keys. */
  function SumHits(st: Store, n: nat): nat
    requires st.Valid() && n <= |st.order|
  {
    if n == 0 then 0
    else
      assert st.order[n - 1] in st.order;
      SumHits(st, n - 1) + st.entries[st.order[n - 1]].hits
  }

  /** A hit adds exactly one to the total of hits over the keys up to the hit
      key's position, and nothing elsewhere. */
  lemma {:induction false} SumHitsAfterHit(st: Store, k: string, now: int, n: nat)
    requires st.Valid() && k in st.entries && n <= |st.order|
    ensures SumHits(Hit(st, k, now), n) == SumHits(st, n) + (if k in st.order[..n] then 1 else 0)
    decreases n
  {
    if n > 0 {
      SumHitsAfterHit(st, k, now, n - 1);
      assert st.order[..n] == st.order[..n - 1] + [st.order[n - 1]];
      if st.order[n - 1] == k {
        assert k !in st.order[..n - 1];
      }
    }
  }

  /** The earliest `createdAt` below `bound` among the first `n` keys, as the
      stats loop finds it with its strict `<`. */
  function Earliest(st: Store, n: nat, bound: int): (r: Option<int>)
    requires st.Valid() && n <= |st.order|
    ensures forall j :: 0 <= j < n ==> Created(st, j) >= r.GetOr(bound)
    ensures r.Some? ==> r.value < bound && exists j :: 0 <= j < n && Created(st, j) == r.value
  {
    if n == 0 then None
    else
      var prev := Earliest(st, n - 1, bound);
      var t := Created(st, n - 1);
      if t < prev.GetOr(bound) then Some(t) else prev
  }

  /** The latest `createdAt` above 0 among the first `n` keys. */
  function Latest(st: Store, n: nat): (r: Option<int>)
    requires st.Valid() && n <= |st.order|
    ensures forall j :: 0 <= j < n ==> Created(st, j) <= r.GetOr(0)
    ensures r.Some? ==> r.value > 0 && exists j :: 0 <= j < n && Created(st, j) == r.value
  {
    if n == 0 then None
    else
      var prev := Latest(st, n - 1);
      var t := Created(st, n - 1);
      if t > prev.GetOr(0) then Some(t) else prev
  }

  /** `getStats`, with the dates as the `createdAt` values they render. */
  datatype Stats = Stats(size: nat, totalHits: nat, avgHits: real, oldestEntry: Option<int>, newestEntry: Option<int>)

  // ---------------------------------------------------------------------
  // The cache object
  // ---------------------------------------------------------------------

  class SemanticCache {
    var order: seq<string>
    var entries: map<string, Entry>

    ghost function State(): Store
      reads this
    {
      Store(order, entries)
    }

    ghost predicate Valid()
      reads this
    {
      State().Valid()
    }

    constructor ()
      ensures Valid() && State() == Store([], map[])
    {
      order := [];
      entries := map[];
    }

    /** `getCached`: the result of the entry `Lookup` picks, after recording
        the hit on it; `null` with nothing changed when no key qualifies. */
    method GetCached(prompt: string, now: int) returns (r: Json)
      requires Valid()
      modifies this
      ensures Valid()
      ensures var k := Lookup(old(State()), Normalize(prompt));
        && (k.None? ==> r == JNull && State() == old(State()))
        && (k.Some? ==> r == old(entries)[k.value].result && State() == Hit(old(State()), k.value, now))
    {
      ghost var st := State();
      var q := Normalize(prompt);
      if q in entries {
        var e := entries[q];
        entries := entries[q := Touch(e, now)];
        assert State() == Hit(st, q, now);
        return e.result;
      }
      var i := 0;
      while i < |order|
        invariant 0 <= i <= |order|
        invariant forall j :: 0 <= j < i ==> Similarity(q, order[j]) < SimilarityThreshold
      {
        var key := order[i];
        if Similarity(q, key) >= SimilarityThreshold {
          assert Lookup(st, q) == Some(key) by {
            var scores := Scores(order, q);
            assert |scores| == |order|;
            assert forall j :: 0 <= j < |order| ==> scores[j] == Similarity(q, order[j]);
            var first := FirstAtLeast(scores, SimilarityThreshold);
            assert scores[i] >= SimilarityThreshold;
            assert first.Some?;
            assert !(first.value < i) && !(first.value > i);
          }
          assert key in order;
          var e := entries[key];
          entries := entries[key := Touch(e, now)];
          assert State() == Hit(st, key, now);
          return e.result;
        }
        i := i + 1;
      }
      assert Lookup(st, q) == None by {
        var scores := Scores(order, q);
        assert |scores| == |order|;
        assert forall j :: 0 <= j < |order| ==> scores[j] == Similarity(q, order[j]);
        assert FirstAtLeast(scores, SimilarityThreshold) == None;
      }
      return JNull;
    }

    /** `evictOldest`. */
    method EvictOldest(now: int)
      requires Valid()
      modifies this
      ensures Valid() && State() == Evict(old(State()), now)
    {
      var best: Option<nat> := None;
      var bestTime := now;
      for i := 0 to |order|
        invariant State() == old(State())
        invariant OldestFrom(State(), i, best, bestTime) == Oldest(State(), now)
      {
        assert order[i] in order;
        var t := entries[order[i]].lastAccessed;
        if t < bestTime {
          best, bestTime := Some(i), t;
        }
      }
      if best.Some? {
        var i := best.value;
        var key := order[i];
        if key != "" {
          ghost var st := RemoveAt(State(), i);
          order, entries := order[..i] + order[i + 1..], entries - {key};
          assert State() == st;
        }
      }
    }

    /** `setCached`. */
    method SetCached(prompt: string, result: Json, metadata: Json, now: int)
      requires Valid()
      modifies this
      ensures Valid() && State() == SetKey(old(State()), Normalize(prompt), result, metadata, now)
    {
      var key := Normalize(prompt);
      if |entries| >= MaxCacheSize {
        EvictOldest(now);
      }
      ghost var s1 := State();
      assert s1 == BeforeSet(old(State()), now);
      if key !in entries {
        order := order + [key];
      }
      entries := entries[key := NewEntry(key, result, metadata, now)];
      assert State() == Put(s1, key, NewEntry(key, result, metadata, now));
    }

    /** `preloadCommonPatterns`. */
    method PreloadCommonPatterns(now: int)
      requires Valid()
      modifies this
      ensures Valid() && State() == Preload(old(State()), CommonPatterns, now)
    {
      PreloadPatterns(CommonPatterns, now);
    }

    /** The loop of `preloadCommonPatterns`, over any list of patterns. */
    method PreloadPatterns(patterns: seq<Pattern>, now: int)
      requires Valid()
      modifies this
      ensures Valid() && State() == Preload(old(State()), patterns, now)
    {
      for i := 0 to |patterns|
        invariant Valid()
        invariant Preload(State(), patterns[i..], now) == Preload(old(State()), patterns, now)
      {
        ghost var before := State();
        var p := patterns[i];
        var key := Normalize(p.prompt);
        assert patterns[i..][1..] == patterns[i + 1..];
        if key !in entries {
          order := order + [key];
          entries := entries[key := PreloadEntry(key, p, now)];
        }
        assert State() == PreloadOne(before, p, now);
      }
    }

    /** `clearCache`: every entry is dropped (removing the cache file is not
        modelled). */
    method ClearCache()
      modifies this
      ensures Valid() && State() == Store([], map[])
    {
      order := [];
      entries := map[];
    }

    /** `getStats`: the number of entries, the total of their hits, the mean
        and the earliest and latest creation times. */
    method GetStats(now: int) returns (s: Stats)
      requires Valid()
      ensures s.size == |entries| == |order|
      ensures s.totalHits == SumHits(State(), |order|)
      ensures s.avgHits == if s.size > 0 then s.totalHits as real / s.size as real else 0.0
      ensures s.oldestEntry == Earliest(State(), |order|, now)
      ensures s.newestEntry == Latest(State(), |order|)
    {
      StoreSize(State());
      var total: nat := 0;
      var oldest: Option<int> := None;
      var newest: Option<int> := None;
      var oldestTime := now;
      var newestTime := 0;
      for i := 0 to |order|
        invariant total == SumHits(State(), i)
        invariant oldest == Earliest(State(), i, now) && oldestTime == oldest.GetOr(now)
        invariant newest == Latest(State(), i) && newestTime == newest.GetOr(0)
      {
        assert order[i] in order;
        var e := entries[order[i]];
        total := total + e.hits;
        if e.createdAt < oldestTime {
          oldestTime := e.createdAt;
          oldest := Some(e.createdAt);
        }
        if e.createdAt > newestTime {
          newestTime := e.createdAt;
          newest := Some(e.createdAt);
        }
      }
      var size := |entries|;
      s := Stats(size, total, if size > 0 then total as real / size as real else 0.0, oldest, newest);
    }
  }
}
