/** `cn` of lib/utils.js: the class-name combiner used by the UI. It keeps
    the truthy arguments, in order, and joins their string forms with one
    space. */
module Utils {
  import opened Strings

  /** The argument values a call of `cn` receives: class-name strings,
      booleans and numbers from `cond && "name"` expressions, `null` and
      `undefined`. Numbers are integers here. */
  datatype ClassArg = Str(s: string) | Bool(b: bool) | Num(n: int) | Null | Undefined

  /** `Boolean(a)`. */
  predicate Truthy(a: ClassArg) {
    match a
    case Str(s) => s != ""
    case Bool(b) => b
    case Num(n) => n != 0
    case Null => false
    case Undefined => false
  }

  /** The string `join` inserts for a kept argument (`String(a)`). */
  function Text(a: ClassArg): (r: string)
    requires Truthy(a)
    ensures r != ""
    ensures a.Str? ==> r == a.s
  {
    match a
    case Str(s) => s
    case Bool(_) => "true"
    case Num(n) => IntToString(n)
  }

  /** `args.filter(Boolean)`. */
  function Kept(args: seq<ClassArg>): (r: seq<ClassArg>)
    ensures |r| <= |args|
    ensures forall i :: 0 <= i < |r| ==> Truthy(r[i])
    ensures forall a :: a in r ==> a in args
    decreases |args|
  {
    if args == [] then []
    else if Truthy(args[0]) then [args[0]] + Kept(args[1..])
    else Kept(args[1..])
  }

  /** The string forms of the kept arguments, in order. */
  function Texts(kept: seq<ClassArg>): (r: seq<string>)
    requires forall i :: 0 <= i < |kept| ==> Truthy(kept[i])
    ensures |r| == |kept|
    ensures forall i :: 0 <= i < |r| ==> r[i] == Text(kept[i])
    decreases |kept|
  {
    if kept == [] then [] else [Text(kept[0])] + Texts(kept[1..])
  }

  /** `cn(...args)`. */
  function Cn(args: seq<ClassArg>): string {
    Join(Texts(Kept(args)), " ")
  }

  /** Filtering distributes over concatenation: the kept arguments keep their
      original order. */
  lemma {:induction false} KeptAppend(xs: seq<ClassArg>, ys: seq<ClassArg>)
    ensures Kept(xs + ys) == Kept(xs) + Kept(ys)
    decreases |xs|
  {
    if xs == [] {
      assert xs + ys == ys;
    } else {
      assert (xs + ys)[0] == xs[0];
      assert (xs + ys)[1..] == xs[1..] + ys;
      KeptAppend(xs[1..], ys);
    }
  }

  /** A single argument is kept exactly when it is truthy. */
  lemma KeptOne(a: ClassArg)
    ensures Kept([a]) == if Truthy(a) then [a] else []
  {
  }

  /** A falsy argument contributes neither text nor a separator. */
  lemma FalsyIgnored(xs: seq<ClassArg>, a: ClassArg, ys: seq<ClassArg>)
    requires !Truthy(a)
    ensures Cn(xs + [a] + ys) == Cn(xs + ys)
  {
    assert Kept([a]) == [] by { assert [a][1..] == []; }
    KeptAppend(xs, [a]);
    assert Kept(xs + [a]) == Kept(xs);
    KeptAppend(xs + [a], ys);
    KeptAppend(xs, ys);
    assert Kept(xs + [a] + ys) == Kept(xs + ys);
  }

  /** Nothing is kept exactly when no argument is truthy. */
  lemma {:induction false} KeptEmpty(args: seq<ClassArg>)
    ensures Kept(args) == [] <==> forall i :: 0 <= i < |args| ==> !Truthy(args[i])
    decreases |args|
  {
    if args != [] {
      KeptEmpty(args[1..]);
      assert forall i :: 1 <= i < |args| ==> args[i] == args[1..][i - 1];
    }
  }

  /** The result is empty exactly when no argument is truthy. */
  lemma CnEmpty(args: seq<ClassArg>)
    ensures Cn(args) == "" <==> forall i :: 0 <= i < |args| ==> !Truthy(args[i])
  {
    KeptEmpty(args);
    if Kept(args) != [] {
      JoinNonEmpty(Texts(Kept(args)), " ");
    }
  }

  /** A single truthy string is returned unchanged. */
  lemma CnSingle(s: string)
    requires s != ""
    ensures Cn([Str(s)]) == s
  {
    assert Kept([Str(s)]) == [Str(s)];
  }

  /** The kept names are recovered by splitting on the space when none of them
      contains one: the result lists exactly the truthy arguments, in order. */
  lemma CnSplit(args: seq<ClassArg>)
    requires Kept(args) != []
    requires forall i :: 0 <= i < |args| && Truthy(args[i]) ==> ' ' !in Text(args[i])
    ensures Split(Cn(args), " ") == Texts(Kept(args))
  {
    var k := Kept(args);
    var ts := Texts(k);
    forall i | 0 <= i < |ts| ensures ' ' !in ts[i] {
      assert k[i] in args;
    }
    SplitJoin(ts, " ");
  }
}
