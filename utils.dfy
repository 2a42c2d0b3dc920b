/** `classNames(...classes)`: keep the truthy arguments and join them with
    single spaces, as `classes.filter(Boolean).join(' ')` does. */
module Utils {

  /** One argument: `string | boolean | undefined | null`. */
  datatype ClassValue = Str(s: string) | Bool(b: bool) | Undefined | Null

  /** `Boolean(v)`: the empty string, `false`, `undefined` and `null` are falsy. */
  predicate Truthy(v: ClassValue)
    ensures Truthy(v) <==> (v.Str? && v.s != "") || v == Bool(true)
  {
    match v
    case Str(s) => s != ""
    case Bool(b) => b
    case _ => false
  }

  /** How `Array.prototype.join` renders one element: `undefined` and `null`
      as the empty string, a boolean by `String(b)`. */
  function JoinText(v: ClassValue): (t: string)
    ensures Truthy(v) ==> t != ""
  {
    match v
    case Str(s) => s
    case Bool(b) => if b then "true" else "false"
    case _ => ""
  }

  /** `filter(Boolean)`. */
  function Filter(xs: seq<ClassValue>): (r: seq<ClassValue>)
    ensures |r| <= |xs|
    ensures forall k :: 0 <= k < |r| ==> Truthy(r[k])
  {
    if xs == [] then []
    else if Truthy(xs[0]) then [xs[0]] + Filter(xs[1..])
    else Filter(xs[1..])
  }

  /** Each element rendered as `join` renders it, in order. */
  function Texts(vs: seq<ClassValue>): (ts: seq<string>)
    ensures |ts| == |vs|
    ensures forall k :: 0 <= k < |vs| ==> ts[k] == JoinText(vs[k])
  {
    if vs == [] then [] else [JoinText(vs[0])] + Texts(vs[1..])
  }

  /** `Array.prototype.join(sep)` over strings: no parts give the empty
      string, otherwise the result starts with the first part. */
  function Join(parts: seq<string>, sep: string): (r: string)
    ensures parts == [] ==> r == ""
    ensures parts != [] ==> |parts[0]| <= |r| && r[..|parts[0]|] == parts[0]
  {
    if parts == [] then ""
    else if |parts| == 1 then parts[0]
    else parts[0] + sep + Join(parts[1..], sep)
  }

  /** The result is empty exactly when nothing survives the filter. */
  function ClassNames(xs: seq<ClassValue>): (r: string)
    ensures r == "" <==> Filter(xs) == []
  {
    TextsNonEmpty(Filter(xs));
    JoinEmptyIff(Texts(Filter(xs)), " ");
    Join(Texts(Filter(xs)), " ")
  }

  // ---------------------------------------------------------------------
  // The filter keeps exactly the truthy arguments, in input order.

  lemma {:induction false} FilterAppend(a: seq<ClassValue>, b: seq<ClassValue>)
    ensures Filter(a + b) == Filter(a) + Filter(b)
  {
    if a != [] {
      assert (a + b)[1..] == a[1..] + b;
      FilterAppend(a[1..], b);
    } else {
      assert a + b == b;
    }
  }

  lemma {:induction false} FilterMembership(xs: seq<ClassValue>, v: ClassValue)
    ensures v in Filter(xs) <==> v in xs && Truthy(v)
  {
    if xs != [] {
      FilterMembership(xs[1..], v);
      assert xs == [xs[0]] + xs[1..];
    }
  }

  lemma {:induction false} FilterNoneIff(xs: seq<ClassValue>)
    ensures Filter(xs) == [] <==> forall k :: 0 <= k < |xs| ==> !Truthy(xs[k])
  {
    if xs != [] {
      FilterNoneIff(xs[1..]);
      assert forall k :: 1 <= k < |xs| ==> xs[k] == xs[1..][k - 1];
    }
  }

  lemma TextsAppend(a: seq<ClassValue>, b: seq<ClassValue>)
    ensures Texts(a + b) == Texts(a) + Texts(b)
  {
  }

  // ---------------------------------------------------------------------
  // The join puts one separator between neighbours and none at the ends.

  lemma {:induction false} JoinAppend(a: seq<string>, b: seq<string>, sep: string)
    requires a != [] && b != []
    ensures Join(a + b, sep) == Join(a, sep) + sep + Join(b, sep)
  {
    if |a| > 1 {
      assert (a + b)[1..] == a[1..] + b;
      JoinAppend(a[1..], b, sep);
    } else {
      assert (a + b)[1..] == b;
    }
  }

  function TotalLength(parts: seq<string>): nat {
    if parts == [] then 0 else |parts[0]| + TotalLength(parts[1..])
  }

  function TotalCount(parts: seq<string>, c: char): nat {
    if parts == [] then 0 else multiset(parts[0])[c] + TotalCount(parts[1..], c)
  }

  /** With k >= 1 parts the joined string is the parts plus exactly k - 1
      separators, and it starts with the first part. */
  lemma {:induction false} JoinShape(parts: seq<string>, sep: string)
    requires |parts| >= 1
    ensures |Join(parts, sep)| == TotalLength(parts) + (|parts| - 1) * |sep|
    ensures Join(parts, sep)[..|parts[0]|] == parts[0]
  {
    if |parts| > 1 {
      JoinShape(parts[1..], sep);
      var rest := Join(parts[1..], sep);
      assert Join(parts, sep) == parts[0] + sep + rest;
      assert TotalLength(parts[1..]) >= 0;
    }
  }

  /** The joined string ends with the last part, after one separator. */
  lemma JoinLast(parts: seq<string>, sep: string)
    requires |parts| >= 2
    ensures Join(parts, sep) == Join(parts[..|parts| - 1], sep) + sep + parts[|parts| - 1]
  {
    assert parts == parts[..|parts| - 1] + [parts[|parts| - 1]];
    JoinAppend(parts[..|parts| - 1], [parts[|parts| - 1]], sep);
  }

  lemma {:induction false} JoinSeparatorCount(parts: seq<string>, c: char)
    requires |parts| >= 1
    ensures multiset(Join(parts, [c]))[c] == TotalCount(parts, c) + |parts| - 1
  {
    if |parts| > 1 {
      JoinSeparatorCount(parts[1..], c);
      assert Join(parts, [c]) == parts[0] + [c] + Join(parts[1..], [c]);
    }
  }

  lemma JoinEmptyIff(parts: seq<string>, sep: string)
    requires forall k :: 0 <= k < |parts| ==> parts[k] != ""
    ensures Join(parts, sep) == "" <==> parts == []
  {
  }

  lemma TextsNonEmpty(vs: seq<ClassValue>)
    requires forall k :: 0 <= k < |vs| ==> Truthy(vs[k])
    ensures forall k :: 0 <= k < |vs| ==> Texts(vs)[k] != ""
  {
  }

  // ---------------------------------------------------------------------
  // classNames

  /** The result is empty exactly when no argument survives the filter. */
  lemma ClassNamesEmptyIff(xs: seq<ClassValue>)
    ensures ClassNames(xs) == "" <==> forall k :: 0 <= k < |xs| ==> !Truthy(xs[k])
  {
    FilterNoneIff(xs);
    TextsNonEmpty(Filter(xs));
    JoinEmptyIff(Texts(Filter(xs)), " ");
  }

  /** Arguments that the filter drops leave no trace, not even a space. */
  lemma ClassNamesFalsy()
    ensures ClassNames([Str(""), Bool(false), Undefined, Null]) == ""
    ensures ClassNames([]) == ""
  {
  }

  /** A falsy argument anywhere in the list leaves no trace, not even a
      space. */
  lemma ClassNamesDropsFalsy(a: seq<ClassValue>, v: ClassValue, b: seq<ClassValue>)
    requires !Truthy(v)
    ensures ClassNames(a + [v] + b) == ClassNames(a + b)
  {
    FilterAppend(a + [v], b);
    FilterAppend(a, [v]);
    FilterAppend(a, b);
    assert [v][1..] == [];
    assert Filter([v]) == [];
    assert Filter(a + [v] + b) == Filter(a + b);
  }

  /** `true` survives the filter and is rendered as the text "true". */
  lemma ClassNamesTrue(s: string)
    requires s != ""
    ensures ClassNames([Bool(true)]) == "true"
    ensures ClassNames([Str(s), Bool(true)]) == s + " true"
  {
  }

  /** A single string comes back unchanged (the empty one included). */
  lemma ClassNamesSingle(s: string)
    ensures ClassNames([Str(s)]) == s
  {
  }

  /** Feeding the result back in as the only argument changes nothing. */
  lemma ClassNamesIdempotent(xs: seq<ClassValue>)
    ensures ClassNames([Str(ClassNames(xs))]) == ClassNames(xs)
  {
  }

  /** Order is preserved: the classes of `a` come first, then one space, then
      those of `b`, when both contribute something. */
  lemma ClassNamesAppend(a: seq<ClassValue>, b: seq<ClassValue>)
    requires exists k :: 0 <= k < |a| && Truthy(a[k])
    requires exists k :: 0 <= k < |b| && Truthy(b[k])
    ensures ClassNames(a + b) == ClassNames(a) + " " + ClassNames(b)
  {
    FilterAppend(a, b);
    TextsAppend(Filter(a), Filter(b));
    FilterNoneIff(a);
    FilterNoneIff(b);
    JoinAppend(Texts(Filter(a)), Texts(Filter(b)), " ");
  }

  /** With k >= 1 surviving arguments the result holds exactly k - 1 more
      spaces than the surviving texts themselves, starts with the first
      survivor's text and ends with the last one's after a single space. */
  lemma ClassNamesSeparators(xs: seq<ClassValue>)
    requires Filter(xs) != []
    ensures var f := Texts(Filter(xs));
      && multiset(ClassNames(xs))[' '] == TotalCount(f, ' ') + |f| - 1
      && |ClassNames(xs)| == TotalLength(f) + |f| - 1
      && ClassNames(xs)[..|f[0]|] == f[0]
      && (|f| == 1 ==> ClassNames(xs) == f[0])
      && (|f| >= 2 ==> ClassNames(xs) == Join(f[..|f| - 1], " ") + " " + f[|f| - 1])
  {
    var f := Texts(Filter(xs));
    var r := ClassNames(xs);
    assert r == Join(f, " ");
    JoinWithSpaces(f);
    assert multiset(r)[' '] == TotalCount(f, ' ') + |f| - 1;
    assert |r| == TotalLength(f) + |f| - 1;
    assert r[..|f[0]|] == f[0];
  }

  /** The facts above for any non-empty list of parts joined with a space. */
  lemma JoinWithSpaces(f: seq<string>)
    requires |f| >= 1
    ensures var r := Join(f, " ");
      && multiset(r)[' '] == TotalCount(f, ' ') + |f| - 1
      && |r| == TotalLength(f) + |f| - 1
      && r[..|f[0]|] == f[0]
      && (|f| == 1 ==> r == f[0])
      && (|f| >= 2 ==> r == Join(f[..|f| - 1], " ") + " " + f[|f| - 1])
  {
    JoinSeparatorCount(f, ' ');
    JoinShape(f, " ");
    if |f| >= 2 {
      JoinLast(f, " ");
    }
  }
}
