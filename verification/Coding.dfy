/**
 The laws taken as given of the library can be met: a JSON coding that satisfies them. It writes a
 frame as a list of numbers that can be read back from the left, and the numbers in unary.
 */
module Coding {
  import opened Basics
  import opened Protocol

  function CodeInt(n: int): seq<nat> { if n < 0 then [1, -n] else [0, n] }

  function CodeText(s: string): seq<nat> { [|s|] + seq(|s|, i requires 0 <= i < |s| => s[i] as nat) }

  ghost function Pick(keys: set<string>): string
    requires keys != {}
    ensures Pick(keys) in keys
  {
    var k :| k in keys;
    k
  }

  ghost function Code(j: Json): seq<nat>
    decreases j, 1, 0
  {
    match j
    case Null => [0]
    case Bool(b) => [1, if b then 1 else 0]
    case Num(n) => [2] + CodeInt(n)
    case Frac(m, e) => [3, e] + CodeInt(m)
    case Str(s) => [4] + CodeText(s)
    case Arr(items) => [5, |items|] + CodeItems(j, 0)
    case Dict(fields) => [6, |fields.Keys|] + CodeFields(j, fields.Keys)
    case Foreign(tag) => [7] + CodeInt(tag)
  }

  ghost function CodeItems(j: Json, i: nat): seq<nat>
    requires j.Arr? && i <= |j.items|
    decreases j, 0, |j.items| - i
  {
    if i == |j.items| then [] else Code(j.items[i]) + CodeItems(j, i + 1)
  }

  ghost function CodeFields(j: Json, keys: set<string>): seq<nat>
    requires j.Dict? && keys <= j.fields.Keys
    decreases j, 0, |keys|
  {
    if keys == {} then [] else
    var k := Pick(keys);
    CodeText(k) + (Code(j.fields[k]) + CodeFields(j, keys - {k}))
  }

  // Reading back from the left --------------------------------------------------------------------

  lemma SplitSame(a: seq<nat>, x: seq<nat>, b: seq<nat>, y: seq<nat>)
    requires a + x == b + y && |a| == |b|
    ensures a == b && x == y
  {
    assert (a + x)[..|a|] == a && (b + y)[..|b|] == b;
    assert (a + x)[|a|..] == x && (b + y)[|b|..] == y;
  }

  lemma IntReadable(m: int, n: int, x: seq<nat>, y: seq<nat>)
    requires CodeInt(m) + x == CodeInt(n) + y
    ensures m == n && x == y
  {
    SplitSame(CodeInt(m), x, CodeInt(n), y);
    assert CodeInt(m)[0] == CodeInt(n)[0] && CodeInt(m)[1] == CodeInt(n)[1];
  }

  lemma TextReadable(s: string, t: string, x: seq<nat>, y: seq<nat>)
    requires CodeText(s) + x == CodeText(t) + y
    ensures s == t && x == y
  {
    assert (CodeText(s) + x)[0] == |s| && (CodeText(t) + y)[0] == |t|;
    SplitSame(CodeText(s), x, CodeText(t), y);
    forall i | 0 <= i < |s| ensures s[i] == t[i] {
      assert CodeText(s)[i + 1] == s[i] as nat && CodeText(t)[i + 1] == t[i] as nat;
    }
  }

  /** The first number tells the constructor; after it comes the rest of the code. */
  lemma SameTag(a: Json, b: Json, x: seq<nat>, y: seq<nat>)
    requires Code(a) + x == Code(b) + y
    ensures Code(a)[0] == Code(b)[0]
    ensures Code(a)[1..] + x == Code(b)[1..] + y
  {
    assert (Code(a) + x)[0] == Code(a)[0] && (Code(b) + y)[0] == Code(b)[0];
    assert (Code(a) + x)[1..] == Code(a)[1..] + x && (Code(b) + y)[1..] == Code(b)[1..] + y;
  }

  lemma AtomReadable(a: Json, b: Json, x: seq<nat>, y: seq<nat>)
    requires !a.Arr? && !a.Dict? && !a.Frac?
    requires Code(a)[0] == Code(b)[0]
    requires Code(a)[1..] + x == Code(b)[1..] + y
    ensures a == b && x == y
  {
    var p, q := Code(a)[1..], Code(b)[1..];
    match a
    case Null => assert p + x == x && q + y == y;
    case Bool(_) =>
      SplitSame(p, x, q, y);
      assert p[0] == q[0];
    case Num(m) => IntReadable(m, b.n, x, y);
    case Str(s) => TextReadable(s, b.s, x, y);
    case Foreign(t) => IntReadable(t, b.tag, x, y);
  }

  /** A code whose second number is n. */
  lemma SecondNumber(n: nat, c: seq<nat>, x: seq<nat>)
    ensures ([n] + c + x)[0] == n && ([n] + c + x)[1..] == c + x
  {
  }

  /** No code is the beginning of another. */
  lemma {:induction false} Readable(a: Json, b: Json, x: seq<nat>, y: seq<nat>)
    requires Code(a) + x == Code(b) + y
    ensures a == b && x == y
    decreases a, 1, 0
  {
    SameTag(a, b, x, y);
    if a.Frac? {
      SecondNumber(a.e, CodeInt(a.m), x);
      SecondNumber(b.e, CodeInt(b.m), y);
      assert Code(a)[1..] == [a.e] + CodeInt(a.m) && Code(b)[1..] == [b.e] + CodeInt(b.m);
      IntReadable(a.m, b.m, x, y);
    } else if a.Arr? {
      ArrReadable(a, b, x, y);
    } else if a.Dict? {
      DictReadable(a, b, x, y);
    } else {
      AtomReadable(a, b, x, y);
    }
  }

  lemma {:induction false} ArrReadable(a: Json, b: Json, x: seq<nat>, y: seq<nat>)
    requires a.Arr? && b.Arr?
    requires Code(a)[1..] + x == Code(b)[1..] + y
    ensures a == b && x == y
    decreases a, 0, |a.items| + 1
  {
    SecondNumber(|a.items|, CodeItems(a, 0), x);
    SecondNumber(|b.items|, CodeItems(b, 0), y);
    assert Code(a)[1..] == [|a.items|] + CodeItems(a, 0) && Code(b)[1..] == [|b.items|] + CodeItems(b, 0);
    ItemsReadable(a, b, 0, x, y);
  }

  lemma DictCode(a: Json)
    requires a.Dict?
    ensures Code(a)[1..] == [|a.fields.Keys|] + CodeFields(a, a.fields.Keys)
  {
  }

  lemma SameDict(a: Json, b: Json)
    requires a.Dict? && b.Dict? && a.fields.Keys == b.fields.Keys
    requires forall k :: k in a.fields.Keys ==> a.fields[k] == b.fields[k]
    ensures a == b
  {
    assert a.fields == b.fields;
  }

  lemma {:induction false} DictReadable(a: Json, b: Json, x: seq<nat>, y: seq<nat>)
    requires a.Dict? && b.Dict?
    requires Code(a)[1..] + x == Code(b)[1..] + y
    ensures a == b && x == y
    decreases a, 0, |a.fields.Keys| + 1
  {
    var m, n := a.fields.Keys, b.fields.Keys;
    SecondNumber(|m|, CodeFields(a, m), x);
    SecondNumber(|n|, CodeFields(b, n), y);
    DictCode(a);
    DictCode(b);
    FieldsReadable(a, b, m, n, x, y);
    SameDict(a, b);
  }

  lemma {:induction false} ItemsReadable(a: Json, b: Json, i: nat, x: seq<nat>, y: seq<nat>)
    requires a.Arr? && b.Arr? && i <= |a.items| == |b.items|
    requires CodeItems(a, i) + x == CodeItems(b, i) + y
    ensures a.items[i..] == b.items[i..] && x == y
    decreases a, 0, |a.items| - i
  {
    if i < |a.items| {
      var u, v := CodeItems(a, i + 1) + x, CodeItems(b, i + 1) + y;
      assert CodeItems(a, i) + x == Code(a.items[i]) + u;
      assert CodeItems(b, i) + y == Code(b.items[i]) + v;
      Readable(a.items[i], b.items[i], u, v);
      ItemsReadable(a, b, i + 1, x, y);
    } else {
      assert [] + x == x && [] + y == y;
    }
  }

  lemma {:induction false} FieldsReadable(
      a: Json, b: Json, m: set<string>, n: set<string>, x: seq<nat>, y: seq<nat>)
    requires a.Dict? && b.Dict? && m <= a.fields.Keys && n <= b.fields.Keys && |m| == |n|
    requires CodeFields(a, m) + x == CodeFields(b, n) + y
    ensures m == n && x == y
    ensures forall k :: k in m ==> a.fields[k] == b.fields[k]
    decreases a, 0, |m|
  {
    if m == {} {
      assert n == {};
      assert [] + x == x && [] + y == y;
    } else {
      var k, l := Pick(m), Pick(n);
      var u, v := CodeFields(a, m - {k}) + x, CodeFields(b, n - {l}) + y;
      assert CodeFields(a, m) + x == CodeText(k) + (Code(a.fields[k]) + u);
      assert CodeFields(b, n) + y == CodeText(l) + (Code(b.fields[l]) + v);
      TextReadable(k, l, Code(a.fields[k]) + u, Code(b.fields[l]) + v);
      Readable(a.fields[k], b.fields[l], u, v);
      FieldsReadable(a, b, m - {k}, n - {l}, x, y);
    }
  }

  ghost function CodeMember(o: Option<Json>): seq<nat> {
    match o
    case None => [0]
    case Some(j) => [1] + Code(j)
  }

  lemma MemberReadable(o: Option<Json>, p: Option<Json>, x: seq<nat>, y: seq<nat>)
    requires CodeMember(o) + x == CodeMember(p) + y
    ensures o == p && x == y
  {
    var a, b := CodeMember(o), CodeMember(p);
    assert (a + x)[0] == a[0] && (b + y)[0] == b[0];
    assert (a + x)[1..] == a[1..] + x && (b + y)[1..] == b[1..] + y;
    if o.Some? {
      Readable(o.value, p.value, x, y);
    } else {
      assert a[1..] + x == x && b[1..] + y == y;
    }
  }

  ghost function CodeFrame(f: Frame): seq<nat> {
    CodeMember(f.id)
    + (CodeMember(f.methodName) + (CodeMember(f.params) + (CodeMember(f.result) + CodeMember(f.error))))
  }

  lemma FrameReadable(f: Frame, g: Frame)
    requires CodeFrame(f) == CodeFrame(g)
    ensures f == g
  {
    MemberReadable(f.id, g.id,
      CodeMember(f.methodName) + (CodeMember(f.params) + (CodeMember(f.result) + CodeMember(f.error))),
      CodeMember(g.methodName) + (CodeMember(g.params) + (CodeMember(g.result) + CodeMember(g.error))));
    MemberReadable(f.methodName, g.methodName,
      CodeMember(f.params) + (CodeMember(f.result) + CodeMember(f.error)),
      CodeMember(g.params) + (CodeMember(g.result) + CodeMember(g.error)));
    MemberReadable(f.params, g.params,
      CodeMember(f.result) + CodeMember(f.error), CodeMember(g.result) + CodeMember(g.error));
    MemberReadable(f.result, g.result, CodeMember(f.error), CodeMember(g.error));
    assert CodeMember(f.error) + [] == CodeMember(f.error) && CodeMember(g.error) + [] == CodeMember(g.error);
    MemberReadable(f.error, g.error, [], []);
  }

  // One line of text ------------------------------------------------------------------------------

  function Unary(n: nat): string { if n == 0 then "," else "1" + Unary(n - 1) }

  function Written(ns: seq<nat>): string {
    if ns == [] then "" else Unary(ns[0]) + Written(ns[1..])
  }

  lemma {:induction false} UnaryReadable(m: nat, n: nat, x: string, y: string)
    requires Unary(m) + x == Unary(n) + y
    ensures m == n && x == y
  {
    var s, t := Unary(m) + x, Unary(n) + y;
    assert s[0] == (if m == 0 then ',' else '1') && t[0] == if n == 0 then ',' else '1';
    if m == 0 {
      assert s[1..] == x && t[1..] == y;
    } else {
      assert s[1..] == Unary(m - 1) + x && t[1..] == Unary(n - 1) + y;
      UnaryReadable(m - 1, n - 1, x, y);
    }
  }

  lemma {:induction false} WrittenReadable(ms: seq<nat>, ns: seq<nat>)
    requires Written(ms) == Written(ns)
    ensures ms == ns
  {
    if ms != [] && ns != [] {
      UnaryReadable(ms[0], ns[0], Written(ms[1..]), Written(ns[1..]));
      WrittenReadable(ms[1..], ns[1..]);
      assert ms == [ms[0]] + ms[1..] && ns == [ns[0]] + ns[1..];
    }
  }

  lemma {:induction false} UnaryChars(n: nat)
    ensures forall i :: 0 <= i < |Unary(n)| ==> Unary(n)[i] in ",1"
  {
    if n > 0 { UnaryChars(n - 1); }
  }

  lemma {:induction false} WrittenChars(ns: seq<nat>)
    ensures forall i :: 0 <= i < |Written(ns)| ==> Written(ns)[i] in ",1"
  {
    if ns != [] {
      UnaryChars(ns[0]);
      WrittenChars(ns[1..]);
    }
  }

  // The library -----------------------------------------------------------------------------------

  ghost function Shown(f: Frame): string { "{" + Written(CodeFrame(f)) }

  ghost function Parsed(s: string): Option<Value> {
    if exists f :: PlainFrame(f) && Shown(f) == s then
      var f :| PlainFrame(f) && Shown(f) == s;
      Some(Object(f))
    else None
  }

  lemma ShownOnOneLine(f: Frame)
    ensures '\n' !in Shown(f) && Shown(f)[|Shown(f)| - 1] != '\r' && !Blank(Shown(f))
  {
    WrittenChars(CodeFrame(f));
    assert forall i :: 0 <= i < |Shown(f)| ==> Shown(f)[i] in "{,1";
    assert !IsSpace(Shown(f)[0]);
  }

  lemma ParsedUndoesShown(f: Frame)
    requires PlainFrame(f)
    ensures Parsed(Shown(f)) == Some(Object(f))
  {
    var g :| PlainFrame(g) && Shown(g) == Shown(f) && Parsed(Shown(f)) == Some(Object(g));
    assert Shown(f)[1..] == Written(CodeFrame(f)) && Shown(g)[1..] == Written(CodeFrame(g));
    WrittenReadable(CodeFrame(f), CodeFrame(g));
    FrameReadable(f, g);
  }

  ghost function Library(): Lib {
    Lib.Lib(
      (f: Frame) => if PlainFrame(f) then Some(Shown(f)) else None,
      (s: string) => Parsed(s),
      (j: Json) => if j.Num? then Some(j.n) else None)
  }

  lemma BlankIsNotParsed(s: string)
    requires Blank(s)
    ensures Parsed(s) == None
  {
    forall f ensures Shown(f) != s { ShownOnOneLine(f); }
  }

  /** So the results that ask for a lawful library are about something. */
  lemma LawfulHasAModel()
    ensures exists lib :: Lawful(lib)
  {
    var lib := Library();
    forall f: Frame | lib.encode(f).Some?
      ensures '\n' !in lib.encode(f).value
      ensures lib.encode(f).value[|lib.encode(f).value| - 1] != '\r'
      ensures lib.decode(lib.encode(f).value) == Some(Object(f))
    {
      ShownOnOneLine(f);
      ParsedUndoesShown(f);
    }
    forall s | Blank(s) ensures lib.decode(s) == None { BlankIsNotParsed(s); }
    assert Lawful(lib);
  }
}
