/** The slice of Python's data model that the connector relies on: JSON-like
    values, truthiness, `or`, `dict.get`, `isinstance(x, int)`, `==`, `str()`,
    and the few string methods the client and the actions call. */
module PyValue {

  /** A Python value as it arrives from JSON or from the host's parameter
      dictionary. Dictionaries have string keys (they are JSON objects). */
  datatype Value =
    | None
    | Bool(b: bool)
    | Int(i: int)
    | Str(s: string)
    | List(items: seq<Value>)
    | Dict(fields: map<string, Value>)

  /** `isinstance(v, int)`: in Python `bool` is a subclass of `int`. */
  predicate IsInt(v: Value) {
    v.Bool? || v.Int?
  }

  /** The integer a bool or an int stands for (True is 1, False is 0). */
  function Num(v: Value): int
    requires IsInt(v)
  {
    if v.Bool? then (if v.b then 1 else 0) else v.i
  }

  /** `bool(v)`. */
  predicate Truthy(v: Value) {
    match v
    case None => false
    case Bool(b) => b
    case Int(i) => i != 0
    case Str(s) => s != ""
    case List(xs) => xs != []
    case Dict(m) => |m| > 0
  }

  /** `a or b`: the first operand when it is truthy, the second otherwise. */
  function Or(a: Value, b: Value): Value {
    if Truthy(a) then a else b
  }

  /** `m.get(k, d)`. */
  function GetOr(m: map<string, Value>, k: string, d: Value): Value {
    if k in m then m[k] else d
  }

  /** `m.get(k)`. */
  function Get(m: map<string, Value>, k: string): Value {
    GetOr(m, k, None)
  }

  /** Python's `==` on these values: numbers compare by value across bool and
      int, containers compare element by element. */
  predicate PyEq(a: Value, b: Value)
    decreases a
  {
    if a.List? && b.List? then
      |a.items| == |b.items| && forall i :: 0 <= i < |a.items| ==> PyEq(a.items[i], b.items[i])
    else if a.Dict? && b.Dict? then
      a.fields.Keys == b.fields.Keys && forall k :: k in a.fields ==> PyEq(a.fields[k], b.fields[k])
    else if IsInt(a) && IsInt(b) then
      Num(a) == Num(b)
    else
      (a.None? && b.None?) || (a.Str? && b.Str? && a.s == b.s)
  }

  lemma {:induction false} PyEqReflexive(a: Value)
    ensures PyEq(a, a)
    decreases a
  {
    match a
    case List(xs) =>
      forall i | 0 <= i < |xs| ensures PyEq(xs[i], xs[i]) { PyEqReflexive(xs[i]); }
    case Dict(m) =>
      forall k | k in m ensures PyEq(m[k], m[k]) { PyEqReflexive(m[k]); }
    case _ =>
  }

  /** `None` is equal only to `None`. */
  lemma PyEqNone(a: Value)
    ensures PyEq(a, None) <==> a.None?
    ensures PyEq(None, a) <==> a.None?
  {
  }

  function DigitChar(d: int): (c: char)
    requires 0 <= d < 10
    ensures '0' <= c <= '9' && c as int - '0' as int == d
  {
    ('0' as int + d) as char
  }

  /** Decimal rendering of a natural number, most significant digit first. */
  function NatToStr(n: nat): (r: string)
    ensures |r| > 0
    ensures forall i :: 0 <= i < |r| ==> '0' <= r[i] <= '9'
  {
    if n < 10 then [DigitChar(n)] else NatToStr(n / 10) + [DigitChar(n % 10)]
  }

  /** `str(i)` for an int. */
  function IntToStr(i: int): (r: string)
    ensures |r| > 0
    ensures r[0] == '-' <==> i < 0
  {
    if i < 0 then "-" + NatToStr(-i) else NatToStr(i)
  }

  /** Different naturals have different decimal renderings. */
  lemma {:induction false} NatToStrInjective(a: nat, b: nat)
    requires NatToStr(a) == NatToStr(b)
    ensures a == b
    decreases a
  {
    if a < 10 && b < 10 {
      assert DigitChar(a) == NatToStr(a)[0] == NatToStr(b)[0] == DigitChar(b);
    } else if a < 10 || b < 10 {
      // one rendering has a single digit and the other more
      assert false;
    } else {
      var sa, sb := NatToStr(a / 10), NatToStr(b / 10);
      assert NatToStr(a) == sa + [DigitChar(a % 10)];
      assert NatToStr(b) == sb + [DigitChar(b % 10)];
      assert |sa| == |sb|;
      assert DigitChar(a % 10) == NatToStr(a)[|sa|] == NatToStr(b)[|sb|] == DigitChar(b % 10);
      assert sa == NatToStr(a)[..|sa|] == NatToStr(b)[..|sb|] == sb;
      NatToStrInjective(a / 10, b / 10);
    }
  }

  /** Different integers have different renderings: a minus sign never
      starts a natural's digits. */
  lemma IntToStrInjective(i: int, j: int)
    requires IntToStr(i) == IntToStr(j)
    ensures i == j
  {
    if i < 0 && j < 0 {
      assert NatToStr(-i) == IntToStr(i)[1..] == IntToStr(j)[1..] == NatToStr(-j);
      NatToStrInjective(-i, -j);
    } else if 0 <= i && 0 <= j {
      NatToStrInjective(i, j);
    }
    // otherwise only one rendering starts with a minus sign
  }

  /** `str(v)`, exact for None, bools, ints and strings. Lists and dicts are
      rendered as a fixed placeholder (see README, Left out). */
  function PyStr(v: Value): string {
    match v
    case None => "None"
    case Bool(b) => if b then "True" else "False"
    case Int(i) => IntToStr(i)
    case Str(s) => s
    case List(_) => "[...]"
    case Dict(_) => "{...}"
  }

  /** `type(v).__name__`. */
  function TypeNameOf(v: Value): string {
    match v
    case None => "NoneType"
    case Bool(_) => "bool"
    case Int(_) => "int"
    case Str(_) => "str"
    case List(_) => "list"
    case Dict(_) => "dict"
  }

  /** `s.rstrip('/')`: drops every trailing slash. */
  function RStripSlash(s: string): (r: string)
    ensures |r| <= |s| && r == s[..|r|]
    ensures r == "" || r[|r| - 1] != '/'
    ensures forall i :: |r| <= i < |s| ==> s[i] == '/'
  {
    if s != [] && s[|s| - 1] == '/' then RStripSlash(s[..|s| - 1]) else s
  }

  /** `s.replace(pat, rep)`: every non-overlapping occurrence, left to right. */
  function ReplaceAll(s: string, pat: string, rep: string): string
    requires pat != ""
    decreases |s|
  {
    if |s| < |pat| then s
    else if s[..|pat|] == pat then rep + ReplaceAll(s[|pat|..], pat, rep)
    else [s[0]] + ReplaceAll(s[1..], pat, rep)
  }

  /** Whether `pat` occurs in `s` starting at index `i`. */
  predicate StartsAt(s: string, pat: string, i: nat) {
    i + |pat| <= |s| && s[i..i + |pat|] == pat
  }

  /** A prefix in which no match starts is copied unchanged by `replace`. */
  lemma {:induction false} ReplaceAllTail(s: string, tail: string, pat: string, rep: string)
    requires pat != ""
    requires forall i :: 0 <= i < |s| ==> !StartsAt(s + tail, pat, i)
    ensures ReplaceAll(s + tail, pat, rep) == s + ReplaceAll(tail, pat, rep)
    decreases |s|
  {
    var u := s + tail;
    if s == [] {
      assert u == tail;
    } else if |u| < |pat| {
      assert ReplaceAll(tail, pat, rep) == tail;
    } else {
      assert !StartsAt(u, pat, 0);
      assert u[1..] == s[1..] + tail;
      forall i | 0 <= i < |s[1..]|
        ensures !StartsAt(s[1..] + tail, pat, i)
      {
        assert !StartsAt(u, pat, i + 1);
        if i + |pat| <= |s[1..] + tail| {
          assert (s[1..] + tail)[i..i + |pat|] == u[i + 1..i + 1 + |pat|];
        }
      }
      ReplaceAllTail(s[1..], tail, pat, rep);
      assert s == [s[0]] + s[1..];
    }
  }

  /** `s[:n]` for a non-negative n. */
  function Take(s: string, n: nat): (r: string)
    ensures |r| <= n && |r| <= |s|
    ensures r == s[..|r|]
    ensures |s| <= n ==> r == s
  {
    if |s| <= n then s else s[..n]
  }

  /** The characters `str.strip()` removes (the ASCII whitespace set and a few
      Latin-1 spaces; see README for the rest of Unicode). */
  predicate IsSpace(c: char) {
    c == ' ' || c == '\t' || c == '\n' || c == '\r' || c == '\U{0B}' || c == '\U{0C}'
    || ('\U{1C}' <= c <= '\U{1F}') || c == '\U{85}' || c == '\U{A0}'
  }

  /** `s.strip() == ""`. */
  predicate Blank(s: string) {
    forall i :: 0 <= i < |s| ==> IsSpace(s[i])
  }
}
