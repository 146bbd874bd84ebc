/**
 * The handful of JavaScript string operations the core relies on, written out so that
 * their behaviour is part of the model: `substring(0, n)` and `slice(0, n)`, `includes`, `startsWith`,
 * `endsWith`, a global `replace(/p/g, '')`, `trim`, `split`, the `||` default on
 * strings, and the decimal rendering of a non-negative integer.
 */
module JsText {
  import opened Wrappers

  /** JavaScript truthiness of a possibly missing string: defined and non-empty. */
  predicate Truthy(s: Option<string>) {
    s.Some? && s.value != ""
  }

  /** `a || b` where `a` is a possibly missing string. */
  function OrDefault(a: Option<string>, b: string): (r: string)
    ensures Truthy(a) ==> r == a.value
    ensures !Truthy(a) ==> r == b
  {
    if a.Some? && a.value != "" then a.value else b
  }

  /** How a template literal renders a possibly missing string: `undefined` when absent. */
  function Render(s: Option<string>): string {
    match s
    case Some(v) => v
    case None => "undefined"
  }

  /**
   * `s.substring(0, n)` on a string, `s.slice(0, n)` on an array: the longest prefix of
   * `s` no longer than `n`.
   */
  function Take<T>(s: seq<T>, n: nat): (r: seq<T>)
    ensures |r| == if |s| <= n then |s| else n
    ensures r <= s
  {
    if |s| <= n then s else s[..n]
  }

  /** `s.startsWith(p)`. */
  predicate StartsWith(s: string, p: string) {
    p <= s
  }

  /** `s.endsWith(p)`. */
  predicate EndsWith(s: string, p: string) {
    |p| <= |s| && s[|s| - |p|..] == p
  }

  /** `s.includes(p)`: some position of `s` begins with `p`. */
  predicate Contains(s: string, p: string)
    decreases |s|
  {
    p <= s || (s != [] && Contains(s[1..], p))
  }

  /**
   * `s.replace(/p/g, '')` for a literal, non-empty pattern: scanning left to right, every
   * occurrence that starts where the scan stands is deleted and the scan resumes after it.
   */
  function RemoveAll(s: string, p: string): (r: string)
    requires p != []
    ensures |r| <= |s|
    decreases |s|
  {
    if s == [] then []
    else if p <= s then RemoveAll(s[|p|..], p)
    else [s[0]] + RemoveAll(s[1..], p)
  }

  /** A pattern found at some position is found by `includes`. */
  lemma {:induction false} ContainsAt(s: string, p: string, i: nat)
    requires i + |p| <= |s| && s[i..i + |p|] == p
    ensures Contains(s, p)
    decreases i
  {
    if i == 0 {
      assert s[..|p|] == p;
    } else {
      ContainsAt(s[1..], p, i - 1);
      assert s[1..][i - 1..i - 1 + |p|] == s[i..i + |p|];
    }
  }

  /** Whatever is spliced into the middle of a text is included in it. */
  lemma ContainsInfix(a: string, b: string, c: string)
    ensures Contains(a + b + c, b)
  {
    assert (a + b + c)[|a|..|a| + |b|] == b;
    ContainsAt(a + b + c, b, |a|);
  }

  /** A position at which an included pattern occurs. */
  lemma {:induction false} ContainsWitness(s: string, p: string) returns (k: nat)
    requires Contains(s, p)
    ensures k + |p| <= |s| && s[k..k + |p|] == p
    decreases |s|
  {
    if p <= s {
      k := 0;
    } else {
      var j := ContainsWitness(s[1..], p);
      k := j + 1;
      assert s[k..k + |p|] == s[1..][j..j + |p|];
    }
  }

  /** What a piece of a text includes, the text includes. */
  lemma InfixContains(s: string, i: nat, j: nat, p: string)
    requires i <= j <= |s|
    ensures Contains(s[i..j], p) ==> Contains(s, p)
  {
    if Contains(s[i..j], p) {
      var k := ContainsWitness(s[i..j], p);
      assert k + |p| <= j - i;
      forall m | 0 <= m < |p|
        ensures s[i + k + m] == p[m]
      {
        assert s[i..j][k..k + |p|][m] == p[m];
      }
      assert s[i + k..i + k + |p|] == p;
      ContainsAt(s, p, i + k);
    }
  }

  /** Removing a three-character run that cannot recur: no occurrence survives. */
  lemma {:induction false} RemoveAllFenceLeavesNone(s: string)
    ensures !Contains(RemoveAll(s, "```"), "```")
    decreases |s|
  {
    var p := "```";
    if s == [] {
    } else if p <= s {
      RemoveAllFenceLeavesNone(s[3..]);
    } else {
      var rest := RemoveAll(s[1..], p);
      RemoveAllFenceLeavesNone(s[1..]);
      assert RemoveAll(s, p) == [s[0]] + rest;
      if s[0] == '`' {
        RemoveAllKeepsNoDoubleTick(s[1..]);
      }
      assert ([s[0]] + rest)[1..] == rest;
    }
  }

  /** A text that does not start with two backticks keeps that after fence removal. */
  lemma RemoveAllKeepsNoDoubleTick(t: string)
    requires !("``" <= t)
    ensures !("``" <= RemoveAll(t, "```"))
  {
    var p := "```";
    if t != [] {
      assert !(p <= t);
      assert RemoveAll(t, p) == [t[0]] + RemoveAll(t[1..], p);
      if t[0] == '`' {
        var u := t[1..];
        if u != [] {
          assert u[0] != '`';
          assert !(p <= u);
          assert RemoveAll(u, p) == [u[0]] + RemoveAll(u[1..], p);
        }
      }
    }
  }

  /** A pattern that does not occur is not removed: the text comes back unchanged. */
  lemma {:induction false} RemoveAllAbsent(s: string, p: string)
    requires p != []
    ensures !Contains(s, p) ==> RemoveAll(s, p) == s
    decreases |s|
  {
    if s != [] && !Contains(s, p) {
      RemoveAllAbsent(s[1..], p);
      assert [s[0]] + s[1..] == s;
    }
  }

  /** A text that includes "```json" includes "```". */
  lemma JsonFenceHasFence(s: string)
    ensures Contains(s, "```json") ==> Contains(s, "```")
  {
    if Contains(s, "```json") {
      var k := ContainsWitness(s, "```json");
      assert s[k..k + 3] == s[k..k + 7][..3];
      ContainsAt(s, "```", k);
    }
  }

  /** A closing fence after a fence-free text cannot complete a "```json". */
  lemma ClosingFenceNoJsonFence(t: string)
    requires !Contains(t, "```")
    ensures !Contains(t + "```", "```json")
  {
    var u := t + "```";
    if Contains(u, "```json") {
      var k := ContainsWitness(u, "```json");
      assert k + 3 <= |t|;
      assert t[k..k + 3] == u[k..k + 3] == u[k..k + 7][..3];
      ContainsAt(t, "```", k);
    }
  }

  /** Removing fences from a fence-free text followed by a closing fence leaves the text. */
  lemma {:induction false} RemoveClosingFence(t: string)
    requires !Contains(t, "```")
    ensures RemoveAll(t + "```", "```") == t
    decreases |t|
  {
    var p := "```";
    var u := t + p;
    if t == [] {
      assert u == p && u[3..] == [];
    } else if |t| < 3 && p <= u {
      if |t| == 1 {
        assert u[3..] == "`" == t;
        assert RemoveAll(t, p) == [t[0]] + RemoveAll(t[1..], p);
      } else {
        assert u[3..] == "``" == t;
        assert RemoveAll(t, p) == [t[0]] + RemoveAll(t[1..], p);
        assert RemoveAll(t[1..], p) == [t[1]] + RemoveAll(t[2..], p);
      }
    } else {
      assert !(p <= t) && !Contains(t[1..], p);
      RemoveClosingFence(t[1..]);
      assert u[1..] == t[1..] + p;
      assert [t[0]] + t[1..] == t;
    }
  }

  /** The characters `String.prototype.trim` removes: ECMAScript WhiteSpace and LineTerminator. */
  predicate IsJsWhitespace(c: char) {
    c == '\t' || c == '\n' || c == '\U{B}' || c == '\U{C}' || c == '\r' || c == ' ' ||
    c == '\U{A0}' || c == '\U{1680}' || ('\U{2000}' <= c <= '\U{200A}') ||
    c == '\U{2028}' || c == '\U{2029}' || c == '\U{202F}' || c == '\U{205F}' ||
    c == '\U{3000}' || c == '\U{FEFF}'
  }

  /** Leading whitespace removed. */
  function TrimStart(s: string): (r: string)
    ensures |r| <= |s| && r == s[|s| - |r|..]
    ensures r == [] || !IsJsWhitespace(r[0])
    ensures forall i :: 0 <= i < |s| - |r| ==> IsJsWhitespace(s[i])
  {
    if s != [] && IsJsWhitespace(s[0]) then TrimStart(s[1..]) else s
  }

  /** Trailing whitespace removed. */
  function TrimEnd(s: string): (r: string)
    ensures r <= s
    ensures r == [] || !IsJsWhitespace(r[|r| - 1])
    ensures forall i :: |r| <= i < |s| ==> IsJsWhitespace(s[i])
  {
    if s != [] && IsJsWhitespace(s[|s| - 1]) then TrimEnd(s[..|s| - 1]) else s
  }

  /** `s.trim()`. */
  function Trim(s: string): (r: string)
    ensures r == [] || (!IsJsWhitespace(r[0]) && !IsJsWhitespace(r[|r| - 1]))
  {
    TrimEnd(TrimStart(s))
  }

  /** A trimmed text is a contiguous piece of the original. */
  lemma TrimIsInfix(s: string) returns (i: nat, j: nat)
    ensures i <= j <= |s| && Trim(s) == s[i..j]
  {
    var a := TrimStart(s);
    var b := TrimEnd(a);
    i, j := |s| - |a|, |s| - |a| + |b|;
    assert b == a[..|b|];
  }

  /** Trimming never introduces an occurrence of a pattern. */
  lemma TrimKeepsAbsent(s: string, p: string)
    ensures !Contains(s, p) ==> !Contains(Trim(s), p)
  {
    var i, j := TrimIsInfix(s);
    InfixContains(s, i, j, p);
  }

  /** `s.split(c)` for a one-character separator: the maximal pieces between separators. */
  function Split(s: string, c: char): (parts: seq<string>)
    ensures |parts| >= 1
    ensures forall i :: 0 <= i < |parts| ==> c !in parts[i]
    decreases |s|
  {
    if s == [] then [[]]
    else
      var rest := Split(s[1..], c);
      if s[0] == c then [[]] + rest
      else [[s[0]] + rest[0]] + rest[1..]
  }

  /** `parts.join(sep)`. */
  function Join(parts: seq<string>, sep: string): string {
    if parts == [] then []
    else if |parts| == 1 then parts[0]
    else parts[0] + sep + Join(parts[1..], sep)
  }

  /** Splitting and re-joining on the same separator gives the string back. */
  lemma {:induction false} JoinSplit(s: string, c: char)
    ensures Join(Split(s, c), [c]) == s
    decreases |s|
  {
    if s != [] {
      var rest := Split(s[1..], c);
      JoinSplit(s[1..], c);
      if s[0] == c {
        assert Split(s, c) == [[]] + rest;
        assert Join([[]] + rest, [c]) == [] + [c] + Join(rest, [c]);
        assert s == [s[0]] + s[1..];
      } else {
        var parts := [[s[0]] + rest[0]] + rest[1..];
        assert Split(s, c) == parts;
        if |rest| == 1 {
          assert Join(rest, [c]) == rest[0];
          assert Join(parts, [c]) == [s[0]] + rest[0];
        } else {
          assert rest == [rest[0]] + rest[1..];
          assert Join(rest, [c]) == rest[0] + [c] + Join(rest[1..], [c]);
          assert Join(parts, [c]) == [s[0]] + rest[0] + [c] + Join(rest[1..], [c]);
        }
        assert s == [s[0]] + s[1..];
      }
    }
  }

  /** A piece free of the separator, followed by the separator, splits off as one part. */
  lemma {:induction false} SplitAfterPiece(a: string, c: char, b: string)
    requires c !in a
    ensures Split(a + [c] + b, c) == [a] + Split(b, c)
    decreases |a|
  {
    if a == [] {
      assert a + [c] + b == [c] + b;
      assert ([c] + b)[1..] == b;
    } else {
      SplitAfterPiece(a[1..], c, b);
      assert (a + [c] + b)[1..] == a[1..] + [c] + b;
      assert [a[0]] + a[1..] == a;
    }
  }

  /** A string free of the separator splits into itself alone. */
  lemma {:induction false} SplitWhole(a: string, c: char)
    requires c !in a
    ensures Split(a, c) == [a]
    decreases |a|
  {
    if a != [] {
      SplitWhole(a[1..], c);
      assert [a[0]] + a[1..] == a;
    }
  }

  /** `.filter(Boolean)` on a list of strings: the non-empty ones, in order. */
  function NonEmpty(parts: seq<string>): (r: seq<string>)
    ensures |r| <= |parts|
    ensures forall i :: 0 <= i < |r| ==> r[i] != [] && r[i] in parts
  {
    if parts == [] then []
    else if parts[0] == [] then NonEmpty(parts[1..])
    else [parts[0]] + NonEmpty(parts[1..])
  }

  /** Decimal digits of a non-negative integer, as `${n}` renders it. */
  function NatToString(n: nat): (r: string)
    ensures r != []
    ensures forall i :: 0 <= i < |r| ==> '0' <= r[i] <= '9'
    decreases n
  {
    var d := [(('0' as int) + n % 10) as char];
    if n < 10 then d else NatToString(n / 10) + d
  }

  /** `${n}` for an integer of either sign. */
  function IntToString(n: int): string {
    if n < 0 then "-" + NatToString(-n) else NatToString(n)
  }
}
