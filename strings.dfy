/**
 * String helpers shared by the Go back end and the TypeScript front end.
 * Lowercasing is ASCII lowercasing; substring search, field splitting and
 * joining follow `strings.Contains`/`String.prototype.includes`,
 * `String.prototype.split` and `strings.Join`.
 */
module Strings {

  predicate IsAsciiUpper(c: char) { 'A' <= c <= 'Z' }
  predicate IsAsciiLower(c: char) { 'a' <= c <= 'z' }
  predicate IsAsciiDigit(c: char) { '0' <= c <= '9' }
  predicate IsAsciiAlnum(c: char) { IsAsciiUpper(c) || IsAsciiLower(c) || IsAsciiDigit(c) }

  function LowerChar(c: char): (r: char)
    ensures IsAsciiUpper(c) ==> IsAsciiLower(r)
    ensures !IsAsciiUpper(c) ==> r == c
    ensures IsAsciiAlnum(c) <==> IsAsciiAlnum(r)
  {
    if IsAsciiUpper(c) then (c as int + 32) as char else c
  }

  /** ASCII lowercasing, character by character. */
  function Lower(s: string): (r: string)
    ensures |r| == |s|
    ensures forall i :: 0 <= i < |s| ==> r[i] == LowerChar(s[i])
  {
    if s == [] then [] else [LowerChar(s[0])] + Lower(s[1..])
  }

  lemma LowerAppend(a: string, b: string)
    ensures Lower(a + b) == Lower(a) + Lower(b)
  {
    var l, r := Lower(a + b), Lower(a) + Lower(b);
    assert |l| == |r|;
    forall i | 0 <= i < |l| ensures l[i] == r[i] {
      if i < |a| {
        assert (a + b)[i] == a[i] && r[i] == Lower(a)[i];
      } else {
        assert (a + b)[i] == b[i - |a|] && r[i] == Lower(b)[i - |a|];
      }
    }
  }

  /** `s` has no ASCII upper-case letter, so lowering leaves it alone. */
  lemma LowerIdentity(s: string)
    requires forall i :: 0 <= i < |s| ==> !IsAsciiUpper(s[i])
    ensures Lower(s) == s
  {
  }

  // ---------------------------------------------------------------- substrings

  predicate OccursAt(s: string, sub: string, i: nat)
  {
    i + |sub| <= |s| && s[i..i + |sub|] == sub
  }

  /** Substring test: Go `strings.Contains`, JavaScript `includes`. */
  function Contains(s: string, sub: string): (b: bool)
    decreases |s|
  {
    if |sub| > |s| then false
    else if sub <= s then true
    else Contains(s[1..], sub)
  }

  lemma {:induction false} ContainsAt(s: string, sub: string, i: nat)
    requires OccursAt(s, sub, i)
    ensures Contains(s, sub)
    decreases i
  {
    if i == 0 {
      assert s[..|sub|] == sub;
    } else if !(sub <= s) {
      assert s[1..][i - 1..i - 1 + |sub|] == s[i..i + |sub|];
      ContainsAt(s[1..], sub, i - 1);
    }
  }

  lemma {:induction false} ContainsWitness(s: string, sub: string) returns (i: nat)
    requires Contains(s, sub)
    ensures OccursAt(s, sub, i)
    decreases |s|
  {
    if sub <= s {
      i := 0;
    } else {
      var j := ContainsWitness(s[1..], sub);
      assert s[1..][j..j + |sub|] == s[j + 1..j + 1 + |sub|];
      i := j + 1;
    }
  }

  /** The empty string occurs in every string. */
  lemma ContainsEmpty(s: string)
    ensures Contains(s, "")
  {
    ContainsAt(s, "", 0);
  }

  lemma OccursShift(s: string, sep: string, j: nat)
    requires s != []
    ensures OccursAt(s, sep, j + 1) <==> OccursAt(s[1..], sep, j)
  {
    if j + 1 + |sep| <= |s| {
      assert s[j + 1..j + 1 + |sep|] == s[1..][j..j + |sep|];
    }
  }

  /** The text of `s` up to the first occurrence of `sep`, or all of `s` when there is none. */
  function BeforeFirst(s: string, sep: string): (r: string)
    requires sep != ""
    ensures r <= s
    ensures |r| == |s| || OccursAt(s, sep, |r|)
    ensures forall j :: 0 <= j < |r| ==> !OccursAt(s, sep, j)
  {
    if s == [] || OccursAt(s, sep, 0) then []
    else
      var t := BeforeFirst(s[1..], sep);
      OccursShift(s, sep, |t|);
      assert forall j :: 0 <= j < |t| + 1 ==> !OccursAt(s, sep, j) by {
        forall j | 0 <= j < |t| + 1 ensures !OccursAt(s, sep, j) {
          if j > 0 {
            OccursShift(s, sep, j - 1);
          }
        }
      }
      [s[0]] + t
  }

  /**
   * The text JavaScript's `replace` puts in place of a match of a string
   * pattern: the replacement with its `$` patterns expanded, as the
   * GetSubstitution operation of ECMA-262 (section 22.1.3.19.1 of the 2023
   * edition) does. "$$" is one "$", "$&" the match, "$`" the text before the
   * match and "$'" the text after it; a string pattern has no captures, so
   * every other "$" stays as it is.
   */
  function Substitution(rep: string, matched: string, before: string, after: string): (r: string)
    decreases |rep|
  {
    if rep == [] then []
    else if rep[0] == '$' && |rep| >= 2 && rep[1] == '$' then "$" + Substitution(rep[2..], matched, before, after)
    else if rep[0] == '$' && |rep| >= 2 && rep[1] == '&' then matched + Substitution(rep[2..], matched, before, after)
    else if rep[0] == '$' && |rep| >= 2 && rep[1] == '`' then before + Substitution(rep[2..], matched, before, after)
    else if rep[0] == '$' && |rep| >= 2 && rep[1] == '\'' then after + Substitution(rep[2..], matched, before, after)
    else [rep[0]] + Substitution(rep[1..], matched, before, after)
  }

  /** A replacement without a "$" is inserted as it is. */
  lemma {:induction false} SubstitutionPlain(rep: string, matched: string, before: string, after: string)
    requires '$' !in rep
    ensures Substitution(rep, matched, before, after) == rep
    decreases |rep|
  {
    if rep != [] {
      assert '$' !in rep[1..];
      SubstitutionPlain(rep[1..], matched, before, after);
    }
  }

  /** Each of the four two-character patterns on its own, and a lone "$". */
  lemma SubstitutionPatterns(matched: string, before: string, after: string)
    ensures Substitution("$$", matched, before, after) == "$"
    ensures Substitution("$&", matched, before, after) == matched
    ensures Substitution("$`", matched, before, after) == before
    ensures Substitution("$'", matched, before, after) == after
    ensures Substitution("$", matched, before, after) == "$"
  {
    assert "$$"[2..] == [] && "$&"[2..] == [] && "$`"[2..] == [] && "$'"[2..] == [] && "$"[1..] == [];
  }

  /** JavaScript `s.replace(pat, rep)` with a string pattern: only the first occurrence is replaced. */
  function ReplaceFirst(s: string, pat: string, rep: string): (r: string)
    requires pat != ""
    ensures !Contains(s, pat) ==> r == s
    ensures Contains(s, pat) ==>
      var i := |BeforeFirst(s, pat)|;
      OccursAt(s, pat, i) && r == s[..i] + Substitution(rep, pat, s[..i], s[i + |pat|..]) + s[i + |pat|..]
  {
    var before := BeforeFirst(s, pat);
    if |before| == |s| then
      assert !Contains(s, pat) by {
        if Contains(s, pat) {
          var i := ContainsWitness(s, pat);
          assert false;
        }
      }
      s
    else
      ContainsAt(s, pat, |before|);
      var i := |before|;
      s[..i] + Substitution(rep, pat, s[..i], s[i + |pat|..]) + s[i + |pat|..]
  }

  /** When the pattern's first character is absent from `a`, the occurrence right after `a` is the one replaced. */
  lemma ReplaceFirstAfter(a: string, pat: string, b: string, rep: string)
    requires pat != "" && pat[0] !in a
    ensures ReplaceFirst(a + pat + b, pat, rep) == a + Substitution(rep, pat, a, b) + b
  {
    var s := a + pat + b;
    assert OccursAt(s, pat, |a|) by {
      assert s[|a|..|a| + |pat|] == pat;
    }
    ContainsAt(s, pat, |a|);
    var r := BeforeFirst(s, pat);
    if |r| < |a| {
      assert false;
    }
    assert |r| == |a|;
    assert s[..|a|] == a;
    assert s[|a| + |pat|..] == b;
  }

  /** An occurrence inside a suffix is an occurrence in the whole. */
  lemma ContainsInSuffix(a: string, b: string, sub: string)
    requires Contains(b, sub)
    ensures Contains(a + b, sub)
  {
    var j := ContainsWitness(b, sub);
    assert (a + b)[|a| + j..|a| + j + |sub|] == b[j..j + |sub|];
    ContainsAt(a + b, sub, |a| + j);
  }

  /** An occurrence inside a prefix is an occurrence in the whole. */
  lemma ContainsInPrefix(a: string, b: string, sub: string)
    requires Contains(a, sub)
    ensures Contains(a + b, sub)
  {
    var j := ContainsWitness(a, sub);
    assert (a + b)[j..j + |sub|] == a[j..j + |sub|];
    ContainsAt(a + b, sub, j);
  }

  /** A single character occurs only where it is. */
  lemma ContainsChar(s: string, c: char)
    ensures Contains(s, [c]) <==> c in s
  {
    if Contains(s, [c]) {
      var j := ContainsWitness(s, [c]);
      assert s[j] == c;
    }
    if c in s {
      var j :| 0 <= j < |s| && s[j] == c;
      assert s[j..j + 1] == [c];
      ContainsAt(s, [c], j);
    }
  }

  /** A prefix stays a prefix when more is written after the text. */
  lemma PrefixExtend(a: string, b: string, x: string)
    requires a <= b
    ensures a <= b + x
  {
    assert (b + x)[..|a|] == b[..|a|];
  }

  /** `t` is a suffix of `s`. */
  predicate EndsWith(s: string, t: string)
  {
    |t| <= |s| && s[|s| - |t|..] == t
  }

  /** The last two pieces of a three-piece concatenation form its tail. */
  lemma SuffixSplit(y: string, g: string, q: string)
    ensures |y + g + q| - |g + q| == |y|
    ensures (y + g + q)[|y|..] == g + q
  {
    assert y + g + q == y + (g + q);
  }

  // ----------------------------------------------------------- split and join

  /**
   * JavaScript `s.split(d)` for a one-character separator: the fields between
   * separators, empty fields included; an empty string gives one empty field.
   */
  function Split(s: string, d: char): (r: seq<string>)
    ensures |r| >= 1
    decreases |s|
  {
    if s == [] then [""]
    else
      var rest := Split(s[1..], d);
      if s[0] == d then [""] + rest else [[s[0]] + rest[0]] + rest[1..]
  }

  /** The inverse of Split: fields glued back with the separator between them. */
  function Join(parts: seq<string>, d: char): string
  {
    if |parts| <= 1 then (if parts == [] then "" else parts[0])
    else parts[0] + [d] + Join(parts[1..], d)
  }

  /** The number of separators in `s`. */
  function CountChar(s: string, d: char): nat
  {
    if s == [] then 0 else (if s[0] == d then 1 else 0) + CountChar(s[1..], d)
  }

  lemma {:induction false} JoinSplit(s: string, d: char)
    ensures Join(Split(s, d), d) == s
    decreases |s|
  {
    if s != [] {
      var rest := Split(s[1..], d);
      JoinSplit(s[1..], d);
      if s[0] == d {
        assert Split(s, d) == [""] + rest;
        assert ([""] + rest)[1..] == rest;
        assert s == [d] + s[1..];
      } else {
        var parts := Split(s, d);
        assert parts == [[s[0]] + rest[0]] + rest[1..];
        if |rest| == 1 {
          assert s == [s[0]] + s[1..];
        } else {
          assert parts[1..] == rest[1..];
          assert Join(rest, d) == rest[0] + [d] + Join(rest[1..], d);
          assert s == [s[0]] + s[1..];
        }
      }
    }
  }

  lemma {:induction false} SplitFieldsFree(s: string, d: char)
    ensures forall k :: 0 <= k < |Split(s, d)| ==> d !in Split(s, d)[k]
    decreases |s|
  {
    if s != [] {
      SplitFieldsFree(s[1..], d);
    }
  }

  lemma {:induction false} SplitLength(s: string, d: char)
    ensures |Split(s, d)| == CountChar(s, d) + 1
    decreases |s|
  {
    if s != [] {
      SplitLength(s[1..], d);
    }
  }

  /** Go `strings.Join(parts, sep)`. */
  function JoinWith(parts: seq<string>, sep: string): (r: string)
    ensures parts == [] ==> r == ""
    ensures |parts| == 1 ==> r == parts[0]
  {
    if parts == [] then ""
    else if |parts| == 1 then parts[0]
    else parts[0] + sep + JoinWith(parts[1..], sep)
  }

  // -------------------------------------------------------- decimal rendering

  function DigitChar(d: nat): (c: char)
    requires d < 10
    ensures IsAsciiDigit(c)
  {
    "0123456789"[d]
  }

  /** Decimal digits of `n` without leading zeros (`%d`, `${n}`). */
  function NatToDecimal(n: nat): (r: string)
    ensures |r| >= 1
    ensures forall i :: 0 <= i < |r| ==> IsAsciiDigit(r[i])
    decreases n
  {
    if n < 10 then [DigitChar(n)] else NatToDecimal(n / 10) + [DigitChar(n % 10)]
  }

  function IntToDecimal(n: int): (r: string)
    ensures |r| >= 1
  {
    if n < 0 then "-" + NatToDecimal(-n) else NatToDecimal(n)
  }

  // ------------------------------------------------------------------ UTF-8

  /** Bytes of one Unicode scalar value in UTF-8. */
  function Utf8Width(c: char): (w: nat)
    ensures 1 <= w <= 4
  {
    if c as int < 0x80 then 1
    else if c as int < 0x800 then 2
    else if c as int < 0x10000 then 3
    else 4
  }

  /** Go's `len(s)`: the number of bytes of `s` in UTF-8. */
  function Utf8Length(s: string): (n: nat)
    ensures |s| <= n <= 4 * |s|
  {
    if s == [] then 0 else Utf8Width(s[0]) + Utf8Length(s[1..])
  }

  // ----------------------------------------------------------------- UTF-16

  /** JavaScript's `length`: UTF-16 code units, two for a character outside the Basic Multilingual Plane. */
  function Utf16Length(s: string): (n: nat)
    ensures |s| <= n <= 2 * |s|
    ensures (forall i :: 0 <= i < |s| ==> (s[i] as int) < 0x10000) ==> n == |s|
  {
    if s == [] then 0 else (if s[0] as int < 0x10000 then 1 else 2) + Utf16Length(s[1..])
  }
}
