/**
 * What the two slug generators have in common (the Go one in
 * backend/internal/api/handlers.go and the TypeScript one in
 * app/api/companions/custom/route.ts): the slug alphabet [a-z0-9-], dropping
 * other characters, collapsing runs of '-', and trimming '-' at the ends.
 */
module Slugs {
  import opened Strings

  predicate IsSlugChar(c: char) { IsAsciiLower(c) || IsAsciiDigit(c) || c == '-' }

  predicate IsSlugAlnum(c: char) { IsAsciiLower(c) || IsAsciiDigit(c) }

  predicate InAlphabet(s: string)
  {
    forall i :: 0 <= i < |s| ==> IsSlugChar(s[i])
  }

  predicate NoDoubleDash(s: string)
  {
    forall i :: 0 <= i < |s| - 1 ==> !(s[i] == '-' && s[i + 1] == '-')
  }

  /** Only [a-z0-9-], no "--", and no '-' at either end. */
  predicate WellFormed(s: string)
  {
    InAlphabet(s) && NoDoubleDash(s) && (|s| > 0 ==> s[0] != '-' && s[|s| - 1] != '-')
  }

  /** The letters and digits of `s`, in order: what a slug keeps of a name. */
  function Alnums(s: string): string
  {
    if s == [] then [] else (if IsSlugAlnum(s[0]) then [s[0]] else []) + Alnums(s[1..])
  }

  lemma {:induction false} AlnumsAppend(a: string, b: string)
    ensures Alnums(a + b) == Alnums(a) + Alnums(b)
  {
    if a != [] {
      assert (a + b)[1..] == a[1..] + b;
      AlnumsAppend(a[1..], b);
    } else {
      assert a + b == b;
    }
  }

  /** A well-formed slug is empty exactly when it holds no letter or digit. */
  lemma WellFormedEmpty(s: string)
    requires WellFormed(s)
    ensures s == "" <==> Alnums(s) == ""
  {
    if s != "" {
      assert IsSlugAlnum(s[0]);
    }
  }

  /** Removing every character outside [a-z0-9-], left to right. */
  function KeepSlugChars(s: string): (r: string)
    ensures InAlphabet(r)
    ensures InAlphabet(s) ==> r == s
  {
    if s == [] then []
    else KeepSlugChars(s[..|s| - 1]) + (if IsSlugChar(s[|s| - 1]) then [s[|s| - 1]] else [])
  }

  lemma {:induction false} KeepSlugCharsAlnums(s: string)
    ensures Alnums(KeepSlugChars(s)) == Alnums(s)
  {
    if s != [] {
      var init, last := s[..|s| - 1], s[|s| - 1];
      assert s == init + [last];
      KeepSlugCharsAlnums(init);
      AlnumsAppend(init, [last]);
      AlnumsAppend(KeepSlugChars(init), if IsSlugChar(last) then [last] else []);
    }
  }

  // ------------------------------------------------------------ dash runs

  /** `s` with every run of '-' shortened to a single '-'. */
  function Squeeze(s: string): (r: string)
    ensures |r| <= |s|
    ensures |s| > 0 ==> |r| > 0 && r[0] == s[0] && r[|r| - 1] == s[|s| - 1]
    ensures forall i :: 0 <= i < |r| ==> r[i] in s
    ensures NoDoubleDash(r)
  {
    if |s| < 2 then s
    else if s[0] == '-' && s[1] == '-' then Squeeze(s[1..])
    else [s[0]] + Squeeze(s[1..])
  }

  lemma SqueezeCons(c: char, x: string)
    ensures Squeeze([c] + x) ==
              if x == [] then [c] else if c == '-' && x[0] == '-' then Squeeze(x) else [c] + Squeeze(x)
  {
    assert ([c] + x)[1..] == x;
  }

  lemma SqueezeInAlphabet(s: string)
    requires InAlphabet(s)
    ensures InAlphabet(Squeeze(s))
  {
    var r := Squeeze(s);
    forall i | 0 <= i < |r| ensures IsSlugChar(r[i]) {
      var j :| 0 <= j < |s| && s[j] == r[i];
    }
  }

  /** Squeezing leaves a string without "--" as it is. */
  lemma {:induction false} SqueezeIdentity(s: string)
    requires NoDoubleDash(s)
    ensures Squeeze(s) == s
  {
    if |s| >= 2 {
      SqueezeIdentity(s[1..]);
    }
  }

  /** Squeezing only removes dashes. */
  lemma {:induction false} SqueezeAlnums(s: string)
    ensures Alnums(Squeeze(s)) == Alnums(s)
  {
    if |s| >= 2 {
      SqueezeAlnums(s[1..]);
      if !(s[0] == '-' && s[1] == '-') {
        AlnumsAppend([s[0]], Squeeze(s[1..]));
      }
    }
  }

  /** Go's `strings.ReplaceAll(s, "--", "-")`: one left-to-right pass, without overlaps. */
  function ReplaceDoubleDash(s: string): (r: string)
    ensures |r| <= |s|
  {
    if |s| < 2 then s
    else if s[0] == '-' && s[1] == '-' then "-" + ReplaceDoubleDash(s[2..])
    else [s[0]] + ReplaceDoubleDash(s[1..])
  }

  /** A pass shortens any string that holds "--". */
  lemma {:induction false} ReplaceShrinks(s: string)
    requires !NoDoubleDash(s)
    ensures |ReplaceDoubleDash(s)| < |s|
  {
    var i :| 0 <= i < |s| - 1 && s[i] == '-' && s[i + 1] == '-';
    if !(s[0] == '-' && s[1] == '-') {
      assert s[1..][i - 1] == '-' && s[1..][i] == '-';
      ReplaceShrinks(s[1..]);
    }
  }

  /**
   * A pass does not change what squeezing gives, even after a leading
   * character `c`: the loop that repeats the pass while "--" remains ends
   * with the squeezed string.
   */
  lemma {:induction false} ReplaceSqueeze(t: string, c: char)
    ensures Squeeze(ReplaceDoubleDash(t)) == Squeeze(t)
    ensures Squeeze([c] + ReplaceDoubleDash(t)) == Squeeze([c] + t)
    decreases |t|
  {
    if |t| < 2 {
    } else if t[0] == '-' && t[1] == '-' {
      var u := t[2..];
      assert t == "--" + u && t[1..] == "-" + u;
      assert ReplaceDoubleDash(t) == "-" + ReplaceDoubleDash(u);
      ReplaceSqueeze(u, '-');
      SqueezeCons('-', t[1..]);
      SqueezeCons(c, t);
      SqueezeCons(c, ReplaceDoubleDash(t));
    } else {
      var d, u := t[0], t[1..];
      assert t == [d] + u;
      assert ReplaceDoubleDash(t) == [d] + ReplaceDoubleDash(u);
      ReplaceSqueeze(u, d);
      SqueezeCons(d, u);
      SqueezeCons(d, ReplaceDoubleDash(u));
      SqueezeCons(c, t);
      SqueezeCons(c, ReplaceDoubleDash(t));
    }
  }

  /** Go's `strings.Contains(s, "--")`. */
  lemma ContainsDoubleDash(s: string)
    ensures Contains(s, "--") <==> !NoDoubleDash(s)
  {
    if Contains(s, "--") {
      var i := ContainsWitness(s, "--");
      assert s[i..i + 2] == "--";
      assert s[i] == '-' && s[i + 1] == '-';
    }
    if !NoDoubleDash(s) {
      var i :| 0 <= i < |s| - 1 && s[i] == '-' && s[i + 1] == '-';
      assert s[i..i + 2] == "--";
      ContainsAt(s, "--", i);
    }
  }

  // ------------------------------------------------------------- trimming

  /** Dropping every leading '-'. */
  function TrimLeft(s: string): (r: string)
    ensures |r| <= |s| && r == s[|s| - |r|..]
    ensures |r| > 0 ==> r[0] != '-'
    ensures Alnums(r) == Alnums(s)
  {
    if |s| > 0 && s[0] == '-' then TrimLeft(s[1..]) else s
  }

  /** Dropping every trailing '-'. */
  function TrimRight(s: string): (r: string)
    ensures |r| <= |s| && r == s[..|r|]
    ensures |r| > 0 ==> r[|r| - 1] != '-'
    ensures Alnums(r) == Alnums(s)
  {
    if |s| > 0 && s[|s| - 1] == '-' then
      assert s == s[..|s| - 1] + ['-'];
      AlnumsAppend(s[..|s| - 1], ['-']);
      TrimRight(s[..|s| - 1])
    else s
  }

  /** Go's `strings.Trim(s, "-")`. */
  function TrimDashes(s: string): (r: string)
    ensures InAlphabet(s) ==> InAlphabet(r)
    ensures NoDoubleDash(s) ==> NoDoubleDash(r)
    ensures |r| > 0 ==> r[0] != '-' && r[|r| - 1] != '-'
    ensures Alnums(r) == Alnums(s)
    ensures |s| > 0 && s[0] != '-' && s[|s| - 1] != '-' ==> r == s
  {
    var l := TrimLeft(s);
    var r := TrimRight(l);
    assert forall i :: 0 <= i < |r| ==> r[i] == s[|s| - |l| + i];
    r
  }
}
