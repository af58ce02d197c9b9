/** The few string operations of JavaScript that the pages rely on, on `seq<char>`. */
module Strings {

  /** ASCII lower-casing of one character. */
  function LowerChar(c: char): char
  {
    if 'A' <= c <= 'Z' then (c as int + 32) as char else c
  }

  /** `String.prototype.toLowerCase` restricted to the ASCII letters. */
  function ToLower(s: string): string
  {
    if s == [] then [] else [LowerChar(s[0])] + ToLower(s[1..])
  }

  /** Lower-casing maps each character on its own and leaves no upper-case letter. */
  lemma {:induction false} ToLowerSpec(s: string)
    ensures |ToLower(s)| == |s|
    ensures forall i :: 0 <= i < |s| ==> ToLower(s)[i] == LowerChar(s[i])
    ensures forall i :: 0 <= i < |s| ==> !('A' <= ToLower(s)[i] <= 'Z')
  {
    if s != [] {
      ToLowerSpec(s[1..]);
      assert forall i :: 1 <= i < |s| ==> ToLower(s)[i] == ToLower(s[1..])[i - 1];
    }
  }

  /** Lower-casing twice is lower-casing once. */
  lemma ToLowerIdempotent(s: string)
    ensures ToLower(ToLower(s)) == ToLower(s)
  {
    var t := ToLower(s);
    ToLowerSpec(s);
    ToLowerSpec(t);
    assert ToLower(t) == t;
  }

  /** Lower-casing one character in front of the rest. */
  lemma LowerCons(s: string, c: char, rest: string)
    requires s == [c] + rest
    ensures ToLower(s) == [LowerChar(c)] + ToLower(rest)
  {
    assert s[1..] == rest;
  }

  /** Lower-casing works piecewise over a concatenation. */
  lemma {:induction false} LowerParts(a: string, b: string)
    ensures ToLower(a + b) == ToLower(a) + ToLower(b)
  {
    if a != [] {
      assert (a + b)[1..] == a[1..] + b;
      LowerParts(a[1..], b);
    } else {
      assert a + b == b;
    }
  }

  /** Lower-casing two words around a space lower-cases each word and keeps the space. */
  lemma LowerAroundSpace(a: string, b: string)
    ensures ToLower(a + ([' '] + b)) == ToLower(a) + [' '] + ToLower(b)
  {
    LowerParts(a, [' '] + b);
    LowerCons([' '] + b, ' ', b);
  }

  /** `needle` occurs in `hay` starting at index `i`. */
  predicate OccursAt(hay: string, needle: string, i: int)
  {
    0 <= i && i + |needle| <= |hay| && hay[i..i + |needle|] == needle
  }

  /** `needle` occurs somewhere in `hay`: the positional definition of a substring. */
  ghost predicate Occurs(hay: string, needle: string)
  {
    exists i :: OccursAt(hay, needle, i)
  }

  /** `String.prototype.includes`: `needle` is a prefix of some suffix of `hay`. */
  predicate Includes(hay: string, needle: string)
  {
    needle <= hay || (hay != [] && Includes(hay[1..], needle))
  }

  /** `Includes` agrees with the positional definition of a substring. */
  lemma {:induction false} IncludesIffOccurs(hay: string, needle: string)
    ensures Includes(hay, needle) <==> Occurs(hay, needle)
  {
    if needle <= hay {
      assert hay[0..|needle|] == needle;
      assert OccursAt(hay, needle, 0);
    } else if hay == [] {
      assert needle != [];
      forall i ensures !OccursAt(hay, needle, i) {}
    } else {
      IncludesIffOccurs(hay[1..], needle);
      forall j | OccursAt(hay[1..], needle, j) ensures OccursAt(hay, needle, j + 1) {
        assert hay[1..][j..j + |needle|] == hay[j + 1..j + 1 + |needle|];
      }
      forall i | OccursAt(hay, needle, i) ensures i == 0 || OccursAt(hay[1..], needle, i - 1) {
        if i > 0 {
          assert hay[1..][i - 1..i - 1 + |needle|] == hay[i..i + |needle|];
        }
      }
    }
  }

  /** The empty search term occurs in every text. */
  lemma IncludesEmpty(hay: string)
    ensures Includes(hay, [])
  {
  }

  /** The index of the first `c` in `s`, or `|s|` when there is none. */
  function FirstIndex(s: string, c: char): (k: nat)
    ensures k <= |s|
    ensures k < |s| ==> s[k] == c
    ensures forall j :: 0 <= j < k ==> s[j] != c
    ensures k == |s| <==> c !in s
  {
    if s == [] then 0 else if s[0] == c then 0 else 1 + FirstIndex(s[1..], c)
  }

  /** `s.replace(c, rep)` with a one-character string pattern: only the first
      occurrence of `c` is replaced. */
  function ReplaceFirst(s: string, c: char, rep: string): string
  {
    if s == [] then []
    else if s[0] == c then rep + s[1..]
    else [s[0]] + ReplaceFirst(s[1..], c, rep)
  }

  /** Replacing changes nothing when `c` is absent, and otherwise splices `rep` in
      place of the first `c` and keeps everything around it. */
  lemma ReplaceFirstSpec(s: string, c: char, rep: string)
    ensures c !in s ==> ReplaceFirst(s, c, rep) == s
    ensures c in s ==> ReplaceFirst(s, c, rep) == s[..FirstIndex(s, c)] + rep + s[FirstIndex(s, c) + 1..]
  {
    if c in s {
      var k := FirstIndex(s, c);
      assert s == s[..k] + [c] + s[k + 1..];
      ReplaceFirstAfter(s[..k], c, s[k + 1..], rep);
    } else {
      ReplaceFirstAbsent(s, c, rep);
    }
  }

  /** Without a `c`, replacing the first `c` changes nothing. */
  lemma {:induction false} ReplaceFirstAbsent(s: string, c: char, rep: string)
    requires c !in s
    ensures ReplaceFirst(s, c, rep) == s
  {
    if s != [] {
      assert s[0] != c && c !in s[1..];
      ReplaceFirstAbsent(s[1..], c, rep);
    }
  }

  /** Replacing the first `a` by `b` and then the first `b` by `a` restores any
      text in which `b` does not occur. */
  lemma {:induction false} ReplaceFirstRoundTrip(s: string, a: char, b: char)
    requires a != b && b !in s
    ensures ReplaceFirst(ReplaceFirst(s, a, [b]), b, [a]) == s
  {
    if s != [] && s[0] != a {
      ReplaceFirstRoundTrip(s[1..], a, b);
      assert ReplaceFirst(s, a, [b]) == [s[0]] + ReplaceFirst(s[1..], a, [b]);
    }
  }

  /** In `a + [c] + b` with no `c` in `a`, the first `c` is the one after `a`. */
  lemma {:induction false} ReplaceFirstAfter(a: string, c: char, b: string, rep: string)
    requires c !in a
    ensures ReplaceFirst(a + [c] + b, c, rep) == a + rep + b
  {
    if a != [] {
      assert (a + [c] + b)[1..] == a[1..] + [c] + b;
      ReplaceFirstAfter(a[1..], c, b, rep);
      assert [a[0]] + (a[1..] + rep + b) == a + rep + b;
    } else {
      assert a + [c] + b == [c] + b;
    }
  }

  /** `s.split(c)[0]`: the text before the first `c`, or all of `s`. */
  function BeforeFirst(s: string, c: char): (r: string)
    ensures r <= s
    ensures c !in r
    ensures r == s || s[|r|] == c
  {
    s[..FirstIndex(s, c)]
  }

  /** In `a + [c] + b` with no `c` in `a`, the text before the first `c` is `a`. */
  lemma BeforeFirstAfter(a: string, c: char, b: string)
    requires c !in a
    ensures BeforeFirst(a + [c] + b, c) == a
  {
    var s := a + [c] + b;
    var k := FirstIndex(s, c);
    assert s[|a|] == c;
    assert forall j :: 0 <= j < |a| ==> s[j] == a[j];
    assert k == |a|;
    assert s[..|a|] == a;
  }
}
