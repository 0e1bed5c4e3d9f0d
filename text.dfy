/** The string operations the list screens use: `toLowerCase` (restricted to
    ASCII), `includes` (substring search) and `Number.prototype.toString`
    for non-negative integers. */
module Text {

  predicate IsUpper(c: char)
  {
    'A' <= c <= 'Z'
  }

  /** ASCII `toLowerCase` of one character. */
  function LowerChar(c: char): (r: char)
    ensures !IsUpper(r)
    ensures IsUpper(c) ==> r as int == c as int + 32
    ensures !IsUpper(c) ==> r == c
  {
    if IsUpper(c) then (c as int + 32) as char else c
  }

  /** ASCII `toLowerCase` of a string. */
  function Lower(s: string): (r: string)
    ensures |r| == |s|
    ensures forall i :: 0 <= i < |s| ==> r[i] == LowerChar(s[i])
  {
    seq(|s|, i requires 0 <= i < |s| => LowerChar(s[i]))
  }

  lemma LowerIdempotent(s: string)
    ensures Lower(Lower(s)) == Lower(s)
  {
  }

  /** `s.includes(sub)`: `sub` is a prefix of `s` or of some suffix of `s`. */
  predicate Includes(s: string, sub: string)
    decreases |s|
  {
    sub <= s || (s != [] && Includes(s[1..], sub))
  }

  /** Reference definition: `sub` occurs at some offset of `s`. */
  predicate OccursAt(s: string, sub: string, i: int)
  {
    0 <= i && i + |sub| <= |s| && s[i..i + |sub|] == sub
  }

  /** `Includes` agrees with the reference definition in both directions. */
  lemma {:induction false} IncludesIffOccurs(s: string, sub: string)
    ensures Includes(s, sub) <==> exists i :: OccursAt(s, sub, i)
    decreases |s|
  {
    if sub <= s {
      assert OccursAt(s, sub, 0);
    } else if s == [] {
      forall i ensures !OccursAt(s, sub, i) {
      }
    } else {
      IncludesIffOccurs(s[1..], sub);
      if Includes(s[1..], sub) {
        var i :| OccursAt(s[1..], sub, i);
        assert s[1..][i..i + |sub|] == s[i + 1..i + 1 + |sub|];
        assert OccursAt(s, sub, i + 1);
      } else {
        forall i | OccursAt(s, sub, i) ensures i >= 1 && OccursAt(s[1..], sub, i - 1) {
          if i >= 1 {
            assert s[1..][i - 1..i - 1 + |sub|] == s[i..i + |sub|];
          }
        }
      }
    }
  }

  /** Every string includes the empty string, so an empty search term
      matches every row. */
  lemma IncludesEmpty(s: string)
    ensures Includes(s, "")
  {
  }

  /** The case-insensitive search used by the list screens:
      `field.toLowerCase().includes(term.toLowerCase())`. */
  predicate MatchesSearch(field: string, term: string)
  {
    Includes(Lower(field), Lower(term))
  }

  /** The search ignores the case of the term: terms that lower-case alike
      select the same rows. */
  lemma SearchIgnoresTermCase(field: string, term: string)
    ensures MatchesSearch(field, term) == MatchesSearch(field, Lower(term))
  {
    LowerIdempotent(term);
  }

  function DigitChar(d: nat): (c: char)
    requires d < 10
    ensures '0' <= c <= '9'
  {
    ('0' as int + d) as char
  }

  /** `n.toString()` for a non-negative integer: its decimal digits, most
      significant first, with no leading zero. */
  function NatToString(n: nat): (r: string)
    ensures |r| >= 1
    ensures forall i :: 0 <= i < |r| ==> '0' <= r[i] <= '9'
    ensures n >= 10 <==> |r| >= 2
    decreases n
  {
    if n < 10 then [DigitChar(n)] else NatToString(n / 10) + [DigitChar(n % 10)]
  }

  /** Distinct numbers print as distinct strings, so comparing printed ids
      is the same as comparing the ids. */
  lemma {:induction false} NatToStringInjective(a: nat, b: nat)
    requires NatToString(a) == NatToString(b)
    ensures a == b
    decreases a
  {
    var s := NatToString(a);
    if a < 10 || b < 10 {
      assert |s| == 1;
      assert a < 10 && b < 10;
      assert s[0] == DigitChar(a) && s[0] == DigitChar(b);
    } else {
      var pa, pb := NatToString(a / 10), NatToString(b / 10);
      assert s == pa + [DigitChar(a % 10)];
      assert s == pb + [DigitChar(b % 10)];
      assert |pa| == |pb|;
      assert pa == s[..|s| - 1] == pb;
      assert DigitChar(a % 10) == s[|s| - 1] == DigitChar(b % 10);
      NatToStringInjective(a / 10, b / 10);
    }
  }
}
