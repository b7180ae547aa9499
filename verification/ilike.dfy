/**
 * PostgreSQL `ILIKE`: `%` matches any run of characters, `_` any one character,
 * `\` makes the next pattern character literal, and letters compare without case.
 */
module Ilike {
  import opened Text

  /** Lower case for the Latin and Cyrillic capitals; every other character is kept. */
  function Lower(c: char): char {
    if 'A' <= c <= 'Z' then (c as int + 32) as char
    else if 'А' <= c <= 'Я' then (c as int + 32) as char
    else if 'Ѐ' <= c <= 'Џ' then (c as int + 80) as char
    else c
  }

  function LowerStr(s: string): (r: string)
    ensures |r| == |s|
  {
    seq(|s|, i requires 0 <= i < |s| => Lower(s[i]))
  }

  /** `s LIKE p` (case-sensitive); `decreases` on the total length left. */
  predicate Like(p: string, s: string)
    decreases |p| + |s|
  {
    if p == [] then s == []
    else if p[0] == '%' then Like(p[1..], s) || (s != [] && Like(p, s[1..]))
    else if p[0] == '\\' && |p| >= 2 then s != [] && s[0] == p[1] && Like(p[2..], s[1..])
    else s != [] && (p[0] == '_' || s[0] == p[0]) && Like(p[1..], s[1..])
  }

  /** `s ILIKE p` */
  predicate ILike(p: string, s: string) {
    Like(LowerStr(p), LowerStr(s))
  }

  /** No character of `q` is special to LIKE. */
  predicate Plain(q: string) {
    forall i | 0 <= i < |q| :: q[i] != '%' && q[i] != '_' && q[i] != '\\'
  }

  lemma {:induction false} PercentMatchesAll(s: string)
    ensures Like("%", s)
    decreases |s|
  {
    if s != [] {
      PercentMatchesAll(s[1..]);
    }
  }

  /** `q%` matches exactly the strings that begin with a plain `q`. */
  lemma {:induction false} PrefixPattern(q: string, s: string)
    requires Plain(q)
    ensures Like(q + "%", s) <==> StartsWith(s, q)
    decreases |q|
  {
    if q == [] {
      assert q + "%" == "%";
      PercentMatchesAll(s);
    } else {
      var p := q + "%";
      assert p[1..] == q[1..] + "%";
      if s != [] {
        PrefixPattern(q[1..], s[1..]);
        if StartsWith(s, q) {
          assert s[1..][..|q| - 1] == s[..|q|][1..];
        }
        if StartsWith(s[1..], q[1..]) && s[0] == q[0] {
          assert s[..|q|] == [s[0]] + s[1..][..|q| - 1];
        }
      }
    }
  }

  /** A leading `%` lets the rest of the pattern match any suffix. */
  lemma {:induction false} LeadingPercent(r: string, s: string)
    ensures Like("%" + r, s) <==> exists k :: 0 <= k <= |s| && Like(r, s[k..])
    decreases |s|
  {
    var p := "%" + r;
    assert p[1..] == r;
    assert s[0..] == s;
    if s != [] {
      LeadingPercent(r, s[1..]);
      if k :| 1 <= k <= |s| && Like(r, s[k..]) {
        assert s[1..][k - 1..] == s[k..];
      }
      if k :| 0 <= k <= |s| - 1 && Like(r, s[1..][k..]) {
        assert s[1..][k..] == s[k + 1..];
      }
    }
  }

  /** For a search text without `%`, `_` or `\`, `%q%` is a plain substring test. */
  lemma SubstringPattern(q: string, s: string)
    requires Plain(q)
    ensures Like("%" + q + "%", s) <==> Contains(s, q)
  {
    assert "%" + q + "%" == "%" + (q + "%");
    LeadingPercent(q + "%", s);
    ContainsAt(s, q);
    if Like("%" + q + "%", s) {
      var k :| 0 <= k <= |s| && Like(q + "%", s[k..]);
      PrefixPattern(q, s[k..]);
      assert s[k..][..|q|] == s[k..k + |q|];
      assert OccursAt(s, q, k);
    }
    if Contains(s, q) {
      var k :| OccursAt(s, q, k);
      PrefixPattern(q, s[k..]);
      assert s[k..][..|q|] == s[k..k + |q|];
    }
  }

  lemma LowerKeepsPlain(q: string)
    requires Plain(q)
    ensures Plain(LowerStr(q))
  {
  }

  /** Lower-casing twice is lower-casing once: no lowered character is a capital. */
  lemma LowerStrIdempotent(s: string)
    ensures LowerStr(LowerStr(s)) == LowerStr(s)
  {
    forall i | 0 <= i < |s| ensures Lower(Lower(s[i])) == Lower(s[i]) {
    }
  }

  /** `ILIKE` ignores the case of both the pattern and the text. */
  lemma ILikeIgnoresCase(p: string, s: string)
    ensures ILike(p, s) <==> ILike(LowerStr(p), LowerStr(s))
  {
    LowerStrIdempotent(p);
    LowerStrIdempotent(s);
  }

  lemma LowerStrConcat(a: string, b: string)
    ensures LowerStr(a + b) == LowerStr(a) + LowerStr(b)
  {
  }

  /**
   * The name search: `name ILIKE '%q%'` holds exactly when the lower-cased `q`
   * occurs in the lower-cased name, for a search text with no LIKE specials.
   */
  lemma NameSearchIsSubstring(q: string, name: string)
    requires Plain(q)
    ensures ILike("%" + q + "%", name) <==> Contains(LowerStr(name), LowerStr(q))
  {
    LowerStrConcat("%" + q, "%");
    LowerStrConcat("%", q);
    assert LowerStr("%") == "%";
    LowerKeepsPlain(q);
    SubstringPattern(LowerStr(q), LowerStr(name));
  }

  /** `_` is a wildcard: searching for it finds every non-empty name. */
  lemma UnderscoreMatchesAnyNonEmpty(name: string)
    ensures ILike("%_%", name) <==> |name| >= 1
  {
    var s := LowerStr(name);
    assert LowerStr("%_%") == "%_%";
    LeadingPercent("_%", s);
    if |s| >= 1 {
      assert ("_%")[1..] == "%";
      PercentMatchesAll(s[1..]);
      assert s[0..] == s;
      assert Like("_%", s[0..]);
    }
  }
}
