/** PostgreSQL's `LIKE` and `ILIKE`, as the transaction list's search filter uses them. */
module Like {
  import opened Text

  /** `s LIKE p` with the default escape character: `%` matches any run of characters, `_` any
      one character, and a backslash makes the character after it literal. A lone backslash
      at the very end, which PostgreSQL rejects, is read as itself; a search pattern `%text%`
      never ends in one. */
  predicate LikeMatch(p: string, s: string)
    decreases |p| + |s|
  {
    if p == [] then s == []
    else if p[0] == '%' then LikeMatch(p[1..], s) || (s != [] && LikeMatch(p, s[1..]))
    else if s == [] then false
    else if p[0] == '_' then LikeMatch(p[1..], s[1..])
    else if p[0] == '\\' && |p| >= 2 then s[0] == p[1] && LikeMatch(p[2..], s[1..])
    else s[0] == p[0] && LikeMatch(p[1..], s[1..])
  }

  predicate IsLikeSpecial(c: char) {
    c == '%' || c == '_' || c == '\\'
  }

  /** Text in which no character has a meaning of its own in a pattern. */
  predicate PlainText(s: string) {
    forall i :: 0 <= i < |s| ==> !IsLikeSpecial(s[i])
  }

  /** `s ILIKE p`: the match with both sides lower-cased. */
  predicate ILike(s: string, p: string) {
    LikeMatch(Lower(p), Lower(s))
  }

  /** The parameter the search filter binds: `%${search}%`. */
  function SearchPattern(text: string): string {
    "%" + text + "%"
  }

  /** A plain prefix of a pattern matches itself and hands the rest of the text on. */
  lemma {:induction false} LikeLiteral(lit: string, q: string, s: string)
    requires PlainText(lit)
    ensures LikeMatch(lit + q, s) <==> StartsWith(s, lit) && LikeMatch(q, s[|lit|..])
    decreases |lit|
  {
    if lit == [] {
      assert lit + q == q;
      assert s[0..] == s;
    } else {
      var p := lit + q;
      assert p[0] == lit[0] && !IsLikeSpecial(p[0]);
      assert p[1..] == lit[1..] + q;
      if s != [] {
        LikeLiteral(lit[1..], q, s[1..]);
        assert StartsWith(s, lit) <==> s[0] == lit[0] && StartsWith(s[1..], lit[1..]) by {
          if |lit| <= |s| {
            assert s[..|lit|] == [s[0]] + s[1..][..|lit| - 1];
            assert lit == [lit[0]] + lit[1..];
          }
        }
        if |lit| <= |s| {
          assert s[1..][|lit| - 1..] == s[|lit|..];
        }
      }
    }
  }

  /** A leading `%` lets the rest of the pattern match any suffix of the text. */
  lemma {:induction false} LikePercent(q: string, s: string)
    ensures LikeMatch("%" + q, s) <==> exists k | 0 <= k <= |s| :: LikeMatch(q, s[k..])
    decreases |s|
  {
    var p := "%" + q;
    assert p[0] == '%' && p[1..] == q;
    if s == [] {
      assert LikeMatch(p, s) <==> LikeMatch(q, s);
      assert s[0..] == s;
    } else {
      LikePercent(q, s[1..]);
      if LikeMatch(p, s) {
        if LikeMatch(q, s) {
          assert s[0..] == s;
        } else {
          var k :| 0 <= k <= |s| - 1 && LikeMatch(q, s[1..][k..]);
          assert s[1..][k..] == s[k + 1..];
        }
      }
      if exists k | 0 <= k <= |s| :: LikeMatch(q, s[k..]) {
        var k :| 0 <= k <= |s| && LikeMatch(q, s[k..]);
        if k == 0 {
          assert s[0..] == s;
        } else {
          assert s[1..][k - 1..] == s[k..];
        }
      }
    }
  }

  /** A lone `%` matches anything. */
  lemma {:induction false} PercentMatchesAll(s: string)
    ensures LikeMatch("%", s)
    decreases |s|
  {
    assert "%"[1..] == [];
    if s != [] {
      PercentMatchesAll(s[1..]);
    }
  }

  /** With plain search text, `LIKE '%text%'` is a substring test. */
  lemma SearchFinds(text: string, s: string)
    requires PlainText(text)
    ensures LikeMatch(SearchPattern(text), s) <==> Contains(s, text)
  {
    var tail := text + "%";
    assert SearchPattern(text) == "%" + tail;
    LikePercent(tail, s);
    forall k | 0 <= k <= |s|
      ensures LikeMatch(tail, s[k..]) <==> OccursAt(s, text, k)
    {
      LikeLiteral(text, "%", s[k..]);
      if StartsWith(s[k..], text) {
        PercentMatchesAll(s[k..][|text|..]);
        assert s[k..][..|text|] == s[k..k + |text|];
      }
      if OccursAt(s, text, k) {
        assert s[k..][..|text|] == s[k..k + |text|];
      }
    }
  }

  lemma LowerKeepsPlain(text: string)
    requires PlainText(text)
    ensures PlainText(Lower(text))
  {
  }

  lemma LowerSearchPattern(text: string)
    ensures Lower(SearchPattern(text)) == SearchPattern(Lower(text))
  {
    var p := SearchPattern(text);
    var q := SearchPattern(Lower(text));
    assert |p| == |q|;
    forall i | 0 <= i < |p| ensures Lower(p)[i] == q[i] {
      if 0 < i < |p| - 1 {
        assert p[i] == text[i - 1] && q[i] == Lower(text)[i - 1];
      }
    }
  }

  /** With plain search text, `ILIKE '%text%'` is a case-insensitive substring test. */
  lemma ILikeSearchFinds(text: string, s: string)
    requires PlainText(text)
    ensures ILike(s, SearchPattern(text)) <==> Contains(Lower(s), Lower(text))
  {
    LowerSearchPattern(text);
    LowerKeepsPlain(text);
    SearchFinds(Lower(text), Lower(s));
  }

  /** The search text is not escaped: an `_` in it stands for any character, so searching for
      "a_c" finds "abc". */
  lemma SearchTextIsAPattern()
    ensures ILike("abc", SearchPattern("a_c"))
    ensures !Contains(Lower("abc"), Lower("a_c"))
  {
    assert Lower(SearchPattern("a_c")) == "%a_c%";
    assert Lower("abc") == "abc";
    assert "%a_c%"[1..] == "a_c%";
    assert "a_c%"[1..] == "_c%";
    assert "_c%"[1..] == "c%";
    assert "c%"[1..] == "%";
    assert "abc"[1..] == "bc" && "bc"[1..] == "c" && "c"[1..] == [];
    assert "%"[1..] == [];
    assert LikeMatch("%", []);
    assert LikeMatch("c%", "c");
    assert Lower("a_c") == "a_c";
    forall k | 0 <= k <= 3 ensures !OccursAt("abc", "a_c", k) {
      if k == 0 { assert "abc"[0..3][1] == 'b'; }
    }
  }
}
