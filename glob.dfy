/** The glob matcher Redis applies to KEYS patterns (`stringmatchlen` in Redis's util.c,
    case-sensitive), and the compositional facts about it that the cache invalidation needs. */

module Glob {
  import opened Text

  /** Characters with a meaning of their own in a pattern. */
  predicate IsSpecial(c: char) { c == '*' || c == '?' || c == '[' || c == '\\' }

  /** A pattern piece made of plain characters only, each matching itself. */
  predicate IsLiteral(p: string) { forall i :: 0 <= i < |p| ==> !IsSpecial(p[i]) }

  predicate AllStars(p: string) { forall i :: 0 <= i < |p| ==> p[i] == '*' }

  /** The body of a bracket class, after `[` or `[^`: whether `c` is one of its members, and
      the pattern after the closing `]`. `\x` names x, `a-z` a range (either way round), and a
      class with no closing `]` runs to the end of the pattern. */
  function ClassScan(q: string, c: char): (r: (bool, string))
    ensures |r.1| <= |q|
    ensures r.1 != [] ==> |r.1| < |q|
  {
    if |q| >= 2 && q[0] == '\\' then
      var (m, rest) := ClassScan(q[2..], c);
      (m || q[1] == c, rest)
    else if |q| >= 1 && q[0] == ']' then (false, q[1..])
    else if |q| == 0 then (false, [])
    else if |q| >= 3 && q[1] == '-' then
      var lo := if q[0] <= q[2] then q[0] else q[2];
      var hi := if q[0] <= q[2] then q[2] else q[0];
      var (m, rest) := ClassScan(q[3..], c);
      (m || (lo <= c <= hi), rest)
    else
      var (m, rest) := ClassScan(q[1..], c);
      (m || q[0] == c, rest)
  }

  /** One pattern element other than `*`, against the character `c`: whether it accepts `c`,
      and what is left of the pattern after it. */
  function Element(p: string, c: char): (r: (bool, string))
    requires p != [] && p[0] != '*'
    ensures |r.1| < |p|
    ensures !IsSpecial(p[0]) ==> r == (p[0] == c, p[1..])
  {
    if p[0] == '?' then (true, p[1..])
    else if p[0] == '[' then
      var negated := |p| >= 2 && p[1] == '^';
      var body := if negated then p[2..] else p[1..];
      var (m, rest) := ClassScan(body, c);
      (if negated then !m else m, rest)
    else if p[0] == '\\' && |p| >= 2 then (p[1] == c, p[2..])
    else (p[0] == c, p[1..])
  }

  /** Whether KEYS `p` reports the key `s`. A star tries every non-empty rest of the key; once
      the key is used up, only stars may remain in the pattern; an empty key matches only the
      empty pattern. */
  function Match(p: string, s: string): bool
    decreases |p|
  {
    if p == [] || s == [] then p == [] && s == []
    else if p[0] == '*' then
      |p| == 1 || exists k | 0 <= k < |s| :: Match(p[1..], s[k..])
    else
      var (ok, rest) := Element(p, s[0]);
      ok && (if |s| == 1 then AllStars(rest) else Match(rest, s[1..]))
  }

  /** What is left of a pattern accepts what is left of a key: the state Match is in after it
      has consumed at least one character. */
  predicate Accepts(p: string, s: string) {
    if s == [] then AllStars(p) else Match(p, s)
  }

  lemma {:induction false} StarsAcceptAnything(q: string, s: string)
    requires q != [] && AllStars(q)
    ensures Accepts(q, s)
    decreases |q|
  {
    if s != [] && |q| > 1 {
      assert q[1..] != [] && AllStars(q[1..]);
      StarsAcceptAnything(q[1..], s);
      assert s[0..] == s;
    }
  }

  /** Nothing is left of the pattern: only the end of the key is accepted. */
  lemma AcceptsNothingLeft(s: string)
    ensures Accepts([], s) <==> s == []
  {
  }

  /** A literal piece consumes exactly itself from the front of the key. */
  lemma {:induction false} AcceptsLiteral(lit: string, q: string, s: string)
    requires IsLiteral(lit)
    ensures Accepts(lit + q, s) <==> StartsWith(s, lit) && Accepts(q, s[|lit|..])
    decreases |lit|
  {
    if lit != [] {
      var p := lit + q;
      assert p[0] == lit[0] && p[1..] == lit[1..] + q;
      assert IsLiteral(lit[1..]);
      if s == [] {
        assert !AllStars(p) by { assert p[0] != '*'; }
      } else {
        assert Accepts(p, s) <==> s[0] == lit[0] && Accepts(lit[1..] + q, s[1..]);
        AcceptsLiteral(lit[1..], q, s[1..]);
        if |lit| <= |s| {
          assert s[1..][|lit[1..]|..] == s[|lit|..];
        } else {
          assert !StartsWith(s[1..], lit[1..]);
        }
        assert StartsWith(s, lit) <==> s[0] == lit[0] && StartsWith(s[1..], lit[1..]) by {
          if s[0] == lit[0] && StartsWith(s[1..], lit[1..]) {
            assert s[..|lit|] == [s[0]] + s[1..][..|lit[1..]|];
            assert lit == [lit[0]] + lit[1..];
          }
          if StartsWith(s, lit) {
            assert s[1..][..|lit[1..]|] == s[..|lit|][1..];
          }
        }
      }
    } else {
      assert lit + q == q && s[0..] == s;
    }
  }

  /** A star consumes any number of characters, including none. */
  lemma AcceptsStar(q: string, s: string)
    ensures Accepts("*" + q, s) <==> exists k :: 0 <= k <= |s| && Accepts(q, s[k..])
  {
    var p := "*" + q;
    assert p[1..] == q;
    if s == [] {
      assert s[0..] == s;
      assert AllStars(p) <==> AllStars(q) by {
        if AllStars(q) {
          forall i | 0 <= i < |p| ensures p[i] == '*' {
            if i > 0 { assert p[i] == q[i - 1]; }
          }
        }
        if AllStars(p) {
          forall i | 0 <= i < |q| ensures q[i] == '*' { assert q[i] == p[i + 1]; }
        }
      }
    } else {
      if Accepts(p, s) {
        if q == [] {
          assert Accepts(q, s[|s|..]);
        } else {
          var k :| 0 <= k < |s| && Match(q, s[k..]);
          assert Accepts(q, s[k..]);
        }
      }
      if k :| 0 <= k <= |s| && Accepts(q, s[k..]) {
        if k < |s| {
          assert Match(q, s[k..]);
        } else if q != [] {
          StarsAcceptAnything(q, s);
          assert s[0..] == s;
          assert Match(q, s[0..]);
        }
      }
    }
  }

  /** The pattern `pre*word*post` with literal pieces. */
  function TwoStars(pre: string, word: string, post: string): string {
    pre + "*" + word + "*" + post
  }

  /** The pattern `pre*post` with literal pieces. */
  function OneStar(pre: string, post: string): string {
    pre + "*" + post
  }

  lemma AcceptsExactly(lit: string, s: string)
    requires IsLiteral(lit)
    ensures Accepts(lit, s) <==> s == lit
  {
    AcceptsLiteral(lit, [], s);
    assert lit + [] == lit;
    if StartsWith(s, lit) && s[|lit|..] == [] {
      assert s == s[..|lit|];
    }
  }

  /** `pre*post` accepts exactly the keys that start with pre and end with post, the two not
      overlapping. */
  lemma OneStarAccepts(pre: string, post: string, s: string)
    requires IsLiteral(pre) && IsLiteral(post)
    ensures Accepts(OneStar(pre, post), s) <==>
      StartsWith(s, pre) && EndsWith(s, post) && |pre| + |post| <= |s|
  {
    var p := OneStar(pre, post);
    assert p == pre + ("*" + post);
    AcceptsLiteral(pre, "*" + post, s);
    if StartsWith(s, pre) {
      var s1 := s[|pre|..];
      AcceptsStar(post, s1);
      if Accepts("*" + post, s1) {
        var k :| 0 <= k <= |s1| && Accepts(post, s1[k..]);
        AcceptsExactly(post, s1[k..]);
        assert s[|s| - |post|..] == s1[k..];
      }
      if EndsWith(s, post) && |pre| + |post| <= |s| {
        var k := |s1| - |post|;
        assert s1[k..] == s[|s| - |post|..];
        AcceptsExactly(post, s1[k..]);
      }
    }
  }

  /** Whether `word` occurs in `s` strictly between a prefix of length a and a suffix of length b. */
  predicate OccursBetween(s: string, word: string, a: nat, b: nat) {
    exists i :: a <= i && i + |word| + b <= |s| && OccursAt(s, word, i)
  }

  /** A star followed by a literal accepts exactly the keys ending in that literal. */
  lemma StarThenLiteral(post: string, s: string)
    requires IsLiteral(post)
    ensures Accepts("*" + post, s) <==> EndsWith(s, post)
  {
    AcceptsStar(post, s);
    if Accepts("*" + post, s) {
      var k :| 0 <= k <= |s| && Accepts(post, s[k..]);
      AcceptsExactly(post, s[k..]);
    }
    if EndsWith(s, post) {
      AcceptsExactly(post, s[|s| - |post|..]);
    }
  }

  /** `word*post` against the key from position k on. */
  lemma WordAt(word: string, post: string, s: string, k: nat)
    requires IsLiteral(word) && IsLiteral(post) && k <= |s|
    ensures Accepts(word + ("*" + post), s[k..]) <==>
      OccursAt(s, word, k) && k + |word| + |post| <= |s| && EndsWith(s, post)
  {
    AcceptsLiteral(word, "*" + post, s[k..]);
    if StartsWith(s[k..], word) {
      var rest := s[k..][|word|..];
      assert rest == s[k + |word|..];
      assert s[k..k + |word|] == s[k..][..|word|];
      StarThenLiteral(post, rest);
      if EndsWith(rest, post) {
        assert s[|s| - |post|..] == rest[|rest| - |post|..];
      }
      if k + |word| + |post| <= |s| && EndsWith(s, post) {
        assert s[|s| - |post|..] == rest[|rest| - |post|..];
      }
    }
  }

  /** `*word*post` accepts exactly the keys ending in post with word somewhere before it. */
  lemma StarWordStar(word: string, post: string, s: string)
    requires IsLiteral(word) && IsLiteral(post)
    ensures Accepts("*" + (word + ("*" + post)), s) <==> EndsWith(s, post) && OccursBetween(s, word, 0, |post|)
  {
    var mid := word + ("*" + post);
    AcceptsStar(mid, s);
    if Accepts("*" + mid, s) {
      var k :| 0 <= k <= |s| && Accepts(mid, s[k..]);
      WordAt(word, post, s, k);
    }
    if EndsWith(s, post) && OccursBetween(s, word, 0, |post|) {
      var k :| 0 <= k && k + |word| + |post| <= |s| && OccursAt(s, word, k);
      WordAt(word, post, s, k);
    }
  }

  /** Skipping a prefix of n characters moves every occurrence n places. */
  lemma OccursBetweenShift(s: string, word: string, n: nat, b: nat)
    requires n <= |s|
    ensures OccursBetween(s[n..], word, 0, b) <==> OccursBetween(s, word, n, b)
  {
    if OccursBetween(s[n..], word, 0, b) {
      var i :| 0 <= i && i + |word| + b <= |s[n..]| && OccursAt(s[n..], word, i);
      assert s[n + i..n + i + |word|] == s[n..][i..i + |word|];
      assert OccursAt(s, word, n + i);
    }
    if OccursBetween(s, word, n, b) {
      var i :| n <= i && i + |word| + b <= |s| && OccursAt(s, word, i);
      assert s[i..i + |word|] == s[n..][i - n..i - n + |word|];
      assert OccursAt(s[n..], word, i - n);
    }
  }

  /** `pre*word*post` accepts exactly the keys that start with pre, end with post and have
      word in between. */
  lemma TwoStarsAccepts(pre: string, word: string, post: string, s: string)
    requires IsLiteral(pre) && IsLiteral(word) && IsLiteral(post)
    ensures Accepts(TwoStars(pre, word, post), s) <==>
      StartsWith(s, pre) && EndsWith(s, post) && OccursBetween(s, word, |pre|, |post|)
  {
    var mid := word + ("*" + post);
    assert TwoStars(pre, word, post) == pre + ("*" + mid);
    AcceptsLiteral(pre, "*" + mid, s);
    if StartsWith(s, pre) {
      var s1 := s[|pre|..];
      StarWordStar(word, post, s1);
      OccursBetweenShift(s, word, |pre|, |post|);
      if EndsWith(s1, post) {
        assert s1[|s1| - |post|..] == s[|s| - |post|..];
      }
      if OccursBetween(s, word, |pre|, |post|) && EndsWith(s, post) {
        assert s1[|s1| - |post|..] == s[|s| - |post|..];
      }
    } else if OccursBetween(s, word, |pre|, |post|) {
      assert |pre| <= |s|;
    }
  }

  /** KEYS `pre*word*post` does not report a key in which word does not occur. */
  lemma TwoStarsMissesWithoutWord(pre: string, word: string, post: string, s: string)
    requires IsLiteral(pre) && IsLiteral(word) && IsLiteral(post)
    requires forall i :: 0 <= i <= |s| ==> !OccursAt(s, word, i)
    ensures !Match(TwoStars(pre, word, post), s)
  {
    TwoStarsAccepts(pre, word, post, s);
  }

  lemma ConcatEnds(x: string, y: string, z: string)
    ensures StartsWith(x + y + z, x) && EndsWith(x + y + z, z)
  {
    assert (x + y + z)[..|x|] == x;
    assert (x + y + z)[|x + y|..] == z;
  }

  /** KEYS `pre*word*post` reports every key pre + mid + post whose middle contains word. */
  lemma TwoStarsMatchesInside(pre: string, word: string, post: string, mid: string, i: nat)
    requires IsLiteral(pre) && IsLiteral(word) && IsLiteral(post) && pre != []
    requires OccursAt(mid, word, i)
    ensures Match(TwoStars(pre, word, post), pre + mid + post)
  {
    var s := pre + mid + post;
    ConcatEnds(pre, mid, post);
    assert s[|pre| + i..|pre| + i + |word|] == mid[i..i + |word|];
    assert OccursAt(s, word, |pre| + i);
    TwoStarsAccepts(pre, word, post, s);
    MatchIsAccepts(TwoStars(pre, word, post), s);
  }

  /** Every key KEYS `pre*word*post` reports ends in post. */
  lemma TwoStarsMatchEndsWith(pre: string, word: string, post: string, s: string)
    requires IsLiteral(pre) && IsLiteral(word) && IsLiteral(post)
    requires Match(TwoStars(pre, word, post), s)
    ensures EndsWith(s, post)
  {
    if s != [] {
      MatchIsAccepts(TwoStars(pre, word, post), s);
      TwoStarsAccepts(pre, word, post, s);
    }
  }

  /** KEYS `pre*post` reports every key pre + mid + post. */
  lemma OneStarMatchesInside(pre: string, mid: string, post: string)
    requires IsLiteral(pre) && IsLiteral(post) && pre != []
    ensures Match(OneStar(pre, post), pre + mid + post)
  {
    var s := pre + mid + post;
    ConcatEnds(pre, mid, post);
    OneStarAccepts(pre, post, s);
    MatchIsAccepts(OneStar(pre, post), s);
  }

  /** Every key KEYS `pre*post` reports ends in post. */
  lemma OneStarMatchEndsWith(pre: string, post: string, s: string)
    requires IsLiteral(pre) && IsLiteral(post)
    requires Match(OneStar(pre, post), s)
    ensures EndsWith(s, post)
  {
    if s != [] {
      MatchIsAccepts(OneStar(pre, post), s);
      OneStarAccepts(pre, post, s);
    }
  }

  /** KEYS `pre*` reports every key starting with pre. */
  lemma PrefixStarMatches(pre: string, rest: string)
    requires IsLiteral(pre) && pre != []
    ensures Match(pre + "*", pre + rest)
  {
    AcceptsLiteral(pre, "*", pre + rest);
    assert (pre + rest)[..|pre|] == pre && (pre + rest)[|pre|..] == rest;
    MatchIsAccepts(pre + "*", pre + rest);
  }

  /** KEYS and Accepts agree on every non-empty key. */
  lemma MatchIsAccepts(p: string, s: string)
    requires s != []
    ensures Match(p, s) == Accepts(p, s)
  {
  }
}
