/** Strings as SQLite and the session search see them: ASCII case folding, the
    LIKE operator, substring tests, blank-separated words, and byte order. */
module Text {

  function LowerChar(c: char): char {
    if 'A' <= c <= 'Z' then (c as int + 32) as char else c
  }

  /** SQL's LOWER, which folds ASCII letters only. */
  function Lower(s: string): (r: string)
    ensures |r| == |s|
    ensures forall i :: 0 <= i < |s| ==> r[i] == LowerChar(s[i])
  {
    seq(|s|, i requires 0 <= i < |s| => LowerChar(s[i]))
  }

  predicate OccursAt(s: string, t: string, i: int) {
    0 <= i <= |s| - |t| && s[i..i + |t|] == t
  }

  predicate Contains(s: string, t: string) {
    exists i :: 0 <= i <= |s| - |t| && OccursAt(s, t, i)
  }

  /** SQL's LIKE: `%` stands for any run of characters, `_` for any one, and
      letters compare without regard to ASCII case. */
  predicate Like(pattern: string, s: string)
    decreases |pattern| + |s|
  {
    if pattern == "" then s == ""
    else if pattern[0] == '%' then Like(pattern[1..], s) || (s != "" && Like(pattern, s[1..]))
    else
      && s != ""
      && (pattern[0] == '_' || LowerChar(pattern[0]) == LowerChar(s[0]))
      && Like(pattern[1..], s[1..])
  }

  predicate Plain(t: string) {
    forall i :: 0 <= i < |t| ==> t[i] != '%' && t[i] != '_'
  }

  lemma {:induction false} LikePercentSkips(rest: string, s: string)
    ensures Like("%" + rest, s) <==> exists i :: 0 <= i <= |s| && Like(rest, s[i..])
    decreases |s|
  {
    assert ("%" + rest)[1..] == rest;
    assert s[0..] == s;
    if s != "" {
      LikePercentSkips(rest, s[1..]);
      forall i | 0 <= i < |s|
        ensures s[1..][i..] == s[i + 1..]
      {}
      if Like("%" + rest, s) && !Like(rest, s) {
        var i :| 0 <= i <= |s[1..]| && Like(rest, s[1..][i..]);
        assert Like(rest, s[i + 1..]);
      }
      if i :| 0 <= i <= |s| && Like(rest, s[i..]) {
        if i > 0 {
          assert s[1..][i - 1..] == s[i..];
        }
      }
    }
  }

  lemma {:induction false} LikePrefix(t: string, s: string)
    requires Plain(t)
    ensures Like(t + "%", s) <==> |t| <= |s| && Lower(s[..|t|]) == Lower(t)
    decreases |t|
  {
    if t == "" {
      LikePercentSkips("", s);
      assert t + "%" == "%" + "";
      assert s[|s|..] == "";
      assert Like("", s[|s|..]);
      assert Lower(s[..0]) == Lower(t);
    } else {
      assert (t + "%")[1..] == t[1..] + "%";
      if s != "" {
        LikePrefix(t[1..], s[1..]);
        if |t| <= |s| {
          var a, b := Lower(s[..|t|]), Lower(t);
          var a', b' := Lower(s[1..][..|t| - 1]), Lower(t[1..]);
          assert s[1..][..|t| - 1] == s[..|t|][1..];
          assert a == [LowerChar(s[0])] + a' && b == [LowerChar(t[0])] + b';
        }
      }
    }
  }

  /** Wrapped in `%`, a term without wildcards is a case-blind substring test. */
  lemma LikeIsContains(t: string, s: string)
    requires Plain(t)
    ensures Like("%" + t + "%", s) <==> Contains(Lower(s), Lower(t))
  {
    assert "%" + t + "%" == "%" + (t + "%");
    LikePercentSkips(t + "%", s);
    forall i | 0 <= i <= |s|
      ensures Like(t + "%", s[i..]) <==> OccursAt(Lower(s), Lower(t), i)
    {
      LikePrefix(t, s[i..]);
      if i + |t| <= |s| {
        assert s[i..][..|t|] == s[i..i + |t|];
        assert Lower(s)[i..i + |t|] == Lower(s[i..i + |t|]);
      }
    }
  }

  lemma LowerIdempotent(s: string)
    ensures Lower(Lower(s)) == Lower(s)
  {
    assert forall c: char :: LowerChar(LowerChar(c)) == LowerChar(c);
  }

  lemma ContainsMonotone(a: string, s: string, b: string, t: string)
    requires Contains(s, t)
    ensures Contains(a + s + b, t)
  {
    var i :| 0 <= i <= |s| - |t| && OccursAt(s, t, i);
    assert OccursAt(a + s + b, t, |a| + i);
  }

  /** A term with no blank in it cannot straddle the blank that joins two fields. */
  lemma JoinedContains(a: string, b: string, t: string)
    requires t != "" && ' ' !in t
    ensures Contains(a + " " + b, t) <==> Contains(a, t) || Contains(b, t)
  {
    var s := a + " " + b;
    if Contains(a, t) { ContainsMonotone("", a, " " + b, t); assert "" + a + (" " + b) == s; }
    if Contains(b, t) { ContainsMonotone(a + " ", b, "", t); assert a + " " + b + "" == s; }
    if Contains(s, t) {
      var i :| 0 <= i <= |s| - |t| && OccursAt(s, t, i);
      assert s[|a|] == ' ';
      forall k | i <= k < i + |t| ensures s[k] != ' ' { assert s[k] == t[k - i]; }
      if i + |t| <= |a| {
        assert OccursAt(a, t, i);
      } else if i > |a| {
        assert OccursAt(b, t, i - |a| - 1);
      }
    }
  }

  lemma LowerConcat(a: string, b: string)
    ensures Lower(a + b) == Lower(a) + Lower(b)
  {}

  predicate IsBlank(c: char) {
    c == ' ' || '\t' <= c <= '\r'
  }

  /** The blank-separated words of s, in order. */
  function Fields(s: string): (words: seq<string>)
    ensures forall w :: w in words ==> w != "" && forall i :: 0 <= i < |w| ==> !IsBlank(w[i])
    decreases |s|
  {
    if s == "" then []
    else if IsBlank(s[0]) then Fields(s[1..])
    else
      var n := WordEnd(s);
      [s[..n]] + Fields(s[n..])
  }

  function WordEnd(s: string): (n: nat)
    ensures n <= |s|
    ensures s != "" && !IsBlank(s[0]) ==> n > 0
    ensures forall i :: 0 <= i < n ==> !IsBlank(s[i])
    ensures n < |s| ==> IsBlank(s[n])
  {
    if s == "" || IsBlank(s[0]) then 0 else 1 + WordEnd(s[1..])
  }

  /** Byte order on identifiers: SQLite's BINARY collation and Go's `<`. */
  predicate Less(a: string, b: string) {
    if b == "" then false
    else if a == "" then true
    else a[0] < b[0] || (a[0] == b[0] && Less(a[1..], b[1..]))
  }

  lemma {:induction false} LessIsStrictTotal(a: string, b: string)
    ensures !(Less(a, b) && Less(b, a))
    ensures Less(a, b) || Less(b, a) <==> a != b
    decreases |a|
  {
    if a != "" && b != "" && a[0] == b[0] {
      LessIsStrictTotal(a[1..], b[1..]);
      if a[1..] == b[1..] {
        assert a == [a[0]] + a[1..] && b == [b[0]] + b[1..];
      }
    }
  }

  lemma {:induction false} LessTransitive(a: string, b: string, c: string)
    requires Less(a, b) && Less(b, c)
    ensures Less(a, c)
    decreases |a|
  {
    if a != "" && a[0] == b[0] == c[0] {
      LessTransitive(a[1..], b[1..], c[1..]);
    }
  }

  // ---- What these come to ----

  /** Exactly the capital letters change, each to its small one. */
  lemma LowerIs(s: string)
    ensures Lower("ABCDEFGHIJKLMNOPQRSTUVWXYZ") == "abcdefghijklmnopqrstuvwxyz"
    ensures forall i :: 0 <= i < |s| ==> if 'A' <= s[i] <= 'Z' then Lower(s)[i] as int == s[i] as int + 32 else Lower(s)[i] == s[i]
  {}

  lemma ContainsIs(s: string, t: string)
    ensures Contains(s, t) <==> exists a, b :: s == a + t + b
  {
    if Contains(s, t) {
      var i :| 0 <= i <= |s| - |t| && OccursAt(s, t, i);
      assert s == s[..i] + t + s[i + |t|..];
    }
    if a, b :| s == a + t + b {
      assert OccursAt(s, t, |a|);
    }
  }

  /** LIKE from its four cases: the end, any run, any one, and a letter. */
  lemma LikeIs(p: string, c: char, s: string)
    ensures Like("", s) <==> s == ""
    ensures Like("%" + p, s) <==> exists i :: 0 <= i <= |s| && Like(p, s[i..])
    ensures Like("_" + p, s) <==> s != "" && Like(p, s[1..])
    ensures c != '%' && c != '_' ==> (Like([c] + p, s) <==> s != "" && Lower([c]) == Lower([s[0]]) && Like(p, s[1..]))
  {
    LikePercentSkips(p, s);
    assert ("_" + p)[1..] == p && ([c] + p)[1..] == p;
    assert s != "" ==> (Lower([c]) == Lower([s[0]]) <==> LowerChar(c) == LowerChar(s[0])) by {
      assert Lower([c])[0] == LowerChar(c);
      if s != "" { assert Lower([s[0]])[0] == LowerChar(s[0]); }
    }
  }

  /** Splitting at blanks: blanks in front do not matter, a word up to a blank is the
      first, and a word alone is the only one. */
  lemma FieldsAre(b: char, word: string, rest: string)
    requires b in " \t\n\r\U{000B}\U{000C}" && word != "" && forall c :: c in word ==> c !in " \t\n\r\U{000B}\U{000C}"
    ensures Fields("") == [] && Fields([b] + rest) == Fields(rest)
    ensures Fields(word) == [word] && Fields(word + [b] + rest) == [word] + Fields(rest)
  {
    assert forall c: char :: c in " \t\n\r\U{000B}\U{000C}" <==> IsBlank(c);
    assert ([b] + rest)[1..] == rest;
    assert !IsBlank(word[0]) by { assert word[0] in word; }
    forall i | 0 <= i < |word| ensures !IsBlank(word[i]) { assert word[i] in word; }
    WordEndIs(word, "");
    assert word + "" == word && word[..|word|] == word && word[|word|..] == "";
    WordEndIs(word, [b] + rest);
    var s := word + [b] + rest;
    assert s == word + ([b] + rest);
    assert s[..|word|] == word && s[|word|..] == [b] + rest;
  }

  lemma {:induction false} WordEndIs(word: string, rest: string)
    requires (forall i :: 0 <= i < |word| ==> !IsBlank(word[i])) && (rest == "" || IsBlank(rest[0]))
    ensures WordEnd(word + rest) == |word|
    decreases |word|
  {
    if word == "" {
      assert word + rest == rest;
    } else {
      assert (word + rest)[1..] == word[1..] + rest;
      WordEndIs(word[1..], rest);
    }
  }

  /** The first difference decides, and a proper prefix comes first. */
  lemma {:induction false} LessIs(a: string, b: string)
    ensures Less(a, b) <==> exists n :: 0 <= n <= |a| && n < |b| && a[..n] == b[..n] && (n == |a| || a[n] < b[n])
    decreases |a|
  {
    if a == "" {
      if b != "" { assert a[..0] == b[..0]; }
    } else if b != "" {
      if a[0] == b[0] {
        LessIs(a[1..], b[1..]);
        if n :| 0 <= n <= |a[1..]| && n < |b[1..]| && a[1..][..n] == b[1..][..n] && (n == |a[1..]| || a[1..][n] < b[1..][n]) {
          assert a[..n + 1] == [a[0]] + a[1..][..n] && b[..n + 1] == [b[0]] + b[1..][..n];
        }
        if n :| 0 <= n <= |a| && n < |b| && a[..n] == b[..n] && (n == |a| || a[n] < b[n]) {
          assert n > 0;
          assert a[1..][..n - 1] == a[..n][1..] && b[1..][..n - 1] == b[..n][1..];
        }
      } else {
        assert a[..0] == b[..0];
        if n :| 0 <= n <= |a| && n < |b| && a[..n] == b[..n] && (n == |a| || a[n] < b[n]) {
          if n > 0 { assert a[..n][0] == b[..n][0]; }
        }
      }
    }
  }
}
