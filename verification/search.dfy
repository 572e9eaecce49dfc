/**
 * PostgreSQL's `ILIKE`, which the generated `resolve_multiple` uses for search:
 * `%` matches any run of characters, `_` any single character, `\` makes the next
 * character literal, and letters match regardless of case (ASCII case only).
 */
module Search {
  import opened Ascii

  /** PostgreSQL refuses a pattern that ends in the escape character. */
  predicate WellFormedPattern(p: string)
  {
    if p == [] then true
    else if p[0] == '\\' then |p| >= 2 && WellFormedPattern(p[2..])
    else WellFormedPattern(p[1..])
  }

  /** Case-sensitive `LIKE`. */
  function Like(s: string, p: string): bool
    decreases |s| + |p|
  {
    if p == [] then s == []
    else if p[0] == '%' then Like(s, p[1..]) || (s != [] && Like(s[1..], p))
    else if p[0] == '_' then s != [] && Like(s[1..], p[1..])
    else if p[0] == '\\' then |p| >= 2 && s != [] && s[0] == p[1] && Like(s[1..], p[2..])
    else s != [] && s[0] == p[0] && Like(s[1..], p[1..])
  }

  /** `ILIKE`: both sides lower-cased. */
  function ILike(s: string, p: string): bool
  {
    Like(LowerAll(s), LowerAll(p))
  }

  /** A search string with no character `LIKE` treats specially. */
  predicate NoWildcards(q: string)
  {
    forall i :: 0 <= i < |q| ==> q[i] != '%' && q[i] != '_' && q[i] != '\\'
  }

  /** `q` occurs in `s` starting at `i`. */
  predicate OccursAt(s: string, q: string, i: int)
  {
    0 <= i && i + |q| <= |s| && s[i..i + |q|] == q
  }

  /** `q` occurs in `s`. */
  predicate Contains(s: string, q: string)
  {
    exists i :: 0 <= i <= |s| && OccursAt(s, q, i)
  }

  lemma {:induction false} PercentMatchesAnything(s: string)
    ensures Like(s, "%")
  {
    if s != [] {
      PercentMatchesAnything(s[1..]);
    }
  }

  /** A pattern without wildcards followed by `%` matches exactly the strings it starts. */
  lemma {:induction false} PrefixPattern(s: string, q: string)
    requires NoWildcards(q)
    ensures Like(s, q + "%") <==> |q| <= |s| && s[..|q|] == q
  {
    if q == [] {
      PercentMatchesAnything(s);
      assert q + "%" == "%";
    } else {
      assert (q + "%")[0] == q[0] && (q + "%")[1..] == q[1..] + "%";
      if s != [] {
        PrefixPattern(s[1..], q[1..]);
        if |q| <= |s| && s[..|q|] == q {
          assert s[1..][..|q| - 1] == s[..|q|][1..];
        }
        if s[0] == q[0] && |q| - 1 <= |s| - 1 && s[1..][..|q| - 1] == q[1..] {
          assert s[..|q|] == [s[0]] + s[1..][..|q| - 1];
        }
      }
    }
  }

  /** A leading `%` tries every suffix. */
  lemma {:induction false} LeadingPercent(s: string, p: string)
    ensures Like(s, "%" + p) <==> exists i :: 0 <= i <= |s| && Like(s[i..], p)
  {
    assert ("%" + p)[0] == '%' && ("%" + p)[1..] == p;
    assert s[0..] == s;
    if s != [] {
      LeadingPercent(s[1..], p);
      if exists i :: 0 <= i <= |s| && Like(s[i..], p) {
        var i :| 0 <= i <= |s| && Like(s[i..], p);
        if i > 0 {
          assert s[1..][i - 1..] == s[i..];
        }
      }
      if exists i :: 0 <= i <= |s[1..]| && Like(s[1..][i..], p) {
        var i :| 0 <= i <= |s[1..]| && Like(s[1..][i..], p);
        assert s[1..][i..] == s[i + 1..];
      }
    }
  }

  /** Without wildcards in `q`, `%q%` is a substring test. */
  lemma ContainsPattern(s: string, q: string)
    requires NoWildcards(q)
    ensures Like(s, "%" + q + "%") <==> Contains(s, q)
  {
    assert "%" + q + "%" == "%" + (q + "%");
    LeadingPercent(s, q + "%");
    if Contains(s, q) {
      var i :| 0 <= i <= |s| && OccursAt(s, q, i);
      PrefixPattern(s[i..], q);
      assert s[i..][..|q|] == s[i..i + |q|];
    }
    if exists i :: 0 <= i <= |s| && Like(s[i..], q + "%") {
      var i :| 0 <= i <= |s| && Like(s[i..], q + "%");
      PrefixPattern(s[i..], q);
      if |q| <= |s[i..]| {
        assert s[i..][..|q|] == s[i..i + |q|];
        assert OccursAt(s, q, i);
      }
    }
  }

  lemma {:induction false} LowerAllAppend(a: string, b: string)
    ensures LowerAll(a + b) == LowerAll(a) + LowerAll(b)
  {
    var l, la, lb := LowerAll(a + b), LowerAll(a), LowerAll(b);
    var r := la + lb;
    assert |l| == |r|;
    forall i | 0 <= i < |l|
      ensures l[i] == r[i]
    {
      if i < |a| {
        assert (a + b)[i] == a[i] && r[i] == la[i];
      } else {
        assert (a + b)[i] == b[i - |a|] && r[i] == lb[i - |a|];
      }
    }
    assert l == r;
  }

  /**
   * The search filter of `resolve_multiple`: `column ILIKE '%q%'` holds exactly when
   * `q` occurs in the column ignoring ASCII case, for a search string without
   * wildcard characters. (A `%`, `_` or `\` typed into the search is not escaped and
   * keeps its `LIKE` meaning.)
   */
  lemma SearchIsCaseInsensitiveSubstring(s: string, q: string)
    requires NoWildcards(q)
    ensures ILike(s, "%" + q + "%") <==> Contains(LowerAll(s), LowerAll(q))
  {
    LowerAllAppend("%" + q, "%");
    LowerAllAppend("%", q);
    assert LowerAll("%") == "%";
    var lq := LowerAll(q);
    forall i | 0 <= i < |lq|
      ensures lq[i] != '%' && lq[i] != '_' && lq[i] != '\\'
    {
      assert lq[i] == ToLower(q[i]);
    }
    ContainsPattern(LowerAll(s), lq);
  }

  /** A pattern that ends in `%` is never refused, whatever comes before it. */
  lemma {:induction false} PercentEndedPatternAccepted(p: string)
    ensures WellFormedPattern(p + "%")
  {
    if p == [] {
      assert p + "%" == "%";
      assert "%"[1..] == [];
    } else if p[0] == '\\' && |p| == 1 {
      assert (p + "%")[2..] == [];
    } else if p[0] == '\\' {
      assert (p + "%")[2..] == p[2..] + "%";
      PercentEndedPatternAccepted(p[2..]);
    } else {
      assert (p + "%")[1..] == p[1..] + "%";
      PercentEndedPatternAccepted(p[1..]);
    }
  }

  /**
   * The search pattern `%q%` is accepted by the database for every search string,
   * even one ending in `\` (which then escapes the closing `%`).
   */
  lemma SearchPatternAccepted(q: string)
    ensures WellFormedPattern(LowerAll("%" + q + "%"))
  {
    LowerAllAppend("%" + q, "%");
    LowerAllAppend("%", q);
    assert LowerAll("%") == "%";
    assert "%" + LowerAll(q) + "%" == ("%" + LowerAll(q)) + "%";
    PercentEndedPatternAccepted("%" + LowerAll(q));
  }

  /** An unescaped `_` in the search matches any character: `%a_c%` matches "ABC" and "axc". */
  lemma UnderscoreInSearchIsAWildcard()
    ensures ILike("ABC", "%a_c%") && ILike("axc", "%a_c%")
  {
    assert LowerAll("ABC") == "abc";
    assert LowerAll("%a_c%") == "%a_c%";
    assert LowerAll("axc") == "axc";
    assert Like("", "%");
    assert Like("c", "c%");
    assert Like("bc", "_c%");
    assert Like("xc", "_c%");
    assert Like("abc", "a_c%");
    assert Like("axc", "a_c%");
  }
}
