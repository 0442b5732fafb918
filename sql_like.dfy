/**
 * PostgreSQL's `LIKE` and `ILIKE` pattern match, as the service query
 * `.ilike('name', '%' + serviceName + '%')` runs it: `%` matches any run of
 * characters, `_` matches any one character, and a backslash (the default
 * escape character) makes the character after it literal. `ILIKE` folds
 * both sides to lower case first. The filter reaches the database through
 * PostgREST, which first reads every `*` of a `like`/`ilike` value as `%`
 * (`StarAsPercent`).
 */
module SqlLike {
  import opened Text

  predicate IsPatternChar(c: char) {
    c == '%' || c == '_' || c == '\\'
  }

  /**
   * `s LIKE pat`. A pattern that ends in a lone backslash is an error in
   * PostgreSQL; the query then returns no rows, so it matches nothing here.
   */
  predicate Like(s: string, pat: string)
    decreases |s| + |pat|
  {
    if pat == [] then s == []
    else if pat[0] == '%' then Like(s, pat[1..]) || (s != [] && Like(s[1..], pat))
    else if pat[0] == '_' then s != [] && Like(s[1..], pat[1..])
    else if pat[0] == '\\' then |pat| >= 2 && s != [] && s[0] == pat[1] && Like(s[1..], pat[2..])
    else s != [] && s[0] == pat[0] && Like(s[1..], pat[1..])
  }

  /** `s ILIKE pat` */
  predicate ILike(s: string, pat: string) {
    Like(Lower(s), Lower(pat))
  }

  /** `%` + `query` + `%`, the pattern of a "name contains" search. */
  function ContainsPattern(query: string): (p: string)
    ensures |p| == |query| + 2 && p[0] == '%' && p[|p| - 1] == '%'
  {
    "%" + query + "%"
  }

  /** PostgREST's `like`/`ilike` value: each `*` is an alias of `%`. */
  function StarAsPercent(v: string): (r: string)
    ensures |r| == |v|
    ensures forall i :: 0 <= i < |v| ==> r[i] == (if v[i] == '*' then '%' else v[i])
  {
    seq(|v|, i requires 0 <= i < |v| => if v[i] == '*' then '%' else v[i])
  }

  /** No `*` occurs in `v`. */
  predicate NoStar(v: string) {
    forall i :: 0 <= i < |v| ==> v[i] != '*'
  }

  /** A value without `*` reaches the database unchanged, and `%q%` keeps having no `*`. */
  lemma StarlessUnchanged(q: string)
    requires NoStar(q)
    ensures StarAsPercent(q) == q
    ensures StarAsPercent(ContainsPattern(q)) == ContainsPattern(q)
  {
    var p := ContainsPattern(q);
    assert NoStar(p) by {
      forall i | 0 <= i < |p| ensures p[i] != '*' {
        if 0 < i < |p| - 1 {
          assert p[i] == q[i - 1];
        }
      }
    }
  }

  /** The query `*` becomes the pattern `%%%`. */
  lemma StarIsPercent()
    ensures StarAsPercent(ContainsPattern("*")) == ContainsPattern("%")
  {
    assert ContainsPattern("*") == "%*%";
    assert ContainsPattern("%") == "%%%";
  }

  /** A query without pattern characters: every character stands for itself. */
  predicate Literal(q: string) {
    forall i :: 0 <= i < |q| ==> !IsPatternChar(q[i])
  }

  /** A query without `%` and backslashes: its characters are literal or `_`. */
  predicate Simple(q: string) {
    forall i :: 0 <= i < |q| ==> q[i] != '%' && q[i] != '\\'
  }

  /** `t` starts with `q`, reading each `_` of `q` as any character. */
  predicate PrefixFits(t: string, q: string) {
    |q| <= |t| && forall i :: 0 <= i < |q| ==> q[i] == '_' || t[i] == q[i]
  }

  /** `q`, reading `_` as any character, occurs somewhere in `s`. */
  predicate FitsSomewhere(s: string, q: string)
    decreases |s|
  {
    PrefixFits(s, q) || (s != [] && FitsSomewhere(s[1..], q))
  }

  /** A lone `%` matches every string. */
  lemma {:induction false} LikeAny(s: string)
    ensures Like(s, "%")
    decreases |s|
  {
    assert "%"[1..] == [];
    if s != [] {
      LikeAny(s[1..]);
    }
  }

  /** A simple query followed by `%` matches exactly the strings it fits at the start. */
  lemma {:induction false} LikePrefix(t: string, q: string)
    requires Simple(q)
    ensures Like(t, q + "%") <==> PrefixFits(t, q)
    decreases |q|
  {
    var pat := q + "%";
    if q == [] {
      assert pat == "%";
      LikeAny(t);
    } else {
      assert pat[0] == q[0] && pat[1..] == q[1..] + "%";
      var rest := q[1..];
      assert Simple(rest) by {
        assert forall i :: 0 <= i < |rest| ==> rest[i] == q[i + 1];
      }
      if t != [] {
        LikePrefix(t[1..], rest);
        assert PrefixFits(t, q) <==> (q[0] == '_' || t[0] == q[0]) && PrefixFits(t[1..], rest) by {
          assert forall i :: 0 <= i < |rest| ==> rest[i] == q[i + 1];
          assert forall i :: 0 <= i < |t| - 1 ==> t[1..][i] == t[i + 1];
          if (q[0] == '_' || t[0] == q[0]) && PrefixFits(t[1..], rest) {
            assert forall i :: 0 < i < |q| ==> q[i] == '_' || t[i] == q[i] by {
              forall i | 0 < i < |q| ensures q[i] == '_' || t[i] == q[i] {
                assert rest[i - 1] == q[i];
              }
            }
          }
        }
      }
    }
  }

  /** `%q%` with a simple `q` matches exactly the strings `q` fits somewhere in. */
  lemma {:induction false} LikeSomewhere(s: string, q: string)
    requires Simple(q)
    ensures Like(s, ContainsPattern(q)) <==> FitsSomewhere(s, q)
    decreases |s|
  {
    var p := q + "%";
    var pat := ContainsPattern(q);
    assert pat[0] == '%' && pat[1..] == p;
    LikePrefix(s, q);
    if s != [] {
      LikeSomewhere(s[1..], q);
    }
  }

  /** For a literal query, fitting somewhere is JavaScript's `includes`. */
  lemma {:induction false} FitsLiteral(s: string, q: string)
    requires Literal(q)
    ensures FitsSomewhere(s, q) <==> Contains(s, q)
    decreases |s|
  {
    assert PrefixFits(s, q) <==> StartsWith(s, q) by {
      if PrefixFits(s, q) {
        assert s[..|q|] == q;
      }
    }
    if s != [] {
      FitsLiteral(s[1..], q);
    }
  }

  /** Lower-casing changes no pattern character and makes none. */
  lemma LowerKeepsPattern(q: string)
    ensures Lower(ContainsPattern(q)) == ContainsPattern(Lower(q))
    ensures Simple(q) ==> Simple(Lower(q))
    ensures Literal(q) ==> Literal(Lower(q))
  {
    LowerConcat("%" + q, "%");
    LowerConcat("%", q);
  }

  /**
   * A service-name search with a literal query is the case-insensitive
   * substring test `name.toLowerCase().includes(query.toLowerCase())`.
   */
  lemma ILikeLiteral(name: string, query: string)
    requires Literal(query)
    ensures ILike(name, ContainsPattern(query)) <==> Contains(Lower(name), Lower(query))
  {
    LowerKeepsPattern(query);
    LikeSomewhere(Lower(name), Lower(query));
    FitsLiteral(Lower(name), Lower(query));
  }

  /** The query `%` matches every name. */
  lemma PercentMatchesAll(name: string)
    ensures ILike(name, ContainsPattern("%"))
  {
    var s := Lower(name);
    assert Lower(ContainsPattern("%")) == "%%%";
    assert "%%%"[1..] == "%%" && "%%"[1..] == "%";
    LikeAny(s);
  }

  /** The query `_` matches every name that is not empty. */
  lemma UnderscoreMatchesAnyChar(name: string)
    requires name != []
    ensures ILike(name, ContainsPattern("_"))
  {
    assert Simple("_");
    assert PrefixFits(Lower(name), "_");
    LowerKeepsPattern("_");
    assert Lower("_") == "_";
    LikeSomewhere(Lower(name), "_");
  }

  /**
   * `_` stands for the space of a two-word name: the query `a_b` finds the
   * name `a b` (so "hair_cut" finds "Hair Cut").
   */
  lemma UnderscoreFindsSpace(a: string, b: string)
    requires Simple(a) && Simple(b)
    ensures ILike(a + " " + b, ContainsPattern(a + "_" + b))
  {
    var n, q := a + " " + b, a + "_" + b;
    var ln, lq := Lower(n), Lower(q);
    assert Simple(q) by {
      forall i | 0 <= i < |q| ensures q[i] != '%' && q[i] != '\\' {
        if i > |a| {
          assert q[i] == b[i - |a| - 1];
        }
      }
    }
    LowerKeepsPattern(q);
    assert PrefixFits(ln, lq) by {
      forall i | 0 <= i < |lq| ensures lq[i] == '_' || ln[i] == lq[i] {
        if i != |a| {
          assert n[i] == q[i];
        }
      }
    }
    LikeSomewhere(ln, lq);
  }
}
