/** Permission scopes: when a granted scope covers a required one, and what an operation accepts. */
module Scopes {

  predicate StartsWith(s: string, prefix: string) {
    |prefix| <= |s| && s[..|prefix|] == prefix
  }

  /** A scope that ends in `:*`: everything below its prefix. */
  predicate Family(scope: string) {
    |scope| >= 2 && scope[|scope| - 2..] == ":*"
  }

  predicate ScopeMatches(granted: string, required: string) {
    || granted == "*"
    || granted == required
    || (Family(granted) && StartsWith(required, granted[..|granted| - 2] + ":"))
  }

  /** The scope check of `authorize`: some granted scope covers some accepted one. */
  predicate Accepts(granted: seq<string>, accepted: seq<string>) {
    exists g, a | g in granted && a in accepted :: ScopeMatches(g, a)
  }

  /** The session's own, exact check. */
  predicate HasScope(granted: seq<string>, scope: string) {
    exists g | g in granted :: g == "*" || g == scope
  }

  const WRITE_MEMORY: seq<string> := ["memory:write", "memory:*", "*"]
  const READ_MEMORY: seq<string> := ["memory:read", "memory:*", "*"]
  const SEARCH_MEMORY: seq<string> := ["memory:read", "memory:search", "memory:*", "*"]

  // ---------------------------------------------------------------- a partial order

  /** A family covers exactly what begins with it up to its star. */
  lemma FamilyCovers(family: string, required: string)
    requires Family(family)
    ensures StartsWith(required, family[..|family| - 2] + ":") <==> StartsWith(required, family[..|family| - 1])
  {
    assert family[|family| - 2] == family[|family| - 2..][0] == ':';
    assert family[..|family| - 2] + ":" == family[..|family| - 1];
  }

  lemma EndsLikeAFamily(family: string)
    requires Family(family)
    ensures family[|family| - 2] == ':' && family[|family| - 1] == '*'
    ensures family == family[..|family| - 1] + "*"
  {
    assert family[|family| - 2] == family[|family| - 2..][0] && family[|family| - 1] == family[|family| - 2..][1];
  }

  lemma OnlyStarCoversStar(granted: string)
    ensures ScopeMatches(granted, "*") <==> granted == "*"
  {
    if Family(granted) {
      FamilyCovers(granted, "*");
      EndsLikeAFamily(granted);
      var upToStar := granted[..|granted| - 1];
      assert upToStar[|upToStar| - 1] == ':';
      assert StartsWith("*", upToStar) ==> upToStar == "*";
    }
  }

  lemma StartsWithIsTransitive(c: string, q: string, p: string)
    requires StartsWith(c, q) && StartsWith(q, p)
    ensures StartsWith(c, p)
  {
    assert q[..|p|] == c[..|q|][..|p|] == c[..|p|];
  }

  /** Two families: one covers the other only if its prefix is no longer. */
  lemma FamilyInFamily(a: string, b: string)
    requires Family(a) && Family(b) && StartsWith(b, a[..|a| - 1])
    ensures |a| <= |b| && StartsWith(b[..|b| - 1], a[..|a| - 1])
  {
    EndsLikeAFamily(a);
    EndsLikeAFamily(b);
    assert b[|a| - 2] == a[..|a| - 1][|a| - 2] == ':';
    assert b[..|a| - 1] == b[..|b| - 1][..|a| - 1];
  }

  lemma FamiliesAreAntisymmetric(a: string, b: string)
    requires Family(a) && Family(b) && StartsWith(b, a[..|a| - 1]) && StartsWith(a, b[..|b| - 1])
    ensures a == b
  {
    FamilyInFamily(a, b);
    FamilyInFamily(b, a);
    EndsLikeAFamily(a);
    EndsLikeAFamily(b);
  }

  /** `ScopeMatches` is a partial order on all strings, and `*` is its greatest element. */
  lemma ScopesAreOrdered(a: string, b: string, c: string)
    ensures ScopeMatches("*", a)
    ensures ScopeMatches(a, a)
    ensures ScopeMatches(a, b) && ScopeMatches(b, c) ==> ScopeMatches(a, c)
    ensures ScopeMatches(a, b) && ScopeMatches(b, a) ==> a == b
  {
    if a != b && ScopeMatches(a, b) && (ScopeMatches(b, c) || ScopeMatches(b, a)) {
      OnlyStarCoversStar(b);
      OnlyStarCoversStar(a);
      if a != "*" {
        FamilyCovers(a, b);
        FamilyCovers(a, c);
        if b != c && ScopeMatches(b, c) {
          FamilyCovers(b, c);
          FamilyInFamily(a, b);
          StartsWithIsTransitive(c, b[..|b| - 1], a[..|a| - 1]);
        }
        if ScopeMatches(b, a) {
          FamilyCovers(b, a);
          FamiliesAreAntisymmetric(a, b);
        }
      }
    }
  }

  /** A family covers itself and what goes on after its colon; any other scope but `*` covers itself alone. */
  lemma ScopeCoversExactly(prefix: string, scope: string, required: string)
    ensures ScopeMatches(prefix + ":*", required)
       <==> required == prefix + ":*" || exists rest :: required == prefix + ":" + rest
    ensures scope != "*" && !Family(scope) ==> (ScopeMatches(scope, required) <==> scope == required)
  {
    var family := prefix + ":*";
    assert family[..|family| - 2] == prefix && family[|family| - 2..] == ":*";
    if StartsWith(required, prefix + ":") {
      assert required == prefix + ":" + required[|prefix| + 1..];
    }
    forall rest | required == prefix + ":" + rest
      ensures StartsWith(required, prefix + ":")
    {
    }
  }

  // ---------------------------------------------------------------- authorisation

  /** Every scope of `less` is covered by one of `more`. */
  predicate Covered(less: seq<string>, more: seq<string>) {
    forall g | g in less :: exists h | h in more :: ScopeMatches(h, g)
  }

  /** Granting more never takes a permission away. */
  lemma AcceptsIsMonotone(less: seq<string>, more: seq<string>, accepted: seq<string>)
    requires Covered(less, more) && Accepts(less, accepted)
    ensures Accepts(more, accepted)
  {
    var g, a :| g in less && a in accepted && ScopeMatches(g, a);
    var h :| h in more && ScopeMatches(h, g);
    ScopesAreOrdered(h, g, a);
  }

  /** Accepting what covers an accepted scope anyway adds nothing. */
  lemma WiderEntriesAreRedundant(granted: seq<string>, accepted: seq<string>, wider: string)
    requires exists a | a in accepted :: ScopeMatches(wider, a)
    ensures Accepts(granted, accepted + [wider]) <==> Accepts(granted, accepted)
  {
    if Accepts(granted, accepted + [wider]) && !Accepts(granted, accepted) {
      var g, w :| g in granted && w in accepted + [wider] && ScopeMatches(g, w);
      var a :| a in accepted && ScopeMatches(wider, a);
      ScopesAreOrdered(g, wider, a);
    }
  }

  /** So each operation asks for its own scope only: the fallbacks in its list are implied. */
  lemma FallbacksAreRedundant(granted: seq<string>)
    ensures Accepts(granted, WRITE_MEMORY) <==> Accepts(granted, ["memory:write"])
    ensures Accepts(granted, READ_MEMORY) <==> Accepts(granted, ["memory:read"])
    ensures Accepts(granted, SEARCH_MEMORY) <==> Accepts(granted, ["memory:read", "memory:search"])
  {
    assert "memory:write"[..7] == "memory:" && "memory:read"[..7] == "memory:";
    Fallbacks(granted, ["memory:write"], "memory:write");
    Fallbacks(granted, ["memory:read"], "memory:read");
    Fallbacks(granted, ["memory:read", "memory:search"], "memory:read");
  }

  lemma Fallbacks(granted: seq<string>, own: seq<string>, scope: string)
    requires scope in own && StartsWith(scope, "memory:")
    ensures Accepts(granted, own + ["memory:*", "*"]) <==> Accepts(granted, own)
  {
    assert "memory:*"[..6] == "memory" && "memory:*"[6..] == ":*" && "memory" + ":" == "memory:";
    assert ScopeMatches("memory:*", scope);
    WiderEntriesAreRedundant(granted, own, "memory:*");
    assert scope in own + ["memory:*"] && ScopeMatches("*", scope);
    WiderEntriesAreRedundant(granted, own + ["memory:*"], "*");
    assert own + ["memory:*", "*"] == (own + ["memory:*"]) + ["*"];
  }

  /** The session's exact check is the stricter one; they differ exactly on families. */
  lemma HasScopeIsStricter(granted: seq<string>, scope: string)
    ensures HasScope(granted, scope) ==> Accepts(granted, [scope])
    ensures Accepts(granted, [scope]) && !HasScope(granted, scope) ==>
              exists g :: g in granted && Family(g) && g != scope && ScopeMatches(g, scope)
  {
    if HasScope(granted, scope) {
      var g :| g in granted && (g == "*" || g == scope);
      assert scope in [scope] && ScopeMatches(g, scope);
    } else if Accepts(granted, [scope]) {
      var g, a :| g in granted && a in [scope] && ScopeMatches(g, a);
      assert Family(g) && g != scope;
    }
  }
}
