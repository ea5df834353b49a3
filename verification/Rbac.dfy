/** Scopes and roles (`src/rbac.rs`), and the capping of requested scopes (`src/oauth/mod.rs`). */
module Rbac {
  import opened Results
  import opened Names

  // ----- Roles -----

  const VIEWER_SCOPES: set<string> := {"app:read", "harness:read", "receipts:read", "billing:read"}

  const MEMBER_SCOPES: set<string> :=
    {"app:read", "app:deploy", "app:control", "env:provision", "storage:read", "storage:write", "build:run",
     "db:read", "harness:read", "harness:provision", "harness:control", "receipts:read", "billing:read",
     "finance:read", "finance:write"}

  const ALL_SCOPES: set<string> :=
    {"app:read", "app:deploy", "app:control", "env:provision", "storage:read", "storage:write", "build:run",
     "db:read", "db:write", "harness:read", "harness:provision", "harness:control", "receipts:read",
     "billing:read", "billing:manage", "finance:read", "finance:write", "finance:connect"}

  predicate KnownRole(role: string) {
    role in {"owner", "admin", "member", "viewer"}
  }

  function ScopesForRole(role: string): set<string> {
    match role
    case "owner" => ALL_SCOPES
    case "admin" => MEMBER_SCOPES
    case "member" => MEMBER_SCOPES
    case "viewer" => VIEWER_SCOPES
    case _ => {}
  }

  /** A missing or empty list stands for the whole role. */
  function EffectiveScopes(role: string, granted: Option<seq<string>>): set<string> {
    if granted.Some? && granted.value != [] then ScopesForRole(role) * Elems(granted.value)
    else ScopesForRole(role)
  }

  /** Roles are nested: owner over admin, the same as member, over viewer. */
  lemma RolesNest(role: string)
    ensures KnownRole(role) ==> VIEWER_SCOPES <= ScopesForRole(role) <= ALL_SCOPES
    ensures !KnownRole(role) ==> ScopesForRole(role) == {}
    ensures VIEWER_SCOPES <= MEMBER_SCOPES <= ALL_SCOPES
  {
  }

  /** What the roles differ in: three scopes are the owner's alone, and eleven are beyond a viewer. Admins and
      members hold the same. */
  lemma RoleDifferences()
    ensures ScopesForRole("owner") - ScopesForRole("member") == {"db:write", "billing:manage", "finance:connect"}
    ensures ScopesForRole("admin") == ScopesForRole("member")
    ensures ScopesForRole("member") - ScopesForRole("viewer") ==
            {"app:deploy", "app:control", "env:provision", "storage:read", "storage:write", "build:run", "db:read",
             "harness:provision", "harness:control", "finance:read", "finance:write"}
    ensures ScopesForRole("viewer") == {"app:read", "harness:read", "receipts:read", "billing:read"}
  {
  }

  // ----- Capping -----

  const DEFAULT_SCOPES := ["app:read", "harness:read", "receipts:read", "billing:read"]

  function Filter(s: seq<string>, kept: set<string>): seq<string> {
    if s == [] then [] else (if s[0] in kept then [s[0]] else []) + Filter(s[1..], kept)
  }

  /** Drop the second of equal neighbours. */
  function Dedup(s: seq<string>): seq<string> {
    if |s| < 2 then s else if s[0] == s[1] then Dedup(s[1..]) else [s[0]] + Dedup(s[1..])
  }

  /** What a consent grants: the requested scopes the role holds, or the default ones it holds. */
  function CapScopes(requested: seq<string>, role: string): seq<string> {
    var grantable := ScopesForRole(role);
    var out := Filter(requested, grantable);
    Dedup(Sort(if out == [] then Filter(DEFAULT_SCOPES, grantable) else out))
  }

  lemma ElemsConcat(a: seq<string>, b: seq<string>)
    ensures Elems(a + b) == Elems(a) + Elems(b)
  {
  }

  lemma {:induction false} FilterElems(s: seq<string>, kept: set<string>)
    ensures Elems(Filter(s, kept)) == Elems(s) * kept
  {
    if s != [] {
      FilterElems(s[1..], kept);
      assert s == [s[0]] + s[1..];
      ElemsConcat([s[0]], s[1..]);
      ElemsConcat(if s[0] in kept then [s[0]] else [], Filter(s[1..], kept));
    }
  }

  lemma {:induction false} DedupSorted(s: seq<string>)
    requires Sorted(s)
    ensures Elems(Dedup(s)) == Elems(s) && Sorted(Dedup(s)) && NoDup(Dedup(s))
    ensures s != [] ==> Dedup(s) != [] && Dedup(s)[0] == s[0]
  {
    if |s| >= 2 {
      var rest := s[1..];
      DedupSorted(rest);
      assert s == [s[0]] + rest;
      ElemsConcat([s[0]], rest);
      if s[0] == s[1] {
        assert s[0] in Elems(rest);
      } else {
        ElemsConcat([s[0]], Dedup(rest));
        forall x | x in rest ensures Le(s[0], x) && x != s[0] {
          var i :| 0 <= i < |rest| && rest[i] == x;
          if x == s[0] {
            LeAntisymmetric(s[0], s[1]);
          }
        }
        forall i | 0 <= i < |Dedup(rest)| ensures Dedup(rest)[i] in rest {
          assert Dedup(rest)[i] in Elems(Dedup(rest));
        }
      }
    }
  }

  /** The grant as a set: never more than the role, and the default only when nothing asked for is held. */
  function GrantedSet(requested: seq<string>, role: string): set<string> {
    var held := Elems(requested) * ScopesForRole(role);
    if held == {} then VIEWER_SCOPES * ScopesForRole(role) else held
  }

  /** The grant is the listing of that set in order, whatever the order and repetitions of the request. */
  lemma CapScopesIs(requested: seq<string>, role: string)
    ensures Elems(CapScopes(requested, role)) == GrantedSet(requested, role)
    ensures CapScopes(requested, role) == Listing(GrantedSet(requested, role))
    ensures GrantedSet(requested, role) <= ScopesForRole(role)
  {
    var grantable := ScopesForRole(role);
    var out := Filter(requested, grantable);
    var kept := if out == [] then Filter(DEFAULT_SCOPES, grantable) else out;
    FilterElems(requested, grantable);
    FilterElems(DEFAULT_SCOPES, grantable);
    assert Elems(DEFAULT_SCOPES) == VIEWER_SCOPES;
    assert out != [] ==> out[0] in Elems(out);
    SortSorts(kept);
    SameElems(Sort(kept), kept);
    DedupSorted(Sort(kept));
    SortedNoDupIsListing(CapScopes(requested, role));
  }

  lemma SameElems(a: seq<string>, b: seq<string>)
    requires multiset(a) == multiset(b)
    ensures Elems(a) == Elems(b)
  {
    forall x ensures x in a <==> x in b {
      assert x in a <==> x in multiset(a);
      assert x in b <==> x in multiset(b);
    }
  }

  lemma SortedNoDupIsListing(s: seq<string>)
    requires Sorted(s) && NoDup(s)
    ensures s == Listing(Elems(s))
  {
    NoDupMultiset(s);
    ListingSorts(Elems(s));
    SortedUnique(s, Listing(Elems(s)));
  }

  /** A grant is empty exactly for a role nobody defined. */
  lemma CapEmptyIff(requested: seq<string>, role: string)
    ensures CapScopes(requested, role) == [] <==> !KnownRole(role)
  {
    CapScopesIs(requested, role);
    ListingElems(GrantedSet(requested, role));
    RolesNest(role);
    if KnownRole(role) {
      assert "app:read" in VIEWER_SCOPES * ScopesForRole(role);
    }
  }

  /** Used under any role at all, a grant stays within what was granted exactly when the role that capped it
      was a known one: the empty grant of an unknown role stands for the whole of a later role. */
  lemma CapBoundsEffectiveIff(requested: seq<string>, role: string)
    ensures (forall now :: EffectiveScopes(now, Some(CapScopes(requested, role))) <= Elems(CapScopes(requested, role)))
            <==> KnownRole(role)
  {
    CapEmptyIff(requested, role);
    if !KnownRole(role) {
      assert "app:read" in EffectiveScopes("owner", Some(CapScopes(requested, role)));
    }
  }

  /** Capping again under the same role changes nothing. */
  lemma CapTwice(requested: seq<string>, role: string)
    ensures CapScopes(CapScopes(requested, role), role) == CapScopes(requested, role)
  {
    CapScopesIs(requested, role);
    CapScopesIs(CapScopes(requested, role), role);
    assert GrantedSet(CapScopes(requested, role), role) == GrantedSet(requested, role);
  }
}
