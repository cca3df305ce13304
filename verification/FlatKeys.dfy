/** The composed string keys of the memory store. */
module FlatKeys {
  import opened Model

  const NUL: string := "\0"

  predicate NulFree(s: string) {
    '\0' !in s
  }

  function CompanyKey(tenant: string, company: string): string {
    tenant + NUL + company
  }

  function EntityKey(tenant: string, company: string, id: string): string {
    CompanyKey(tenant, company) + NUL + id
  }

  function IdempotencyKey(tenant: string, company: string, operation: string, key: string): string {
    EntityKey(tenant, company, operation) + NUL + key
  }

  function PermissionKey(scope: Scope, actor: string, permission: string): string {
    EntityKey(scope.tenant, scope.company, actor) + NUL + scope.branch + NUL + scope.warehouse + NUL + permission
  }

  /** Components separated by NUL, which is what all four builders produce. */
  function Joined(parts: seq<string>): string
    requires parts != []
  {
    if |parts| == 1 then parts[0] else parts[0] + NUL + Joined(parts[1..])
  }

  lemma CutAtNul(a: string, x: string, b: string, y: string)
    requires NulFree(a) && NulFree(b) && a + NUL + x == b + NUL + y
    ensures a == b && x == y
  {
    var s := a + NUL + x;
    assert forall i :: 0 <= i < |a| ==> s[i] == a[i] && a[i] in a;
    assert forall i :: 0 <= i < |b| ==> s[i] == b[i] && b[i] in b;
    assert s[|a|] == '\0' && s[|b|] == '\0';
    assert s[..|a|] == a && s[..|b|] == b;
    assert s[|a| + 1..] == x && s[|b| + 1..] == y;
  }

  /** Keys of one arity are distinct when every component but the last is free of NUL. */
  lemma {:induction false} JoinedInjective(p: seq<string>, q: seq<string>)
    requires |p| == |q| > 0 && Joined(p) == Joined(q)
    requires forall i :: 0 <= i < |p| - 1 ==> NulFree(p[i]) && NulFree(q[i])
    ensures p == q
  {
    if |p| > 1 {
      CutAtNul(p[0], Joined(p[1..]), q[0], Joined(q[1..]));
      JoinedInjective(p[1..], q[1..]);
    }
  }

  function EntityParts(k: EntityId): seq<string> {
    [k.tenant, k.company, k.id]
  }

  function ClaimParts(c: ClaimId): seq<string> {
    [c.tenant, c.company, c.operation, c.key]
  }

  function PermissionParts(p: Permission): seq<string> {
    [p.scope.tenant, p.scope.company, p.actor, p.scope.branch, p.scope.warehouse, p.code]
  }

  lemma JoinedTwo(a: string, b: string)
    ensures Joined([a, b]) == CompanyKey(a, b)
  {
  }

  /** A composed prefix followed by more components. */
  lemma JoinedMore(prefix: seq<string>, rest: seq<string>)
    requires prefix != [] && rest != []
    ensures Joined(prefix + rest) == Joined(prefix) + NUL + Joined(rest)
  {
    if |prefix| == 1 {
      assert (prefix + rest)[1..] == rest;
    } else {
      JoinedMore(prefix[1..], rest);
      assert (prefix + rest)[1..] == prefix[1..] + rest;
      assert prefix[0] + NUL + (Joined(prefix[1..]) + NUL + Joined(rest))
          == (prefix[0] + NUL + Joined(prefix[1..])) + NUL + Joined(rest);
    }
  }

  lemma EntityJoin(k: EntityId)
    ensures EntityKey(k.tenant, k.company, k.id) == Joined(EntityParts(k))
  {
    JoinedTwo(k.tenant, k.company);
    JoinedMore([k.tenant, k.company], [k.id]);
    assert EntityParts(k) == [k.tenant, k.company] + [k.id];
  }

  lemma ClaimJoin(c: ClaimId)
    ensures IdempotencyKey(c.tenant, c.company, c.operation, c.key) == Joined(ClaimParts(c))
  {
    var k := EntityId(c.tenant, c.company, c.operation);
    EntityJoin(k);
    JoinedMore(EntityParts(k), [c.key]);
    assert ClaimParts(c) == EntityParts(k) + [c.key];
  }

  lemma PermissionJoin(p: Permission)
    ensures PermissionKey(p.scope, p.actor, p.code) == Joined(PermissionParts(p))
  {
    var k := EntityId(p.scope.tenant, p.scope.company, p.actor);
    var a := EntityParts(k);
    EntityJoin(k);
    JoinedMore(a, [p.scope.branch]);
    JoinedMore(a + [p.scope.branch], [p.scope.warehouse]);
    JoinedMore(a + [p.scope.branch] + [p.scope.warehouse], [p.code]);
    assert PermissionParts(p) == a + [p.scope.branch] + [p.scope.warehouse] + [p.code];
  }

  predicate CleanScope(scope: Scope) {
    NulFree(scope.tenant) && NulFree(scope.company) && NulFree(scope.branch) && NulFree(scope.warehouse)
  }

  // The builders are injective on components free of NUL; the last component is arbitrary.

  lemma CompanyKeyInjective(c: CompanyId, d: CompanyId)
    requires NulFree(c.tenant) && NulFree(d.tenant)
    requires CompanyKey(c.tenant, c.company) == CompanyKey(d.tenant, d.company)
    ensures c == d
  {
    CutAtNul(c.tenant, c.company, d.tenant, d.company);
  }

  lemma EntityKeyInjective(k: EntityId, k': EntityId)
    requires NulFree(k.tenant) && NulFree(k.company) && NulFree(k'.tenant) && NulFree(k'.company)
    requires EntityKey(k.tenant, k.company, k.id) == EntityKey(k'.tenant, k'.company, k'.id)
    ensures k == k'
  {
    EntityJoin(k);
    EntityJoin(k');
    JoinedInjective(EntityParts(k), EntityParts(k'));
    SameParts(EntityParts(k), EntityParts(k'));
  }

  lemma ClaimKeyInjective(c: ClaimId, c': ClaimId)
    requires NulFree(c.tenant) && NulFree(c.company) && NulFree(c.operation)
    requires NulFree(c'.tenant) && NulFree(c'.company) && NulFree(c'.operation)
    requires IdempotencyKey(c.tenant, c.company, c.operation, c.key)
      == IdempotencyKey(c'.tenant, c'.company, c'.operation, c'.key)
    ensures c == c'
  {
    ClaimJoin(c);
    ClaimJoin(c');
    JoinedInjective(ClaimParts(c), ClaimParts(c'));
    SameParts(ClaimParts(c), ClaimParts(c'));
  }

  lemma PermissionKeyInjective(p: Permission, p': Permission)
    requires CleanScope(p.scope) && NulFree(p.actor) && CleanScope(p'.scope) && NulFree(p'.actor)
    requires PermissionKey(p.scope, p.actor, p.code) == PermissionKey(p'.scope, p'.actor, p'.code)
    ensures p == p'
  {
    PermissionJoin(p);
    PermissionJoin(p');
    JoinedInjective(PermissionParts(p), PermissionParts(p'));
    SameParts(PermissionParts(p), PermissionParts(p'));
  }

  lemma SameParts(p: seq<string>, q: seq<string>)
    requires p == q
    ensures forall i :: 0 <= i < |p| ==> p[i] == q[i]
  {
  }

  /** With a NUL inside a component two different customers share one key. */
  lemma NulCollides()
    ensures EntityKey("a", "b\0c", "d") == EntityKey("a\0b", "c", "d")
  {
  }

  function Nuls(s: string): nat {
    if s == "" then 0 else (if s[0] == '\0' then 1 else 0) + Nuls(s[1..])
  }

  lemma {:induction false} NulsAdd(a: string, b: string)
    ensures Nuls(a + b) == Nuls(a) + Nuls(b)
  {
    if a == "" {
      assert a + b == b;
    } else {
      assert (a + b)[1..] == a[1..] + b;
      NulsAdd(a[1..], b);
    }
  }

  lemma {:induction false} NulFreeCount(s: string)
    ensures NulFree(s) <==> Nuls(s) == 0
  {
    if s == "" {
    } else {
      NulFreeCount(s[1..]);
    }
  }

  /** NULs inside the components. */
  function InnerNuls(parts: seq<string>): nat {
    if parts == [] then 0 else Nuls(parts[0]) + InnerNuls(parts[1..])
  }

  lemma {:induction false} JoinedNuls(parts: seq<string>)
    requires parts != []
    ensures Nuls(Joined(parts)) == InnerNuls(parts) + |parts| - 1
  {
    if |parts| == 1 {
      assert parts[1..] == [];
    } else {
      JoinedNuls(parts[1..]);
      NulsAdd(parts[0] + NUL, Joined(parts[1..]));
      NulsAdd(parts[0], NUL);
      assert NUL[1..] == "";
    }
  }

  ghost predicate Clear(parts: seq<string>) {
    forall i :: 0 <= i < |parts| ==> NulFree(parts[i])
  }

  lemma {:induction false} ClearCount(parts: seq<string>)
    ensures Clear(parts) <==> InnerNuls(parts) == 0
  {
    if parts == [] {
    } else {
      NulFreeCount(parts[0]);
      ClearCount(parts[1..]);
      assert Clear(parts) <==> NulFree(parts[0]) && Clear(parts[1..]) by {
        if NulFree(parts[0]) && Clear(parts[1..]) {
          forall i | 0 <= i < |parts| ensures NulFree(parts[i]) {
            assert i > 0 ==> parts[i] == parts[1..][i - 1];
          }
        }
        if Clear(parts) {
          forall i | 0 <= i < |parts| - 1 ensures NulFree(parts[1..][i]) {
            assert parts[1..][i] == parts[i + 1];
          }
        }
      }
    }
  }

  ghost predicate Collides(p: seq<string>) {
    exists q :: |q| == |p| && q != p && Joined(q) == Joined(p)
  }

  /** Two parts around a NUL can be cut at another one. */
  lemma {:induction false} CutElsewhere(p: seq<string>)
    requires |p| > 1 && !Clear(p)
    ensures Collides(p)
  {
    var i :| 0 <= i < |p| && !NulFree(p[i]);
    if i == 0 {
      var k :| 0 <= k < |p[0]| && p[0][k] == '\0';
      var a, b := p[0][..k], p[0][k + 1..];
      assert p[0] == a + NUL + b;
      CutFirst(p, a, b);
    } else if !Clear(p[1..]) && |p| > 2 {
      CutElsewhere(p[1..]);
      var q :| |q| == |p| - 1 && q != p[1..] && Joined(q) == Joined(p[1..]);
      var r := [p[0]] + q;
      assert r[1..] == q && Joined(r) == Joined(p) && r != p;
    } else {
      assert p[1..][i - 1] == p[i];
      var k :| 0 <= k < |p[1]| && p[1][k] == '\0';
      var a, b := p[1][..k], p[1][k + 1..];
      assert p[1] == a + NUL + b;
      var r := [p[0] + NUL + a, b];
      assert p == [p[0], p[1]] && Joined(p) == p[0] + NUL + (a + NUL + b);
      assert Joined(r) == (p[0] + NUL + a) + NUL + b;
      assert p[0] + NUL + (a + NUL + b) == (p[0] + NUL + a) + NUL + b;
      assert r != p by {
        assert |r[0]| > |p[0]|;
      }
    }
  }

  lemma Regroup(a: string, b: string, c: string)
    ensures a + NUL + (b + NUL + c) == (a + NUL + b) + NUL + c
  {
  }

  lemma CutFirst(p: seq<string>, a: string, b: string)
    requires |p| > 1 && p[0] == a + NUL + b
    ensures Collides(p)
  {
    var q := p[0 := a][1 := b + NUL + p[1]];
    assert q != p by {
      assert |q[0]| < |p[0]|;
    }
    assert q[2..] == p[2..];
    Regroup(a, b, p[1]);
    if |p| > 2 {
      var t := Joined(p[2..]);
      assert p[1..][1..] == p[2..] && q[1..][1..] == q[2..];
      Regroup(b, p[1], t);
      Regroup(a, b, p[1] + NUL + t);
    }
    assert Joined(q) == Joined(p);
  }

  /** A composed key collides with another of its arity exactly when it has several components and one holds a NUL. */
  lemma {:induction false} CollidesExactly(p: seq<string>)
    requires p != []
    ensures Collides(p) <==> |p| > 1 && !Clear(p)
  {
    if |p| > 1 && !Clear(p) {
      CutElsewhere(p);
    } else {
      forall q | |q| == |p| && Joined(q) == Joined(p) ensures q == p {
        if |p| > 1 {
          JoinedNuls(p);
          JoinedNuls(q);
          ClearCount(p);
          ClearCount(q);
          JoinedInjective(p, q);
        }
      }
    }
  }
}
