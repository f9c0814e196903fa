/** Public-key registries: construction from an ordered key list, and the rotation rules between two registries. */
module KeyRegistry {
  import opened Wrappers

  datatype KeyState = Staged | Active | Revoked

  datatype Key = Key(id: string, material: string, state: KeyState)

  type Registry = map<string, Key>

  predicate IsHexDigit(c: char) {
    '0' <= c <= '9' || 'a' <= c <= 'f' || 'A' <= c <= 'F'
  }

  function LowerDigit(c: char): char {
    if 'A' <= c <= 'F' then (c as int + 32) as char else c
  }

  /** The canonical spelling of hexadecimal key material. */
  function Lower(s: string): string {
    if |s| == 0 then "" else Lower(s[..|s| - 1]) + [LowerDigit(s[|s| - 1])]
  }

  predicate WellFormed(k: Key) {
    && 1 <= |k.id| <= 128
    && |k.material| == 64 && (forall i :: 0 <= i < 64 ==> IsHexDigit(k.material[i]))
  }

  /** Well-formed keys, no identity twice and no material under two identities. */
  ghost predicate ValidKeys(keys: seq<Key>) {
    && |keys| > 0
    && (forall i :: 0 <= i < |keys| ==> WellFormed(keys[i]))
    && (forall i, j :: 0 <= i < j < |keys| ==> Distinct(keys[i], keys[j]))
  }

  predicate Distinct(k: Key, l: Key) {
    k.id != l.id && Lower(k.material) != Lower(l.material)
  }

  function RegistryOf(keys: seq<Key>): Registry {
    if |keys| == 0 then map[] else RegistryOf(keys[..|keys| - 1])[keys[|keys| - 1].id := keys[|keys| - 1]]
  }

  /** Each entry stands under its own identity, and no two share material. */
  ghost predicate Consistent(r: Registry) {
    && (forall k :: k in r ==> r[k].id == k)
    && (forall k, l :: k in r && l in r && k != l ==> Lower(r[k].material) != Lower(r[l].material))
  }

  lemma {:induction false} RegistryHas(keys: seq<Key>, k: string)
    ensures k in RegistryOf(keys) ==> RegistryOf(keys)[k] in keys && RegistryOf(keys)[k].id == k
    ensures (exists i :: 0 <= i < |keys| && keys[i].id == k) ==> k in RegistryOf(keys)
  {
    if |keys| > 0 {
      RegistryHas(keys[..|keys| - 1], k);
      forall i | 0 <= i < |keys| && keys[i].id == k ensures k in RegistryOf(keys) {
        assert i < |keys| - 1 ==> keys[..|keys| - 1][i].id == k;
      }
    }
  }

  /** A valid list is a consistent registry. */
  lemma ValidIsConsistent(keys: seq<Key>)
    requires ValidKeys(keys)
    ensures Consistent(RegistryOf(keys))
  {
    var r := RegistryOf(keys);
    forall k | k in r ensures r[k].id == k { RegistryHas(keys, k); }
    forall k, l | k in r && l in r && k != l ensures Lower(r[k].material) != Lower(r[l].material) {
      RegistryHas(keys, k);
      RegistryHas(keys, l);
      var i :| 0 <= i < |keys| && keys[i] == r[k];
      var j :| 0 <= j < |keys| && keys[j] == r[l];
      assert Distinct(keys[i], keys[j]) || Distinct(keys[j], keys[i]);
    }
  }

  // ----- rotation -----

  predicate MayBecome(s: KeyState, t: KeyState) {
    match s
    case Staged => true
    case Active => t != Staged
    case Revoked => t == Revoked
  }

  ghost predicate HasActive(r: Registry) {
    exists k :: k in r && r[k].state == Active
  }

  /** The same key, no earlier in its lifecycle. */
  predicate Succeeds(was: Key, becomes: Key) {
    Lower(was.material) == Lower(becomes.material) && MayBecome(was.state, becomes.state)
  }

  ghost predicate Rotates(prior: Registry, next: Registry) {
    && (forall k :: k in prior ==> k in next && Succeeds(prior[k], next[k]))
    && (forall k :: k in next && k !in prior ==> next[k].state == Staged)
    && (HasActive(prior) ==> HasActive(next))
  }

  /** What survives any number of rotations. Unlike one rotation, this composes: a new key may be active two steps later. */
  ghost predicate Evolves(prior: Registry, next: Registry) {
    && (forall k :: k in prior ==> k in next && Succeeds(prior[k], next[k]))
    && (HasActive(prior) ==> HasActive(next))
  }

  lemma EvolvesTransitive(a: Registry, b: Registry, c: Registry)
    requires Evolves(a, b) && Evolves(b, c)
    ensures Evolves(a, c)
  {
    forall k | k in a ensures k in c && Succeeds(a[k], c[k]) { assert Succeeds(a[k], b[k]) && Succeeds(b[k], c[k]); }
  }

  /** Two allowed rotations need not make one: the key activated in the second was not staged in the first registry. */
  lemma RotationIsNotTransitive(r: Registry, k: Key)
    requires k.id !in r && k.state == Active
    ensures var staged, active := r[k.id := k.(state := Staged)], r[k.id := k];
      Rotates(r, staged) && Rotates(staged, active) && !Rotates(r, active)
  {
    var staged, active := r[k.id := k.(state := Staged)], r[k.id := k];
    assert HasActive(r) ==> HasActive(staged) by {
      if HasActive(r) {
        var l :| l in r && r[l].state == Active;
        assert l in staged && staged[l].state == Active;
      }
    }
    assert k.id in active && active[k.id].state == Active;
  }

  predicate ResolvesActive(r: Registry, k: string) {
    k in r && r[k].state == Active
  }

  // ----- the loops -----

  function Materials(keys: seq<Key>): set<string> {
    if |keys| == 0 then {} else Materials(keys[..|keys| - 1]) + {Lower(keys[|keys| - 1].material)}
  }

  lemma {:induction false} Clash(keys: seq<Key>, k: Key) returns (j: int)
    requires k.id in RegistryOf(keys) || Lower(k.material) in Materials(keys)
    ensures 0 <= j < |keys| && !Distinct(keys[j], k)
  {
    if !Distinct(keys[|keys| - 1], k) { j := |keys| - 1; } else { j := Clash(keys[..|keys| - 1], k); }
  }

  lemma {:induction false} NoClash(keys: seq<Key>, k: Key, j: int)
    requires k.id !in RegistryOf(keys) && Lower(k.material) !in Materials(keys) && 0 <= j < |keys|
    ensures Distinct(keys[j], k)
  {
    if j < |keys| - 1 { NoClash(keys[..|keys| - 1], k, j); }
  }

  /** Build a registry entry by entry; nothing is returned unless every entry is acceptable. */
  method BuildRegistry(keys: seq<Key>) returns (result: Option<Registry>)
    ensures result.Some? <==> ValidKeys(keys)
    ensures result.Some? ==> result.value == RegistryOf(keys)
  {
    if |keys| == 0 { return None; }
    var r: Registry := map[];
    var seen: set<string> := {};
    var i := 0;
    while i < |keys|
      invariant 0 <= i <= |keys|
      invariant r == RegistryOf(keys[..i])
      invariant seen == Materials(keys[..i])
      invariant forall j :: 0 <= j < i ==> WellFormed(keys[j])
      invariant forall j, l :: 0 <= j < l < i ==> Distinct(keys[j], keys[l])
    {
      var k := keys[i];
      var m := Lower(k.material);
      if !WellFormed(k) { return None; }
      if k.id in r || m in seen {
        ghost var j := Clash(keys[..i], k);
        assert !Distinct(keys[j], keys[i]);
        return None;
      }
      forall j | 0 <= j < i ensures Distinct(keys[j], k) { NoClash(keys[..i], k, j); }
      assert keys[..i + 1][..i] == keys[..i];
      r := r[k.id := k];
      seen := seen + {m};
      i := i + 1;
    }
    assert keys[..i] == keys;
    return Some(r);
  }

  method AnyActive(r: Registry) returns (found: bool)
    ensures found <==> HasActive(r)
  {
    var rest := r.Keys;
    while rest != {}
      invariant rest <= r.Keys
      invariant forall k :: k in r && k !in rest ==> r[k].state != Active
      decreases |rest|
    {
      var k :| k in rest;
      if r[k].state == Active { return true; }
      rest := rest - {k};
    }
    return false;
  }

  method ValidateRotation(prior: Registry, next: Registry) returns (ok: bool)
    ensures ok <==> Rotates(prior, next)
  {
    var rest := prior.Keys;
    while rest != {}
      invariant rest <= prior.Keys
      invariant forall k :: k in prior && k !in rest ==> k in next && Succeeds(prior[k], next[k])
      decreases |rest|
    {
      var k :| k in rest;
      if k !in next { return false; }
      if Lower(prior[k].material) != Lower(next[k].material) { return false; }
      if !MayBecome(prior[k].state, next[k].state) { return false; }
      rest := rest - {k};
    }
    rest := next.Keys;
    while rest != {}
      invariant rest <= next.Keys
      invariant forall k :: k in next && k !in rest && k !in prior ==> next[k].state == Staged
      decreases |rest|
    {
      var k :| k in rest;
      if k !in prior && next[k].state != Staged { return false; }
      rest := rest - {k};
    }
    var before := AnyActive(prior);
    var after := AnyActive(next);
    return !before || after;
  }
}
