/**
 * The unique-id allocator of src/core/bundle-id.ts. Path slugs and hashes are parameters: the results hold
 * for every hash function, colliding ones included.
 */
module BundleIds {
  import opened Options
  import opened Sets

  // ------------------------------------------------------------------ decimals

  /** `${n}` */
  function Decimal(n: nat): string {
    var digit := ['0' + (n % 10) as char];
    if n < 10 then digit else Decimal(n / 10) + digit
  }

  function Value(s: string): int {
    if s == [] then 0 else 10 * Value(s[..|s| - 1]) + (s[|s| - 1] as int - '0' as int)
  }

  lemma {:induction false} DecimalReadsBack(n: nat)
    ensures Value(Decimal(n)) == n
  {
    var s := Decimal(n);
    assert (s[|s| - 1]) as int - '0' as int == n % 10;
    if n >= 10 {
      DecimalReadsBack(n / 10);
      assert s[..|s| - 1] == Decimal(n / 10);
    } else {
      assert s[..|s| - 1] == [];
    }
  }

  /** The n-th numbered name. */
  function Numbered(base: string, n: nat): string {
    base + "-" + Decimal(n)
  }

  lemma NumberedIsInjective(base: string, m: nat, n: nat)
    requires Numbered(base, m) == Numbered(base, n)
    ensures m == n
  {
    var k := |base| + 1;
    assert Numbered(base, m)[k..] == Decimal(m) && Numbered(base, n)[k..] == Decimal(n);
    DecimalReadsBack(m);
    DecimalReadsBack(n);
  }

  // ---------------------------------------------------------------- allocation

  /** `slug` is slugForPath, `hash` is shortHash of the resolved path. */
  datatype Naming = Naming(isSlug: string -> bool, slug: string -> string, hash: string -> string)

  datatype Source = Source(registryId: Option<string>, path: string)

  /** The numbered names tried before n. */
  function Tried(base: string, n: nat): set<string> {
    set m | 2 <= m < n :: Numbered(base, m)
  }

  lemma TriedSnoc(base: string, n: nat)
    requires n >= 2
    ensures Tried(base, n + 1) == Tried(base, n) + {Numbered(base, n)}
    ensures Numbered(base, n) !in Tried(base, n)
  {
    hide Numbered;
    forall name | name in Tried(base, n + 1) ensures name in Tried(base, n) + {Numbered(base, n)} {
      var m :| 2 <= m < n + 1 && Numbered(base, m) == name;
    }
    if Numbered(base, n) in Tried(base, n) {
      var m :| 2 <= m < n && Numbered(base, m) == Numbered(base, n);
      NumberedIsInjective(base, m, n);
      assert false;
    }
  }

  /** The used set is finite and every number gives a new name, so the search must leave it. */
  lemma SearchShrinks(base: string, used: set<string>, n: nat)
    requires n >= 2 && Numbered(base, n) in used
    ensures |used - Tried(base, n + 1)| < |used - Tried(base, n)|
  {
    hide Numbered, Tried;
    TriedSnoc(base, n);
    assert used - Tried(base, n + 1) == (used - Tried(base, n)) - {Numbered(base, n)};
  }

  /** The first free number from n on. */
  function FirstFree(base: string, used: set<string>, n: nat): (k: nat)
    requires n >= 2
    ensures k >= n && Numbered(base, k) !in used
    ensures forall m | n <= m < k :: Numbered(base, m) in used
    decreases |used - Tried(base, n)|
  {
    if Numbered(base, n) !in used then n
    else
      SearchShrinks(base, used, n);
      FirstFree(base, used, n + 1)
  }

  function Suffixed(naming: Naming, preferred: string, path: string): string {
    preferred + "-" + naming.hash(path)
  }

  /** The preferred name, else with the hash of its path, else with the first free number as well. */
  function UniqueId(naming: Naming, preferred: string, path: string, used: set<string>): (id: string)
    ensures id !in used
    ensures preferred !in used ==> id == preferred
  {
    var suffixed := Suffixed(naming, preferred, path);
    if preferred !in used then preferred
    else if suffixed !in used then suffixed
    else Numbered(suffixed, FirstFree(suffixed, used, 2))
  }

  method EnsureUniqueId(naming: Naming, preferred: string, path: string, used: set<string>) returns (id: string)
    ensures id == UniqueId(naming, preferred, path, used)
  {
    if preferred !in used {
      return preferred;
    }
    var suffixed := Suffixed(naming, preferred, path);
    if suffixed !in used {
      return suffixed;
    }
    var n := 2;
    while Numbered(suffixed, n) in used
      invariant n >= 2
      invariant FirstFree(suffixed, used, n) == FirstFree(suffixed, used, 2)
      decreases |used - Tried(suffixed, n)|
    {
      SearchShrinks(suffixed, used, n);
      n := n + 1;
    }
    id := Numbered(suffixed, n);
  }

  /** At most as many numbers are tried as names are used. */
  lemma SearchIsBounded(base: string, used: set<string>)
    ensures FirstFree(base, used, 2) <= |used| + 2
  {
    var k := FirstFree(base, used, 2);
    TriedCount(base, k);
    assert Tried(base, k) <= used by {
      forall name | name in Tried(base, k) ensures name in used {
        var m :| 2 <= m < k && Numbered(base, m) == name;
      }
    }
    SubsetIsSmaller(Tried(base, k), used);
  }

  lemma {:induction false} TriedCount(base: string, n: nat)
    requires n >= 2
    ensures |Tried(base, n)| == n - 2
  {
    hide Numbered;
    if n == 2 {
      assert Tried(base, n) == {};
    } else {
      TriedCount(base, n - 1);
      TriedSnoc(base, n - 1);
    }
  }

  // --------------------------------------------------------------- the batch

  predicate Explicit(naming: Naming, source: Source) {
    source.registryId.Some? && source.registryId.value != "" && naming.isSlug(source.registryId.value)
  }

  /** The configured ids, set aside before any id is derived. */
  function Reserved(naming: Naming, sources: seq<Source>): set<string> {
    set i | 0 <= i < |sources| && Explicit(naming, sources[i]) :: sources[i].registryId.value
  }

  function Elements(ids: seq<string>): set<string> {
    set i | 0 <= i < |ids| :: ids[i]
  }

  /** The id of the n-th source, given those of the sources before it. */
  function Pick(naming: Naming, sources: seq<Source>, ids: seq<string>): string
    requires |ids| < |sources|
  {
    var source := sources[|ids|];
    if Explicit(naming, source) then UniqueId(naming, source.registryId.value, source.path, Elements(ids))
    else UniqueId(naming, naming.slug(source.path), source.path, Elements(ids) + Reserved(naming, sources))
  }

  function Ids(naming: Naming, sources: seq<Source>, n: nat): (ids: seq<string>)
    requires n <= |sources|
    ensures |ids| == n
  {
    if n == 0 then [] else Ids(naming, sources, n - 1) + [Pick(naming, sources, Ids(naming, sources, n - 1))]
  }

  class Used {
    var ids: set<string>

    constructor (ids: set<string>)
      ensures this.ids == ids
    {
      this.ids := ids;
    }
  }

  /** Adds the id it returns to the caller's set. */
  method DeriveBundleId(naming: Naming, registryId: Option<string>, path: string, used: Used) returns (id: string)
    modifies used
    ensures var preferred := if Explicit(naming, Source(registryId, path)) then registryId.value else naming.slug(path);
            id == UniqueId(naming, preferred, path, old(used.ids))
    ensures id !in old(used.ids) && used.ids == old(used.ids) + {id}
  {
    var preferred := naming.slug(path);
    if registryId.Some? && registryId.value != "" && naming.isSlug(registryId.value) {
      preferred := registryId.value;
    }
    id := EnsureUniqueId(naming, preferred, path, used.ids);
    used.ids := used.ids + {id};
  }

  method DeriveBundleIds(naming: Naming, sources: seq<Source>) returns (ids: seq<string>)
    ensures ids == Ids(naming, sources, |sources|)
  {
    hide UniqueId, Elements, Reserved;
    var used := new Used({});
    assert Elements([]) == {} by { NoElements(); }
    var reserved := Reserved(naming, sources);
    ids := [];
    var i := 0;
    while i < |sources|
      invariant 0 <= i <= |sources|
      invariant ids == Ids(naming, sources, i) && used.ids == Elements(ids)
      invariant fresh(used)
    {
      var source := sources[i];
      var id;
      if Explicit(naming, source) {
        id := DeriveBundleId(naming, source.registryId, source.path, used);
      } else {
        var copy := new Used(used.ids + reserved);
        id := DeriveBundleId(naming, None, source.path, copy);
      }
      used.ids := used.ids + {id};
      assert Elements(ids + [id]) == Elements(ids) + {id} by { ElementsSnoc(ids, id); }
      ids := ids + [id];
      i := i + 1;
    }
  }

  lemma NoElements()
    ensures Elements([]) == {}
  {
  }

  lemma ElementsSnoc(ids: seq<string>, id: string)
    ensures Elements(ids + [id]) == Elements(ids) + {id}
  {
    var all := ids + [id];
    forall x | x in Elements(ids) + {id} ensures x in Elements(all) {
      if x == id {
        assert all[|ids|] == x;
      } else {
        var i :| 0 <= i < |ids| && ids[i] == x;
        assert all[i] == x;
      }
    }
  }

  // ---------------------------------------------------------------- main results

  lemma {:induction false} IdsPrefix(naming: Naming, sources: seq<Source>, n: nat, m: nat)
    requires n <= m <= |sources|
    ensures Ids(naming, sources, m)[..n] == Ids(naming, sources, n)
    decreases m
  {
    if n < m {
      IdsPrefix(naming, sources, n, m - 1);
      assert Ids(naming, sources, m)[..n] == Ids(naming, sources, m - 1)[..n];
    }
  }

  lemma PickAt(naming: Naming, sources: seq<Source>, k: nat)
    requires k < |sources|
    ensures var ids := Ids(naming, sources, |sources|);
            ids[k] == Pick(naming, sources, ids[..k])
  {
    var ids := Ids(naming, sources, |sources|);
    IdsPrefix(naming, sources, k, |sources|);
    IdsPrefix(naming, sources, k + 1, |sources|);
    assert ids[k] == ids[..k + 1][k];
  }

  /** Given to an earlier source of the batch, or, for a source without an id of its own, set aside for another. */
  predicate Taken(naming: Naming, sources: seq<Source>, k: nat, name: string)
    requires k < |sources|
  {
    || (exists i :: 0 <= i < k && Ids(naming, sources, |sources|)[i] == name)
    || (!Explicit(naming, sources[k])
        && exists i :: 0 <= i < |sources| && sources[i].registryId == Some(name) && name != "" && naming.isSlug(name))
  }

  /** Each id of a batch: the configured id or the slug of the path; if that is taken, with the hash of the path
      behind a dash; and if that is taken too, with the first free number from 2 on. */
  lemma IdIsFirstFree(naming: Naming, sources: seq<Source>, k: nat)
    requires k < |sources|
    ensures var s := sources[k]; var id := Ids(naming, sources, |sources|)[k];
            var own := s.registryId.Some? && s.registryId.value != "" && naming.isSlug(s.registryId.value);
            var base := if own then s.registryId.value else naming.slug(s.path);
            var suffixed := base + "-" + naming.hash(s.path);
            && !Taken(naming, sources, k, id)
            && (!Taken(naming, sources, k, base) ==> id == base)
            && (Taken(naming, sources, k, base) && !Taken(naming, sources, k, suffixed) ==> id == suffixed)
            && (Taken(naming, sources, k, base) && Taken(naming, sources, k, suffixed) ==>
                  exists n :: n >= 2 && id == suffixed + "-" + Decimal(n)
                    && forall m | 2 <= m < n :: Taken(naming, sources, k, suffixed + "-" + Decimal(m)))
  {
    hide Decimal;
    var ids := Ids(naming, sources, |sources|);
    var s := sources[k];
    PickAt(naming, sources, k);
    var used := Elements(ids[..k]) + if Explicit(naming, s) then {} else Reserved(naming, sources);
    forall name ensures name in used <==> Taken(naming, sources, k, name) {
      TakenIsUsed(naming, sources, k, name);
    }
    var base := if Explicit(naming, s) then s.registryId.value else naming.slug(s.path);
    assert ids[k] == UniqueId(naming, base, s.path, used);
    var suffixed := Suffixed(naming, base, s.path);
    if base in used && suffixed in used {
      var n := FirstFree(suffixed, used, 2);
      forall m | 2 <= m < n ensures Taken(naming, sources, k, suffixed + "-" + Decimal(m)) {
        assert Numbered(suffixed, m) in used;
      }
    }
  }

  lemma TakenIsUsed(naming: Naming, sources: seq<Source>, k: nat, name: string)
    requires k < |sources|
    ensures Taken(naming, sources, k, name) <==>
            name in Elements(Ids(naming, sources, |sources|)[..k])
                    + if Explicit(naming, sources[k]) then {} else Reserved(naming, sources)
  {
    var ids := Ids(naming, sources, |sources|);
    if i: nat :| 0 <= i < k && ids[i] == name {
      assert ids[..k][i] == name;
    }
    if name in Elements(ids[..k]) {
      var i :| 0 <= i < k && ids[..k][i] == name;
      assert ids[i] == name;
    }
    if i: nat :| 0 <= i < |sources| && sources[i].registryId == Some(name) && name != "" && naming.isSlug(name) {
      assert Explicit(naming, sources[i]);
    }
  }

  /** The ids of a batch are pairwise distinct, whatever the slugs and hashes. */
  lemma IdsAreDistinct(naming: Naming, sources: seq<Source>, i: nat, k: nat)
    requires i < k < |sources|
    ensures Ids(naming, sources, |sources|)[i] != Ids(naming, sources, |sources|)[k]
  {
    var ids := Ids(naming, sources, |sources|);
    PickAt(naming, sources, k);
    assert ids[..k][i] == ids[i];
    assert ids[i] in Elements(ids[..k]);
  }

  ghost predicate ExplicitDistinct(naming: Naming, sources: seq<Source>) {
    forall i, k | 0 <= i < k < |sources| && Explicit(naming, sources[i]) && Explicit(naming, sources[k]) ::
      sources[i].registryId != sources[k].registryId
  }

  lemma {:induction false} ExplicitKeeps(naming: Naming, sources: seq<Source>, k: nat)
    requires ExplicitDistinct(naming, sources) && k < |sources| && Explicit(naming, sources[k])
    ensures Ids(naming, sources, |sources|)[k] == sources[k].registryId.value
    decreases k
  {
    var ids := Ids(naming, sources, |sources|);
    var slug := sources[k].registryId.value;
    PickAt(naming, sources, k);
    assert slug in Reserved(naming, sources);
    if slug in Elements(ids[..k]) {
      var i :| 0 <= i < k && ids[..k][i] == slug;
      assert ids[i] == slug;
      PickAt(naming, sources, i);
      if Explicit(naming, sources[i]) {
        ExplicitKeeps(naming, sources, i);
      }
      assert false;
    }
  }

  /** Configured ids are kept exactly, wherever they stand in the list, if and only if they are distinct. */
  lemma ExplicitIdsAreKeptIff(naming: Naming, sources: seq<Source>)
    ensures ExplicitDistinct(naming, sources) <==>
            (forall k | 0 <= k < |sources| && Explicit(naming, sources[k]) ::
               Ids(naming, sources, |sources|)[k] == sources[k].registryId.value)
  {
    if ExplicitDistinct(naming, sources) {
      forall k | 0 <= k < |sources| && Explicit(naming, sources[k])
        ensures Ids(naming, sources, |sources|)[k] == sources[k].registryId.value
      {
        ExplicitKeeps(naming, sources, k);
      }
    } else {
      var i, k :| 0 <= i < k < |sources| && Explicit(naming, sources[i]) && Explicit(naming, sources[k])
                  && sources[i].registryId == sources[k].registryId;
      IdsAreDistinct(naming, sources, i, k);
    }
  }
}
