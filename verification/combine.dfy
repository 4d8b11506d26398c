/** `combine(...list)` (src/combine.js): a left fold that flattens several
    handler records into one, prefixing each key with `ns:` when the record
    carries a non-empty `namespace`. */
module Combine {
  import opened Values

  /** One argument of `combine`: its `namespace` field (absent, or a string)
      and its other own keys. A key literally named "namespace" among
      `entries` is skipped, as the source skips it. */
  datatype Handlers<V> = Handlers(namespace: Option<string>, entries: map<string, V>)

  /** The key prefix: `ns:` for a non-empty namespace; an absent or empty
      (falsy) namespace gives no prefix. */
  function Prefix(ns: Option<string>): (r: string)
    ensures r == "" || r[|r| - 1] == ':'
  {
    match ns
    case Some(n) => if n != "" then n + ":" else ""
    case None => ""
  }

  /** The output key of entry `k` of a record with namespace `ns`. */
  function QualifiedKey(ns: Option<string>, k: string): (r: string)
    ensures |r| == |Prefix(ns)| + |k| && r[|Prefix(ns)|..] == k
  {
    Prefix(ns) + k
  }

  /** A non-empty namespace `ns` puts `ns:` in front of the key; an absent
      or empty one leaves the key bare. */
  lemma QualifiedKeyCases(ns: Option<string>, k: string)
    ensures ns.Some? && ns.value != "" ==> QualifiedKey(ns, k) == ns.value + ":" + k
    ensures ns == None || ns == Some("") ==> QualifiedKey(ns, k) == k
  {
  }

  /** With a fixed namespace, distinct keys stay distinct. */
  lemma QualifiedKeyInjective(ns: Option<string>, a: string, b: string)
    ensures QualifiedKey(ns, a) == QualifiedKey(ns, b) ==> a == b
  {
    var p := Prefix(ns);
    if QualifiedKey(ns, a) == QualifiedKey(ns, b) {
      assert a == (p + a)[|p|..];
      assert b == (p + b)[|p|..];
    }
  }

  lemma QualifiedKeyInjectiveAll(ns: Option<string>)
    ensures forall a, b :: QualifiedKey(ns, a) == QualifiedKey(ns, b) ==> a == b
  {
    forall a, b
      ensures QualifiedKey(ns, a) == QualifiedKey(ns, b) ==> a == b
    {
      QualifiedKeyInjective(ns, a, b);
    }
  }

  /** True of the keys the inner `forEach` copies. */
  predicate Copied<V>(h: Handlers<V>, k: string) {
    k in h.entries && k != "namespace"
  }

  /** What one argument contributes: every copied key under its qualified
      name, with its value unchanged. */
  function Flatten<V>(h: Handlers<V>): (r: map<string, V>)
    ensures forall k :: Copied(h, k) ==> QualifiedKey(h.namespace, k) in r
    ensures forall k :: Copied(h, k) ==> r[QualifiedKey(h.namespace, k)] == h.entries[k]
  {
    QualifiedKeyInjectiveAll(h.namespace);
    map k | k in h.entries && k != "namespace" :: QualifiedKey(h.namespace, k) := h.entries[k]
  }

  /** Nothing is invented: every key one argument contributes is the
      qualified form of one of its copied keys, with that key's value. */
  lemma FlattenProvenance<V>(h: Handlers<V>, q: string)
    requires q in Flatten(h)
    ensures exists k :: Copied(h, k) && q == QualifiedKey(h.namespace, k) && Flatten(h)[q] == h.entries[k]
  {
  }

  /** The reducer body: write one argument's entries into the accumulator,
      overwriting keys already there. */
  function Absorb<V>(memo: map<string, V>, h: Handlers<V>): (r: map<string, V>)
    ensures forall q :: q in r <==> q in memo || q in Flatten(h)
    ensures forall q :: q in Flatten(h) ==> r[q] == Flatten(h)[q]
    ensures forall q :: q in memo && q !in Flatten(h) ==> r[q] == memo[q]
  {
    memo + Flatten(h)
  }

  /** `list.reduce(..., memo)` */
  function Fold<V>(memo: map<string, V>, list: seq<Handlers<V>>): (r: map<string, V>)
    ensures memo.Keys <= r.Keys
    ensures forall i :: 0 <= i < |list| ==> Flatten(list[i]).Keys <= r.Keys
    decreases |list|
  {
    if |list| == 0 then memo
    else
      var r := Fold(Absorb(memo, list[0]), list[1..]);
      assert forall i :: 1 <= i < |list| ==> list[i] == list[1..][i - 1];
      r
  }

  /** `combine(...list)`: the fold from a fresh empty accumulator. */
  function Combine<V>(list: seq<Handlers<V>>): (r: map<string, V>)
    ensures forall i :: 0 <= i < |list| ==> Flatten(list[i]).Keys <= r.Keys
  {
    Fold(map[], list)
  }

  /** With no arguments the result is the empty record. */
  lemma CombineEmpty<V>()
    ensures Combine<V>([]) == map[]
  {
  }

  /** Folding one more argument on the right is absorbing it last. */
  lemma {:induction false} FoldSnoc<V>(memo: map<string, V>, list: seq<Handlers<V>>, h: Handlers<V>)
    ensures Fold(memo, list + [h]) == Absorb(Fold(memo, list), h)
    decreases |list|
  {
    if |list| == 0 {
      assert list + [h] == [h];
    } else {
      assert (list + [h])[1..] == list[1..] + [h];
      FoldSnoc(Absorb(memo, list[0]), list[1..], h);
    }
  }

  /** The last argument overrides everything before it. */
  lemma CombineSnoc<V>(list: seq<Handlers<V>>, h: Handlers<V>)
    ensures Combine(list + [h]) == Combine(list) + Flatten(h)
  {
    FoldSnoc(map[], list, h);
  }

  /** The index of the last of the first `n` elements satisfying `p`, if
      any does. */
  function LastIndex<T>(s: seq<T>, p: T -> bool, n: nat): (r: Option<nat>)
    requires n <= |s|
    ensures r.Some? ==> r.value < n && p(s[r.value])
    ensures r.Some? ==> forall j :: r.value < j < n ==> !p(s[j])
    ensures r.None? ==> forall j :: 0 <= j < n ==> !p(s[j])
  {
    if n == 0 then None
    else if p(s[n - 1]) then Some(n - 1)
    else LastIndex(s, p, n - 1)
  }

  /** Only the first `n` elements matter to `LastIndex`. */
  lemma {:induction false} LastIndexPrefix<T>(s: seq<T>, t: seq<T>, p: T -> bool, n: nat)
    requires n <= |s| && n <= |t| && s[..n] == t[..n]
    ensures LastIndex(s, p, n) == LastIndex(t, p, n)
  {
    if n > 0 {
      assert s[n - 1] == s[..n][n - 1] == t[..n][n - 1] == t[n - 1];
      assert s[..n - 1] == s[..n][..n - 1];
      assert t[..n - 1] == t[..n][..n - 1];
      LastIndexPrefix(s, t, p, n - 1);
    }
  }

  /** True of the arguments that write output key `q`. */
  function Writes<V>(q: string): Handlers<V> -> bool {
    (h: Handlers<V>) => q in Flatten(h)
  }

  /** Reference definition of "who wins" for output key `q`: the index of
      the last argument that writes `q`, if any does. */
  function LastWriter<V>(list: seq<Handlers<V>>, q: string): Option<nat> {
    LastIndex(list, Writes(q), |list|)
  }

  /** Last write wins: a key is in the output exactly when some argument
      contributes it, and its value is the one the LAST such argument gave
      it. So nothing is invented and later arguments override earlier ones. */
  lemma {:induction false} CombineLastWins<V>(list: seq<Handlers<V>>, q: string)
    ensures q in Combine(list) <==> LastWriter(list, q).Some?
    ensures LastWriter(list, q).Some? ==>
      Combine(list)[q] == Flatten(list[LastWriter(list, q).value])[q]
    decreases |list|
  {
    if |list| > 0 {
      var init := list[..|list| - 1];
      if q in Flatten(list[|list| - 1]) {
        LastArgumentWrites(list, q);
      } else {
        CombineLastWins(init, q);
        LastArgumentSkips(list, q);
      }
    }
  }

  /** The last argument wins for a key it writes. */
  lemma LastArgumentWrites<V>(list: seq<Handlers<V>>, q: string)
    requires |list| > 0 && q in Flatten(list[|list| - 1])
    ensures q in Combine(list) && LastWriter(list, q) == Some(|list| - 1)
    ensures Combine(list)[q] == Flatten(list[|list| - 1])[q]
  {
    var init, last := list[..|list| - 1], list[|list| - 1];
    assert list == init + [last];
    CombineSnoc(init, last);
    assert Writes(q)(list[|list| - 1]);
  }

  /** A key the last argument does not write is decided by the arguments
      before it. */
  lemma LastArgumentSkips<V>(list: seq<Handlers<V>>, q: string)
    requires |list| > 0 && q !in Flatten(list[|list| - 1])
    requires var init := list[..|list| - 1];
      && (q in Combine(init) <==> LastWriter(init, q).Some?)
      && (LastWriter(init, q).Some? ==> Combine(init)[q] == Flatten(init[LastWriter(init, q).value])[q])
    ensures q in Combine(list) <==> LastWriter(list, q).Some?
    ensures LastWriter(list, q).Some? ==>
      Combine(list)[q] == Flatten(list[LastWriter(list, q).value])[q]
  {
    var init, last := list[..|list| - 1], list[|list| - 1];
    assert list == init + [last];
    CombineSnoc(init, last);
    assert !Writes(q)(list[|list| - 1]);
    LastIndexPrefix(list, init, Writes(q), |init|);
    assert LastWriter(list, q) == LastWriter(init, q);
    if LastWriter(init, q).Some? {
      assert list[LastWriter(init, q).value] == init[LastWriter(init, q).value];
    }
  }

  /** Stated on the arguments' own keys: entry `k` of argument `i` appears
      under its qualified name, with its value, unless a later argument
      writes the same output key. */
  lemma CombineCopiesEntry<V>(list: seq<Handlers<V>>, i: int, k: string)
    requires 0 <= i < |list| && Copied(list[i], k)
    requires forall j :: i < j < |list| ==> QualifiedKey(list[i].namespace, k) !in Flatten(list[j])
    ensures QualifiedKey(list[i].namespace, k) in Combine(list)
    ensures Combine(list)[QualifiedKey(list[i].namespace, k)] == list[i].entries[k]
  {
    var q := QualifiedKey(list[i].namespace, k);
    assert q in Flatten(list[i]);
    var w := LastWriter(list, q);
    assert w.Some?;
    assert w.value == i;
    CombineLastWins(list, q);
  }

  /** The key "namespace" itself is never copied: no argument contributes
      the qualified form of "namespace". */
  lemma NamespaceKeyNotCopied<V>(h: Handlers<V>)
    ensures QualifiedKey(h.namespace, "namespace") !in Flatten(h)
  {
  }

  /** An argument with namespace `ns` and two entries contributes exactly
      the two prefixed keys. */
  lemma FlattenTwo<V>(ns: string, k1: string, k2: string, v1: V, v2: V)
    requires ns != "" && k1 != k2 && k1 != "namespace" && k2 != "namespace"
    ensures Flatten(Handlers(Some(ns), map[k1 := v1, k2 := v2]))
         == map[ns + ":" + k1 := v1, ns + ":" + k2 := v2]
  {
    var h := Handlers(Some(ns), map[k1 := v1, k2 := v2]);
    var want := map[ns + ":" + k1 := v1, ns + ":" + k2 := v2];
    QualifiedKeyCases(h.namespace, k1);
    QualifiedKeyCases(h.namespace, k2);
    assert Copied(h, k1) && Copied(h, k2);
    forall q | q in Flatten(h)
      ensures q in want
    {
      FlattenProvenance(h, q);
    }
  }

  /** An argument without namespace and one entry contributes that entry. */
  lemma FlattenOne<V>(k: string, v: V)
    requires k != "namespace"
    ensures Flatten(Handlers(None, map[k := v])) == map[k := v]
  {
    var h := Handlers(None, map[k := v]);
    QualifiedKeyCases(h.namespace, k);
    assert Copied(h, k);
    forall q | q in Flatten(h)
      ensures q == k
    {
      FlattenProvenance(h, q);
    }
  }

  /** Two arguments combine to the second's contribution laid over the
      first's. */
  lemma CombinePair<V>(a: Handlers<V>, b: Handlers<V>)
    ensures Combine([a, b]) == Flatten(a) + Flatten(b)
  {
    assert [a] == [] + [a];
    CombineSnoc([], a);
    assert [a, b] == [a] + [b];
    CombineSnoc([a], b);
  }

  /** The shape of tests/combine.test.js, `combine({namespace: ns, k1: f1,
      k2: f2}, {k1: f3})`: the namespaced entries come out prefixed and the
      bare `k1` sits beside them. */
  lemma CombineExample<V>(ns: string, k1: string, k2: string, f1: V, f2: V, f3: V,
                          a: Handlers<V>, b: Handlers<V>)
    requires ns != "" && k1 != k2 && k1 != "namespace" && k2 != "namespace"
    requires a == Handlers(Some(ns), map[k1 := f1, k2 := f2]) && b == Handlers(None, map[k1 := f3])
    ensures Combine([a, b]) == map[ns + ":" + k1 := f1, ns + ":" + k2 := f2, k1 := f3]
  {
    var fa := map[ns + ":" + k1 := f1, ns + ":" + k2 := f2];
    var fb := map[k1 := f3];
    assert fa + fb == fa[k1 := f3];
    assert Combine([a, b]) == fa + fb by {
      FlattenTwo(ns, k1, k2, f1, f2);
      FlattenOne(k1, f3);
      CombinePair(a, b);
    }
  }
}
