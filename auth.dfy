/** Authentication headers: every registered provider contributes a map of
    header name to value, and the maps are merged into one hash map with
    `putAll`, in provider order. The merged map is then added to the default
    headers entry by entry, in the hash map's iteration order, which is
    unspecified. */
module Auth {
  import opened Types
  import opened Headers

  /** The map `authHeaders` returns for the providers, visited in this order:
      it holds every provider's keys, and all of the last provider's entries. */
  function MergeAll(providers: seq<map<string, string>>): (m: map<string, string>)
    ensures forall i :: 0 <= i < |providers| ==> providers[i].Keys <= m.Keys
    ensures providers != [] ==> forall k :: k in providers[|providers| - 1] ==> m[k] == providers[|providers| - 1][k]
  {
    if providers == [] then map[]
    else
      var n := |providers| - 1;
      MergeAll(providers[..n]) + providers[n]
  }

  /** The merged map's keys are the union of all providers' keys. */
  lemma {:induction false} MergeAllKeys(providers: seq<map<string, string>>, k: string)
    ensures k in MergeAll(providers) <==> exists i :: 0 <= i < |providers| && k in providers[i]
  {
    if providers != [] {
      var n := |providers| - 1;
      MergeAllKeys(providers[..n], k);
      if k in MergeAll(providers[..n]) {
        var i :| 0 <= i < n && k in providers[..n][i];
        assert k in providers[i];
      }
      if exists i :: 0 <= i < |providers| && k in providers[i] {
        var i :| 0 <= i < |providers| && k in providers[i];
        if i < n {
          assert k in providers[..n][i];
        }
      }
    }
  }

  /** On a key several providers supply, the value of the last of them wins. */
  lemma {:induction false} MergeAllLastWins(providers: seq<map<string, string>>, i: nat, k: string)
    requires i < |providers| && k in providers[i]
    requires forall j :: i < j < |providers| ==> k !in providers[j]
    ensures k in MergeAll(providers) && MergeAll(providers)[k] == providers[i][k]
  {
    var n := |providers| - 1;
    if i < n {
      assert k !in providers[n];
      MergeAllLastWins(providers[..n], i, k);
    }
  }

  /** `authHeaders`: a fresh hash map into which each provider's headers are put. */
  method AuthHeaders(providers: seq<map<string, string>>) returns (headers: map<string, string>)
    ensures headers == MergeAll(providers)
  {
    headers := map[];
    var i := 0;
    while i < |providers|
      invariant 0 <= i <= |providers|
      invariant headers == MergeAll(providers[..i])
    {
      assert providers[..i + 1][..i] == providers[..i];
      headers := headers + providers[i];
      i := i + 1;
    }
    assert providers[..i] == providers;
  }

  /** `es` lists every entry of `m` exactly once, in some order. */
  predicate Enumerates(es: seq<Entry>, m: map<string, string>)
  {
    && (forall i :: 0 <= i < |es| ==> es[i].key in m && m[es[i].key] == es[i].value)
    && (forall i, j :: 0 <= i < j < |es| ==> es[i].key != es[j].key)
    && (forall k :: k in m ==> exists i :: 0 <= i < |es| && es[i].key == k)
  }

  /** Iterates `m`; the order in which keys come out is not specified, so each
      next key is an arbitrary one not yet visited. */
  method EntriesOf(m: map<string, string>) returns (es: seq<Entry>)
    ensures Enumerates(es, m)
  {
    es := [];
    var rest := m.Keys;
    while rest != {}
      invariant rest <= m.Keys
      invariant forall i :: 0 <= i < |es| ==> es[i].key in m && es[i].key !in rest && m[es[i].key] == es[i].value
      invariant forall i, j :: 0 <= i < j < |es| ==> es[i].key != es[j].key
      invariant forall k :: k in m && k !in rest ==> exists i :: 0 <= i < |es| && es[i].key == k
      decreases rest
    {
      var k :| k in rest;
      ghost var before := es;
      es := es + [Entry(k, m[k])];
      forall k' | k' in m && k' !in rest - {k}
        ensures exists i :: 0 <= i < |es| && es[i].key == k'
      {
        if k' == k {
          assert es[|es| - 1].key == k;
        } else {
          var i :| 0 <= i < |before| && before[i].key == k';
          assert es[i] == before[i];
        }
      }
      rest := rest - {k};
    }
  }

  /** A key of the merged map that no other key matches ignoring case
      contributes exactly its own value to that header name. */
  lemma AuthValueOf(es: seq<Entry>, m: map<string, string>, k: string)
    requires Enumerates(es, m) && k in m
    requires forall k' :: k' in m && NameEq(k', k) ==> k' == k
    ensures GetAll(es, k) == [m[k]]
  {
    var i :| 0 <= i < |es| && es[i].key == k;
    var front, back := es[..i], es[i + 1..];
    forall j | 0 <= j < |front| ensures !NameEq(front[j].key, k) {
      var other := es[j].key;
      assert front[j].key == other && other in m && other != k;
    }
    forall j | 0 <= j < |back| ensures !NameEq(back[j].key, k) {
      var other := es[i + 1 + j].key;
      assert back[j].key == other && other in m && other != k;
    }
    assert es == front + [es[i]] + back;
    GetAllSingle(front, es[i], back, k);
  }
}
