/** The `shops` collection: a sequence of documents queried by `domain`, where
    every handler takes the first match (`querySnapshot.docs[0]`). */
module ShopStore {
  import opened Wrappers

  /** One shop document. An absent access token is the empty string (both are
      falsy to the handlers); creation and update timestamps are not modelled. */
  datatype ShopRecord = ShopRecord(
    domain: string,
    accessToken: string,
    shopifyStoreId: Option<int>,
    shopName: Option<string>,
    plan: Option<string>,
    chargeId: Option<string>,
    subscriptionGid: Option<string>)

  type Store = seq<ShopRecord>

  /** A store call that throws: the first query, or the first write. */
  datatype StoreFault = Healthy | ReadFails(message: string) | WriteFails(message: string)

  function FindFrom(store: Store, domain: string, from: nat): (r: Option<nat>)
    requires from <= |store|
    ensures r.Some? ==> from <= r.value < |store| && store[r.value].domain == domain
                        && forall k :: from <= k < r.value ==> store[k].domain != domain
    ensures r.None? ==> forall k :: from <= k < |store| ==> store[k].domain != domain
    decreases |store| - from
  {
    if from == |store| then None
    else if store[from].domain == domain then Some(from)
    else FindFrom(store, domain, from + 1)
  }

  /** `where('domain', '==', domain)` followed by `docs[0]`: the index of the
      first record with that domain, if any. */
  function FindFirst(store: Store, domain: string): (r: Option<nat>)
    ensures r.Some? ==> r.value < |store| && store[r.value].domain == domain
                        && forall k :: 0 <= k < r.value ==> store[k].domain != domain
    ensures r.None? <==> forall k :: 0 <= k < |store| ==> store[k].domain != domain
  {
    FindFrom(store, domain, 0)
  }

  /** At most one record per domain. */
  ghost predicate UniqueDomains(store: Store) {
    forall i, j :: 0 <= i < j < |store| ==> store[i].domain != store[j].domain
  }

  /** The number of records carrying `domain`. */
  function Count(store: Store, domain: string): nat {
    if store == [] then 0
    else (if store[0].domain == domain then 1 else 0) + Count(store[1..], domain)
  }

  /** `deleteDoc` on the record at `i`: the others keep their order. */
  function RemoveAt(store: Store, i: nat): (r: Store)
    requires i < |store|
    ensures |r| == |store| - 1
    ensures forall k :: 0 <= k < i ==> r[k] == store[k]
    ensures forall k :: i <= k < |r| ==> r[k] == store[k + 1]
  {
    store[..i] + store[i + 1..]
  }

  lemma {:induction false} CountZero(store: Store, domain: string)
    ensures Count(store, domain) == 0 <==> forall k :: 0 <= k < |store| ==> store[k].domain != domain
  {
    if store != [] {
      CountZero(store[1..], domain);
      assert forall k :: 1 <= k < |store| ==> store[k] == store[1..][k - 1];
    }
  }

  /** With unique domains a present domain occurs exactly once. */
  lemma {:induction false} CountUnique(store: Store, domain: string)
    requires UniqueDomains(store)
    requires FindFirst(store, domain).Some?
    ensures Count(store, domain) == 1
  {
    if store[0].domain == domain {
      CountZero(store[1..], domain);
    } else {
      assert UniqueDomains(store[1..]);
      assert FindFirst(store[1..], domain).Some? by {
        var i := FindFirst(store, domain).value;
        assert store[1..][i - 1].domain == domain;
      }
      CountUnique(store[1..], domain);
    }
  }

  /** Appending a record for an absent domain keeps domains unique. */
  lemma AppendAbsentKeepsUnique(store: Store, rec: ShopRecord)
    requires UniqueDomains(store)
    requires FindFirst(store, rec.domain).None?
    ensures UniqueDomains(store + [rec])
  {
  }

  /** Rewriting a record without changing its domain keeps domains unique. */
  lemma ReplaceKeepsUnique(store: Store, i: nat, rec: ShopRecord)
    requires UniqueDomains(store)
    requires i < |store| && rec.domain == store[i].domain
    ensures UniqueDomains(store[i := rec])
  {
  }

  /** Removing a record keeps domains unique; with unique domains, it also
      removes the domain from the store altogether. */
  lemma RemoveKeepsUnique(store: Store, i: nat)
    requires UniqueDomains(store)
    requires i < |store|
    ensures UniqueDomains(RemoveAt(store, i))
    ensures FindFirst(RemoveAt(store, i), store[i].domain).None?
  {
    var r := RemoveAt(store, i);
    forall a, b | 0 <= a < b < |r| ensures r[a].domain != r[b].domain {
      var a' := if a < i then a else a + 1;
      var b' := if b < i then b else b + 1;
      assert r[a] == store[a'] && r[b] == store[b'];
    }
    forall k | 0 <= k < |r| ensures r[k].domain != store[i].domain {
      if k < i {
        assert r[k] == store[k];
      } else {
        assert r[k] == store[k + 1];
      }
    }
  }
}
