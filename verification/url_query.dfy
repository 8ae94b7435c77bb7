/** The query string of the page URL, with the semantics of the browser's
    URLSearchParams: an ordered list of key/value entries in which `has` and
    `get` look at the first entry with the key, `delete` removes every entry
    with the key, `append` adds an entry at the end, and `set` overwrites the
    first entry with the key and drops the others (or appends when there is
    none). */
module UrlQuery {
  import opened Wrappers

  datatype Param = Param(key: string, value: string)

  type Query = seq<Param>

  /** `params.has(k)`: some entry has key `k`. */
  predicate Has(q: Query, k: string)
  {
    q != [] && (q[0].key == k || Has(q[1..], k))
  }

  /** `params.get(k)`: the value of the first entry with key `k`, or null. */
  function Get(q: Query, k: string): (r: Option<string>)
    ensures r.Some? <==> Has(q, k)
    ensures r.Some? ==> Param(k, r.value) in q
  {
    if q == [] then None
    else if q[0].key == k then Some(q[0].value)
    else Get(q[1..], k)
  }

  /** `has(k)` holds exactly when some entry has key `k`. */
  lemma {:induction false} HasSomeEntry(q: Query, k: string)
    ensures Has(q, k) <==> exists i :: 0 <= i < |q| && q[i].key == k
  {
    if q != [] {
      HasSomeEntry(q[1..], k);
      if Has(q[1..], k) && q[0].key != k {
        var i :| 0 <= i < |q[1..]| && q[1..][i].key == k;
        assert q[i + 1].key == k;
      }
    }
  }

  /** `get(k)` answers with the value of the FIRST entry that has key `k`:
      it sits at some index `i`, and no entry before `i` has that key. */
  lemma {:induction false} GetIsFirst(q: Query, k: string)
    ensures Get(q, k).Some? ==>
              exists i :: 0 <= i < |q| && q[i] == Param(k, Get(q, k).value) && forall j :: 0 <= j < i ==> q[j].key != k
  {
    if q != [] && q[0].key != k && Get(q, k).Some? {
      GetIsFirst(q[1..], k);
      var i :| 0 <= i < |q[1..]| && q[1..][i] == Param(k, Get(q, k).value) && forall j :: 0 <= j < i ==> q[1..][j].key != k;
      assert q[i + 1] == Param(k, Get(q, k).value);
      assert forall j :: 1 <= j < i + 1 ==> q[j].key == q[1..][j - 1].key;
    }
  }

  /** `params.delete(k)`: every entry with key `k` is removed, the others
      keep their order. */
  function Without(q: Query, k: string): (r: Query)
    ensures !Has(r, k)
    ensures forall k' :: k' != k ==> Get(r, k') == Get(q, k')
    ensures forall k' :: k' != k ==> (Has(r, k') <==> Has(q, k'))
    ensures forall p :: p in r <==> p in q && p.key != k
  {
    if q == [] then []
    else if q[0].key == k then Without(q[1..], k)
    else [q[0]] + Without(q[1..], k)
  }

  /** Looking a key up after an entry was added at the end. */
  lemma {:induction false} GetAfterSnoc(q: Query, p: Param)
    ensures forall k :: Get(q + [p], k) ==
                        if Has(q, k) then Get(q, k) else if p.key == k then Some(p.value) else None
  {
    if q != [] {
      GetAfterSnoc(q[1..], p);
      assert (q + [p])[1..] == q[1..] + [p];
    }
  }

  /** `params.append(k, v)`: an earlier entry with key `k` still wins `get`. */
  function Appended(q: Query, k: string, v: string): (r: Query)
    ensures Get(r, k) == if Has(q, k) then Get(q, k) else Some(v)
    ensures forall k' :: k' != k ==> Get(r, k') == Get(q, k')
    ensures forall k' :: Has(r, k') <==> Has(q, k') || k' == k
    ensures |r| == |q| + 1 && r[..|q|] == q
  {
    GetAfterSnoc(q, Param(k, v));
    q + [Param(k, v)]
  }

  /** Deleting a key a second time changes nothing. */
  lemma {:induction false} WithoutIdempotent(q: Query, k: string)
    ensures Without(Without(q, k), k) == Without(q, k)
  {
    if q != [] {
      WithoutIdempotent(q[1..], k);
    }
  }

  /** `params.set(k, v)`: afterwards `get(k)` is `v`, exactly one entry has
      key `k`, and the entries with other keys are those of before. */
  function Replaced(q: Query, k: string, v: string): (r: Query)
    ensures Get(r, k) == Some(v)
    ensures forall k' :: k' != k ==> Get(r, k') == Get(q, k')
    ensures forall k' :: Has(r, k') <==> Has(q, k') || k' == k
    ensures Without(r, k) == Without(q, k)
    ensures forall p :: p in r && p.key == k ==> p.value == v
  {
    if q == [] then [Param(k, v)]
    else if q[0].key == k then
      WithoutIdempotent(q[1..], k);
      [Param(k, v)] + Without(q[1..], k)
    else [q[0]] + Replaced(q[1..], k, v)
  }
}

/** The mutable URLSearchParams object the page builds from `location.search`
    and edits step by step before writing it back to the URL. */
module UrlSearchParams {
  import opened Wrappers
  import UrlQuery

  class SearchParams {
    var entries: UrlQuery.Query

    /** `new URLSearchParams(location.search)` */
    constructor (search: UrlQuery.Query)
      ensures entries == search
    {
      entries := search;
    }

    function Has(k: string): bool
      reads this
    {
      UrlQuery.Has(entries, k)
    }

    function Get(k: string): Option<string>
      reads this
    {
      UrlQuery.Get(entries, k)
    }

    method Append(k: string, v: string)
      modifies this
      ensures entries == UrlQuery.Appended(old(entries), k, v)
    {
      entries := entries + [UrlQuery.Param(k, v)];
    }

    method Delete(k: string)
      modifies this
      ensures entries == UrlQuery.Without(old(entries), k)
    {
      entries := UrlQuery.Without(entries, k);
    }

    method Set(k: string, v: string)
      modifies this
      ensures entries == UrlQuery.Replaced(old(entries), k, v)
    {
      entries := UrlQuery.Replaced(entries, k, v);
    }
  }
}
