/** The read-only catalog queries of `HeritageService`. The catalog is the list the loader
    produced; every query is a function of it, so no query can change it. */
module Heritage {
  import opened Models
  import opened Strings
  import opened Seqs

  /** The key `OrderBy` and `Where` use: the distance in km from the query point. */
  function DistanceFrom(dist: DistanceFn, latitude: real, longitude: real): HeritageObject -> real
  {
    (o: HeritageObject) => LegKm(dist, latitude, longitude, o)
  }

  /** The radius test of `GetNearbyObjectsAsync`; the boundary is inclusive. */
  function Within(key: HeritageObject -> real, radiusKm: real): (inside: HeritageObject -> bool)
    ensures forall o :: inside(o) <==> key(o) <= radiusKm
  {
    (o: HeritageObject) => key(o) <= radiusKm
  }

  function DistrictMatches(query: string): HeritageObject -> bool
  {
    (o: HeritageObject) => ContainsIgnoreCase(o.district, query)
  }

  function NameMatches(query: string): HeritageObject -> bool
  {
    (o: HeritageObject) => ContainsIgnoreCase(o.name, query)
  }

  /** LINQ `Where`: keeps the elements that satisfy `p`, in their original order. */
  function Filter(s: seq<HeritageObject>, p: HeritageObject -> bool): (r: seq<HeritageObject>)
    ensures |r| <= |s|
    decreases |s|
  {
    if |s| == 0 then []
    else (if p(s[0]) then [s[0]] else []) + Filter(s[1..], p)
  }

  /** `Where` keeps exactly the elements that satisfy `p`. */
  lemma {:induction false} FilterMembers(s: seq<HeritageObject>, p: HeritageObject -> bool)
    ensures forall x :: x in Filter(s, p) <==> x in s && p(x)
    decreases |s|
  {
    if |s| > 0 {
      FilterMembers(s[1..], p);
      assert s == [s[0]] + s[1..];
    }
  }

  /** `Where` keeps every copy of an element that satisfies `p` and no copy of one that does not. */
  lemma {:induction false} FilterMultiset(s: seq<HeritageObject>, p: HeritageObject -> bool)
    ensures forall x :: multiset(Filter(s, p))[x] == if p(x) then multiset(s)[x] else 0
    decreases |s|
  {
    if |s| > 0 {
      FilterMultiset(s[1..], p);
      assert s == [s[0]] + s[1..];
    }
  }

  /** Filtering a concatenation filters each part: the relative order is kept. */
  lemma {:induction false} FilterAppend(a: seq<HeritageObject>, b: seq<HeritageObject>, p: HeritageObject -> bool)
    ensures Filter(a + b, p) == Filter(a, p) + Filter(b, p)
    decreases |a|
  {
    if |a| > 0 {
      FilterAppend(a[1..], b, p);
      assert a + b == [a[0]] + (a[1..] + b);
      FilterCons(a[0], a[1..] + b, p);
      FilterCons(a[0], a[1..], p);
      assert a == [a[0]] + a[1..];
    } else {
      assert a + b == b;
    }
  }

  lemma FilterCons(y: HeritageObject, t: seq<HeritageObject>, p: HeritageObject -> bool)
    ensures Filter([y] + t, p) == (if p(y) then [y] else []) + Filter(t, p)
  {
    assert ([y] + t)[1..] == t;
  }

  /** A filter that accepts every element returns the list unchanged. */
  lemma {:induction false} FilterAll(s: seq<HeritageObject>, p: HeritageObject -> bool)
    requires forall x :: x in s ==> p(x)
    ensures Filter(s, p) == s
    decreases |s|
  {
    if |s| > 0 {
      FilterAll(s[1..], p);
    }
  }

  /** Two predicates that agree on the list select the same elements. */
  lemma {:induction false} FilterAgree(s: seq<HeritageObject>, p: HeritageObject -> bool, q: HeritageObject -> bool)
    requires forall x :: x in s ==> p(x) == q(x)
    ensures Filter(s, p) == Filter(s, q)
    decreases |s|
  {
    if |s| > 0 {
      FilterAgree(s[1..], p, q);
    }
  }

  /** The elements whose key equals `k`, in order: used to state stability of a sort. */
  function WithKey(s: seq<HeritageObject>, key: HeritageObject -> real, k: real): seq<HeritageObject>
    decreases |s|
  {
    if |s| == 0 then [] else (if key(s[0]) == k then [s[0]] else []) + WithKey(s[1..], key, k)
  }

  lemma {:induction false} WithKeyAppend(a: seq<HeritageObject>, b: seq<HeritageObject>, key: HeritageObject -> real, k: real)
    ensures WithKey(a + b, key, k) == WithKey(a, key, k) + WithKey(b, key, k)
    decreases |a|
  {
    if |a| > 0 {
      assert (a + b)[1..] == a[1..] + b;
      WithKeyAppend(a[1..], b, key, k);
    } else {
      assert a + b == b;
    }
  }

  lemma ConsWithKey(y: HeritageObject, t: seq<HeritageObject>, key: HeritageObject -> real, k: real)
    ensures WithKey([y] + t, key, k) == (if key(y) == k then [y] else []) + WithKey(t, key, k)
  {
    assert ([y] + t)[1..] == t;
  }

  ghost predicate SortedBy(s: seq<HeritageObject>, key: HeritageObject -> real)
  {
    forall i, j :: 0 <= i < j < |s| ==> key(s[i]) <= key(s[j])
  }

  /** Inserts `x` before the first element whose key is not smaller than its own. */
  function InsertByKey(x: HeritageObject, s: seq<HeritageObject>, key: HeritageObject -> real): (r: seq<HeritageObject>)
    ensures |r| == |s| + 1 && x in r
    decreases |s|
  {
    if |s| == 0 || key(x) <= key(s[0]) then [x] + s
    else [s[0]] + InsertByKey(x, s[1..], key)
  }

  /** Insertion adds exactly one copy of `x`. */
  lemma {:induction false} InsertByKeyMultiset(x: HeritageObject, s: seq<HeritageObject>, key: HeritageObject -> real)
    ensures multiset(InsertByKey(x, s, key)) == multiset(s) + multiset{x}
    decreases |s|
  {
    if |s| > 0 && key(s[0]) < key(x) {
      InsertByKeyMultiset(x, s[1..], key);
      assert s == [s[0]] + s[1..];
    }
  }

  /** Insertion into a sorted list keeps it sorted. */
  lemma {:induction false} InsertByKeySorted(x: HeritageObject, s: seq<HeritageObject>, key: HeritageObject -> real)
    requires SortedBy(s, key)
    ensures SortedBy(InsertByKey(x, s, key), key)
    decreases |s|
  {
    if |s| == 0 || key(x) <= key(s[0]) {
      var r := [x] + s;
      forall i, j | 0 <= i < j < |r| ensures key(r[i]) <= key(r[j]) {
        if i > 0 {
          assert r[i] == s[i - 1] && r[j] == s[j - 1];
        } else {
          assert r[j] == s[j - 1] && key(s[0]) <= key(s[j - 1]);
        }
      }
    } else {
      var rest := InsertByKey(x, s[1..], key);
      InsertByKeySorted(x, s[1..], key);
      InsertByKeyMultiset(x, s[1..], key);
      assert s == [s[0]] + s[1..];
      LowerBoundInsert(x, s[0], s[1..], rest, key);
    }
  }

  /** A key below `x`'s and below every key of `t` is below every key of a permutation of `[x] + t`,
      so it can head the list. */
  lemma LowerBoundInsert(x: HeritageObject, y: HeritageObject, t: seq<HeritageObject>, rest: seq<HeritageObject>,
                         key: HeritageObject -> real)
    requires SortedBy([y] + t, key) && SortedBy(rest, key)
    requires key(y) <= key(x)
    requires multiset(rest) == multiset(t) + multiset{x}
    ensures SortedBy([y] + rest, key)
  {
    forall j | 0 <= j < |rest| ensures key(y) <= key(rest[j]) {
      assert rest[j] in multiset(rest);
      if rest[j] != x {
        assert rest[j] in multiset(t);
        var m :| 0 <= m < |t| && t[m] == rest[j];
        assert ([y] + t)[0] == y && ([y] + t)[m + 1] == t[m];
      }
    }
    forall i, j | 0 <= i < j < |[y] + rest| ensures key(([y] + rest)[i]) <= key(([y] + rest)[j]) {
      if i > 0 {
        assert ([y] + rest)[i] == rest[i - 1] && ([y] + rest)[j] == rest[j - 1];
      }
    }
  }

  /** The stable sort LINQ `OrderBy` performs: insertion sort from the back. */
  function SortByKey(s: seq<HeritageObject>, key: HeritageObject -> real): (r: seq<HeritageObject>)
    ensures |r| == |s|
    decreases |s|
  {
    if |s| == 0 then [] else InsertByKey(s[0], SortByKey(s[1..], key), key)
  }

  /** `SortByKey` sorts, and only reorders. */
  lemma {:induction false} SortByKeySorts(s: seq<HeritageObject>, key: HeritageObject -> real)
    ensures SortedBy(SortByKey(s, key), key)
    ensures multiset(SortByKey(s, key)) == multiset(s)
    decreases |s|
  {
    if |s| > 0 {
      SortByKeySorts(s[1..], key);
      InsertByKeySorted(s[0], SortByKey(s[1..], key), key);
      InsertByKeyMultiset(s[0], SortByKey(s[1..], key), key);
      assert s == [s[0]] + s[1..];
    }
  }

  /** Inserting `x` keeps, for every key value, the elements of that key in the order of `[x] + s`. */
  lemma {:induction false} InsertByKeyStable(x: HeritageObject, s: seq<HeritageObject>, key: HeritageObject -> real, k: real)
    ensures WithKey(InsertByKey(x, s, key), key, k) == WithKey([x] + s, key, k)
    decreases |s|
  {
    if |s| > 0 && key(s[0]) < key(x) {
      var y, t := s[0], s[1..];
      var rest := InsertByKey(x, t, key);
      assert InsertByKey(x, s, key) == [y] + rest;
      assert s == [y] + t;
      InsertByKeyStable(x, t, key, k);
      ConsWithKey(y, rest, key, k);
      ConsWithKey(x, t, key, k);
      ConsWithKey(x, s, key, k);
      ConsWithKey(y, t, key, k);
      var w := WithKey(t, key, k);
      // `y` is strictly below `x`, so at most one of the two can have key `k`.
      if key(x) == k {
        AppendEmpty([x] + w);
        AppendEmpty(w);
      } else {
        AppendEmpty(if key(y) == k then [y] + w else w);
        AppendEmpty(w);
      }
    }
  }

  /** `SortByKey` is stable: elements with equal keys keep their relative order. */
  lemma {:induction false} SortByKeyStable(s: seq<HeritageObject>, key: HeritageObject -> real, k: real)
    ensures WithKey(SortByKey(s, key), key, k) == WithKey(s, key, k)
    decreases |s|
  {
    if |s| > 0 {
      var sorted := SortByKey(s[1..], key);
      assert SortByKey(s, key) == InsertByKey(s[0], sorted, key);
      InsertByKeyStable(s[0], sorted, key, k);
      SortByKeyStable(s[1..], key, k);
      ConsWithKey(s[0], sorted, key, k);
      ConsWithKey(s[0], s[1..], key, k);
      assert [s[0]] + s[1..] == s;
    }
  }

  /** Dropping the objects beyond the radius keeps every object at a distance inside it. */
  lemma {:induction false} WithKeyWithin(s: seq<HeritageObject>, key: HeritageObject -> real, radiusKm: real, k: real)
    requires k <= radiusKm
    ensures WithKey(Filter(s, Within(key, radiusKm)), key, k) == WithKey(s, key, k)
    decreases |s|
  {
    if |s| > 0 {
      var p := Within(key, radiusKm);
      WithKeyWithin(s[1..], key, radiusKm, k);
      WithKeyAppend(if p(s[0]) then [s[0]] else [], Filter(s[1..], p), key, k);
    }
  }

  /** `GetNearbyObjectsAsync`: the objects within `radiusKm`, nearest first. */
  function GetNearbyObjects(catalog: seq<HeritageObject>, dist: DistanceFn, latitude: real, longitude: real, radiusKm: real)
    : (r: seq<HeritageObject>)
    ensures forall o :: multiset(r)[o] ==
                        if dist(latitude, longitude, o.latitude, o.longitude) <= radiusKm then multiset(catalog)[o] else 0
    ensures forall o :: o in r <==> o in catalog && dist(latitude, longitude, o.latitude, o.longitude) <= radiusKm
    ensures forall i, j :: 0 <= i < j < |r| ==>
      dist(latitude, longitude, r[i].latitude, r[i].longitude) <= dist(latitude, longitude, r[j].latitude, r[j].longitude)
  {
    var key := DistanceFrom(dist, latitude, longitude);
    FilterMultiset(catalog, Within(key, radiusKm));
    SortByKeySorts(Filter(catalog, Within(key, radiusKm)), key);
    SortByKey(Filter(catalog, Within(key, radiusKm)), key)
  }

  /** Objects at the same distance keep their catalog order (`OrderBy` is stable). */
  lemma NearbyStable(catalog: seq<HeritageObject>, dist: DistanceFn, latitude: real, longitude: real, radiusKm: real, d: real)
    requires d <= radiusKm
    ensures WithKey(GetNearbyObjects(catalog, dist, latitude, longitude, radiusKm), DistanceFrom(dist, latitude, longitude), d)
         == WithKey(catalog, DistanceFrom(dist, latitude, longitude), d)
  {
    var key := DistanceFrom(dist, latitude, longitude);
    SortByKeyStable(Filter(catalog, Within(key, radiusKm)), key, d);
    WithKeyWithin(catalog, key, radiusKm, d);
  }

  /** Index of the first object with the given id, or `|catalog|` when there is none. */
  function FirstWithId(catalog: seq<HeritageObject>, id: string): (k: nat)
    ensures k <= |catalog|
    ensures k < |catalog| ==> catalog[k].id == id
    ensures forall j :: 0 <= j < k ==> catalog[j].id != id
    decreases |catalog|
  {
    if |catalog| == 0 then 0
    else if catalog[0].id == id then 0
    else 1 + FirstWithId(catalog[1..], id)
  }

  /** `GetObjectByIdAsync`: `FirstOrDefault(o => o.Id == id)`. */
  function GetObjectById(catalog: seq<HeritageObject>, id: string): (r: Option<HeritageObject>)
    ensures r.None? <==> forall i :: 0 <= i < |catalog| ==> catalog[i].id != id
    ensures r.Some? ==> exists i :: 0 <= i < |catalog| && catalog[i] == r.value && r.value.id == id
                          && forall j :: 0 <= j < i ==> catalog[j].id != id
  {
    var k := FirstWithId(catalog, id);
    if k < |catalog| then Some(catalog[k]) else None
  }

  /** `GetAllObjectsAsync`: the catalog itself. */
  function GetAllObjects(catalog: seq<HeritageObject>): (r: seq<HeritageObject>)
    ensures r == catalog
  {
    catalog
  }

  /** `GetByDistrictAsync`: the objects whose district contains the query, ignoring case. */
  function GetByDistrict(catalog: seq<HeritageObject>, district: string): (r: seq<HeritageObject>)
    ensures forall o :: multiset(r)[o] == if ContainsIgnoreCase(o.district, district) then multiset(catalog)[o] else 0
    ensures forall o :: o in r <==> o in catalog && ContainsIgnoreCase(o.district, district)
  {
    FilterMultiset(catalog, DistrictMatches(district));
    Filter(catalog, DistrictMatches(district))
  }

  /** `SearchByNameAsync`: the objects whose name contains the query, ignoring case. */
  function SearchByName(catalog: seq<HeritageObject>, query: string): (r: seq<HeritageObject>)
    ensures forall o :: multiset(r)[o] == if ContainsIgnoreCase(o.name, query) then multiset(catalog)[o] else 0
    ensures forall o :: o in r <==> o in catalog && ContainsIgnoreCase(o.name, query)
  {
    FilterMultiset(catalog, NameMatches(query));
    Filter(catalog, NameMatches(query))
  }

  /** The district query keeps catalog order: it distributes over concatenation. */
  lemma ByDistrictKeepsOrder(a: seq<HeritageObject>, b: seq<HeritageObject>, district: string)
    ensures GetByDistrict(a + b, district) == GetByDistrict(a, district) + GetByDistrict(b, district)
  {
    FilterAppend(a, b, DistrictMatches(district));
  }

  /** The name search keeps catalog order: it distributes over concatenation. */
  lemma ByNameKeepsOrder(a: seq<HeritageObject>, b: seq<HeritageObject>, query: string)
    ensures SearchByName(a + b, query) == SearchByName(a, query) + SearchByName(b, query)
  {
    FilterAppend(a, b, NameMatches(query));
  }

  /** The empty query is contained in every district, so it returns the whole catalog. */
  lemma ByDistrictEmptyQuery(catalog: seq<HeritageObject>)
    ensures GetByDistrict(catalog, "") == catalog
  {
    forall o | o in catalog ensures DistrictMatches("")(o) {
      ContainsEmpty(Fold(o.district));
    }
    FilterAll(catalog, DistrictMatches(""));
  }

  /** The empty name query returns the whole catalog. */
  lemma ByNameEmptyQuery(catalog: seq<HeritageObject>)
    ensures SearchByName(catalog, "") == catalog
  {
    forall o | o in catalog ensures NameMatches("")(o) {
      ContainsEmpty(Fold(o.name));
    }
    FilterAll(catalog, NameMatches(""));
  }

  /** The letter case of the query does not matter. */
  lemma ByDistrictIgnoresCase(catalog: seq<HeritageObject>, district: string)
    ensures GetByDistrict(catalog, Fold(district)) == GetByDistrict(catalog, district)
  {
    FoldIdempotent(district);
    FilterAgree(catalog, DistrictMatches(Fold(district)), DistrictMatches(district));
  }

  lemma ByNameIgnoresCase(catalog: seq<HeritageObject>, query: string)
    ensures SearchByName(catalog, Fold(query)) == SearchByName(catalog, query)
  {
    FoldIdempotent(query);
    FilterAgree(catalog, NameMatches(Fold(query)), NameMatches(query));
  }

  ghost predicate StrictlySorted(s: seq<string>)
  {
    forall i, j :: 0 <= i < j < |s| ==> Less(s[i], s[j])
  }

  lemma LessThanAll(x: string, s: seq<string>)
    requires StrictlySorted(s) && |s| > 0 && Less(x, s[0])
    ensures forall j :: 0 <= j < |s| ==> Less(x, s[j])
  {
    forall j | 0 < j < |s| ensures Less(x, s[j]) {
      LessTransitive(x, s[0], s[j]);
    }
  }

  /** Adds `x` to a strictly ordered list unless it is already there. */
  function InsertDistinct(x: string, s: seq<string>): (r: seq<string>)
    requires StrictlySorted(s)
    ensures StrictlySorted(r)
    ensures forall y :: y in r <==> y == x || y in s
    decreases |s|
  {
    if |s| == 0 then [x]
    else if x == s[0] then s
    else if Less(x, s[0]) then LessThanAll(x, s); [x] + s
    else
      LessTotal(x, s[0]);
      var rest := InsertDistinct(x, s[1..]);
      assert forall y :: y in rest ==> Less(s[0], y);
      assert s == [s[0]] + s[1..];
      [s[0]] + rest
  }

  /** `GetDistrictsAsync`: the non-blank districts, without duplicates, in ascending order. */
  function GetDistricts(catalog: seq<HeritageObject>): (r: seq<string>)
    ensures StrictlySorted(r)
    ensures forall d :: d in r <==> !IsBlank(d) && exists i :: 0 <= i < |catalog| && catalog[i].district == d
    decreases |catalog|
  {
    if |catalog| == 0 then []
    else
      var prefix := catalog[..|catalog| - 1];
      var d := catalog[|catalog| - 1].district;
      var rest := GetDistricts(prefix);
      assert forall i :: 0 <= i < |prefix| ==> prefix[i] == catalog[i];
      if IsBlank(d) then rest else InsertDistinct(d, rest)
  }

  /** No district appears twice. */
  lemma DistrictsDistinct(catalog: seq<HeritageObject>)
    ensures forall i, j :: 0 <= i < j < |GetDistricts(catalog)| ==> GetDistricts(catalog)[i] != GetDistricts(catalog)[j]
  {
    var r := GetDistricts(catalog);
    forall i, j | 0 <= i < j < |r| ensures r[i] != r[j] {
    }
  }
}
