/** The cache key of getMenusCached: the store id and the sorted menu ids. */
module MenuKeys {
  // ----- the default sort of an array of strings: by UTF-16 code units -----

  predicate Leq(a: string, b: string) {
    a == [] || (b != [] && (a[0] < b[0] || (a[0] == b[0] && Leq(a[1..], b[1..]))))
  }

  lemma {:induction false} LeqTotal(a: string, b: string)
    ensures Leq(a, b) || Leq(b, a)
    ensures Leq(a, b) && Leq(b, a) ==> a == b
  {
    if a != [] && b != [] {
      LeqTotal(a[1..], b[1..]);
      if a[0] == b[0] && a[1..] == b[1..] {
        assert a == [a[0]] + a[1..] && b == [b[0]] + b[1..];
      }
    }
  }

  lemma {:induction false} LeqTrans(a: string, b: string, c: string)
    requires Leq(a, b) && Leq(b, c)
    ensures Leq(a, c)
  {
    if a != [] && b != [] && c != [] && a[0] == b[0] == c[0] {
      LeqTrans(a[1..], b[1..], c[1..]);
    }
  }

  ghost predicate Sorted(s: seq<string>) {
    forall i, j :: 0 <= i < j < |s| ==> Leq(s[i], s[j])
  }

  function InsertSorted(s: seq<string>, x: string): (r: seq<string>)
    ensures multiset(r) == multiset(s) + multiset{x}
  {
    if s == [] then [x]
    else if Leq(x, s[0]) then [x] + s
    else
      assert s == [s[0]] + s[1..];
      [s[0]] + InsertSorted(s[1..], x)
  }

  function Sort(s: seq<string>): (r: seq<string>)
    ensures multiset(r) == multiset(s)
  {
    if s == [] then []
    else
      assert s == [s[0]] + s[1..];
      InsertSorted(Sort(s[1..]), s[0])
  }

  lemma SameElements(s: seq<string>, t: seq<string>, x: string)
    requires multiset(s) == multiset(t) && x in s
    ensures x in t
  {
    assert x in multiset(s);
  }

  lemma {:induction false} InsertKeepsSorted(s: seq<string>, x: string)
    requires Sorted(s)
    ensures Sorted(InsertSorted(s, x))
  {
    if s == [] {
    } else if Leq(x, s[0]) {
      forall j | 0 <= j < |s| ensures Leq(x, s[j]) {
        if j > 0 { LeqTrans(x, s[0], s[j]); }
      }
    } else {
      LeqTotal(x, s[0]);
      var rest := InsertSorted(s[1..], x);
      InsertKeepsSorted(s[1..], x);
      forall j | 0 <= j < |rest| ensures Leq(s[0], rest[j]) {
        SameElements(rest, s[1..] + [x], rest[j]);
      }
    }
  }

  lemma {:induction false} SortSorts(s: seq<string>)
    ensures Sorted(Sort(s))
  {
    if s != [] {
      SortSorts(s[1..]);
      InsertKeepsSorted(Sort(s[1..]), s[0]);
    }
  }

  lemma SameHead(s: seq<string>, t: seq<string>)
    requires Sorted(s) && Sorted(t) && multiset(s) == multiset(t) && s != [] && t != []
    ensures s[0] == t[0]
  {
    SameElements(s, t, s[0]);
    SameElements(t, s, t[0]);
    LeqTotal(s[0], s[0]);
    LeqTotal(s[0], t[0]);
  }

  /** There is only one sorted arrangement of a multiset of strings. */
  lemma {:induction false} SortedUnique(s: seq<string>, t: seq<string>)
    requires Sorted(s) && Sorted(t) && multiset(s) == multiset(t)
    ensures s == t
  {
    assert |s| == |multiset(s)| == |multiset(t)| == |t|;
    if s != [] {
      SameHead(s, t);
      assert s == [s[0]] + s[1..] && t == [t[0]] + t[1..];
      assert multiset(s[1..]) == multiset(s) - multiset{s[0]} && multiset(t[1..]) == multiset(t) - multiset{t[0]};
      SortedUnique(s[1..], t[1..]);
    }
  }

  // ----- the cache key -----

  function Join(ids: seq<string>): string {
    if ids == [] then ""
    else if |ids| == 1 then ids[0]
    else ids[0] + "," + Join(ids[1..])
  }

  function CacheKey(storeId: string, menuIds: seq<string>): string {
    "menu:" + storeId + ":" + Join(Sort(menuIds))
  }

  const UUID_LENGTH := 36

  predicate UuidChar(c: char) {
    '0' <= c <= '9' || 'a' <= c <= 'f' || 'A' <= c <= 'F' || c == '-'
  }

  predicate UuidShaped(id: string) {
    |id| == UUID_LENGTH && forall c <- id :: UuidChar(c)
  }

  predicate AllUuids(ids: seq<string>) {
    forall id <- ids :: UuidShaped(id)
  }

  lemma {:induction false} JoinInjective(a: seq<string>, b: seq<string>)
    requires AllUuids(a) && AllUuids(b) && Join(a) == Join(b)
    ensures a == b
  {
    if a == [] || b == [] {
      assert a != [] ==> UuidShaped(a[0]);
      assert b != [] ==> UuidShaped(b[0]);
    } else {
      assert UuidShaped(a[0]) && UuidShaped(b[0]);
      assert a[0] == Join(a)[..UUID_LENGTH] && b[0] == Join(b)[..UUID_LENGTH];
      if |a| > 1 && |b| > 1 {
        assert Join(a)[UUID_LENGTH + 1..] == Join(a[1..]) && Join(b)[UUID_LENGTH + 1..] == Join(b[1..]);
        JoinInjective(a[1..], b[1..]);
      }
      assert a == [a[0]] + a[1..] && b == [b[0]] + b[1..];
    }
  }

  lemma {:induction false} JoinEndsInUuid(ids: seq<string>)
    requires AllUuids(ids) && ids != []
    ensures Join(ids) != "" && UuidChar(Join(ids)[|Join(ids)| - 1])
  {
    assert UuidShaped(ids[0]);
    if |ids| > 1 {
      JoinEndsInUuid(ids[1..]);
    } else {
      assert ids[0][UUID_LENGTH - 1] in ids[0];
    }
  }

  /** The key of a request for no menus ends in a colon, any other in a UUID. */
  lemma KeyEnd(storeId: string, menuIds: seq<string>)
    requires AllUuids(menuIds)
    ensures var key := CacheKey(storeId, menuIds); key[|key| - 1] == ':' <==> menuIds == []
  {
    if menuIds != [] {
      SortedUuids(menuIds);
      assert menuIds[0] in multiset(menuIds) && menuIds[0] in multiset(Sort(menuIds));
      JoinEndsInUuid(Sort(menuIds));
    }
  }

  lemma SortedUuids(ids: seq<string>)
    requires AllUuids(ids)
    ensures AllUuids(Sort(ids))
  {
    forall id | id in Sort(ids) ensures UuidShaped(id) { SameElements(Sort(ids), ids, id); }
  }

  lemma {:induction false} NoColon(ids: seq<string>)
    requires AllUuids(ids)
    ensures forall i :: 0 <= i < |Join(ids)| ==> Join(ids)[i] != ':'
  {
    if ids != [] {
      assert UuidShaped(ids[0]);
      if |ids| > 1 {
        NoColon(ids[1..]);
      }
      assert forall i :: 0 <= i < |ids[0]| ==> ids[0][i] in ids[0];
    }
  }

  /** A string can be split at its last colon in one way. */
  lemma LastColon(a1: string, b1: string, a2: string, b2: string)
    requires a1 + ":" + b1 == a2 + ":" + b2
    requires (forall i :: 0 <= i < |b1| ==> b1[i] != ':') && (forall i :: 0 <= i < |b2| ==> b2[i] != ':')
    ensures a1 == a2 && b1 == b2
  {
    var s1, s2 := a1 + ":" + b1, a2 + ":" + b2;
    assert s1[|a1|] == ':' && s2[|a2|] == ':';
    assert |b1| == |b2|;
    assert a1 == s1[..|a1|] && a2 == s2[..|a2|] && b1 == s1[|a1| + 1..] && b2 == s2[|a2| + 1..];
  }

  /** For UUIDs two requests share a cache entry exactly when they name the same store and
      the same menu ids, each as often, in whatever order. */
  lemma CacheKeyIff(store1: string, ids1: seq<string>, store2: string, ids2: seq<string>)
    requires AllUuids(ids1) && AllUuids(ids2)
    ensures CacheKey(store1, ids1) == CacheKey(store2, ids2) <==> store1 == store2 && multiset(ids1) == multiset(ids2)
  {
    hide Sort, Join, AllUuids;
    if CacheKey(store1, ids1) == CacheKey(store2, ids2) {
      SortedUuids(ids1);
      SortedUuids(ids2);
      NoColon(Sort(ids1));
      NoColon(Sort(ids2));
      LastColon("menu:" + store1, Join(Sort(ids1)), "menu:" + store2, Join(Sort(ids2)));
      assert store1 == ("menu:" + store1)[5..] && store2 == ("menu:" + store2)[5..];
      KeyEnd(store1, ids1);
      KeyEnd(store2, ids2);
      JoinInjective(Sort(ids1), Sort(ids2));
    }
    if multiset(ids1) == multiset(ids2) {
      SortSorts(ids1);
      SortSorts(ids2);
      SortedUnique(Sort(ids1), Sort(ids2));
    }
  }

  /** Without the shape the key is ambiguous: one id with a comma in it stands for two. */
  lemma CommaCollides(storeId: string, a: string, b: string)
    requires Leq(a, b)
    ensures CacheKey(storeId, [a + "," + b]) == CacheKey(storeId, [a, b]) && [a + "," + b] != [a, b]
  {
    SortsAlready(a + "," + b, a, b);
    hide Sort, Leq;
    assert [a, b][1..] == [b];
    assert Join([a, b]) == a + "," + Join([a, b][1..]);
  }

  lemma SortsAlready(one: string, a: string, b: string)
    requires Leq(a, b)
    ensures Sort([one]) == [one] && Sort([a, b]) == [a, b]
  {
    hide Leq;
    assert [one][1..] == [] && [b][1..] == [] && [a, b][1..] == [b];
    assert Sort([b]) == [b] && Sort([a, b]) == InsertSorted([b], a);
  }
}
