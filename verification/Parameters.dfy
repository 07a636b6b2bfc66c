/** Canonical parameter and tag lists, and their comparison with what CloudFormation reports. */
module Parameters {
  import opened Text
  import opened Cloud

  /** The order of sort.Strings. */
  predicate Less(a: string, b: string) {
    b != "" && (a == "" || a[0] < b[0] || (a[0] == b[0] && Less(a[1..], b[1..])))
  }

  /** At position n the texts part, and a comes first: it ends there, or goes on with the smaller code point. */
  predicate PartsAt(a: string, b: string, n: nat) {
    n <= |a| && n < |b| && a[..n] == b[..n] && (n == |a| || a[n] < b[n])
  }

  /** Less is the lexicographic order: proper prefixes first, otherwise by the first difference. */
  lemma {:induction false} LessMeaning(a: string, b: string)
    ensures Less(a, b) <==> exists n: nat :: PartsAt(a, b, n)
  {
    if b != "" && (a == "" || a[0] != b[0]) {
      assert PartsAt(a, b, 0) <==> Less(a, b);
      assert forall n: nat :: n > 0 && PartsAt(a, b, n) ==> a[..n][0] == b[..n][0];
    } else if b != "" {
      LessMeaning(a[1..], b[1..]);
      forall n: nat ensures PartsAt(a, b, n + 1) <==> PartsAt(a[1..], b[1..], n) { PartsLater(a, b, n); }
      if n: nat :| PartsAt(a, b, n) {
        assert n > 0;
        assert PartsAt(a[1..], b[1..], n - 1) by { PartsLater(a, b, n - 1); }
      }
    }
  }

  lemma PartsLater(a: string, b: string, n: nat)
    requires a != "" && b != "" && a[0] == b[0]
    ensures PartsAt(a, b, n + 1) <==> PartsAt(a[1..], b[1..], n)
  {
    if n + 1 <= |a| && n + 1 < |b| {
      assert a[..n + 1] == [a[0]] + a[1..][..n] && b[..n + 1] == [b[0]] + b[1..][..n];
      assert a[..n + 1][1..] == a[1..][..n] && b[..n + 1][1..] == b[1..][..n];
    }
  }

  lemma {:induction false} LessTotal(a: string, b: string)
    ensures (Less(a, b) || Less(b, a)) <==> a != b
    ensures !(Less(a, b) && Less(b, a))
  {
    if a != "" && b != "" && a[0] == b[0] {
      LessTotal(a[1..], b[1..]);
      assert a == [a[0]] + a[1..] && b == [b[0]] + b[1..];
    }
  }

  lemma {:induction false} LessTransitive(a: string, b: string, c: string)
    requires Less(a, b) && Less(b, c)
    ensures Less(a, c)
  {
    if a != "" && a[0] == b[0] == c[0] {
      LessTransitive(a[1..], b[1..], c[1..]);
    }
  }

  ghost predicate Ascending(keys: seq<string>) {
    forall i, j :: 0 <= i < j < |keys| ==> Less(keys[i], keys[j])
  }

  ghost predicate AscendingPairs(list: seq<Pair>) {
    forall i, j :: 0 <= i < j < |list| ==> Less(list[i].key, list[j].key)
  }

  ghost predicate KeyUnique(list: seq<Pair>) {
    forall i, j :: 0 <= i < j < |list| ==> list[i].key != list[j].key
  }

  /** sort.Strings on keys without duplicates, as an insertion sort. */
  function SortStrings(keys: seq<string>): (sorted: seq<string>)
    requires forall i, j :: 0 <= i < j < |keys| ==> keys[i] != keys[j]
    ensures Ascending(sorted) && |sorted| == |keys|
    ensures forall k :: k in sorted <==> k in keys
  {
    if keys == [] then []
    else
      assert keys == [keys[0]] + keys[1..];
      Insert(keys[0], SortStrings(keys[1..]))
  }

  function Insert(key: string, sorted: seq<string>): (r: seq<string>)
    requires Ascending(sorted) && key !in sorted
    ensures Ascending(r) && |r| == |sorted| + 1
    ensures forall k :: k in r <==> k == key || k in sorted
  {
    if sorted == [] then [key]
    else
      assert sorted == [sorted[0]] + sorted[1..];
      LessTotal(key, sorted[0]);
      if Less(key, sorted[0]) then
        assert forall j :: 0 < j < |sorted| ==> Less(key, sorted[j]) by {
          forall j | 0 < j < |sorted| ensures Less(key, sorted[j]) {
            LessTransitive(key, sorted[0], sorted[j]);
          }
        }
        [key] + sorted
      else
        var rest := Insert(key, sorted[1..]);
        assert forall j :: 0 <= j < |rest| ==> Less(sorted[0], rest[j]) by {
          forall j | 0 <= j < |rest| ensures Less(sorted[0], rest[j]) {
            assert rest[j] in rest;
          }
        }
        [sorted[0]] + rest
  }

  /** The map rebuilt from a list of entries; later entries win. */
  function ToMap(list: seq<Pair>): map<string, string> {
    if list == [] then map[] else map[list[0].key := list[0].value] + ToMap(list[1..])
  }

  /** The list has one entry for each key of m, and no other. */
  ghost predicate Lists(list: seq<Pair>, m: map<string, string>) {
    KeyUnique(list) && forall e :: e in list <==> e.key in m && m[e.key] == e.value
  }

  lemma Listed(list: seq<Pair>, m: map<string, string>, k: string)
    requires Lists(list, m)
    ensures k in m ==> Pair(k, m[k]) in list
  {
  }

  lemma {:induction false} ToMapLists(list: seq<Pair>)
    requires KeyUnique(list)
    ensures Lists(list, ToMap(list))
  {
    if list != [] {
      var x, rest := list[0], list[1..];
      ToMapLists(rest);
      assert list == [x] + rest;
      Listed(rest, ToMap(rest), x.key);
    }
  }

  lemma ListsOne(list: seq<Pair>, m: map<string, string>, n: map<string, string>)
    requires Lists(list, m) && Lists(list, n)
    ensures m == n
  {
    forall k ensures k in m <==> k in n {
      if k in m { assert Pair(k, m[k]) in list; }
      if k in n { assert Pair(k, n[k]) in list; }
    }
    forall k | k in m ensures m[k] == n[k] { assert Pair(k, m[k]) in list; }
  }

  /** A list is the canonical form of a map when it is strictly ascending and stands for that map. */
  ghost predicate IsCanonical(list: seq<Pair>, m: map<string, string>) {
    AscendingPairs(list) && ToMap(list) == m
  }

  ghost function LeastKey(m: map<string, string>): (k: string)
    requires m != map[]
    ensures k in m && forall j :: j in m && j != k ==> Less(k, j)
  {
    LeastKeyExists(m);
    var k :| k in m && forall j :: j in m && j != k ==> Less(k, j);
    k
  }

  lemma LeastKeyExists(m: map<string, string>)
    requires m != map[]
    ensures exists k :: k in m && forall j :: j in m && j != k ==> Less(k, j)
    decreases |m|
  {
    var x :| x in m;
    var rest := m - {x};
    assert rest.Keys == m.Keys - {x};
    if rest == map[] {
      assert forall j :: j in m && j != x ==> j in rest;
    } else {
      assert |rest.Keys| < |m.Keys|;
      LeastKeyExists(rest);
      var y :| y in rest && forall j :: j in rest && j != y ==> Less(y, j);
      var k := if Less(x, y) then x else y;
      LessTotal(x, y);
      forall j | j in m && j != k ensures Less(k, j) {
        if j != x && j != y { assert Less(y, j); }
        if k == x && j != y { LessTransitive(x, y, j); }
      }
    }
  }

  /** The canonical form itself: the entries in ascending key order. */
  ghost function Canonical(m: map<string, string>): (list: seq<Pair>)
    ensures |list| == |m|
    ensures forall e :: e in list <==> e.key in m && m[e.key] == e.value
    decreases |m|
  {
    if m == map[] then []
    else
      var k := LeastKey(m);
      assert (m - {k}).Keys == m.Keys - {k};
      [Pair(k, m[k])] + Canonical(m - {k})
  }

  /** The list is ascending, reads back as the map, and no other list does both. */
  lemma CanonicalIsTheOne(list: seq<Pair>, m: map<string, string>)
    ensures IsCanonical(list, m) <==> list == Canonical(m)
  {
    CanonicalAscends(m);
    AscendingIsUnique(Canonical(m));
    ToMapLists(Canonical(m));
    ListsOne(Canonical(m), ToMap(Canonical(m)), m);
    if IsCanonical(list, m) {
      AscendingIsUnique(list);
      ToMapLists(list);
      AscendingDetermines(list, m);
    }
  }

  lemma {:induction false} AscendingDetermines(list: seq<Pair>, m: map<string, string>)
    requires AscendingPairs(list) && Lists(list, m)
    ensures list == Canonical(m)
    decreases |list|
  {
    hide Less;
    assert list != [] ==> list[0] in list;
    if m != map[] {
      var k := LeastKey(m);
      LeastComesFirst(list, m);
      var rest := list[1..];
      assert list == [list[0]] + rest;
      AscendingDetermines(rest, m - {k});
    }
  }

  lemma LeastComesFirst(list: seq<Pair>, m: map<string, string>)
    requires AscendingPairs(list) && Lists(list, m) && m != map[]
    ensures list != [] && list[0] == Pair(LeastKey(m), m[LeastKey(m)])
  {
    hide Less;
    var k := LeastKey(m);
    Listed(list, m, k);
    assert list[0] in list;
    var i :| 0 <= i < |list| && list[i] == Pair(k, m[k]);
    LessTotal(list[0].key, k);
  }

  lemma {:induction false} CanonicalAscends(m: map<string, string>)
    ensures AscendingPairs(Canonical(m))
    decreases |m|
  {
    if m != map[] {
      var k := LeastKey(m);
      assert (m - {k}).Keys == m.Keys - {k};
      CanonicalAscends(m - {k});
      var rest := Canonical(m - {k});
      forall j | 0 <= j < |rest| ensures Less(k, rest[j].key) { assert rest[j] in rest; }
    }
  }

  lemma AscendingIsUnique(list: seq<Pair>)
    requires AscendingPairs(list)
    ensures KeyUnique(list)
  {
    forall i, j | 0 <= i < j < |list| ensures list[i].key != list[j].key {
      LessTotal(list[i].key, list[j].key);
    }
  }

  /** StackParameters: whatever order the map is visited in, the canonical list comes out. */
  method StackParameters(order: seq<string>, m: map<string, string>) returns (parameters: seq<Pair>)
    requires Enumerates(order, m)
    ensures parameters == Canonical(m)
  {
    hide Less;
    var keys: seq<string> := [];
    for i := 0 to |order|
      invariant keys == order[..i]
    {
      keys := keys + [order[i]];
    }
    assert keys == order;
    keys := SortStrings(keys);
    parameters := [];
    for i := 0 to |keys|
      invariant |parameters| == i
      invariant forall j :: 0 <= j < i ==> parameters[j] == Pair(keys[j], m[keys[j]])
    {
      assert keys[i] in keys;
      parameters := parameters + [Pair(keys[i], m[keys[i]])];
    }
    ListOfKeys(parameters, keys, m);
  }

  /** Listing all entries under ascending keys gives the canonical list. */
  lemma ListOfKeys(list: seq<Pair>, keys: seq<string>, m: map<string, string>)
    requires Ascending(keys) && (forall k :: k in keys <==> k in m)
    requires |list| == |keys|
    requires forall j :: 0 <= j < |keys| ==> list[j].key == keys[j] && keys[j] in m && list[j].value == m[keys[j]]
    ensures list == Canonical(m)
  {
    hide Less;
    AscendingIsUnique(list);
    forall k | k in m ensures Pair(k, m[k]) in list {
      var j :| 0 <= j < |keys| && keys[j] == k;
      assert list[j] == Pair(k, m[k]);
    }
    AscendingDetermines(list, m);
  }

  const CREATED_BY := Pair("CreatedBy", "CloudResource-Controller")

  ghost function TagList(tags: map<string, string>): seq<Pair> {
    Canonical(tags) + [CREATED_BY]
  }

  /** StackTags: the canonical list and one appended entry, in every map order. */
  method StackTags(order: seq<string>, tags: map<string, string>) returns (list: seq<Pair>)
    requires Enumerates(order, tags)
    ensures list == TagList(tags) && |list| == |tags| + 1
  {
    list := StackParameters(order, tags);
    list := list + [CREATED_BY];
  }

  /** The appended entry makes a duplicate key exactly when the user supplied that key. In every case the list reads
      back as the tags with the entry added. */
  lemma TagListKeys(tags: map<string, string>)
    ensures TagList(tags) == Canonical(tags) + [Pair("CreatedBy", "CloudResource-Controller")]
    ensures KeyUnique(TagList(tags)) <==> "CreatedBy" !in tags
    ensures ToMap(TagList(tags)) == tags["CreatedBy" := "CloudResource-Controller"]
  {
    var front := Canonical(tags);
    CanonicalIsTheOne(front, tags);
    AscendingIsUnique(front);
    ToMapAppend(front, CREATED_BY);
    hide Less, ToMap, Canonical;
    AppendUnique(front, tags, CREATED_BY);
  }

  lemma AppendUnique(list: seq<Pair>, m: map<string, string>, e: Pair)
    requires Lists(list, m)
    ensures KeyUnique(list + [e]) <==> e.key !in m
  {
    var longer := list + [e];
    if e.key in m {
      Listed(list, m, e.key);
      var i :| 0 <= i < |list| && list[i] == Pair(e.key, m[e.key]);
      assert longer[i].key == longer[|list|].key;
    } else {
      forall i | 0 <= i < |list| ensures list[i].key != e.key { assert list[i] in list; }
    }
  }

  lemma {:induction false} ToMapAppend(list: seq<Pair>, e: Pair)
    ensures ToMap(list + [e]) == ToMap(list)[e.key := e.value]
  {
    if list != [] {
      ToMapAppend(list[1..], e);
      assert (list + [e])[1..] == list[1..] + [e];
    }
  }

  /** The first entry with the key of a, if any, has the value of a. */
  predicate Matches(a: Pair, list: seq<Pair>) {
    list == [] || if list[0].key == a.key then list[0].value == a.value else Matches(a, list[1..])
  }

  /** The first entry with this key is at position i. */
  predicate IsFirst(list: seq<Pair>, key: string, i: nat) {
    i < |list| && list[i].key == key && forall j :: 0 <= j < i ==> list[j].key != key
  }

  lemma {:induction false} MatchesMeaning(a: Pair, list: seq<Pair>)
    ensures Matches(a, list) <==> forall i: nat :: IsFirst(list, a.key, i) ==> list[i].value == a.value
  {
    if list != [] && list[0].key == a.key {
      assert IsFirst(list, a.key, 0);
    } else if list != [] {
      var rest := list[1..];
      MatchesMeaning(a, rest);
      forall i: nat ensures IsFirst(list, a.key, i + 1) <==> IsFirst(rest, a.key, i) {
        assert forall j :: 0 <= j < |rest| ==> rest[j] == list[j + 1];
        assert forall j :: 0 < j < |list| ==> list[j] == rest[j - 1];
      }
      forall i: nat | IsFirst(list, a.key, i) ensures i > 0 && IsFirst(rest, a.key, i - 1) {
        assert forall j :: 0 <= j < |rest| ==> rest[j] == list[j + 1];
      }
    }
  }

  /** CompareStackParams: the nested loop with its break and its early return. */
  method CompareStackParams(reported: seq<Pair>, wanted: seq<Pair>) returns (equal: bool)
    ensures equal <==> forall a :: a in reported ==> Matches(a, wanted)
    ensures equal <==>
      forall a, i: nat :: a in reported && IsFirst(wanted, a.key, i) ==> wanted[i].value == a.value
  {
    forall a { MatchesMeaning(a, wanted); }
    for i := 0 to |reported|
      invariant forall a :: a in reported[..i] ==> Matches(a, wanted)
    {
      assert reported[i] in reported;
      for j := 0 to |wanted|
        invariant Matches(reported[i], wanted) <==> Matches(reported[i], wanted[j..])
      {
        if reported[i].key == wanted[j].key {
          if reported[i].value != wanted[j].value {
            return false;
          }
          break;
        }
        assert wanted[j..][1..] == wanted[j + 1..];
      }
      assert reported[..i + 1] == reported[..i] + [reported[i]];
    }
    equal := true;
    assert reported[..|reported|] == reported;
  }

  /** The reported entries agree with m on all common keys. */
  ghost predicate Agrees(reported: seq<Pair>, m: map<string, string>) {
    forall a :: a in reported && a.key in m ==> a.value == m[a.key]
  }

  lemma {:induction false} MatchesUnique(a: Pair, list: seq<Pair>)
    requires KeyUnique(list)
    ensures Matches(a, list) <==> forall e :: e in list && e.key == a.key ==> e.value == a.value
  {
    if list != [] {
      assert list == [list[0]] + list[1..];
      MatchesUnique(a, list[1..]);
    }
  }

  /** Against the canonical list of m the early break loses nothing: the answer is agreement on all common keys. */
  lemma ComparisonIsAgreement(reported: seq<Pair>, m: map<string, string>)
    ensures (forall a :: a in reported ==> Matches(a, Canonical(m))) <==> Agrees(reported, m)
  {
    CanonicalAscends(m);
    AscendingIsUnique(Canonical(m));
    forall a ensures Matches(a, Canonical(m)) <==> (a.key in m ==> a.value == m[a.key]) {
      MatchesUnique(a, Canonical(m));
      if a.key in m { assert Pair(a.key, m[a.key]) in Canonical(m); }
    }
  }

  /** On key-unique lists the comparison does not care which side is which. */
  lemma ComparisonIsSymmetric(x: seq<Pair>, y: seq<Pair>)
    requires KeyUnique(x) && KeyUnique(y)
    ensures (forall a :: a in x ==> Matches(a, y)) <==> (forall a :: a in y ==> Matches(a, x))
  {
    OneDirection(x, y);
    OneDirection(y, x);
  }

  lemma OneDirection(x: seq<Pair>, y: seq<Pair>)
    requires KeyUnique(x) && KeyUnique(y)
    ensures (forall a :: a in x ==> Matches(a, y)) ==> (forall a :: a in y ==> Matches(a, x))
  {
    if forall a :: a in x ==> Matches(a, y) {
      forall a | a in y ensures Matches(a, x) {
        MatchesUnique(a, x);
        forall e | e in x && e.key == a.key ensures e.value == a.value {
          MatchesUnique(e, y);
        }
      }
    }
  }

  /** A stack that reports its parameters verbatim is recognised. */
  lemma CanonicalAgrees(m: map<string, string>)
    ensures Agrees(Canonical(m), m)
  {
  }
}
