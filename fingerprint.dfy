/** How `Cache.prototype.fingerprint` turns a request descriptor into a
    cache key: the record it builds before hashing, the key itself, and what
    the key does and does not depend on. */
module Fingerprint {
  import opened JsValues
  import opened JsStrings

  /** Position of the first member named k. */
  function IndexOf(rec: seq<Member>, k: string): (i: nat)
    requires k in Names(rec)
    ensures i < |rec| && rec[i].name == k
    ensures forall j :: 0 <= j < i ==> rec[j].name != k
  {
    assert Names(rec) == [rec[0].name] + Names(rec[1..]);
    if rec[0].name == k then 0 else 1 + IndexOf(rec[1..], k)
  }

  /** Overwriting the first member named k changes what k reads and nothing else. */
  lemma {:induction false} LookupReplaceFirst(rec: seq<Member>, i: nat, k: string, v: Value, r: seq<Member>)
    requires i < |rec| && rec[i].name == k
    requires forall j :: 0 <= j < i ==> rec[j].name != k
    requires r == rec[i := Member(k, v)]
    ensures forall n :: Lookup(r, n) == if n == k then v else Lookup(rec, n)
  {
    if i == 0 {
      assert r[1..] == rec[1..];
    } else {
      LookupReplaceFirst(rec[1..], i - 1, k, v, r[1..]);
    }
  }

  /** Appending a member under a new name changes what that name reads and nothing else. */
  lemma {:induction false} LookupAppendNew(rec: seq<Member>, k: string, v: Value, r: seq<Member>)
    requires k !in Names(rec)
    requires r == rec + [Member(k, v)]
    ensures forall n :: Lookup(r, n) == if n == k then v else Lookup(rec, n)
  {
    if rec != [] {
      assert Names(rec) == [rec[0].name] + Names(rec[1..]);
      LookupAppendNew(rec[1..], k, v, r[1..]);
    }
  }

  /** `rec[k] = v` on an insertion-ordered object: afterwards k holds v and
      every other name holds what it held before; a name already present
      keeps its position, a new name goes last. */
  function Put(rec: seq<Member>, k: string, v: Value): (r: seq<Member>)
    ensures Names(r) == if k in Names(rec) then Names(rec) else Names(rec) + [k]
    ensures Lookup(r, k) == v
    ensures forall n :: n != k ==> Lookup(r, n) == Lookup(rec, n)
    ensures forall m :: m in r ==> m in rec || m == Member(k, v)
  {
    if k in Names(rec) then
      var i := IndexOf(rec, k);
      LookupReplaceFirst(rec, i, k, v, rec[i := Member(k, v)]);
      rec[i := Member(k, v)]
    else
      LookupAppendNew(rec, k, v, rec + [Member(k, v)]);
      rec + [Member(k, v)]
  }

  /** The `cleaned` object after the loop body of `fingerprint` has run for
      each of `keys` in turn: the key is lower-cased and then looked up. */
  function Fill(keys: seq<string>, d: seq<Member>): (r: seq<Member>)
    ensures |r| <= |keys| && Distinct(Names(r))
    ensures forall m :: m in r ==> IsLower(m.name) && m.value == Lookup(d, m.name)
  {
    if keys == [] then []
    else
      var k := Lower(keys[|keys| - 1]);
      var init := Fill(keys[..|keys| - 1], d);
      assert k !in Names(init) ==> Distinct(Names(init) + [k]) by {
        if k !in Names(init) {
          var ns := Names(init) + [k];
          forall i, j | 0 <= i < j < |ns| ensures ns[i] != ns[j] {
            if j == |ns| - 1 { assert ns[i] in Names(init); }
          }
        }
      }
      Put(init, k, Lookup(d, k))
  }

  /** One more turn of the loop: the next name is lower-cased and assigned. */
  lemma FillStep(keys: seq<string>, i: nat, d: seq<Member>)
    requires i < |keys|
    ensures Fill(keys[..i + 1], d) == Put(Fill(keys[..i], d), Lower(keys[i]), Lookup(d, Lower(keys[i])))
  {
    assert keys[..i + 1][..i] == keys[..i];
  }

  /** The record `fingerprint` serialises: the loop run over the sorted names.
      Its names are distinct and lower case, and each holds what the
      descriptor holds under that very name. */
  function Cleaned(d: seq<Member>): (r: seq<Member>)
    ensures |r| <= |d| && Distinct(Names(r))
    ensures forall m :: m in r ==> IsLower(m.name) && m.value == Lookup(d, m.name)
  {
    assert |Sort(Names(d))| == |multiset(Names(d))| == |d|;
    Fill(Sort(Names(d)), d)
  }

  /** `this.prefix + md5hex(JSON.stringify(cleaned))`: the key starts with the
      prefix as a string. */
  function Key(prefix: Value, md5: string -> string, json: Json, d: seq<Member>): (r: string)
    ensures |ToJsString(prefix)| <= |r| && r[..|ToJsString(prefix)|] == ToJsString(prefix)
  {
    ToJsString(prefix) + md5(json.stringify(Obj(Cleaned(d))))
  }

  // ----- An independent description of the cleaned record -----

  function LowerAll(ks: seq<string>): seq<string> {
    seq(|ks|, i requires 0 <= i < |ks| => Lower(ks[i]))
  }

  /** The first occurrence of each string, in order. */
  function Dedup(s: seq<string>): (r: seq<string>)
    ensures Distinct(r)
    ensures forall x :: x in r <==> x in s
  {
    if s == [] then []
    else
      var p := Dedup(s[..|s| - 1]);
      var x := s[|s| - 1];
      assert forall y :: y in s <==> y in s[..|s| - 1] || y == x by {
        assert s == s[..|s| - 1] + [x];
      }
      if x in p then p else p + [x]
  }

  /** The object with names `ns`, each holding what `d` has under that name. */
  function Record(ns: seq<string>, d: seq<Member>): seq<Member> {
    seq(|ns|, i requires 0 <= i < |ns| => Member(ns[i], Lookup(d, ns[i])))
  }

  lemma PutRecord(ns: seq<string>, d: seq<Member>, k: string)
    ensures Put(Record(ns, d), k, Lookup(d, k)) == Record(if k in ns then ns else ns + [k], d)
  {
    var rec := Record(ns, d);
    assert Names(rec) == ns;
    if k in ns {
      var i := IndexOf(rec, k);
      assert rec[i := Member(k, Lookup(d, k))] == rec;
    } else {
      assert Record(ns + [k], d) == rec + [Member(k, Lookup(d, k))];
    }
  }

  /** Running the loop body over `keys` builds the record whose names are the
      lower-cased keys, each kept at its first position, and whose values are
      read under the lower-cased names. */
  lemma {:induction false} FillIsRecord(keys: seq<string>, d: seq<Member>)
    ensures Fill(keys, d) == Record(Dedup(LowerAll(keys)), d)
  {
    if keys != [] {
      var init := keys[..|keys| - 1];
      var k := Lower(keys[|keys| - 1]);
      FillIsRecord(init, d);
      var lowered := LowerAll(keys);
      assert lowered[..|lowered| - 1] == LowerAll(init) && lowered[|lowered| - 1] == k;
      PutRecord(Dedup(LowerAll(init)), d, k);
    }
  }

  lemma {:induction false} LookupRecord(ns: seq<string>, d: seq<Member>, n: string)
    ensures Lookup(Record(ns, d), n) == if n in ns then Lookup(d, n) else Undefined
  {
    if ns != [] {
      assert Record(ns, d)[1..] == Record(ns[1..], d);
      LookupRecord(ns[1..], d, n);
    }
  }

  /** The names of the cleaned record, described without the loop. */
  function CleanedNames(d: seq<Member>): seq<string> {
    Dedup(LowerAll(Sort(Names(d))))
  }

  lemma CleanedIsRecord(d: seq<Member>)
    ensures Cleaned(d) == Record(CleanedNames(d), d)
  {
    FillIsRecord(Sort(Names(d)), d);
  }

  lemma RecordNames(ns: seq<string>, d: seq<Member>)
    ensures Names(Record(ns, d)) == ns
    ensures forall m :: m in Record(ns, d) ==> m.name in ns && m.value == Lookup(d, m.name)
  {
  }

  /** The names of the cleaned record are the lower-cased names of the
      descriptor, each once. */
  lemma CleanedNamesFromDescriptor(d: seq<Member>, n: string)
    ensures n in CleanedNames(d) <==> exists k :: k in Names(d) && Lower(k) == n
  {
    var s := Sort(Names(d));
    if n in CleanedNames(d) {
      assert n in LowerAll(s);
      var i :| 0 <= i < |s| && LowerAll(s)[i] == n;
      assert s[i] in multiset(Names(d));
    }
    if k :| k in Names(d) && Lower(k) == n {
      assert k in multiset(s);
      var i :| 0 <= i < |s| && s[i] == k;
      assert LowerAll(s)[i] == n;
    }
  }

  /** The shape of the cleaned record: lower-case names only, each once, in
      the sorted order of the original names (a folded name at its first
      position), each value read under the lower-cased name. */
  lemma CleanedShape(d: seq<Member>)
    ensures Names(Cleaned(d)) == Dedup(LowerAll(Sort(Names(d))))
    ensures Distinct(Names(Cleaned(d)))
    ensures forall m :: m in Cleaned(d) ==> IsLower(m.name) && m.value == Lookup(d, m.name)
    ensures forall n :: n in Names(Cleaned(d)) <==> exists k :: k in Names(d) && Lower(k) == n
  {
    CleanedIsRecord(d);
    RecordNames(CleanedNames(d), d);
    forall m | m in Cleaned(d) ensures IsLower(m.name) {
      assert m.name in LowerAll(Sort(Names(d)));
    }
    forall n ensures n in Names(Cleaned(d)) <==> exists k :: k in Names(d) && Lower(k) == n {
      CleanedNamesFromDescriptor(d, n);
    }
  }

  lemma {:induction false} DedupDistinct(s: seq<string>)
    requires Distinct(s)
    ensures Dedup(s) == s
  {
    if s != [] {
      var init := s[..|s| - 1];
      assert Distinct(init);
      DedupDistinct(init);
      assert s[|s| - 1] !in init;
      assert s == init + [s[|s| - 1]];
    }
  }

  lemma LowerAllOfLower(s: seq<string>)
    requires forall k :: k in s ==> IsLower(k)
    ensures LowerAll(s) == s
  {
  }

  /** A descriptor whose names are all lower case maps to itself, its names
      in sorted order. */
  lemma LowercaseDescriptorSorts(d: seq<Member>)
    requires Distinct(Names(d))
    requires forall k :: k in Names(d) ==> IsLower(k)
    ensures Names(Cleaned(d)) == Sort(Names(d))
    ensures forall n :: Lookup(Cleaned(d), n) == Lookup(d, n)
  {
    var s := Sort(Names(d));
    assert forall k :: k in s <==> k in Names(d) by {
      assert forall k :: k in s <==> k in multiset(s);
    }
    LowerAllOfLower(s);
    SortDistinct(Names(d));
    DedupDistinct(s);
    CleanedIsRecord(d);
    RecordNames(s, d);
    forall n ensures Lookup(Cleaned(d), n) == Lookup(d, n) {
      LookupRecord(s, d, n);
      if n !in s {
        LookupAbsent(d, n);
      }
    }
  }

  lemma {:induction false} LookupDistinct(d: seq<Member>, i: nat)
    requires Distinct(Names(d)) && i < |d|
    ensures Lookup(d, d[i].name) == d[i].value
  {
    if i > 0 {
      assert Names(d)[0] != Names(d)[i];
      assert Names(d[1..]) == Names(d)[1..];
      LookupDistinct(d[1..], i - 1);
    }
  }

  /** A descriptor whose names are lower case, distinct and already sorted
      is hashed as it is: the key is the prefix and the digest of the
      descriptor's own serialisation. */
  lemma SortedLowercaseDescriptorHashedAsIs(prefix: Value, md5: string -> string, json: Json, d: seq<Member>)
    requires Distinct(Names(d)) && Sorted(Names(d))
    requires forall k :: k in Names(d) ==> IsLower(k)
    ensures Cleaned(d) == d
    ensures Key(prefix, md5, json, d) == ToJsString(prefix) + md5(json.stringify(Obj(d)))
  {
    SortSorted(Names(d));
    SortedUnique(Sort(Names(d)), Names(d));
    LowerAllOfLower(Names(d));
    DedupDistinct(Names(d));
    CleanedIsRecord(d);
    forall i | 0 <= i < |d| ensures Record(Names(d), d)[i] == d[i] {
      LookupDistinct(d, i);
    }
  }

  lemma RecordAgrees(ns: seq<string>, d1: seq<Member>, d2: seq<Member>)
    requires forall n :: n in ns ==> Lookup(d1, n) == Lookup(d2, n)
    ensures Record(ns, d1) == Record(ns, d2)
  {
  }

  /** The cleaned record depends only on the multiset of names and on what
      the descriptor holds under their lower-cased forms. */
  lemma CleanedDependsOnLoweredLookups(d1: seq<Member>, d2: seq<Member>)
    requires multiset(Names(d1)) == multiset(Names(d2))
    requires forall k :: k in Names(d1) ==> Lookup(d1, Lower(k)) == Lookup(d2, Lower(k))
    ensures Cleaned(d1) == Cleaned(d2)
  {
    SortSorted(Names(d1));
    SortSorted(Names(d2));
    SortedUnique(Sort(Names(d1)), Sort(Names(d2)));
    assert CleanedNames(d1) == CleanedNames(d2);
    CleanedIsRecord(d1);
    CleanedIsRecord(d2);
    forall n | n in CleanedNames(d1) ensures Lookup(d1, n) == Lookup(d2, n) {
      CleanedNamesFromDescriptor(d1, n);
    }
    RecordAgrees(CleanedNames(d1), d1, d2);
  }

  /** Two descriptors with the same name-to-value map, whatever the order
      their properties were inserted in, get the same key. */
  lemma KeyIgnoresInsertionOrder(prefix: Value, md5: string -> string, json: Json, d1: seq<Member>, d2: seq<Member>)
    requires Distinct(Names(d1)) && Distinct(Names(d2))
    requires FieldMap(d1) == FieldMap(d2)
    ensures Key(prefix, md5, json, d1) == Key(prefix, md5, json, d2)
  {
    assert forall k :: k in Names(d1) <==> k in FieldMap(d1);
    assert forall k :: k in Names(d2) <==> k in FieldMap(d2);
    DistinctSameElements(Names(d1), Names(d2));
    forall k | k in Names(d1) ensures Lookup(d1, Lower(k)) == Lookup(d2, Lower(k)) {
      var n := Lower(k);
      if n in Names(d1) {
        assert FieldMap(d1)[n] == FieldMap(d2)[n];
      } else {
        LookupAbsent(d1, n);
        LookupAbsent(d2, n);
      }
    }
    CleanedDependsOnLoweredLookups(d1, d2);
  }

  /** A `ttl` property is not left out: its value is part of the hashed record. */
  lemma TtlIsHashed(d: seq<Member>)
    requires "ttl" in Names(d)
    ensures Member("ttl", Lookup(d, "ttl")) in Cleaned(d)
  {
    var ns := CleanedNames(d);
    assert Lower("ttl") == "ttl" by { assert IsLower("ttl"); }
    CleanedNamesFromDescriptor(d, "ttl");
    var i :| 0 <= i < |ns| && ns[i] == "ttl";
    CleanedIsRecord(d);
    assert Record(ns, d)[i] == Member("ttl", Lookup(d, "ttl"));
  }

  /** A descriptor with one property is hashed as that property under its
      lower-cased name, holding its value only when the name was already
      lower case and undefined otherwise. */
  lemma SingleMemberCleaned(k: string, v: Value)
    ensures Cleaned([Member(k, v)]) == [Member(Lower(k), if Lower(k) == k then v else Undefined)]
  {
    var d := [Member(k, v)];
    assert Names(d) == [k];
    assert Sort([k]) == Insert(k, []) == [k];
    assert [k][..0] == [];
    assert Fill([k], d) == Put([], Lower(k), Lookup(d, Lower(k)));
    assert d[1..] == [];
  }

  /** A property whose name has an upper-case letter and no lower-case twin
      is read as undefined, so its value never reaches the key: two requests
      for different URLs under the name `Url` share one key. */
  lemma MixedCaseValueIgnored(prefix: Value, md5: string -> string, json: Json, a: Value, b: Value)
    ensures Cleaned([Member("Url", a)]) == [Member("url", Undefined)]
    ensures Key(prefix, md5, json, [Member("Url", a)]) == Key(prefix, md5, json, [Member("Url", b)])
  {
    assert Lower("Url") == "url" by {
      var l := Lower("Url");
      assert l[0] == 'u' && l[1] == 'r' && l[2] == 'l';
    }
    SingleMemberCleaned("Url", a);
    SingleMemberCleaned("Url", b);
    assert Cleaned([Member("Url", a)]) == Cleaned([Member("Url", b)]);
  }

  /** Keys of caches whose prefixes differ but have the same length never
      meet, whatever the descriptors. */
  lemma PrefixesSeparateKeys(p1: Value, p2: Value, md5: string -> string, json: Json, d1: seq<Member>, d2: seq<Member>)
    requires |ToJsString(p1)| == |ToJsString(p2)| && ToJsString(p1) != ToJsString(p2)
    ensures Key(p1, md5, json, d1) != Key(p2, md5, json, d2)
  {
    var n := |ToJsString(p1)|;
    assert Key(p1, md5, json, d1)[..n] == ToJsString(p1);
    assert Key(p2, md5, json, d2)[..n] == ToJsString(p2);
  }
}
