/**
 * The result classifier of `requestMultiplePermissions`: the platform's per-permission grant
 * flags go in, together with the "should show rationale" query; out come the invocations of
 * `denied(list)`, `explained(list)` and `allGranted()`, in the order they are made.
 */
module Permissions {
  import opened Sequences

  /** The two `groupBy` keys. */
  const DENIED: string := "DENIED"
  const EXPLAINED: string := "EXPLAINED"

  /** One entry of the platform's result map, listed in the map's iteration order. */
  datatype Grant = Grant(permission: string, granted: bool)

  /** One callback invocation made by the classifier. */
  datatype Event = Denied(permissions: seq<string>) | Explained(permissions: seq<string>) | AllGranted

  /** The keys of the result map, in iteration order. */
  function Keys(result: seq<Grant>): (keys: seq<string>)
    ensures |keys| == |result|
    ensures forall i :: 0 <= i < |result| ==> keys[i] == result[i].permission
  {
    if result == [] then [] else [result[0].permission] + Keys(result[1..])
  }

  /** `result.filter { !it.value }.map { it.key }` */
  function DeniedList(result: seq<Grant>): (r: seq<string>)
  {
    if result == [] then []
    else (if result[0].granted then [] else [result[0].permission]) + DeniedList(result[1..])
  }

  /** The elements of `s` whose key is `k`, in the order of `s`. */
  function Select<T, K(==)>(s: seq<T>, key: T -> K, k: K): (r: seq<T>)
  {
    if s == [] then []
    else (if key(s[0]) == k then [s[0]] else []) + Select(s[1..], key, k)
  }

  /**
   * `s.groupBy(key)`: walks `s` from first to last and appends each element to the group of
   * its key, creating the group on the key's first occurrence.
   */
  function GroupBy<T, K(==)>(s: seq<T>, key: T -> K): (r: map<K, seq<T>>)
    decreases |s|
  {
    if s == [] then map[]
    else
      var groups := GroupBy(s[..|s| - 1], key);
      var x := s[|s| - 1];
      var k := key(x);
      groups[k := (if k in groups then groups[k] else []) + [x]]
  }

  /** The `groupBy` selector: DENIED when the rationale should be shown, EXPLAINED otherwise. */
  function Bucket(rationale: string -> bool): (r: string -> string)
  {
    p => if rationale(p) then DENIED else EXPLAINED
  }

  /** `map[DENIED]?.let { denied(it) }` followed by `map[EXPLAINED]?.let { explained(it) }`. */
  function GroupEvents(groups: map<string, seq<string>>): (r: seq<Event>)
  {
    (if DENIED in groups then [Denied(groups[DENIED])] else [])
    + (if EXPLAINED in groups then [Explained(groups[EXPLAINED])] else [])
  }

  /** The body of the `registerForActivityResult` callback in `requestMultiplePermissions`. */
  function Classify(result: seq<Grant>, rationale: string -> bool): (r: seq<Event>)
  {
    var denied := DeniedList(result);
    if |denied| > 0 then GroupEvents(GroupBy(denied, Bucket(rationale))) else [AllGranted]
  }

  // ---------------------------------------------------------------------------------------
  // The denied list

  /** A permission is in the denied list exactly when some entry for it is not granted. */
  lemma {:induction false} DeniedListMember(result: seq<Grant>, p: string)
    ensures p in DeniedList(result) <==>
            exists i :: 0 <= i < |result| && result[i].permission == p && !result[i].granted
  {
    if result != [] {
      DeniedListMember(result[1..], p);
      if p in DeniedList(result[1..]) {
        var i :| 0 <= i < |result[1..]| && result[1..][i].permission == p && !result[1..][i].granted;
        assert result[i + 1] == result[1..][i];
      }
      if exists i :: 0 <= i < |result| && result[i].permission == p && !result[i].granted {
        var i :| 0 <= i < |result| && result[i].permission == p && !result[i].granted;
        if i > 0 {
          assert result[1..][i - 1] == result[i];
        }
      }
    }
  }

  /** The denied list keeps the result's iteration order and is empty iff everything is granted. */
  lemma {:induction false} DeniedListOrder(result: seq<Grant>)
    ensures Subsequence(DeniedList(result), Keys(result))
    ensures DeniedList(result) == [] <==> forall i :: 0 <= i < |result| ==> result[i].granted
  {
    if result != [] {
      DeniedListOrder(result[1..]);
      var rest := DeniedList(result[1..]);
      assert Keys(result) == [result[0].permission] + Keys(result[1..]);
      if result[0].granted {
        assert DeniedList(result) == rest;
        SubsequenceSkip(rest, result[0].permission, Keys(result[1..]));
        if !forall i :: 0 <= i < |result[1..]| ==> result[1..][i].granted {
          var i :| 0 <= i < |result[1..]| && !result[1..][i].granted;
          assert result[i + 1] == result[1..][i];
        }
      } else {
        assert DeniedList(result) == [result[0].permission] + rest;
        SubsequenceKeep(rest, result[0].permission, Keys(result[1..]));
      }
    }
  }

  // ---------------------------------------------------------------------------------------
  // Selection and grouping

  lemma {:induction false} SelectMember<T, K>(s: seq<T>, key: T -> K, k: K, x: T)
    ensures x in Select(s, key, k) <==> x in s && key(x) == k
  {
    if s != [] {
      SelectMember(s[1..], key, k, x);
      assert s == [s[0]] + s[1..];
    }
  }

  lemma {:induction false} SelectOrder<T, K>(s: seq<T>, key: T -> K, k: K)
    ensures Subsequence(Select(s, key, k), s)
  {
    if s != [] {
      SelectOrder(s[1..], key, k);
      assert s == [s[0]] + s[1..];
      if key(s[0]) == k {
        assert Select(s, key, k) == [s[0]] + Select(s[1..], key, k);
        SubsequenceKeep(Select(s[1..], key, k), s[0], s[1..]);
      } else {
        assert Select(s, key, k) == Select(s[1..], key, k);
        SubsequenceSkip(Select(s[1..], key, k), s[0], s[1..]);
      }
    }
  }

  lemma {:induction false} SelectAppend<T, K>(s: seq<T>, x: T, key: T -> K, k: K)
    ensures Select(s + [x], key, k) == Select(s, key, k) + (if key(x) == k then [x] else [])
  {
    if s == [] {
      assert [] + [x] == [x];
      assert [x][1..] == [];
      assert Select([x], key, k) == (if key(x) == k then [x] else []) + Select([], key, k);
    } else {
      var t := s + [x];
      assert t[0] == s[0];
      assert t[1..] == s[1..] + [x];
      var head := if key(s[0]) == k then [s[0]] else [];
      assert Select(t, key, k) == head + Select(s[1..] + [x], key, k);
      SelectAppend(s[1..], x, key, k);
      assert Select(s, key, k) == head + Select(s[1..], key, k);
    }
  }

  /** `groupBy` yields no empty group, and the group of `k` is the selection of `k`. */
  lemma {:induction false} GroupByGroups<T, K>(s: seq<T>, key: T -> K, k: K)
    ensures k in GroupBy(s, key) <==> Select(s, key, k) != []
    ensures k in GroupBy(s, key) ==> GroupBy(s, key)[k] == Select(s, key, k)
    decreases |s|
  {
    if s != [] {
      var init, x := s[..|s| - 1], s[|s| - 1];
      assert s == init + [x];
      GroupByGroups(init, key, k);
      SelectAppend(init, x, key, k);
    }
  }

  /** Grouping by `Bucket` is selecting by the rationale flag. */
  lemma {:induction false} BucketSelect(s: seq<string>, rationale: string -> bool)
    ensures Select(s, Bucket(rationale), DENIED) == Select(s, rationale, true)
    ensures Select(s, Bucket(rationale), EXPLAINED) == Select(s, rationale, false)
  {
    if s != [] {
      BucketSelect(s[1..], rationale);
    }
  }

  /** Selecting by a flag and by its negation partitions a list. */
  lemma {:induction false} SelectPartition<T>(s: seq<T>, flag: T -> bool)
    ensures multiset(Select(s, flag, true)) + multiset(Select(s, flag, false)) == multiset(s)
    ensures |Select(s, flag, true)| + |Select(s, flag, false)| == |s|
  {
    if s != [] {
      SelectPartition(s[1..], flag);
      assert s == [s[0]] + s[1..];
      var yes, no := Select(s[1..], flag, true), Select(s[1..], flag, false);
      if flag(s[0]) {
        assert Select(s, flag, true) == [s[0]] + yes;
        assert Select(s, flag, false) == no;
      } else {
        assert Select(s, flag, true) == yes;
        assert Select(s, flag, false) == [s[0]] + no;
      }
    }
  }

  /** The two rationale groups split a list: disjoint, covering, and each in the list's order. */
  lemma RationaleSplit(s: seq<string>, rationale: string -> bool)
    ensures multiset(Select(s, rationale, true)) + multiset(Select(s, rationale, false)) == multiset(s)
    ensures forall p :: p in Select(s, rationale, true) ==> p in s && rationale(p)
    ensures forall p :: p in Select(s, rationale, false) ==> p in s && !rationale(p)
    ensures forall p :: p in s ==> p in Select(s, rationale, true) || p in Select(s, rationale, false)
    ensures Subsequence(Select(s, rationale, true), s) && Subsequence(Select(s, rationale, false), s)
  {
    SelectPartition(s, rationale);
    forall p | p in s || p in Select(s, rationale, true) || p in Select(s, rationale, false)
      ensures p in Select(s, rationale, true) <==> p in s && rationale(p)
      ensures p in Select(s, rationale, false) <==> p in s && !rationale(p)
    {
      SelectMember(s, rationale, true, p);
      SelectMember(s, rationale, false, p);
    }
    SelectOrder(s, rationale, true);
    SelectOrder(s, rationale, false);
  }

  // ---------------------------------------------------------------------------------------
  // The classification

  /** The rationale groups of a list, as `groupBy` with the selector builds them. */
  lemma RationaleGroups(s: seq<string>, rationale: string -> bool)
    ensures var groups := GroupBy(s, Bucket(rationale));
            var shown := Select(s, rationale, true);
            var hidden := Select(s, rationale, false);
            && (DENIED in groups <==> shown != []) && (DENIED in groups ==> groups[DENIED] == shown)
            && (EXPLAINED in groups <==> hidden != []) && (EXPLAINED in groups ==> groups[EXPLAINED] == hidden)
            && |shown| + |hidden| == |s|
  {
    GroupByGroups(s, Bucket(rationale), DENIED);
    GroupByGroups(s, Bucket(rationale), EXPLAINED);
    BucketSelect(s, rationale);
    SelectPartition(s, rationale);
  }

  /** The group callbacks never include `allGranted`. */
  lemma GroupEventsNotGranted(groups: map<string, seq<string>>)
    ensures AllGranted !in GroupEvents(groups)
  {
  }

  /**
   * `allGranted` fires, alone and exactly once, exactly when no entry is non-granted,
   * which includes the empty result; otherwise it does not fire at all.
   */
  lemma ClassifyAllGranted(result: seq<Grant>, rationale: string -> bool)
    ensures Classify(result, rationale) == [AllGranted] <==>
            forall i :: 0 <= i < |result| ==> result[i].granted
    ensures AllGranted in Classify(result, rationale) <==>
            forall i :: 0 <= i < |result| ==> result[i].granted
  {
    DeniedListOrder(result);
    var denied := DeniedList(result);
    if denied != [] {
      var groups := GroupBy(denied, Bucket(rationale));
      assert Classify(result, rationale) == GroupEvents(groups);
      GroupEventsNotGranted(groups);
    } else {
      assert Classify(result, rationale) == [AllGranted];
    }
  }

  /**
   * With at least one non-granted entry: `denied` receives the non-granted permissions whose
   * rationale should be shown, `explained` the others, each only when its group is non-empty,
   * `denied` first, and `allGranted` is not called.
   */
  lemma ClassifyDenied(result: seq<Grant>, rationale: string -> bool)
    requires exists i :: 0 <= i < |result| && !result[i].granted
    ensures var denied := DeniedList(result);
            var shown := Select(denied, rationale, true);
            var hidden := Select(denied, rationale, false);
            Classify(result, rationale) ==
              (if shown != [] then [Denied(shown)] else [])
              + (if hidden != [] then [Explained(hidden)] else [])
    ensures 1 <= |Classify(result, rationale)| <= 2
    ensures AllGranted !in Classify(result, rationale)
  {
    var denied := DeniedList(result);
    DeniedListOrder(result);
    assert denied != [];
    var groups := GroupBy(denied, Bucket(rationale));
    assert Classify(result, rationale) == GroupEvents(groups);
    RationaleGroups(denied, rationale);
    var shown := Select(denied, rationale, true);
    var hidden := Select(denied, rationale, false);
    var d := if shown != [] then [Denied(shown)] else [];
    var e := if hidden != [] then [Explained(hidden)] else [];
    assert GroupEvents(groups) == d + e;
    assert |d| + |e| >= 1 && |d| <= 1 && |e| <= 1;
    GroupEventsNotGranted(groups);
  }

  /** Scenario: a single, already granted permission yields a single `allGranted()`. */
  lemma GrantedScenario(rationale: string -> bool)
    ensures Classify([Grant("android.permission.CAMERA", true)], rationale) == [AllGranted]
  {
  }

  /** Scenario: two permanently denied permissions are explained together, in request order. */
  lemma ExplainedScenario(rationale: string -> bool)
    requires !rationale("android.permission.CAMERA")
    requires !rationale("android.permission.WRITE_EXTERNAL_STORAGE")
    ensures Classify([Grant("android.permission.CAMERA", false),
                      Grant("android.permission.WRITE_EXTERNAL_STORAGE", false)], rationale)
            == [Explained(["android.permission.CAMERA", "android.permission.WRITE_EXTERNAL_STORAGE"])]
  {
    var result := [Grant("android.permission.CAMERA", false),
                   Grant("android.permission.WRITE_EXTERNAL_STORAGE", false)];
    assert !result[0].granted;
    assert DeniedList(result) == ["android.permission.CAMERA", "android.permission.WRITE_EXTERNAL_STORAGE"];
    ClassifyDenied(result, rationale);
    assert Select(DeniedList(result), rationale, true) == [];
    assert Select(DeniedList(result), rationale, false) == DeniedList(result);
  }
}
