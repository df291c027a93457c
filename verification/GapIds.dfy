// gap_parse_ids: the list of missing numbers in a server's answer.
module GapIds {
  import opened GapModel
  import opened Options

  datatype Json = Number(v: real) | Other

  // A number the session can have handed out.
  predicate Good(x: Json, lastId: int) {
    x.Number? && 0.0 <= x.v <= lastId as real && x.v == x.v.Floor as real
  }

  predicate Ascending(s: seq<int>) { forall i, j :: 0 <= i < j < |s| ==> s[i] < s[j] }

  predicate Ordered(s: seq<int>) { forall i, j :: 0 <= i < j < |s| ==> s[i] <= s[j] }

  // qsort is a library call: any ordered arrangement of the same numbers.
  function Insert(x: int, s: seq<int>): seq<int> {
    if s == [] || x <= s[0] then [x] + s else [s[0]] + Insert(x, s[1..])
  }

  function Sort(s: seq<int>): seq<int> {
    if s == [] then [] else Insert(s[0], Sort(s[1..]))
  }

  lemma {:induction false} InsertOrdered(x: int, s: seq<int>)
    requires Ordered(s)
    ensures var r := Insert(x, s); Ordered(r) && |r| == |s| + 1 && forall y :: y in r <==> y == x || y in s
  {
    if s != [] && x > s[0] {
      var t := Insert(x, s[1..]);
      InsertOrdered(x, s[1..]);
      assert s == [s[0]] + s[1..];
      forall i | 0 <= i < |t| ensures s[0] <= t[i] { assert t[i] in t; }
    }
  }

  lemma {:induction false} SortOrdered(s: seq<int>)
    ensures Ordered(Sort(s)) && |Sort(s)| == |s| && forall y :: y in Sort(s) <==> y in s
  {
    if s != [] {
      SortOrdered(s[1..]);
      InsertOrdered(s[0], Sort(s[1..]));
      assert s == [s[0]] + s[1..];
    }
  }

  // Drop repeats from an ordered array, in place.
  method Dedupe(a: array<int>) returns (unique: nat)
    requires Ordered(a[..])
    modifies a
    ensures unique <= a.Length && Ascending(a[..unique])
    ensures forall x :: x in a[..unique] <==> x in old(a[..])
  {
    ghost var s := a[..];
    unique := 0;
    for i := 0 to a.Length
      invariant unique <= i && (i > 0 ==> unique > 0 && a[unique - 1] == s[i - 1])
      invariant forall k :: i - 1 <= k < a.Length && k >= 0 ==> a[k] == s[k]
      invariant Ascending(a[..unique])
      invariant forall x :: x in a[..unique] <==> x in s[..i]
    {
      assert s[..i + 1] == s[..i] + [s[i]];
      if i == 0 || a[i] != a[i - 1] {
        ghost var kept := a[..unique];
        a[unique] := a[i];
        assert a[..unique + 1] == kept + [s[i]];
        unique := unique + 1;
      }
    }
    assert s[..a.Length] == s;
  }

  // None: the answer was not JSON, had no list of ids, or one of them made no sense.
  method ParseIds(items: Option<seq<Json>>, lastId: int, memory: bool) returns (r: Option<seq<int>>)
    ensures r.Some? <==> items.Some? && (items.value == [] || memory) && forall i :: 0 <= i < |items.value| ==> Good(items.value[i], lastId)
    ensures r.Some? ==> Ascending(r.value)
    ensures r.Some? ==> forall x :: x in r.value <==> exists i :: 0 <= i < |items.value| && items.value[i].Number? && items.value[i].v == x as real
    ensures r.Some? ==> forall x :: x in r.value ==> 0 <= x <= lastId
    ensures r.Some? ==> (r.value == [] <==> items.value == [])
  {
    if items == None { return None; }
    var count := |items.value|;
    if count > 0 && !memory { return None; }
    var values := new int[count];
    for i := 0 to count
      invariant forall k :: 0 <= k < i ==> Good(items.value[k], lastId) && values[k] == items.value[k].v.Floor
    {
      if !Good(items.value[i], lastId) { return None; }
      values[i] := items.value[i].v.Floor;
    }
    ghost var read := values[..];
    SortOrdered(read);
    var sorted := Sort(values[..]);
    forall i | 0 <= i < count { values[i] := sorted[i]; }
    assert values[..] == sorted;
    var unique := Dedupe(values);
    r := Some(values[..unique]);
    forall x ensures x in r.value <==> exists i :: 0 <= i < count && items.value[i].Number? && items.value[i].v == x as real {
      if x in r.value {
        var k :| 0 <= k < count && read[k] == x;
        assert items.value[k].v == x as real;
      }
      if i :| 0 <= i < count && items.value[i].Number? && items.value[i].v == x as real {
        assert read[i] == x;
      }
    }
    if count > 0 { assert read[0] in r.value; }
  }
}
