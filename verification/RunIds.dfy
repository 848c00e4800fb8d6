/**
 Child run ids as a request names them: the order they are polled in, and when two requests
 name the same children.
 */
module RunIds {

  /** The outcome of parsing a request text as a list of run ids. */
  datatype Parsed = Ids(ids: seq<string>) | Malformed

  /** Lexicographic order on run ids, the order a sort of strings uses. */
  predicate Leq(a: string, b: string) {
    if a == "" then true
    else if b == "" then false
    else a[0] < b[0] || (a[0] == b[0] && Leq(a[1..], b[1..]))
  }

  lemma {:induction false} LeqTotal(a: string, b: string)
    ensures Leq(a, b) || Leq(b, a)
  {
    if a != "" && b != "" { LeqTotal(a[1..], b[1..]); }
  }

  lemma {:induction false} LeqAntisymmetric(a: string, b: string)
    requires Leq(a, b) && Leq(b, a)
    ensures a == b
  {
    if a != "" && b != "" {
      LeqAntisymmetric(a[1..], b[1..]);
      assert a == [a[0]] + a[1..] && b == [b[0]] + b[1..];
    }
  }

  lemma {:induction false} LeqTransitive(a: string, b: string, c: string)
    requires Leq(a, b) && Leq(b, c)
    ensures Leq(a, c)
  {
    if a != "" && a[0] == b[0] == c[0] { LeqTransitive(a[1..], b[1..], c[1..]); }
  }

  predicate Ascending(s: seq<string>) {
    forall i, j :: 0 <= i < j < |s| ==> Leq(s[i], s[j])
  }

  function Insert(x: string, s: seq<string>): seq<string> {
    if s == [] || Leq(x, if s == [] then x else s[0]) then [x] + s
    else [s[0]] + Insert(x, s[1..])
  }

  lemma {:induction false} InsertKeepsOrder(x: string, s: seq<string>)
    requires Ascending(s)
    ensures Ascending(Insert(x, s))
    ensures multiset(Insert(x, s)) == multiset(s) + multiset{x}
  {
    if s == [] {
    } else if Leq(x, s[0]) {
      forall j | 0 <= j < |s| ensures Leq(x, s[j]) {
        if j > 0 { LeqTransitive(x, s[0], s[j]); }
      }
    } else {
      LeqTotal(x, s[0]);
      InsertKeepsOrder(x, s[1..]);
      var r := Insert(x, s[1..]);
      assert s == [s[0]] + s[1..];
      forall j | 0 <= j < |r| ensures Leq(s[0], r[j]) {
        assert r[j] in multiset(r);
        assert r[j] in s[1..] || r[j] == x;
      }
    }
  }

  /** The ids in polling order. */
  function Sort(s: seq<string>): seq<string> {
    if s == [] then [] else Insert(s[0], Sort(s[1..]))
  }

  lemma {:induction false} SortSorts(s: seq<string>)
    ensures Ascending(Sort(s)) && multiset(Sort(s)) == multiset(s) && |Sort(s)| == |s|
  {
    if s != [] {
      SortSorts(s[1..]);
      InsertKeepsOrder(s[0], Sort(s[1..]));
      assert s == [s[0]] + s[1..];
    }
    assert |Sort(s)| == |multiset(Sort(s))| && |s| == |multiset(s)|;
  }

  lemma {:induction false} SameMultisetSameHead(s: seq<string>, t: seq<string>)
    requires Ascending(s) && Ascending(t) && multiset(s) == multiset(t) && s != [] && t != []
    ensures s[0] == t[0]
  {
    assert s[0] in multiset(t) && t[0] in multiset(s);
    var i :| 0 <= i < |t| && t[i] == s[0];
    var j :| 0 <= j < |s| && s[j] == t[0];
    if i != 0 && j != 0 { LeqAntisymmetric(s[0], t[0]); }
  }

  lemma {:induction false} AscendingIsCanonical(s: seq<string>, t: seq<string>)
    requires Ascending(s) && Ascending(t) && multiset(s) == multiset(t)
    ensures s == t
  {
    assert |s| == |multiset(s)| && |t| == |multiset(t)|;
    if s != [] {
      SameMultisetSameHead(s, t);
      var s', t' := s[1..], t[1..];
      assert s == [s[0]] + s' && t == [t[0]] + t';
      assert multiset(s') == multiset(s) - multiset{s[0]};
      assert multiset(t') == multiset(t) - multiset{t[0]};
      AscendingIsCanonical(s', t');
    }
  }

  /** Polling order depends only on which ids are named, not on how they were written. */
  lemma {:induction false} SortIsCanonical(s: seq<string>, t: seq<string>)
    ensures Sort(s) == Sort(t) <==> multiset(s) == multiset(t)
  {
    SortSorts(s);
    SortSorts(t);
    if multiset(s) == multiset(t) { AscendingIsCanonical(Sort(s), Sort(t)); }
  }

  /** Two request texts name the same children: the same ids with the same multiplicities, or,
      when either does not parse, the same text. */
  predicate SameChildren(parse: string -> Parsed, a: string, b: string) {
    if parse(a).Ids? && parse(b).Ids? then multiset(parse(a).ids) == multiset(parse(b).ids) else a == b
  }

  method SamePositions(x: seq<string>, y: seq<string>) returns (same: bool)
    requires |x| == |y|
    ensures same <==> x == y
  {
    for i := 0 to |x|
      invariant forall k :: 0 <= k < i ==> x[k] == y[k]
    {
      if x[i] != y[i] {
        return false;
      }
    }
    return true;
  }

  lemma {:induction false} SortedComparison(x: seq<string>, y: seq<string>)
    ensures multiset(x) == multiset(y) <==> |x| == |y| && Sort(x) == Sort(y)
    ensures |Sort(x)| == |x| && |Sort(y)| == |y|
  {
    SortIsCanonical(x, y);
    SortSorts(x);
    SortSorts(y);
  }

  /** The comparison as the engine makes it: sort both lists and walk them together. */
  method SameRunIDSet(parse: string -> Parsed, a: string, b: string) returns (same: bool)
    ensures same <==> SameChildren(parse, a, b)
  {
    if parse(a).Malformed? || parse(b).Malformed? {
      return a == b;
    }
    var ia, ib := parse(a).ids, parse(b).ids;
    SortedComparison(ia, ib);
    if |ia| != |ib| {
      return false;
    }
    same := SamePositions(Sort(ia), Sort(ib));
  }
}
