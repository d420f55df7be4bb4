/** Strings in the order sort.Strings and strings.Compare use, and the sorted
    keys of a map. */
module Lexical {
  import opened Ids

  predicate Less(a: string, b: string) {
    if b == "" then false
    else if a == "" then true
    else if a[0] != b[0] then a[0] < b[0]
    else Less(a[1..], b[1..])
  }

  lemma {:induction false} Total(a: string, b: string)
    ensures Less(a, b) || Less(b, a) || a == b
    ensures !(Less(a, b) && Less(b, a)) && !Less(a, a)
  {
    if a != "" {
      Total(a[1..], a[1..]);
      if b != "" && a[0] == b[0] {
        Total(a[1..], b[1..]);
        assert a == [a[0]] + a[1..] && b == [b[0]] + b[1..];
      }
    }
  }

  lemma {:induction false} Transitive(a: string, b: string, c: string)
    requires Less(a, b) && Less(b, c)
    ensures Less(a, c)
  {
    if a != "" && a[0] == b[0] == c[0] {
      Transitive(a[1..], b[1..], c[1..]);
    }
  }

  ghost predicate IsLeast(x: string, s: set<string>) {
    x in s && forall y :: y in s && y != x ==> Less(x, y)
  }

  lemma {:induction false} LeastExists(s: set<string>) returns (x: string)
    requires s != {}
    ensures IsLeast(x, s)
  {
    var a :| a in s;
    if s == {a} {
      x := a;
    } else {
      var b := LeastExists(s - {a});
      Total(a, b);
      if Less(a, b) {
        x := a;
        forall y | y in s && y != a ensures Less(a, y) {
          if y != b { Transitive(a, b, y); }
        }
      } else {
        x := b;
      }
    }
  }

  ghost predicate Ascending(s: seq<string>) {
    forall i, j | 0 <= i < j < |s| :: Less(s[i], s[j])
  }

  /** The members of `s`, each once, in order. */
  ghost function Sorted(s: set<string>): (r: seq<string>)
    ensures forall x :: x in r <==> x in s
    ensures |r| == |s|
    ensures Ascending(r)
  {
    if s == {} then []
    else
      var x := Least(s);
      var r := Sorted(s - {x});
      assert forall y :: y in [x] + r <==> y == x || y in r;
      assert forall j | 0 <= j < |r| :: r[j] in s - {x};
      [x] + r
  }

  ghost function Least(s: set<string>): (x: string)
    requires s != {}
    ensures IsLeast(x, s)
  {
    assert exists x :: IsLeast(x, s) by { var x := LeastExists(s); }
    var x :| IsLeast(x, s);
    x
  }

  lemma SortedStep(s: set<string>)
    requires s != {}
    ensures Sorted(s) == [Least(s)] + Sorted(s - {Least(s)})
  {}

  lemma LeastIsUnique(s: set<string>, x: string)
    requires s != {} && IsLeast(x, s)
    ensures x == Least(s)
  {
    Total(x, Least(s));
  }

  /** There is only one way to sort a set. */
  lemma {:induction false} SortedIsUnique(s: set<string>, r: seq<string>)
    requires Ascending(r) && forall x :: x in r <==> x in s
    ensures r == Sorted(s)
  {
    hide Less;
    if r == [] {
      assert s == {};
    } else {
      assert r[0] in r;
      AscendingRest(s, r);
      LeastIsUnique(s, r[0]);
      SortedIsUnique(s - {r[0]}, r[1..]);
    }
  }

  lemma AscendingRest(s: set<string>, r: seq<string>)
    requires r != [] && Ascending(r) && forall x :: x in r <==> x in s
    ensures IsLeast(r[0], s) && forall y :: y in r[1..] <==> y in s - {r[0]}
  {
    hide Less;
    assert r == [r[0]] + r[1..];
    forall y | y in r[1..] ensures Less(r[0], y) && y != r[0] {
      var j :| 0 <= j < |r[1..]| && r[1..][j] == y;
      assert Less(r[0], r[j + 1]);
      Total(r[0], y);
    }
  }

  method FindLeast(keys: set<string>) returns (x: string)
    requires keys != {}
    ensures x == Least(keys)
  {
    x :| x in keys;
    var todo := keys - {x};
    while todo != {}
      invariant x in keys && todo <= keys - {x}
      invariant forall y :: y in keys && y != x && y !in todo ==> Less(x, y)
      decreases todo
    {
      var y :| y in todo;
      if Less(y, x) {
        forall z | z in keys && z != y && z !in todo - {y} ensures Less(y, z) {
          if z != x { Transitive(y, x, z); }
        }
        x := y;
      } else {
        Total(x, y);
      }
      todo := todo - {y};
    }
    LeastIsUnique(keys, x);
  }

  /** sort.Strings on the keys of a map. */
  method SortStrings(keys: set<string>) returns (r: seq<string>)
    ensures r == Sorted(keys)
  {
    hide Sorted, Least, IsLeast;
    r := [];
    var rest := keys;
    while rest != {}
      invariant Sorted(keys) == r + Sorted(rest)
      decreases rest
    {
      var x := FindLeast(rest);
      SortedStep(rest);
      LeastIsIn(rest);
      AppendTwice(r, [x], Sorted(rest - {x}));
      r := r + [x];
      rest := rest - {x};
    }
    assert Sorted(rest) == [];
  }

  lemma LeastIsIn(s: set<string>)
    requires s != {}
    ensures Least(s) in s
  {}
}
