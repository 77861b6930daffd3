/** Lists of names: in the order of sort.Strings, and without repetition. */
module Names {
  // sort.Strings: byte by byte, a prefix first.
  predicate Before(a: string, b: string) {
    b != [] && (a == [] || a[0] < b[0] || (a[0] == b[0] && Before(a[1..], b[1..])))
  }

  // The first difference decides, and a prefix comes before what it begins.
  lemma {:induction false} BeforeIs(a: string, b: string)
    ensures Before(a, b) <==> exists n: nat ::
      n <= |a| && n < |b| && a[..n] == b[..n] && (n == |a| || a[n] < b[n])
  {
    if a != [] && b != [] {
      BeforeIs(a[1..], b[1..]);
      if Before(a[1..], b[1..]) && a[0] == b[0] {
        var n: nat :| n <= |a[1..]| && n < |b[1..]| && a[1..][..n] == b[1..][..n]
          && (n == |a[1..]| || a[1..][n] < b[1..][n]);
        assert a[..n + 1] == [a[0]] + a[1..][..n] && b[..n + 1] == [b[0]] + b[1..][..n];
        assert n + 1 == |a| || a[n + 1] < b[n + 1];
      } else if a[0] < b[0] {
        assert a[..0] == b[..0];
      }
      if n: nat :| n <= |a| && n < |b| && a[..n] == b[..n] && (n == |a| || a[n] < b[n]) {
        if n > 0 {
          assert a[0] == a[..n][0] == b[..n][0] == b[0];
          assert a[1..][..n - 1] == a[..n][1..] == b[..n][1..] == b[1..][..n - 1];
          assert n - 1 == |a[1..]| || a[1..][n - 1] < b[1..][n - 1];
        }
      }
    } else if a == [] && b != [] {
      assert a[..0] == b[..0];
    }
  }

  lemma {:induction false} BeforeIsTransitive(a: string, b: string, c: string)
    requires Before(a, b) && Before(b, c)
    ensures Before(a, c)
  {
    if a != [] && a[0] == b[0] == c[0] {
      BeforeIsTransitive(a[1..], b[1..], c[1..]);
    }
  }

  lemma {:induction false} BeforeIsTotal(a: string, b: string)
    ensures a == b || Before(a, b) || Before(b, a)
    ensures !Before(a, a) && !(Before(a, b) && Before(b, a))
  {
    if a != [] && b != [] {
      BeforeIsTotal(a[1..], b[1..]);
      assert a == [a[0]] + a[1..] && b == [b[0]] + b[1..];
    }
    if a != [] {
      BeforeIsTotal(a[1..], a[1..]);
    }
  }

  ghost predicate Ascending(names: seq<string>) {
    forall i, j | 0 <= i < j < |names| :: Before(names[i], names[j])
  }

  // A set of names as it is walked after sorting.
  ghost predicate Lists(names: seq<string>, keys: set<string>) {
    Ascending(names) && forall n :: n in names <==> n in keys
  }

  // There is only one such list.
  lemma {:induction false} ListIsUnique(a: seq<string>, b: seq<string>, keys: set<string>)
    requires Lists(a, keys) && Lists(b, keys)
    ensures a == b
  {
    if a == [] {
      assert keys == {};
      if b != [] {
        FirstIsListed(b, keys);
      }
    } else {
      assert a[0] in a;
      assert b != [];
      assert b[0] in b;
      FirstIsLeast(a, b[0]);
      FirstIsLeast(b, a[0]);
      BeforeIsTotal(a[0], b[0]);
      TailLists(a, keys);
      TailLists(b, keys);
      ListIsUnique(a[1..], b[1..], keys - {a[0]});
      assert a == [a[0]] + a[1..] && b == [b[0]] + b[1..];
    }
  }

  lemma FirstIsListed(names: seq<string>, keys: set<string>)
    requires Lists(names, keys) && names != []
    ensures names[0] in keys
  {
    assert names[0] in names;
  }

  lemma FirstIsLeast(a: seq<string>, n: string)
    requires Ascending(a) && n in a
    ensures n == a[0] || Before(a[0], n)
  {
    var i :| 0 <= i < |a| && a[i] == n;
  }

  lemma TailLists(a: seq<string>, keys: set<string>)
    requires Lists(a, keys) && a != []
    ensures Lists(a[1..], keys - {a[0]})
  {
    BeforeIsTotal(a[0], a[0]);
    assert a == [a[0]] + a[1..];
    forall n ensures n in a[1..] <==> n in keys - {a[0]} {
      assert n in a <==> n == a[0] || n in a[1..];
      if n in a[1..] {
        var i :| 0 <= i < |a[1..]| && a[1..][i] == n;
        assert Before(a[0], a[i + 1]);
      }
    }
  }

  // sortedValueNames.
  method SortedNames(keys: set<string>) returns (names: seq<string>)
    ensures Lists(names, keys)
  {
    names := [];
    var todo := keys;
    while todo != {}
      invariant todo <= keys && Lists(names, keys - todo)
      decreases |todo|
    {
      var name: string :| name in todo;
      names := Insert(names, name, keys - todo);
      todo := todo - {name};
    }
  }

  method Insert(names: seq<string>, name: string, ghost keys: set<string>) returns (r: seq<string>)
    requires Lists(names, keys) && name !in keys
    ensures Lists(r, keys + {name})
  {
    var i := 0;
    while i < |names| && Before(names[i], name)
      invariant i <= |names| && forall k | 0 <= k < i :: Before(names[k], name)
    {
      i := i + 1;
    }
    r := names[..i] + [name] + names[i..];
    forall k | i <= k < |names| ensures Before(name, names[k]) {
      assert names[k] in names && names[i] in names;
      BeforeIsTotal(names[i], name);
      if k > i {
        BeforeIsTransitive(name, names[i], names[k]);
      }
    }
    assert forall n :: n in r <==> n in names || n == name;
  }

  // ---------- lists without repetition ----------

  ghost predicate Distinct(s: seq<string>) {
    forall i, j | 0 <= i < j < |s| :: s[i] != s[j]
  }

  ghost predicate Apart(a: seq<string>, b: seq<string>) {
    forall i, j | 0 <= i < |a| && 0 <= j < |b| :: a[i] != b[j]
  }

  lemma JoinedDiffer(a: seq<string>, b: seq<string>)
    ensures Distinct(a + b) <==> Distinct(a) && Distinct(b) && Apart(a, b)
  {
    var c := a + b;
    assert forall i | 0 <= i < |a| :: c[i] == a[i];
    assert forall j | 0 <= j < |b| :: c[|a| + j] == b[j];
    if Distinct(c) {
      forall i, j | 0 <= i < j < |b| ensures b[i] != b[j] {
        assert c[|a| + i] != c[|a| + j];
      }
      forall i, j | 0 <= i < |a| && 0 <= j < |b| ensures a[i] != b[j] {
        assert c[i] != c[|a| + j];
      }
    }
  }

  function SetOf(s: seq<string>): set<string> {
    set x | x in s
  }

  lemma {:induction false} SizeOfDistinct(s: seq<string>)
    requires Distinct(s)
    ensures |SetOf(s)| == |s|
  {
    if s != [] {
      var n := |s| - 1;
      SizeOfDistinct(s[..n]);
      assert s == s[..n] + [s[n]];
      assert SetOf(s) == SetOf(s[..n]) + {s[n]};
    }
  }
}
