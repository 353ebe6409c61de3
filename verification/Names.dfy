/** The order in which std::map<std::string, ...> visits its keys. */
module Names {
  predicate Leq(a: string, b: string) {
    a == "" || (b != "" && (a[0] < b[0] || (a[0] == b[0] && Leq(a[1..], b[1..]))))
  }

  /** One name is the beginning of the other, or the first character they differ in is smaller. */
  predicate Precedes(a: string, b: string, i: nat) {
    i <= |a| && i <= |b| && a[..i] == b[..i] && (i == |a| || (i < |b| && a[i] < b[i]))
  }

  lemma {:induction false} LeqIsLexicographic(a: string, b: string)
    ensures Leq(a, b) <==> exists i :: Precedes(a, b, i)
  {
    if a == "" {
      assert Precedes(a, b, 0);
    } else if b != "" && a[0] == b[0] {
      LeqIsLexicographic(a[1..], b[1..]);
      if Leq(a, b) {
        var i: nat :| Precedes(a[1..], b[1..], i);
        assert a[..i + 1] == [a[0]] + a[1..][..i] && b[..i + 1] == [b[0]] + b[1..][..i];
        assert Precedes(a, b, i + 1);
      }
      forall i: nat | Precedes(a, b, i) ensures Leq(a, b) {
        if i > 0 {
          assert a[1..][..i - 1] == a[..i][1..] && b[1..][..i - 1] == b[..i][1..];
          assert Precedes(a[1..], b[1..], i - 1);
        }
      }
    } else if b != "" {
      if Leq(a, b) {
        assert Precedes(a, b, 0);
      }
      forall i: nat | Precedes(a, b, i) ensures Leq(a, b) {
        assert i > 0 ==> a[..i][0] == b[..i][0];
      }
    }
  }

  lemma {:induction false} LeqTotal(a: string, b: string)
    ensures Leq(a, b) || Leq(b, a)
  {
    if a != "" && b != "" {
      LeqTotal(a[1..], b[1..]);
    }
  }

  lemma {:induction false} LeqAntisymmetric(a: string, b: string)
    requires Leq(a, b) && Leq(b, a)
    ensures a == b
  {
    if a != "" && b != "" {
      LeqAntisymmetric(a[1..], b[1..]);
      assert a == [a[0]] + a[1..] && b == [b[0]] + b[1..];
    }
  }

  lemma {:induction false} LeqTransitive(a: string, b: string, c: string)
    requires Leq(a, b) && Leq(b, c)
    ensures Leq(a, c)
  {
    if a != "" && b != "" && c != "" && a[0] == b[0] == c[0] {
      LeqTransitive(a[1..], b[1..], c[1..]);
    }
  }

  predicate IsLeast(name: string, names: set<string>) {
    name in names && forall other | other in names :: Leq(name, other)
  }

  lemma {:induction false} LeastExists(names: set<string>)
    requires names != {}
    ensures exists name :: IsLeast(name, names)
  {
    var name :| name in names;
    var others := names - {name};
    LeqTotal(name, name);
    if others == {} {
      assert names == {name};
      assert IsLeast(name, names);
    } else {
      LeastExists(others);
      var least :| IsLeast(least, others);
      LeqTotal(name, least);
      if Leq(name, least) {
        forall other | other in others ensures Leq(name, other) {
          LeqTransitive(name, least, other);
        }
        assert IsLeast(name, names);
      } else {
        assert IsLeast(least, names);
      }
    }
  }

  /** The first key a map with these keys visits. */
  ghost function Least(names: set<string>): (least: string)
    requires names != {}
    ensures IsLeast(least, names)
  {
    LeastExists(names);
    var least :| IsLeast(least, names);
    least
  }

  lemma LeastIsUnique(name: string, names: set<string>)
    requires IsLeast(name, names)
    ensures name == Least(names)
  {
    LeqAntisymmetric(name, Least(names));
  }
}
