/**
 * Value types shared by every component, and the two operations on
 * insertion-ordered JavaScript `Set`s that the registries rely on:
 * `delete` (Remove) and building a set from an iterable (AppendNew).
 * A `Set` is modelled as a duplicate-free sequence in insertion order.
 */
module Common {

  datatype Option<+T> = None | Some(value: T)

  datatype Result<+T, +E> = Success(value: T) | Failure(error: E)

  /** A record field as the JavaScript code sees it: a string, or `undefined` when the field is absent. */
  datatype Value = Text(s: string) | Undefined

  /** The field at position `i` of a record, `undefined` past its end (array destructuring). */
  function Field(record: seq<string>, i: nat): (v: Value)
    ensures v.Text? <==> i < |record|
    ensures v.Text? ==> v.s == record[i]
  {
    if i < |record| then Text(record[i]) else Undefined
  }

  ghost predicate NoDup<T>(s: seq<T>) {
    forall i, j :: 0 <= i < j < |s| ==> s[i] != s[j]
  }

  /** `Set.prototype.delete`: drop `x`, keep everything else in order. */
  function Remove<T(==)>(s: seq<T>, x: T): (r: seq<T>)
    ensures multiset(r) == multiset(s)[x := 0]
    ensures |r| <= |s|
    ensures x !in s ==> r == s
  {
    if s == [] then []
    else
      assert s == [s[0]] + s[1..];
      if s[0] == x then Remove(s[1..], x)
      else [s[0]] + Remove(s[1..], x)
  }

  /** Adding the elements of `s`, in order, to the set `acc` (`Set.prototype.add` in a loop). */
  function AppendNew<T(==)>(acc: seq<T>, s: seq<T>): (r: seq<T>)
    ensures |acc| <= |r| && r[..|acc|] == acc
    decreases |s|
  {
    if s == [] then acc
    else AppendNew(if s[0] in acc then acc else acc + [s[0]], s[1..])
  }

  /** Every element of the iterable, and nothing else, ends up in the set. */
  lemma {:induction false} AppendNewMembers<T>(acc: seq<T>, s: seq<T>, y: T)
    ensures y in AppendNew(acc, s) <==> y in acc || y in s
    decreases |s|
  {
    if s != [] {
      assert s == [s[0]] + s[1..];
      AppendNewMembers(if s[0] in acc then acc else acc + [s[0]], s[1..], y);
    }
  }

  lemma {:induction false} RemoveNoDup<T>(s: seq<T>, x: T)
    requires NoDup(s)
    ensures NoDup(Remove(s, x))
  {
    if s != [] {
      assert NoDup(s[1..]) by {
        forall i, j | 0 <= i < j < |s[1..]| ensures s[1..][i] != s[1..][j] {
          assert s[1..][i] == s[i + 1] && s[1..][j] == s[j + 1];
        }
      }
      RemoveNoDup(s[1..], x);
      if s[0] != x {
        var t := Remove(s[1..], x);
        assert s[0] !in s[1..] by {
          forall k | 0 <= k < |s[1..]| ensures s[1..][k] != s[0] {
            assert s[1..][k] == s[k + 1];
          }
        }
        assert s[0] !in t by {
          assert multiset(t)[s[0]] == multiset(s[1..])[s[0]] == 0;
        }
        forall i, j | 0 <= i < j < |[s[0]] + t| ensures ([s[0]] + t)[i] != ([s[0]] + t)[j] {
          if i == 0 {
            assert ([s[0]] + t)[j] == t[j - 1];
          } else {
            assert ([s[0]] + t)[i] == t[i - 1] && ([s[0]] + t)[j] == t[j - 1];
          }
        }
      }
    }
  }

  lemma {:induction false} RemoveAppend<T>(a: seq<T>, b: seq<T>, x: T)
    ensures Remove(a + b, x) == Remove(a, x) + Remove(b, x)
  {
    if a == [] {
      assert a + b == b;
    } else {
      assert (a + b)[0] == a[0] && (a + b)[1..] == a[1..] + b;
      RemoveAppend(a[1..], b, x);
    }
  }

  lemma {:induction false} AppendNewNoDup<T>(acc: seq<T>, s: seq<T>)
    requires NoDup(acc)
    ensures NoDup(AppendNew(acc, s))
    decreases |s|
  {
    if s != [] {
      var next := if s[0] in acc then acc else acc + [s[0]];
      assert NoDup(next) by {
        if s[0] !in acc {
          forall i, j | 0 <= i < j < |next| ensures next[i] != next[j] {
            if j == |acc| {
              assert next[i] == acc[i];
            } else {
              assert next[i] == acc[i] && next[j] == acc[j];
            }
          }
        }
      }
      AppendNewNoDup(next, s[1..]);
    }
  }

  /** A set built from an iterable that has no duplicates is the iterable itself. */
  lemma {:induction false} AppendNewDistinct<T>(acc: seq<T>, s: seq<T>)
    requires NoDup(acc + s)
    ensures AppendNew(acc, s) == acc + s
    decreases |s|
  {
    if s != [] {
      assert s[0] !in acc by {
        forall k | 0 <= k < |acc| ensures acc[k] != s[0] {
          assert (acc + s)[k] == acc[k] && (acc + s)[|acc|] == s[0];
        }
      }
      assert acc + [s[0]] + s[1..] == acc + s;
      AppendNewDistinct(acc + [s[0]], s[1..]);
    }
  }

  /** Adding `a` then `b` is adding `a + b`. */
  lemma {:induction false} AppendNewConcat<T>(acc: seq<T>, a: seq<T>, b: seq<T>)
    ensures AppendNew(acc, a + b) == AppendNew(AppendNew(acc, a), b)
    decreases |a|
  {
    if a == [] {
      assert a + b == b;
    } else {
      assert (a + b)[0] == a[0] && (a + b)[1..] == a[1..] + b;
      AppendNewConcat(if a[0] in acc then acc else acc + [a[0]], a[1..], b);
    }
  }

  /** Deleting `x` from a set built from an iterable is building it from the iterable without `x`. */
  lemma {:induction false} RemoveAppendNew<T>(acc: seq<T>, s: seq<T>, x: T)
    ensures Remove(AppendNew(acc, s), x) == AppendNew(Remove(acc, x), Remove(s, x))
    decreases |s|
  {
    if s != [] {
      var y := s[0];
      var next := if y in acc then acc else acc + [y];
      RemoveAppendNew(next, s[1..], x);
      assert AppendNew(acc, s) == AppendNew(next, s[1..]);
      if y !in acc {
        RemoveAppend(acc, [y], x);
      }
      if y == x {
        assert Remove(s, x) == Remove(s[1..], x);
        assert Remove(next, x) == Remove(acc, x);
      } else {
        var rest := Remove(s[1..], x);
        assert Remove(s, x) == [y] + rest;
        assert ([y] + rest)[0] == y && ([y] + rest)[1..] == rest;
        assert (y in acc) == (y in Remove(acc, x)) by {
          assert multiset(Remove(acc, x))[y] == multiset(acc)[y];
        }
        var next' := if y in Remove(acc, x) then Remove(acc, x) else Remove(acc, x) + [y];
        assert AppendNew(Remove(acc, x), [y] + rest) == AppendNew(next', rest);
        assert Remove(next, x) == next';
      }
    }
  }
}
