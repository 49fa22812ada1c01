/** The `List<T>` operations the aggregates rely on, with reference equality as `==`. */
module Lists {

  /** No element occurs twice. */
  ghost predicate NoDuplicates<T>(s: seq<T>) {
    forall i, j | 0 <= i < j < |s| :: s[i] != s[j]
  }

  /** `if (!list.Contains(x)) list.Add(x)`: the guarded append used by every aggregate. */
  function AddIfAbsent<T(==)>(s: seq<T>, x: T): (r: seq<T>)
    ensures x in r
    ensures x in s ==> r == s
    ensures forall i | 0 <= i < |r| :: r[i] in s || r[i] == x
    ensures |s| <= |r| <= |s| + 1 && r[..|s|] == s
    ensures NoDuplicates(s) ==> NoDuplicates(r)
  {
    if x in s then s else s + [x]
  }

  /** `list.Remove(x)`: drops the first occurrence of `x`, if any. */
  function RemoveFirst<T(==)>(s: seq<T>, x: T): (r: seq<T>)
    ensures multiset(r) == multiset(s) - multiset{x}
    ensures x in s ==> |r| == |s| - 1
    ensures x !in s ==> r == s
  {
    if s == [] then []
    else
      assert s == [s[0]] + s[1..];
      if s[0] == x then s[1..]
      else [s[0]] + RemoveFirst(s[1..], x)
  }

  /** The elements of `s` other than `x`, in their original order. */
  function Without<T(==)>(s: seq<T>, x: T): (r: seq<T>)
    ensures x !in r
    ensures forall i | 0 <= i < |r| :: r[i] in s
    ensures forall i | 0 <= i < |s| && s[i] != x :: s[i] in r
  {
    if s == [] then []
    else (if s[0] == x then [] else [s[0]]) + Without(s[1..], x)
  }

  /** A list has no duplicates exactly when its head is not in its tail and its tail has none. */
  lemma ConsNoDuplicates<T>(s: seq<T>)
    requires s != []
    ensures NoDuplicates(s) <==> s[0] !in s[1..] && NoDuplicates(s[1..])
  {
    if NoDuplicates(s) {
      forall k | 0 <= k < |s[1..]| ensures s[1..][k] != s[0] {
        assert s[1..][k] == s[k + 1];
      }
      forall i, j | 0 <= i < j < |s[1..]| ensures s[1..][i] != s[1..][j] {
        assert s[1..][i] == s[i + 1] && s[1..][j] == s[j + 1];
      }
    }
    if s[0] !in s[1..] && NoDuplicates(s[1..]) {
      forall i, j | 0 <= i < j < |s| ensures s[i] != s[j] {
        assert s[j] == s[1..][j - 1];
        if 0 < i { assert s[i] == s[1..][i - 1]; }
      }
    }
  }

  /** In a list without duplicates, `Remove` takes the element out completely and keeps the
      other elements in their order. */
  lemma {:induction false} RemoveFirstIsWithout<T>(s: seq<T>, x: T)
    requires NoDuplicates(s)
    ensures RemoveFirst(s, x) == Without(s, x)
    ensures x !in RemoveFirst(s, x)
    ensures NoDuplicates(RemoveFirst(s, x))
  {
    if s != [] {
      ConsNoDuplicates(s);
      RemoveFirstIsWithout(s[1..], x);
      var r := RemoveFirst(s, x);
      if s[0] == x {
        assert r == s[1..] == Without(s[1..], x);
      } else {
        var tail := RemoveFirst(s[1..], x);
        assert r == [s[0]] + tail;
        assert r[1..] == tail;
        assert s[0] !in tail;
        ConsNoDuplicates(r);
      }
    }
  }
}
