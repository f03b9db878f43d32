/** Octets, optional values and the few list facts shared by the models. */
module Common {

  type byte = b: int | 0 <= b < 256

  datatype Option<+T> = None | Some(value: T)

  function Min(a: int, b: int): int { if a <= b then a else b }

  /** The octets of all pieces, in order. */
  function Flatten<T>(pieces: seq<seq<T>>): seq<T> {
    if pieces == [] then [] else pieces[0] + Flatten(pieces[1..])
  }

  lemma {:induction false} FlattenConcat<T>(a: seq<seq<T>>, b: seq<seq<T>>)
    ensures Flatten(a + b) == Flatten(a) + Flatten(b)
  {
    if a == [] {
      assert a + b == b;
    } else {
      assert (a + b)[1..] == a[1..] + b;
      FlattenConcat(a[1..], b);
    }
  }

  lemma MoveOne<T>(whole: seq<T>, front: seq<T>, tail: seq<T>, x: T, rest: seq<T>)
    requires whole == front + tail && tail == [x] + rest
    ensures whole == (front + [x]) + rest
  {
  }

  /** `g_slist_remove`: the list without the first link that holds `x`. */
  function RemoveFirst<T(==)>(s: seq<T>, x: T): (r: seq<T>) {
    if s == [] then [] else if s[0] == x then s[1..] else [s[0]] + RemoveFirst(s[1..], x)
  }

  ghost predicate NoDup<T>(s: seq<T>) {
    forall i, j :: 0 <= i < j < |s| ==> s[i] != s[j]
  }

  lemma {:induction false} RemoveFirstNoDup<T>(s: seq<T>, x: T)
    requires NoDup(s)
    ensures NoDup(RemoveFirst(s, x))
    ensures forall y :: y in RemoveFirst(s, x) <==> y in s && y != x
    ensures |RemoveFirst(s, x)| == if x in s then |s| - 1 else |s|
  {
    if s == [] || s[0] == x {
    } else {
      var rest := s[1..];
      RemoveFirstNoDup(rest, x);
      assert s[0] !in rest;
    }
  }

  lemma WrittenTwice<K, V>(m: map<K, V>, k: K, v: V, w: V)
    ensures m[k := v][k := w] == m[k := w]
  {
  }

  /** Always true. A predicate stated as `forall k | k == n && Unfold(k) :: P`
      says P and no more, but the verifier looks into it only where a proof
      says `assert Unfold(n)`. */
  ghost predicate Unfold(k: nat) { true }
}
