/** The pure fan-in steps of the orchestrator: `asyncio.gather` over tasks
    whose outcomes are known (an order-preserving collection that raises
    the first failure), flattening the per-batch lists, and Python's stable
    `sorted(..., key=...)` on an integer key. */
module FanIn {
  import opened Common

  /** `await asyncio.gather(*tasks)` seen sequentially: the results in task
      order, or the failure of the first failing task. */
  function Gather<T, E>(outcomes: seq<Result<T, E>>): Result<seq<T>, E> {
    if |outcomes| == 0 then Success([])
    else
      match outcomes[0]
      case Failure(e) => Failure(e)
      case Success(v) =>
        match Gather(outcomes[1..])
        case Failure(e) => Failure(e)
        case Success(vs) => Success([v] + vs)
  }

  /** Gathering succeeds exactly when every task does, and then yields one
      result per task, in task order. */
  lemma {:induction false} GatherSuccess<T, E>(outcomes: seq<Result<T, E>>)
    ensures Gather(outcomes).Success? <==> forall i | 0 <= i < |outcomes| :: outcomes[i].Success?
    ensures Gather(outcomes).Success? ==>
      |Gather(outcomes).value| == |outcomes| &&
      forall i | 0 <= i < |outcomes| :: Gather(outcomes).value[i] == outcomes[i].value
  {
    if |outcomes| > 0 {
      GatherSuccess(outcomes[1..]);
      if outcomes[0].Success? && Gather(outcomes[1..]).Success? {
        forall i | 0 <= i < |outcomes|
          ensures Gather(outcomes).value[i] == outcomes[i].value
        {
          if i > 0 {
            assert outcomes[i] == outcomes[1..][i - 1];
          }
        }
      } else if outcomes[0].Success? {
        var i :| 0 <= i < |outcomes[1..]| && !outcomes[1..][i].Success?;
        assert !outcomes[i + 1].Success?;
      }
    }
  }

  /** A failed gather raises the exception of the first failing task. */
  lemma {:induction false} GatherFailsAtFirstFailure<T, E>(outcomes: seq<Result<T, E>>, i: nat)
    requires i < |outcomes| && outcomes[i].Failure?
    requires forall j | 0 <= j < i :: outcomes[j].Success?
    ensures Gather(outcomes) == Failure(outcomes[i].error)
  {
    if i > 0 {
      GatherFailsAtFirstFailure(outcomes[1..], i - 1);
    }
  }

  /** `[x for group in groups for x in group]`. */
  function Flatten<T>(groups: seq<seq<T>>): seq<T> {
    if |groups| == 0 then [] else groups[0] + Flatten(groups[1..])
  }

  /** Flattening respects concatenation of the group lists. */
  lemma {:induction false} FlattenAppend<T>(a: seq<seq<T>>, b: seq<seq<T>>)
    ensures Flatten(a + b) == Flatten(a) + Flatten(b)
  {
    if |a| > 0 {
      assert (a + b)[1..] == a[1..] + b;
      FlattenAppend(a[1..], b);
    } else {
      assert a + b == b;
    }
  }

  /** Nothing is added or dropped: an item is in the flat list exactly when
      it is in one of the groups. */
  lemma {:induction false} FlattenMembers<T>(groups: seq<seq<T>>, x: T)
    ensures x in Flatten(groups) <==> exists i | 0 <= i < |groups| :: x in groups[i]
  {
    if |groups| > 0 {
      FlattenMembers(groups[1..], x);
      if x in Flatten(groups[1..]) {
        var i :| 0 <= i < |groups[1..]| && x in groups[1..][i];
        assert x in groups[i + 1];
      }
      if exists i | 0 <= i < |groups| :: x in groups[i] {
        var i :| 0 <= i < |groups| && x in groups[i];
        if i > 0 {
          assert x in groups[1..][i - 1];
        }
      }
    }
  }

  // ---- sorted(xs, key=key) ----

  predicate SortedByKey<T>(xs: seq<T>, key: T -> int) {
    forall i, j | 0 <= i < j < |xs| :: key(xs[i]) <= key(xs[j])
  }

  /** The items of `xs` whose key is `k`, in their order in `xs`. */
  function WithKey<T>(xs: seq<T>, key: T -> int, k: int): seq<T> {
    if |xs| == 0 then []
    else (if key(xs[0]) == k then [xs[0]] else []) + WithKey(xs[1..], key, k)
  }

  /** Puts `x` in front of the first item whose key is not smaller. */
  function Insert<T>(x: T, s: seq<T>, key: T -> int): seq<T> {
    if |s| == 0 then [x]
    else if key(x) <= key(s[0]) then [x] + s
    else [s[0]] + Insert(x, s[1..], key)
  }

  /** Python's `sorted(xs, key=key)`: a stable sort, here by insertion. */
  function SortByKey<T>(xs: seq<T>, key: T -> int): seq<T> {
    if |xs| == 0 then [] else Insert(xs[0], SortByKey(xs[1..], key), key)
  }

  lemma {:induction false} InsertSorted<T>(x: T, s: seq<T>, key: T -> int)
    requires SortedByKey(s, key)
    ensures SortedByKey(Insert(x, s, key), key)
    ensures |Insert(x, s, key)| == |s| + 1
    ensures forall i | 0 <= i < |Insert(x, s, key)| ::
      Insert(x, s, key)[i] == x || Insert(x, s, key)[i] in s
  {
    if |s| > 0 && key(x) > key(s[0]) {
      InsertSorted(x, s[1..], key);
      var r := Insert(x, s[1..], key);
      forall i | 0 <= i < |r|
        ensures key(s[0]) <= key(r[i])
      {
        if r[i] != x {
          var j :| 0 <= j < |s[1..]| && s[1..][j] == r[i];
          assert s[j + 1] == r[i];
        }
      }
    }
  }

  lemma {:induction false} InsertMultiset<T>(x: T, s: seq<T>, key: T -> int)
    ensures multiset(Insert(x, s, key)) == multiset(s) + multiset{x}
  {
    if |s| > 0 && key(x) > key(s[0]) {
      InsertMultiset(x, s[1..], key);
      assert s == [s[0]] + s[1..];
    }
  }

  lemma {:induction false} InsertWithKey<T>(x: T, s: seq<T>, key: T -> int, k: int)
    ensures WithKey(Insert(x, s, key), key, k) ==
      (if key(x) == k then [x] else []) + WithKey(s, key, k)
  {
    if |s| == 0 {
    } else if key(x) <= key(s[0]) {
      assert ([x] + s)[1..] == s;
    } else {
      var r := Insert(x, s[1..], key);
      var mx: seq<T> := if key(x) == k then [x] else [];
      var m0: seq<T> := if key(s[0]) == k then [s[0]] else [];
      assert ([s[0]] + r)[1..] == r;
      assert WithKey([s[0]] + r, key, k) == m0 + WithKey(r, key, k);
      InsertWithKey(x, s[1..], key, k);
      assert WithKey(s, key, k) == m0 + WithKey(s[1..], key, k);
      assert m0 + mx == mx + m0;
    }
  }

  /** The result of `sorted` is in ascending key order. */
  lemma {:induction false} SortByKeySorted<T>(xs: seq<T>, key: T -> int)
    ensures SortedByKey(SortByKey(xs, key), key)
  {
    if |xs| > 0 {
      SortByKeySorted(xs[1..], key);
      InsertSorted(xs[0], SortByKey(xs[1..], key), key);
    }
  }

  /** `sorted` is a permutation: nothing is added or dropped. */
  lemma {:induction false} SortByKeyPermutation<T>(xs: seq<T>, key: T -> int)
    ensures multiset(SortByKey(xs, key)) == multiset(xs)
  {
    if |xs| > 0 {
      SortByKeyPermutation(xs[1..], key);
      InsertMultiset(xs[0], SortByKey(xs[1..], key), key);
      assert xs == [xs[0]] + xs[1..];
    }
  }

  /** `sorted` is stable: the items sharing a key keep their relative order. */
  lemma {:induction false} SortByKeyStable<T>(xs: seq<T>, key: T -> int, k: int)
    ensures WithKey(SortByKey(xs, key), key, k) == WithKey(xs, key, k)
  {
    if |xs| > 0 {
      SortByKeyStable(xs[1..], key, k);
      InsertWithKey(xs[0], SortByKey(xs[1..], key), key, k);
    }
  }
}
