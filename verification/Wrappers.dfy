/** The result shapes and the notion of a filtered list that several modules share. */
module Wrappers {

  datatype Option<+T> = None | Some(value: T)

  datatype Result<+T, +E> = Ok(value: T) | Err(error: E)

  /**
   * `kept` is `all` without the elements that are `gone`, in order and with repeats: `before[i]` counts the elements
   * kept of the first `i`, so it is where the one after them went.
   */
  ghost predicate KeptAt<T(!new)>(all: seq<T>, kept: seq<T>, before: seq<nat>, gone: T -> bool) {
    && |before| == |all| + 1 && before[0] == 0 && before[|all|] == |kept|
    && forall i: nat | i < |all| :: Places(all, kept, before, gone, i)
  }

  ghost predicate Places<T(!new)>(all: seq<T>, kept: seq<T>, before: seq<nat>, gone: T -> bool, i: nat)
    requires i < |all| && |before| == |all| + 1
  {
    if gone(all[i]) then before[i + 1] == before[i]
    else before[i + 1] == before[i] + 1 && before[i] < |kept| && kept[before[i]] == all[i]
  }

  ghost predicate KeptInOrder<T(!new)>(all: seq<T>, kept: seq<T>, gone: T -> bool) {
    exists before: seq<nat> :: KeptAt(all, kept, before, gone)
  }

  lemma KeptNothing<T(!new)>(gone: T -> bool)
    ensures KeptInOrder([], [], gone)
  {
    var none: seq<T> := [];
    assert KeptAt(none, none, [0], gone);
  }

  lemma KeptSnoc<T(!new)>(all: seq<T>, kept: seq<T>, last: T, gone: T -> bool)
    requires KeptInOrder(all, kept, gone)
    ensures KeptInOrder(all + [last], if gone(last) then kept else kept + [last], gone)
  {
    var before: seq<nat> :| KeptAt(all, kept, before, gone);
    var more := before + [|kept| + if gone(last) then 0 else 1];
    var rest := if gone(last) then kept else kept + [last];
    forall i: nat | i < |all| + 1 ensures Places(all + [last], rest, more, gone, i) {
      if i < |all| {
        assert Places(all, kept, before, gone, i);
      }
    }
    assert KeptAt(all + [last], rest, more, gone);
  }

  lemma KeptCons<T(!new)>(first: T, all: seq<T>, kept: seq<T>, gone: T -> bool)
    requires KeptInOrder(all, kept, gone)
    ensures KeptInOrder([first] + all, if gone(first) then kept else [first] + kept, gone)
  {
    var before: seq<nat> :| KeptAt(all, kept, before, gone);
    var d := if gone(first) then 0 else 1;
    var more: seq<nat> := [0] + seq(|before|, i requires 0 <= i < |before| => before[i] + d);
    var rest := if gone(first) then kept else [first] + kept;
    forall i: nat | i < |all| + 1 ensures Places([first] + all, rest, more, gone, i) {
      assert more[i + 1] == before[i] + d;
      if i > 0 {
        assert more[i] == before[i - 1] + d;
        assert Places(all, kept, before, gone, i - 1);
      }
    }
    assert KeptAt([first] + all, rest, more, gone);
  }

  lemma {:induction false} BeforeClimbs<T(!new)>(all: seq<T>, kept: seq<T>, before: seq<nat>, gone: T -> bool, i: nat, j: nat)
    requires KeptAt(all, kept, before, gone) && i <= j <= |all|
    ensures before[i] <= before[j]
    decreases j
  {
    if i < j {
      BeforeClimbs(all, kept, before, gone, i, j - 1);
      assert Places(all, kept, before, gone, j - 1);
    }
  }

  lemma KeptDropsLast<T(!new)>(all: seq<T>, kept: seq<T>, gone: T -> bool)
    requires KeptInOrder(all, kept, gone) && all != []
    ensures var n := |all| - 1;
            if gone(all[n]) then KeptInOrder(all[..n], kept, gone)
            else kept != [] && kept[|kept| - 1] == all[n] && KeptInOrder(all[..n], kept[..|kept| - 1], gone)
  {
    var n := |all| - 1;
    var before: seq<nat> :| KeptAt(all, kept, before, gone);
    assert Places(all, kept, before, gone, n);
    var rest := if gone(all[n]) then kept else kept[..|kept| - 1];
    var front, shorter := all[..n], before[..n + 1];
    forall i: nat | i < n ensures Places(front, rest, shorter, gone, i) {
      assert Places(all, kept, before, gone, i);
      BeforeClimbs(all, kept, before, gone, i + 1, n);
    }
    assert KeptAt(front, rest, shorter, gone);
  }

  /** There is only one such list. */
  lemma {:induction false} KeptIsUnique<T(!new)>(all: seq<T>, a: seq<T>, b: seq<T>, gone: T -> bool)
    requires KeptInOrder(all, a, gone) && KeptInOrder(all, b, gone)
    ensures a == b
    decreases |all|
  {
    if all == [] {
      var s: seq<nat> :| KeptAt(all, a, s, gone);
      var t: seq<nat> :| KeptAt(all, b, t, gone);
    } else {
      var n := |all| - 1;
      KeptDropsLast(all, a, gone);
      KeptDropsLast(all, b, gone);
      if gone(all[n]) {
        KeptIsUnique(all[..n], a, b, gone);
      } else {
        KeptIsUnique(all[..n], a[..|a| - 1], b[..|b| - 1], gone);
        assert a == a[..|a| - 1] + [a[|a| - 1]] && b == b[..|b| - 1] + [b[|b| - 1]];
      }
    }
  }
}
