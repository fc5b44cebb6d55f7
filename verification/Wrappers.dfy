/** The usual Some/None datatype: Python's `None`, a missing key, or a failed read. */
module Wrappers {
  datatype Option<+T> = None | Some(value: T) {
    function GetOr(default: T): T {
      if Some? then value else default
    }
  }

  /** `kept` are the values in `all`, in order; `at` says where each stood. */
  ghost predicate Filters<T(!new)>(kept: seq<T>, all: seq<Option<T>>, at: seq<nat>) {
    && |at| == |kept|
    && (forall k | 0 <= k < |at| :: at[k] < |all| && all[at[k]] == Some(kept[k]))
    && (forall k, l | 0 <= k < l < |at| :: at[k] < at[l])
    && (forall i | 0 <= i < |all| && all[i].Some? :: i in at)
  }

  lemma FiltersOneMore<T(!new)>(kept: seq<T>, all: seq<Option<T>>, at: seq<nat>, next: Option<T>)
    requires Filters(kept, all, at)
    ensures if next.Some? then Filters(kept + [next.value], all + [next], at + [|all|])
            else Filters(kept, all + [next], at)
  {
    var all', at' := all + [next], at + [|all|];
    assert forall i | i in at :: i in at';
    assert at'[|at|] == |all|;
    forall i | 0 <= i < |all'| && all'[i].Some?
      ensures i in if next.Some? then at' else at
    {
      if i < |all| {
        assert all[i].Some?;
      }
    }
  }
}
