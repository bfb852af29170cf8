/** Splitting one stream into what was kept and what was dropped, both in order. */
module Streams {
  /** `all` is `kept` and `gone` merged without reordering either. */
  predicate Merges<T(==)>(all: seq<T>, kept: seq<T>, gone: seq<T>)
    decreases |all|
  {
    if all == [] then kept == [] && gone == []
    else
      var rest, last := all[..|all| - 1], all[|all| - 1];
      || (kept != [] && kept[|kept| - 1] == last && Merges(rest, kept[..|kept| - 1], gone))
      || (gone != [] && gone[|gone| - 1] == last && Merges(rest, kept, gone[..|gone| - 1]))
  }

  lemma {:induction false} KeepMore<T>(all: seq<T>, kept: seq<T>, gone: seq<T>, more: seq<T>)
    requires Merges(all, kept, gone)
    ensures Merges(all + more, kept + more, gone)
    decreases |more|
  {
    if more == [] {
      assert all + more == all && kept + more == kept;
    } else {
      var init := more[..|more| - 1];
      KeepMore(all, kept, gone, init);
      assert (all + more)[..|all + more| - 1] == all + init;
      assert (kept + more)[..|kept + more| - 1] == kept + init;
    }
  }

  lemma {:induction false} DropMore<T>(all: seq<T>, kept: seq<T>, gone: seq<T>, more: seq<T>)
    requires Merges(all, kept, gone)
    ensures Merges(all + more, kept, gone + more)
    decreases |more|
  {
    if more == [] {
      assert all + more == all && gone + more == gone;
    } else {
      var init := more[..|more| - 1];
      DropMore(all, kept, gone, init);
      assert (all + more)[..|all + more| - 1] == all + init;
      assert (gone + more)[..|gone + more| - 1] == gone + init;
    }
  }

  /** With nothing dropped, everything is kept. */
  lemma {:induction false} AllKept<T>(all: seq<T>, kept: seq<T>)
    requires Merges(all, kept, [])
    ensures all == kept
    decreases |all|
  {
    if all != [] {
      AllKept(all[..|all| - 1], kept[..|kept| - 1]);
      assert all == all[..|all| - 1] + [all[|all| - 1]];
    }
  }
}
