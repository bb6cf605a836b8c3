/** The selection collector (CollectPaths): turns the shell's selection into
    the list of file-system paths every rule works on. Each selected item is
    given by the path the shell resolves for it; an item that has no
    file-system path (or that the shell cannot hand out) resolves to "". */
module Selection {

  /** The specification: the non-empty paths, in selection order. */
  function Resolved(items: seq<string>): (r: seq<string>)
    ensures |r| <= |items|
    ensures forall i :: 0 <= i < |r| ==> r[i] != ""
  {
    if items == [] then []
    else
      var last := items[|items| - 1];
      Resolved(items[..|items| - 1]) + (if last == "" then [] else [last])
  }

  /** CollectPaths: clears the output list, then appends the resolved path of
      every item, skipping the ones that resolve to nothing. */
  method CollectPaths(items: seq<string>) returns (out: seq<string>)
    ensures out == Resolved(items)
  {
    out := [];
    var i := 0;
    while i < |items|
      invariant 0 <= i <= |items|
      invariant out == Resolved(items[..i])
    {
      assert items[..i + 1][..i] == items[..i];
      var p := items[i];
      if p != "" {
        out := out + [p];
      }
      i := i + 1;
    }
    assert items[..|items|] == items;
  }

  /** Collecting distributes over concatenation: the order of the selection is kept. */
  lemma {:induction false} ResolvedAppend(a: seq<string>, b: seq<string>)
    ensures Resolved(a + b) == Resolved(a) + Resolved(b)
    decreases |b|
  {
    if b == [] {
      assert a + b == a;
    } else {
      var b' := b[..|b| - 1];
      assert (a + b)[..|a + b| - 1] == a + b';
      ResolvedAppend(a, b');
    }
  }

  /** Only empty paths are dropped: every other path keeps its multiplicity,
      duplicates included. */
  lemma {:induction false} ResolvedMultiplicity(items: seq<string>)
    ensures multiset(Resolved(items)) == multiset(items)["" := 0]
  {
    if items != [] {
      var init := items[..|items| - 1];
      assert items == init + [items[|items| - 1]];
      ResolvedMultiplicity(init);
    }
  }

  /** A selection in which every item has a path is collected unchanged. */
  lemma {:induction false} ResolvedKeepsResolvable(items: seq<string>)
    requires forall i :: 0 <= i < |items| ==> items[i] != ""
    ensures Resolved(items) == items
  {
    if items != [] {
      var init := items[..|items| - 1];
      ResolvedKeepsResolvable(init);
      assert items == init + [items[|items| - 1]];
    }
  }
}
