/** The sub-command enumerator (CommandEnum): a cursor over a fixed list of
    menu entries that the shell walks with Next, Skip, Reset and Clone. */
module Enumeration {
  import opened Catalog

  datatype HResult = SOk | SFalse | ENotImpl

  /** Where a cursor at `idx` lands after moving `count` entries forward in a
      list of `size`: it stops at the end. */
  function Advance(idx: nat, count: nat, size: nat): (r: nat)
    requires idx <= size
    ensures idx <= r <= size
    ensures r == idx + count || (r == size && size < idx + count)
  {
    if idx + count < size then idx + count else size
  }

  /** The entries a Next(count) at `idx` hands out. */
  function Fetch(items: seq<Command>, idx: nat, count: nat): (r: seq<Command>)
    requires idx <= |items|
    ensures |r| <= count && idx + |r| <= |items| && (|r| == count || idx + |r| == |items|)
    ensures forall k :: 0 <= k < |r| ==> r[k] == items[idx + k]
  {
    items[idx..Advance(idx, count, |items|)]
  }

  /** Two Next calls hand out what one Next of the combined count would. */
  lemma FetchConcat(items: seq<Command>, idx: nat, a: nat, b: nat)
    requires idx <= |items|
    ensures Fetch(items, idx, a) + Fetch(items, Advance(idx, a, |items|), b) == Fetch(items, idx, a + b)
    ensures Advance(Advance(idx, a, |items|), b, |items|) == Advance(idx, a + b, |items|)
  {
    var m := Advance(idx, a, |items|);
    var e := Advance(m, b, |items|);
    assert e == Advance(idx, a + b, |items|);
    assert items[idx..m] + items[m..e] == items[idx..e];
  }

  /** Skipping `a` entries then fetching is fetching `a + b` and dropping the first `a`. */
  lemma SkipThenFetch(items: seq<Command>, idx: nat, a: nat, b: nat)
    requires idx <= |items|
    ensures Fetch(items, Advance(idx, a, |items|), b)
         == Fetch(items, idx, a + b)[|Fetch(items, idx, a)|..]
  {
    FetchConcat(items, idx, a, b);
  }

  class CommandEnum {
    const items: seq<Command>
    var idx: nat

    ghost predicate Valid()
      reads this
    {
      idx <= |items|
    }

    constructor (v: seq<Command>)
      ensures Valid() && items == v && idx == 0
    {
      items := v;
      idx := 0;
    }

    /** Next: hands out up to `celt` entries in order and moves past them;
        S_OK exactly when all `celt` were available. */
    method Next(celt: nat) returns (fetched: seq<Command>, hr: HResult)
      requires Valid()
      modifies this
      ensures Valid()
      ensures fetched == Fetch(items, old(idx), celt)
      ensures idx == Advance(old(idx), celt, |items|)
      ensures hr == (if |fetched| == celt then SOk else SFalse)
    {
      var f: nat := 0;
      fetched := [];
      while f < celt && idx < |items|
        invariant old(idx) <= idx <= |items|
        invariant f == idx - old(idx) && f <= celt
        invariant fetched == items[old(idx)..idx]
      {
        fetched := fetched + [items[idx]];
        idx := idx + 1;
        f := f + 1;
      }
      hr := if f == celt then SOk else SFalse;
    }

    /** Skip: moves forward `celt` entries, stopping at the end. */
    method Skip(celt: nat) returns (hr: HResult)
      requires Valid()
      modifies this
      ensures Valid()
      ensures idx == Advance(old(idx), celt, |items|)
      ensures hr == SOk
    {
      idx := if idx + celt < |items| then idx + celt else |items|;
      hr := SOk;
    }

    /** Reset: back to the first entry. */
    method Reset() returns (hr: HResult)
      requires Valid()
      modifies this
      ensures Valid() && idx == 0 && hr == SOk
    {
      idx := 0;
      hr := SOk;
    }

    /** Clone: a fresh cursor over the same entries at the same position. */
    method Clone() returns (hr: HResult, e: CommandEnum)
      requires Valid()
      ensures fresh(e) && e.Valid()
      ensures e.items == items && e.idx == idx && hr == SOk
    {
      e := new CommandEnum(items);
      e.idx := idx;
      hr := SOk;
    }
  }

  /** EnumSubCommands: a fresh cursor over the node's children, or E_NOTIMPL
      for a node without children. */
  method EnumSubCommands(node: Node) returns (hr: HResult, e: CommandEnum?)
    ensures SubCommands(node).Enumerated? ==>
              hr == SOk && e != null && fresh(e) && e.Valid()
              && e.items == SubCommands(node).items && e.idx == 0
    ensures SubCommands(node).NotImplemented? ==> hr == ENotImpl && e == null
  {
    match SubCommands(node) {
      case Enumerated(children) =>
        e := new CommandEnum(children);
        hr := SOk;
      case NotImplemented =>
        e := null;
        hr := ENotImpl;
    }
  }
}
