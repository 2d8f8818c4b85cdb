/**
 * Update masks as the hand-written clients read them. A client walks the
 * mask entries in order and, through a `switch` on the entry's name, copies
 * the fields it knows into the outgoing object and appends their field paths
 * to the outgoing field mask; names it does not know are skipped.
 *
 * `Paths` is the field mask such a loop builds, given the client's table
 * from entry names to field paths; `MaskedBefore` says whether a name occurs
 * among the first entries, which is when the loop has copied that field.
 */
module Masks {
  import opened Errors
  import opened Values

  /** The path one entry contributes: its field path when the client knows the name, nothing otherwise. */
  function EntryPath(m: MaskField, pathOf: string -> Option<string>): (paths: seq<string>)
    ensures |paths| <= 1
  {
    if pathOf(m.name).Some? then [pathOf(m.name).value] else []
  }

  /** The field mask of a mask: one path per known entry, in mask order, repeats kept. */
  function Paths(mask: seq<MaskField>, pathOf: string -> Option<string>): (paths: seq<string>)
    ensures |paths| <= |mask|
  {
    if mask == [] then [] else EntryPath(mask[0], pathOf) + Paths(mask[1..], pathOf)
  }

  /** The field mask of two masks in a row is the first's paths, then the second's. */
  lemma {:induction false} PathsAppend(a: seq<MaskField>, b: seq<MaskField>, pathOf: string -> Option<string>)
    ensures Paths(a + b, pathOf) == Paths(a, pathOf) + Paths(b, pathOf)
  {
    if a == [] {
      assert a + b == b;
    } else {
      assert (a + b)[0] == a[0];
      assert (a + b)[1..] == a[1..] + b;
      PathsAppend(a[1..], b, pathOf);
    }
  }

  /** An entry whose name the client does not know changes nothing, wherever it stands. */
  lemma PathsSkip(a: seq<MaskField>, m: MaskField, b: seq<MaskField>, pathOf: string -> Option<string>)
    requires pathOf(m.name).None?
    ensures Paths(a + [m] + b, pathOf) == Paths(a + b, pathOf)
  {
    PathsAppend(a, [m] + b, pathOf);
    PathsAppend(a, b, pathOf);
    assert a + [m] + b == a + ([m] + b);
    assert ([m] + b)[0] == m && ([m] + b)[1..] == b;
  }

  /** An entry the client knows puts its path at its own place, between the paths before and after it. */
  lemma PathsKeep(a: seq<MaskField>, m: MaskField, b: seq<MaskField>, pathOf: string -> Option<string>)
    requires pathOf(m.name).Some?
    ensures Paths(a + [m] + b, pathOf) == Paths(a, pathOf) + [pathOf(m.name).value] + Paths(b, pathOf)
  {
    PathsAppend(a, [m] + b, pathOf);
    assert a + [m] + b == a + ([m] + b);
    assert ([m] + b)[0] == m && ([m] + b)[1..] == b;
  }

  /** The paths from entry i on: entry i's, then those of the entries after it. */
  lemma PathsFrom(mask: seq<MaskField>, i: nat, pathOf: string -> Option<string>)
    requires i < |mask|
    ensures Paths(mask[i..], pathOf) == EntryPath(mask[i], pathOf) + Paths(mask[i + 1..], pathOf)
  {
    assert mask[i..][0] == mask[i];
    assert mask[i..][1..] == mask[i + 1..];
  }

  /** Paths built so far, then the rest: the same sequence however it is grouped. */
  lemma Regroup(done: seq<string>, next: seq<string>, later: seq<string>)
    ensures done + (next + later) == (done + next) + later
  {
  }

  /** Whether one of the first i entries has the given name. */
  predicate MaskedBefore(mask: seq<MaskField>, i: int, name: string)
    requires 0 <= i <= |mask|
  {
    exists k :: 0 <= k < i && mask[k].name == name
  }

  /** Whether any entry of the mask has the given name. */
  predicate Masked(mask: seq<MaskField>, name: string) {
    MaskedBefore(mask, |mask|, name)
  }

  /** One more entry: a name occurs among the first i + 1 entries when it did before or entry i has it. */
  lemma MaskedStep(mask: seq<MaskField>, i: nat, name: string)
    requires i < |mask|
    ensures MaskedBefore(mask, i + 1, name) <==> MaskedBefore(mask, i, name) || mask[i].name == name
  {
    if MaskedBefore(mask, i + 1, name) && !MaskedBefore(mask, i, name) {
      var k :| 0 <= k < i + 1 && mask[k].name == name;
      assert k == i;
    }
  }

  /** An entry with another name does not decide whether the name is masked, wherever it stands. */
  lemma MaskedSkip(a: seq<MaskField>, m: MaskField, b: seq<MaskField>, name: string)
    requires m.name != name
    ensures Masked(a + [m] + b, name) == Masked(a + b, name)
  {
    var with, without := a + [m] + b, a + b;
    if Masked(with, name) {
      var k :| 0 <= k < |with| && with[k].name == name;
      if k < |a| {
        assert without[k] == with[k];
      } else {
        assert without[k - 1] == with[k];
      }
    }
    if Masked(without, name) {
      var k :| 0 <= k < |without| && without[k].name == name;
      if k < |a| {
        assert with[k] == without[k];
      } else {
        assert with[k + 1] == without[k];
      }
    }
  }

  /** A name is masked when the first entry has it or the entries after the first mask it. */
  lemma MaskedFront(mask: seq<MaskField>, name: string)
    requires mask != []
    ensures Masked(mask, name) <==> mask[0].name == name || Masked(mask[1..], name)
  {
    var tail := mask[1..];
    if Masked(tail, name) {
      var k :| 0 <= k < |tail| && tail[k].name == name;
      assert mask[k + 1] == tail[k];
    }
    if Masked(mask, name) && mask[0].name != name {
      var k :| 0 <= k < |mask| && mask[k].name == name;
      assert tail[k - 1] == mask[k];
    }
  }

  /**
   * When no other name shares a known name's path, that path is in the field
   * mask exactly when the name is masked.
   */
  lemma {:induction false} PathsMasked(mask: seq<MaskField>, pathOf: string -> Option<string>, name: string)
    requires pathOf(name).Some?
    requires forall n :: pathOf(n).Some? && pathOf(n).value == pathOf(name).value ==> n == name
    ensures pathOf(name).value in Paths(mask, pathOf) <==> Masked(mask, name)
  {
    if mask != [] {
      PathsMasked(mask[1..], pathOf, name);
      MaskedFront(mask, name);
    }
  }
}
