/** Reading printed derivation paths back: the text of a key's path names the steps from the
    master key to it, as section "The key tree" of BIP 32 writes them. */
module PathText {
  import opened Text
  import opened KeyTree
  import opened KeyDerivation

  // ---------------------------------------------------------------- the reader

  /** One component: decimal digits, then an apostrophe exactly for a hardened step. Indices from
      `limit` on are refused. */
  function ReadComponent(limit: nat, t: string): Option<ChildNumber> {
    var hardened := t != "" && t[|t| - 1] == '\'';
    var digits := if hardened then t[..|t| - 1] else t;
    if digits == "" || !AllDigits(digits) || DecimalValue(digits) >= limit then None
    else Some(ChildNumber(DecimalValue(digits), hardened))
  }

  function ReadComponents(limit: nat, parts: seq<string>): Option<Path> {
    if parts == [] then Some([])
    else Snoc(ReadComponents(limit, parts[..|parts| - 1]), ReadComponent(limit, parts[|parts| - 1]))
  }

  function Snoc(path: Option<Path>, c: Option<ChildNumber>): Option<Path> {
    if path.Some? && c.Some? then Some(path.value + [c.value]) else None
  }

  /** "m", then one component after each slash. */
  function ReadPath(limit: nat, s: string): Option<Path> {
    ReadParts(limit, Split(s, '/'))
  }

  function ReadParts(limit: nat, parts: seq<string>): Option<Path>
    requires parts != []
  {
    if parts[0] != "m" then None else ReadComponents(limit, parts[1..])
  }

  // ---------------------------------------------------------------- printed paths read back

  lemma {:induction false} SplitSnoc(head: string, tail: string, sep: char)
    requires Free(tail, sep)
    ensures Split(head + [sep] + tail, sep) == Split(head, sep) + [tail]
    decreases |head|
  {
    var s, i := head + [sep] + tail, IndexOf(head, sep);
    assert s[..i] == head[..i];
    IndexOfUnique(s, sep, i);
    if i == |head| {
      assert s[i + 1..] == tail && s[..i] == head;
      Whole(tail);
      IndexOfUnique(tail, sep, |tail|);
    } else {
      assert s[i + 1..] == head[i + 1..] + [sep] + tail;
      SplitSnoc(head[i + 1..], tail, sep);
    }
  }

  lemma SegmentReads(limit: nat, index: nat, hardened: bool)
    ensures ReadComponent(limit, Segment(index, hardened)) ==
            if index < limit then Some(ChildNumber(index, hardened)) else None
  {
    var t := Segment(index, hardened);
    DecimalRoundTrip(index);
    if hardened {
      assert t[..|t| - 1] == Decimal(index);
    } else {
      assert t == Decimal(index) && IsDigit(t[|t| - 1]);
    }
  }

  lemma MasterReads(limit: nat)
    ensures ReadPath(limit, "m") == Some([])
  {
    IndexOfUnique("m", '/', 1);
  }

  lemma {:induction false} PartsSnoc(limit: nat, parts: seq<string>, last: string)
    requires parts != []
    ensures ReadParts(limit, parts + [last]) == Snoc(ReadParts(limit, parts), ReadComponent(limit, last))
  {
    var all := parts[1..] + [last];
    assert (parts + [last])[1..] == all;
    assert all[..|all| - 1] == parts[1..] && all[|all| - 1] == last;
  }

  lemma {:induction false} Extended(limit: nat, head: string, tail: string)
    requires Free(tail, '/')
    ensures ReadPath(limit, head + "/" + tail) == Snoc(ReadPath(limit, head), ReadComponent(limit, tail))
  {
    SplitSnoc(head, tail, '/');
    PartsSnoc(limit, Split(head, '/'), tail);
  }

  /** A printed path reads as what its parent's path reads as, or as the master key, and one
      step more: the printed index, hardened exactly when the key is. */
  lemma {:induction false} PathReads(limit: nat, parent: Option<string>, index: nat, hardened: bool)
    ensures ReadPath(limit, DerivationPath(parent, index, hardened)) ==
            Snoc(if parent.Some? then ReadPath(limit, parent.value) else Some([]),
                 if index < limit then Some(ChildNumber(index, hardened)) else None)
  {
    Extended(limit, if parent.Some? then parent.value else "m", Segment(index, hardened));
    SegmentReads(limit, index, hardened);
    MasterReads(limit);
  }

  // ---------------------------------------------------------------- the keys of a forest

  /** The keys from a root down to a key, each the parent of the next. */
  ghost predicate IsLineage(keys: Table, ids: seq<Id>) {
    && ids != [] && (forall i :: 0 <= i < |ids| ==> ids[i] in keys)
    && keys[ids[0]].parent == None
    && (forall i, j :: 0 <= i < |ids| && 0 <= j < |ids| && j == i + 1 ==> keys[ids[j]].parent == Some(ids[i]))
  }

  function StepOf(k: Key): ChildNumber {
    ChildNumber(k.index, k.hardened)
  }

  function StepsOf(keys: Table, ids: seq<Id>): (path: Path)
    requires forall i :: 0 <= i < |ids| ==> ids[i] in keys
    ensures |path| == |ids| && forall i :: 0 <= i < |ids| ==> path[i] == StepOf(keys[ids[i]])
  {
    seq(|ids|, i requires 0 <= i < |ids| => StepOf(keys[ids[i]]))
  }

  predicate Below(limit: nat, path: Path) {
    forall i :: 0 <= i < |path| ==> path[i].index < limit
  }

  lemma LineageSnoc(keys: Table, ids: seq<Id>, k: Id)
    requires IsLineage(keys, ids) && k in keys && keys[k].parent == Some(ids[|ids| - 1])
    ensures IsLineage(keys, ids + [k])
  {
  }

  /** Every key of a forest has its lineage. */
  lemma {:induction false} HasLineage(keys: Table, k: Id) returns (ids: seq<Id>)
    requires Forest(keys) && k in keys
    ensures IsLineage(keys, ids) && ids[|ids| - 1] == k
    decreases |keys[k].path|
  {
    ids := [k];
    assert Rooted(keys, keys[k]);
    if keys[k].parent.Some? {
      var above := HasLineage(keys, keys[k].parent.value);
      LineageSnoc(keys, above, k);
      ids := above + [k];
    }
  }

  lemma LineageEnd(keys: Table, ids: seq<Id>)
    requires IsLineage(keys, ids) && |ids| > 1
    ensures IsLineage(keys, ids[..|ids| - 1])
    ensures keys[ids[|ids| - 1]].parent == Some(ids[|ids| - 2])
    ensures StepsOf(keys, ids) == StepsOf(keys, ids[..|ids| - 1]) + [StepOf(keys[ids[|ids| - 1]])]
  {
  }

  lemma KeyPathReads(limit: nat, keys: Table, k: Id)
    requires Forest(keys) && k in keys
    ensures var p := keys[k].parent;
            ReadPath(limit, keys[k].path) ==
            Snoc(if p.Some? then ReadPath(limit, keys[p.value].path) else Some([]),
                 if keys[k].index < limit then Some(StepOf(keys[k])) else None)
  {
    var p := keys[k].parent;
    PathReads(limit, if p.Some? then Some(keys[p.value].path) else None, keys[k].index, keys[k].hardened);
  }

  lemma BelowSnoc(limit: nat, path: Path, c: ChildNumber)
    ensures Below(limit, path + [c]) <==> Below(limit, path) && c.index < limit
  {
    assert (path + [c])[|path|] == c;
    assert forall i :: 0 <= i < |path| ==> (path + [c])[i] == path[i];
  }

  /** In every forest the path a key prints reads as the indices and hardening of the keys from
      its root down to it, provided the reader takes all of these indices. */
  lemma {:induction false} ForestPathReads(limit: nat, keys: Table, ids: seq<Id>)
    requires Forest(keys) && IsLineage(keys, ids)
    ensures ReadPath(limit, keys[ids[|ids| - 1]].path) ==
            if Below(limit, StepsOf(keys, ids)) then Some(StepsOf(keys, ids)) else None
  {
    var id := ids[|ids| - 1];
    var c := StepOf(keys[id]);
    KeyPathReads(limit, keys, id);
    if |ids| == 1 {
      BelowSnoc(limit, [], c);
      assert StepsOf(keys, ids) == [] + [c];
    } else {
      LineageEnd(keys, ids);
      ForestPathReads(limit, keys, ids[..|ids| - 1]);
      BelowSnoc(limit, StepsOf(keys, ids[..|ids| - 1]), c);
    }
  }

  /** The private key at a key's path is one step, of its own index and hardening, below the one
      at its parent's path. */
  lemma DerivedBelowParent<XPrv, XPub, Scalar, Point>(sys: KeySystem<XPrv, XPub, Scalar, Point>,
                                                      master: MasterKey<XPrv>, keys: Table, ids: seq<Id>)
    requires IsLineage(keys, ids) && |ids| > 1
    ensures var path, above := StepsOf(keys, ids), Derived(sys, FromMaster(master), StepsOf(keys, ids[..|ids| - 1]));
            Derived(sys, FromMaster(master), path) ==
            if above.Err? then Err(StepFailed)
            else match sys.derivePrivate(above.value.key, StepOf(keys[ids[|ids| - 1]]))
              case None => Err(StepFailed)
              case Some(key) => Ok(DerivedKey(key, path))
  {
    LineageEnd(keys, ids);
    var p, c := StepsOf(keys, ids[..|ids| - 1]), StepOf(keys[ids[|ids| - 1]]);
    DeriveInStages(sys, FromMaster(master), p, p + [c]);
    var above := Derived(sys, FromMaster(master), p);
    if above.Ok? { DerivedChild(sys, above.value, c); }
  }
}
