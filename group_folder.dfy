/** The query-based browser folder that groups items. For every item
    descriptor it is told about, a group provider names a grouping path; the
    root sub-folder places the item under that path and hands back the
    sub-folder that holds it. The folder remembers that sub-folder per
    descriptor so that it can take the item out again when the descriptor
    goes away. The group provider and the root sub-folder are collaborators:
    their answers come in as parameters, and what is asked of them is
    recorded in `calls`. */
module GroupFolderModel {
  import opened Common
  import opened Ledger

  /** An item descriptor, identified by its item id. */
  type Descriptor = string

  /** Calls on the sub-folders: placing a descriptor under a grouping path
      at the root, or removing it from the sub-folder that holds it. */
  datatype SubFolderCall = RootAdd(path: seq<string>, descriptor: Descriptor) | Remove(folder: nat, descriptor: Descriptor)

  /** A snapshot of the folder: the sub-folder recorded per descriptor, the
      calls made, and the placements (sub-folder, descriptor) made and
      undone, as a ledger. */
  datatype Group = Group(itemList: map<Descriptor, nat>, calls: seq<SubFolderCall>, placements: seq<Reg<(nat, Descriptor)>>)

  /** The placements the item list records. */
  function Recorded(m: map<Descriptor, nat>): (r: set<(nat, Descriptor)>)
    ensures forall d :: d in m ==> (m[d], d) in r
    ensures forall p :: p in r ==> p.1 in m && m[p.1] == p.0
  {
    set d | d in m :: (m[d], d)
  }

  /** Exactly the recorded placements are live: each descriptor is held by
      the one sub-folder the item list names for it. */
  ghost predicate Valid(g: Group) {
    Holds(g.placements, Recorded(g.itemList))
  }

  /** `added(descriptor)`: a known descriptor and a descriptor without a
      grouping are ignored; otherwise the root places it and the descriptor
      is recorded when a sub-folder comes back. */
  function AddedStep(g: Group, d: Descriptor, grouping: Option<seq<string>>, subFolder: Option<nat>): (r: Group)
    ensures d in g.itemList || grouping.None? ==> r == g
    ensures d !in g.itemList && grouping.Some? ==>
      && r.calls == g.calls + [RootAdd(grouping.value, d)]
      && (subFolder.None? ==> r.itemList == g.itemList && r.placements == g.placements)
      && (subFolder.Some? ==>
            r.itemList == g.itemList[d := subFolder.value]
            && r.placements == g.placements + [Add((subFolder.value, d))])
  {
    if d in g.itemList then g
    else match grouping
      case None => g
      case Some(path) =>
        var g1 := g.(calls := g.calls + [RootAdd(path, d)]);
        match subFolder
        case None => g1
        case Some(s) => g1.(itemList := g1.itemList[d := s], placements := g1.placements + [Add((s, d))])
  }

  /** `removed(descriptor)`: an unknown descriptor is ignored; otherwise the
      sub-folder recorded for it removes it, and it is forgotten. */
  function RemovedStep(g: Group, d: Descriptor): (r: Group)
    ensures d !in g.itemList ==> r == g
    ensures d in g.itemList ==>
      && r.calls == g.calls + [Remove(g.itemList[d], d)]
      && r.itemList == g.itemList - {d}
      && r.placements == g.placements + [Drop((g.itemList[d], d))]
  {
    if d !in g.itemList then g
    else
      var s := g.itemList[d];
      Group(g.itemList - {d}, g.calls + [Remove(s, d)], g.placements + [Drop((s, d))])
  }

  lemma RecordedPut(m: map<Descriptor, nat>, d: Descriptor, s: nat)
    requires d !in m
    ensures Recorded(m[d := s]) == Recorded(m) + {(s, d)}
  {
    var m' := m[d := s];
    forall p | p in Recorded(m') ensures p in Recorded(m) + {(s, d)} {
      if p.1 != d {
        assert (m[p.1], p.1) == p;
      }
    }
    forall p | p in Recorded(m) + {(s, d)} ensures p in Recorded(m') {
      if p == (s, d) {
        assert (m'[d], d) == p;
      } else {
        assert p.1 in m && p.1 != d;
        assert (m'[p.1], p.1) == p;
      }
    }
  }

  lemma RecordedRemove(m: map<Descriptor, nat>, d: Descriptor)
    requires d in m
    ensures Recorded(m - {d}) == Recorded(m) - {(m[d], d)}
  {
    var m' := m - {d};
    forall p | p in Recorded(m) - {(m[d], d)} ensures p in Recorded(m') {
      assert p.1 != d;
      assert m'[p.1] == p.0;
    }
  }

  /** `added` keeps the recorded placements live and no others. */
  lemma AddedValid(g: Group, d: Descriptor, grouping: Option<seq<string>>, subFolder: Option<nat>)
    requires Valid(g)
    ensures Valid(AddedStep(g, d, grouping, subFolder))
  {
    if d !in g.itemList && grouping.Some? && subFolder.Some? {
      var s := subFolder.value;
      assert (s, d) !in Recorded(g.itemList);
      HoldsAdd(g.placements, Recorded(g.itemList), (s, d));
      RecordedPut(g.itemList, d, s);
    }
  }

  /** `removed` keeps the recorded placements live and no others. */
  lemma RemovedValid(g: Group, d: Descriptor)
    requires Valid(g)
    ensures Valid(RemovedStep(g, d))
  {
    if d in g.itemList {
      var s := g.itemList[d];
      HoldsDrop(g.placements, Recorded(g.itemList), (s, d));
      RecordedRemove(g.itemList, d);
    }
  }

  /** At most one sub-folder holds a descriptor at any time, and it is the
      one the item list records. */
  lemma OneSubFolder(g: Group, d: Descriptor, s1: nat, s2: nat)
    requires Valid(g)
    requires Net(g.placements, (s1, d)) > 0 && Net(g.placements, (s2, d)) > 0
    ensures s1 == s2 && d in g.itemList && g.itemList[d] == s1
  {
    assert (s1, d) in Recorded(g.itemList);
    assert (s2, d) in Recorded(g.itemList);
  }

  /** A descriptor added and then removed is taken out of exactly the
      sub-folder that took it in, and the folder records nothing for it. */
  lemma AddedThenRemoved(g: Group, d: Descriptor, path: seq<string>, s: nat)
    requires d !in g.itemList
    ensures var r := RemovedStep(AddedStep(g, d, Some(path), Some(s)), d);
      && r.itemList == g.itemList
      && r.calls == g.calls + [RootAdd(path, d), Remove(s, d)]
  {
    assert (g.itemList[d := s]) - {d} == g.itemList;
  }

  class GroupFolder {
    var itemList: map<Descriptor, nat>
    var calls: seq<SubFolderCall>
    ghost var placements: seq<Reg<(nat, Descriptor)>>

    ghost function State(): Group
      reads this
    {
      Group(itemList, calls, placements)
    }

    ghost predicate Inv()
      reads this
    {
      Valid(State())
    }

    constructor ()
      ensures Inv()
      ensures State() == Group(map[], [], [])
    {
      itemList, calls, placements := map[], [], [];
    }

    /** `added(descriptor)`; `grouping` is what the group provider returns
        for the descriptor and `subFolder` what the root sub-folder's `add`
        returns. */
    method Added(d: Descriptor, grouping: Option<seq<string>>, subFolder: Option<nat>)
      requires Inv()
      modifies this
      ensures Inv()
      ensures State() == AddedStep(old(State()), d, grouping, subFolder)
    {
      AddedValid(State(), d, grouping, subFolder);
      if d in itemList {
        return;
      }
      if grouping.None? {
        return;
      }
      calls := calls + [RootAdd(grouping.value, d)];
      if subFolder.Some? {
        itemList := itemList[d := subFolder.value];
        placements := placements + [Add((subFolder.value, d))];
      }
    }

    method Removed(d: Descriptor)
      requires Inv()
      modifies this
      ensures Inv()
      ensures State() == RemovedStep(old(State()), d)
    {
      RemovedValid(State(), d);
      if d !in itemList {
        return;
      }
      var folder := itemList[d];
      calls := calls + [Remove(folder, d)];
      placements := placements + [Drop((folder, d))];
      itemList := itemList - {d};
    }
  }
}
