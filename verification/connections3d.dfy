/**
 * Connection authoring and cable bookkeeping of the 3D editor: the drag
 * state machine that turns a drag from an output connector into a
 * `connectProcessors` action, and the reconciliation of the cables group
 * with the store's list of connection ids.
 */
module Connections3d {
  import opened Common

  datatype Vec3 = Vec3(x: real, y: real, z: real)

  /** The module-level authoring record: the source end of the cable being dragged. */
  datatype AuthoringState = AuthoringState(sourceProcessorID: Option<string>,
                                           sourceConnectorID: Option<string>,
                                           sourceConnectorPosition: Option<Vec3>)

  /**
   * One child of the cables group. `obj` is the scene object's identity,
   * `name` its name (a connection id for a connection cable), and
   * `deleteButton` is `Some(visible)` for a connection cable, whose child
   * delete button has that visibility, and `None` for the dragged cable and
   * the drag handle, which have no delete button.
   */
  datatype SceneChild = SceneChild(obj: nat, name: string, deleteButton: Option<bool>)

  /** The action the authoring machine dispatches to the store. */
  datatype Action = ConnectProcessors(sourceProcessorID: Option<string>, sourceConnectorID: Option<string>,
                                      destinationProcessorID: string, destinationConnectorID: string)

  datatype Connection = Connection(sourceProcessorID: string, sourceConnectorID: string,
                                   destinationProcessorID: string, destinationConnectorID: string)

  /** The parts of the store's state that this module reads. */
  datatype StoreState = StoreState(connectionIds: seq<string>,
                                   connectionsById: map<string, Connection>,
                                   processorIds: set<string>,
                                   connectModeActive: bool,
                                   isConnectMode: bool)

  /** The action types of a state-change notification. */
  datatype ActionType = ToggleConnectModeAction | DeleteProcessorAction | ConnectProcessorsAction
                      | DisconnectProcessorsAction | DragSelectedProcessorAction | DragAllProcessorsAction
                      | CreateProjectAction | SetThemeAction | UnlistedAction(name: string)

  const CurrentCableName: string := "currentCable"
  const DragHandleName: string := "dragHandle"
  /** The drag handle is created once, at setup; it is the first scene object of the module. */
  const DragHandleObj: nat := 0
  const DragHandleChild: SceneChild := SceneChild(DragHandleObj, DragHandleName, None)

  // ---------------------------------------------------------------------------
  // Sequences of scene children.

  /** The children that `keep` accepts, in their original order. */
  function Filter(cs: seq<SceneChild>, keep: SceneChild -> bool): (r: seq<SceneChild>)
    ensures |r| <= |cs|
    ensures forall c :: c in r <==> c in cs && keep(c)
  {
    if cs == [] then []
    else (if keep(cs[0]) then [cs[0]] else []) + Filter(cs[1..], keep)
  }

  /** No two children that `keep` accepts share a `key`. */
  ghost predicate DistinctBy<K>(cs: seq<SceneChild>, keep: SceneChild -> bool, key: SceneChild -> K) {
    forall i, j :: 0 <= i < j < |cs| && keep(cs[i]) && keep(cs[j]) ==> key(cs[i]) != key(cs[j])
  }

  /** Filtering keeps distinct keys distinct. */
  lemma {:induction false} FilterDistinct<K>(cs: seq<SceneChild>, keep: SceneChild -> bool, key: SceneChild -> K)
    requires DistinctBy(cs, keep, key)
    ensures forall i, j :: 0 <= i < j < |Filter(cs, keep)| ==> key(Filter(cs, keep)[i]) != key(Filter(cs, keep)[j])
  {
    if cs != [] {
      var rest := Filter(cs[1..], keep);
      assert DistinctBy(cs[1..], keep, key) by {
        forall i, j | 0 <= i < j < |cs[1..]| && keep(cs[1..][i]) && keep(cs[1..][j])
          ensures key(cs[1..][i]) != key(cs[1..][j])
        {
          assert cs[1..][i] == cs[i + 1] && cs[1..][j] == cs[j + 1];
        }
      }
      FilterDistinct(cs[1..], keep, key);
      if keep(cs[0]) {
        forall j | 0 <= j < |rest| ensures key(cs[0]) != key(rest[j]) {
          assert rest[j] in cs[1..];
          var j' :| 0 <= j' < |cs[1..]| && cs[1..][j'] == rest[j];
          assert cs[j' + 1] == rest[j];
        }
      }
    }
  }

  /** A filter that accepts everything changes nothing. */
  lemma {:induction false} FilterAll(cs: seq<SceneChild>, keep: SceneChild -> bool)
    requires forall i :: 0 <= i < |cs| ==> keep(cs[i])
    ensures Filter(cs, keep) == cs
  {
    if cs != [] {
      FilterAll(cs[1..], keep);
    }
  }

  function ObjOtherThan(obj: nat): (keep: SceneChild -> bool) {
    (c: SceneChild) => c.obj != obj
  }

  function NameIn(ids: seq<string>): (keep: SceneChild -> bool) {
    (c: SceneChild) => c.name in ids
  }

  function ChildObj(c: SceneChild): (obj: nat) { c.obj }

  function ChildName(c: SceneChild): (name: string) { c.name }

  /** `group.remove(object)`: the children without the object of identity `obj`. */
  function Without(cs: seq<SceneChild>, obj: nat): (r: seq<SceneChild>)
    ensures forall c :: c in r <==> c in cs && c.obj != obj
  {
    Filter(cs, ObjOtherThan(obj))
  }

  /** `group.add(object)`: an object is detached from where it was and appended. */
  function Add(cs: seq<SceneChild>, c: SceneChild): (r: seq<SceneChild>) {
    Without(cs, c.obj) + [c]
  }

  /** The removal pass of `updateCables`: the children whose name is a connection id. */
  function Prune(cs: seq<SceneChild>, ids: seq<string>): (r: seq<SceneChild>)
    ensures |r| <= |cs|
    ensures forall c :: c in r <==> c in cs && c.name in ids
  {
    Filter(cs, NameIn(ids))
  }

  /** `group.getObjectByName(name)` finds a child. */
  predicate HasName(cs: seq<SceneChild>, name: string) {
    exists i :: 0 <= i < |cs| && cs[i].name == name
  }

  /** `ids.indexOf(x)` for an x that occurs. */
  function IndexOf(ids: seq<string>, x: string): (r: nat)
    requires x in ids
    ensures r < |ids| && ids[r] == x && x !in ids[..r]
  {
    if ids[0] == x then 0 else 1 + IndexOf(ids[1..], x)
  }

  lemma IndexOfPrefix(ids: seq<string>, m: nat, x: string)
    requires m <= |ids| && x in ids[..m]
    ensures IndexOf(ids[..m], x) == IndexOf(ids, x)
  {
    var a := IndexOf(ids[..m], x);
    assert ids[..m][..a] == ids[..a];
  }

  /**
   * The creation pass of `updateCables`: for each id, in order, a new cable
   * (with the next fresh object identity and a delete button of visibility
   * `visible`) unless a child of that name already exists.
   */
  function AddMissing(cs: seq<SceneChild>, ids: seq<string>, next: nat, visible: bool): (r: seq<SceneChild>)
    ensures |cs| <= |r| && r[..|cs|] == cs
  {
    if ids == [] then cs
    else
      var r := AddMissing(cs, ids[..|ids| - 1], next, visible);
      if HasName(r, ids[|ids| - 1]) then r
      else r + [SceneChild(next + |r| - |cs|, ids[|ids| - 1], Some(visible))]
  }

  /** Every cable the creation pass adds is a fresh object named by an id that had no cable, with the given visibility. */
  lemma {:induction false} AddMissingNew(cs: seq<SceneChild>, ids: seq<string>, next: nat, visible: bool)
    ensures forall k :: |cs| <= k < |AddMissing(cs, ids, next, visible)| ==>
              var c := AddMissing(cs, ids, next, visible)[k];
              c.obj == next + (k - |cs|) && c.deleteButton == Some(visible) && c.name in ids && !HasName(cs, c.name)
  {
    if ids != [] {
      var m := |ids| - 1;
      var r := AddMissing(cs, ids[..m], next, visible);
      var res := AddMissing(cs, ids, next, visible);
      AddMissingNew(cs, ids[..m], next, visible);
      assert ids == ids[..m] + [ids[m]];
      if HasName(r, ids[m]) {
        assert res == r;
      } else {
        var c := SceneChild(next + |r| - |cs|, ids[m], Some(visible));
        assert res == r + [c];
        assert !HasName(cs, ids[m]);
        forall k | |cs| <= k < |res|
          ensures res[k].obj == next + (k - |cs|) && res[k].deleteButton == Some(visible)
                  && res[k].name in ids && !HasName(cs, res[k].name)
        {
          if k < |r| {
            assert res[k] == r[k];
          } else {
            assert res[k] == c;
          }
        }
      }
    }
  }

  /** After the creation pass every id has a cable. */
  lemma {:induction false} AddMissingCovers(cs: seq<SceneChild>, ids: seq<string>, next: nat, visible: bool)
    ensures forall id :: id in ids ==> HasName(AddMissing(cs, ids, next, visible), id)
  {
    if ids != [] {
      var m := |ids| - 1;
      var r := AddMissing(cs, ids[..m], next, visible);
      var res := AddMissing(cs, ids, next, visible);
      AddMissingCovers(cs, ids[..m], next, visible);
      assert ids == ids[..m] + [ids[m]];
      if !HasName(r, ids[m]) {
        var c := SceneChild(next + |r| - |cs|, ids[m], Some(visible));
        assert res == r + [c];
        assert res[|r|] == c;
        forall id | HasName(r, id) ensures HasName(res, id) {
          var i :| 0 <= i < |r| && r[i].name == id;
          assert res[i] == r[i];
        }
      }
    }
  }

  /** From index `from` on, the children are named by ids, in the order of the ids' first occurrences. */
  ghost predicate InIdOrder(r: seq<SceneChild>, from: nat, ids: seq<string>) {
    forall k, l :: from <= k < l < |r| ==>
      r[k].name in ids && r[l].name in ids && IndexOf(ids, r[k].name) < IndexOf(ids, r[l].name)
  }

  /** The cables the creation pass adds come in the order of their ids' first occurrences. */
  lemma {:induction false} AddMissingOrder(cs: seq<SceneChild>, ids: seq<string>, next: nat, visible: bool)
    ensures InIdOrder(AddMissing(cs, ids, next, visible), |cs|, ids)
  {
    AddMissingNew(cs, ids, next, visible);
    if ids != [] {
      var m := |ids| - 1;
      var r := AddMissing(cs, ids[..m], next, visible);
      var res := AddMissing(cs, ids, next, visible);
      AddMissingOrder(cs, ids[..m], next, visible);
      AddMissingNew(cs, ids[..m], next, visible);
      assert ids == ids[..m] + [ids[m]];
      forall k | |cs| <= k < |r| ensures IndexOf(ids[..m], r[k].name) == IndexOf(ids, r[k].name) {
        IndexOfPrefix(ids, m, r[k].name);
      }
      if HasName(r, ids[m]) {
        assert res == r;
      } else {
        var c := SceneChild(next + |r| - |cs|, ids[m], Some(visible));
        assert res == r + [c];
        AddMissingCovers(cs, ids[..m], next, visible);
        assert ids[m] !in ids[..m];
        assert IndexOf(ids, ids[m]) == m;
        forall k, l | |cs| <= k < l < |res|
          ensures IndexOf(ids, res[k].name) < IndexOf(ids, res[l].name)
        {
          assert res[k] == r[k];
          if l < |r| {
            assert res[l] == r[l];
          } else {
            assert res[l] == c;
            assert r[k].name in ids[..m];
            assert IndexOf(ids[..m], r[k].name) < m;
          }
        }
      }
    }
  }

  /** Adding when every id already has a cable changes nothing. */
  lemma {:induction false} AddMissingNoop(cs: seq<SceneChild>, ids: seq<string>, next: nat, visible: bool)
    requires forall id :: id in ids ==> HasName(cs, id)
    ensures AddMissing(cs, ids, next, visible) == cs
  {
    if ids != [] {
      var m := |ids| - 1;
      assert forall id :: id in ids[..m] ==> id in ids;
      AddMissingNoop(cs, ids[..m], next, visible);
      assert ids[m] in ids;
    }
  }

  /** Every child is a distinct scene object created before `next`. */
  ghost predicate GroupOk(cs: seq<SceneChild>, next: nat) {
    && (forall i :: 0 <= i < |cs| ==> cs[i].obj < next)
    && (forall i, j :: 0 <= i < j < |cs| ==> cs[i].obj != cs[j].obj)
  }

  lemma FilterGroupOk(cs: seq<SceneChild>, keep: SceneChild -> bool, next: nat)
    requires GroupOk(cs, next)
    ensures GroupOk(Filter(cs, keep), next)
  {
    FilterDistinct(cs, keep, ChildObj);
    forall i | 0 <= i < |Filter(cs, keep)| ensures Filter(cs, keep)[i].obj < next {
      assert Filter(cs, keep)[i] in cs;
    }
  }

  lemma AddMissingGroupOk(cs: seq<SceneChild>, ids: seq<string>, next: nat, visible: bool)
    requires GroupOk(cs, next)
    ensures GroupOk(AddMissing(cs, ids, next, visible), next + |AddMissing(cs, ids, next, visible)| - |cs|)
  {
    var r := AddMissing(cs, ids, next, visible);
    AddMissingNew(cs, ids, next, visible);
    forall i | 0 <= i < |r| ensures r[i].obj < next + |r| - |cs| && (i < |cs| ==> r[i].obj < next) {
      if i < |cs| {
        assert r[..|cs|][i] == r[i];
      }
    }
    forall i, j | 0 <= i < j < |r| ensures r[i].obj != r[j].obj {
      if j < |cs| {
        assert r[..|cs|][i] == r[i] && r[..|cs|][j] == r[j];
      }
    }
  }

  /** The cables group after `updateCables`, from the group before it. */
  function Reconciled(cs: seq<SceneChild>, s: StoreState, next: nat): (r: seq<SceneChild>)
    ensures forall k :: 0 <= k < |r| ==> r[k].name in s.connectionIds
    ensures forall id :: id in s.connectionIds ==> HasName(r, id)
  {
    PruneThenAddNames(cs, s.connectionIds, next, s.isConnectMode);
    AddMissing(Prune(cs, s.connectionIds), s.connectionIds, next, s.isConnectMode)
  }

  /** After both passes, every name is an id and every id has a cable. */
  lemma PruneThenAddNames(cs: seq<SceneChild>, ids: seq<string>, next: nat, visible: bool)
    ensures forall k :: 0 <= k < |AddMissing(Prune(cs, ids), ids, next, visible)| ==>
              AddMissing(Prune(cs, ids), ids, next, visible)[k].name in ids
    ensures forall id :: id in ids ==> HasName(AddMissing(Prune(cs, ids), ids, next, visible), id)
  {
    var p := Prune(cs, ids);
    var r := AddMissing(p, ids, next, visible);
    AddMissingNew(p, ids, next, visible);
    AddMissingCovers(p, ids, next, visible);
    forall k | 0 <= k < |r| ensures r[k].name in ids {
      if k < |p| {
        assert r[k] == r[..|p|][k] == p[k];
        assert p[k] in p;
      }
    }
  }

  /** No two children with a name in `ids` share that name. */
  ghost predicate UniqueNamesIn(cs: seq<SceneChild>, ids: seq<string>) {
    DistinctBy(cs, NameIn(ids), ChildName)
  }

  /**
   * After `updateCables`, every cable name is a connection id and every
   * connection id has exactly one cable, duplicates in the id list included.
   */
  lemma {:induction false} UpdateCablesCorrect(cs: seq<SceneChild>, s: StoreState, next: nat)
    requires UniqueNamesIn(cs, s.connectionIds)
    ensures var r := Reconciled(cs, s, next);
            && (forall k :: 0 <= k < |r| ==> r[k].name in s.connectionIds)
            && (forall id :: id in s.connectionIds ==> HasName(r, id))
            && (forall i, j :: 0 <= i < j < |r| ==> r[i].name != r[j].name)
  {
    var ids := s.connectionIds;
    var p := Prune(cs, ids);
    var r := Reconciled(cs, s, next);
    FilterDistinct(cs, NameIn(ids), ChildName);
    AddMissingNew(p, ids, next, s.isConnectMode);
    AddMissingOrder(p, ids, next, s.isConnectMode);
    forall i, j | 0 <= i < j < |r| ensures r[i].name != r[j].name {
      if j < |p| {
        assert r[i] == p[i] && r[j] == p[j];
        assert ChildName(p[i]) != ChildName(p[j]);
      } else if i < |p| {
        assert r[i] == p[i];
        assert HasName(p, p[i].name);
      } else {
        assert IndexOf(ids, r[i].name) < IndexOf(ids, r[j].name);
      }
    }
  }

  /**
   * `updateCables` keeps the surviving cables first, in their old relative
   * order, and appends the new cables in the order of their ids.
   */
  lemma UpdateCablesOrder(cs: seq<SceneChild>, s: StoreState, next: nat)
    ensures var r := Reconciled(cs, s, next);
            var p := Prune(cs, s.connectionIds);
            && |p| <= |r| && r[..|p|] == p
            && InIdOrder(r, |p|, s.connectionIds)
  {
    var p := Prune(cs, s.connectionIds);
    AddMissingOrder(p, s.connectionIds, next, s.isConnectMode);
  }

  /** A group whose names are all ids and which has a cable for every id is left as it is. */
  lemma ReconcileFixed(r: seq<SceneChild>, s: StoreState, n: nat)
    requires forall k :: 0 <= k < |r| ==> r[k].name in s.connectionIds
    requires forall id :: id in s.connectionIds ==> HasName(r, id)
    ensures Reconciled(r, s, n) == r
  {
    var ids := s.connectionIds;
    assert forall i :: 0 <= i < |r| ==> NameIn(ids)(r[i]);
    FilterAll(r, NameIn(ids));
    AddMissingNoop(r, ids, n, s.isConnectMode);
  }

  /**
   * Running `updateCables` a second time on the same state changes nothing,
   * whatever identities the second run would hand out.
   */
  lemma UpdateCablesIdempotent(cs: seq<SceneChild>, s: StoreState, next: nat, later: nat)
    ensures Reconciled(Reconciled(cs, s, next), s, later) == Reconciled(cs, s, next)
  {
    ReconcileFixed(Reconciled(cs, s, next), s, later);
  }

  // ---------------------------------------------------------------------------
  // Connect mode and drawing.

  /** Index of the first child without a delete button, or the number of children. */
  function FirstWithoutButton(cs: seq<SceneChild>): (k: nat)
    ensures k <= |cs|
    ensures forall i :: 0 <= i < k ==> cs[i].deleteButton.Some?
    ensures k < |cs| ==> cs[k].deleteButton.None?
  {
    if cs == [] || cs[0].deleteButton.None? then 0 else 1 + FirstWithoutButton(cs[1..])
  }

  /**
   * The group after `toggleConnectMode`: children are updated in order, and
   * the first child without a delete button stops the loop with a TypeError.
   */
  function Toggled(cs: seq<SceneChild>, visible: bool): (r: seq<SceneChild>)
    ensures |r| == |cs|
    ensures forall i :: 0 <= i < |r| ==> r[i].obj == cs[i].obj && r[i].name == cs[i].name
  {
    var k := FirstWithoutButton(cs);
    seq(|cs|, i requires 0 <= i < |cs| => if i < k then cs[i].(deleteButton := Some(visible)) else cs[i])
  }

  /**
   * When every child has a delete button, `toggleConnectMode` leaves every
   * button's visibility equal to the connect mode flag and changes nothing
   * else; otherwise the children before the first one without a button are
   * updated and the rest are untouched.
   */
  lemma ToggledSpec(cs: seq<SceneChild>, visible: bool)
    ensures var r := Toggled(cs, visible);
            && |r| == |cs|
            && (forall i :: 0 <= i < |r| ==> r[i].obj == cs[i].obj && r[i].name == cs[i].name)
            && (forall i :: 0 <= i < FirstWithoutButton(cs) ==> r[i].deleteButton == Some(visible))
            && (FirstWithoutButton(cs) == |cs| ==> forall i :: 0 <= i < |r| ==> r[i].deleteButton == Some(visible))
            && (forall i :: FirstWithoutButton(cs) <= i < |r| ==> r[i] == cs[i])
  {
  }

  /** The connection ids whose both processors exist: the ones `drawCables` draws. */
  function CablesToDraw(s: StoreState): (r: seq<string>)
    requires forall id :: id in s.connectionIds ==> id in s.connectionsById
    ensures forall id :: id in r <==>
              id in s.connectionIds
              && s.connectionsById[id].sourceProcessorID in s.processorIds
              && s.connectionsById[id].destinationProcessorID in s.processorIds
  {
    DrawFilter(s.connectionIds, s.connectionsById, s.processorIds)
  }

  function DrawFilter(ids: seq<string>, byId: map<string, Connection>, processors: set<string>): (r: seq<string>)
    requires forall id :: id in ids ==> id in byId
    ensures forall id :: id in r <==>
              id in ids && byId[id].sourceProcessorID in processors && byId[id].destinationProcessorID in processors
  {
    if ids == [] then []
    else
      var c := byId[ids[0]];
      (if c.sourceProcessorID in processors && c.destinationProcessorID in processors then [ids[0]] else [])
      + DrawFilter(ids[1..], byId, processors)
  }

  // ---------------------------------------------------------------------------
  // The module's mutable state.

  /** Adding an already created object keeps the group well formed. */
  lemma AddGroupOk(cs: seq<SceneChild>, c: SceneChild, next: nat)
    requires GroupOk(cs, next) && c.obj < next
    ensures GroupOk(Add(cs, c), next)
  {
    var w := Without(cs, c.obj);
    FilterGroupOk(cs, ObjOtherThan(c.obj), next);
    forall i | 0 <= i < |w| ensures w[i].obj != c.obj {
      assert w[i] in w;
    }
  }

  lemma {:induction false} FilterConcat(a: seq<SceneChild>, b: seq<SceneChild>, keep: SceneChild -> bool)
    ensures Filter(a + b, keep) == Filter(a, keep) + Filter(b, keep)
  {
    if a == [] {
      assert a + b == b;
    } else {
      assert (a + b)[1..] == a[1..] + b;
      FilterConcat(a[1..], b, keep);
    }
  }

  /** One step of the backward removal pass: the child at `k` goes when its name is not an id. */
  lemma PruneStep(original: seq<SceneChild>, k: nat, ids: seq<string>, cs: seq<SceneChild>)
    requires k < |original|
    requires cs == original[..k + 1] + Prune(original[k + 1..], ids)
    ensures cs[k] == original[k]
    ensures original[k].name in ids ==> cs == original[..k] + Prune(original[k..], ids)
    ensures original[k].name !in ids ==> cs[..k] + cs[k + 1..] == original[..k] + Prune(original[k..], ids)
  {
    assert original[k..][1..] == original[k + 1..];
    assert original[..k + 1] == original[..k] + [original[k]];
    assert cs[..k] == original[..k];
    assert cs[k + 1..] == Prune(original[k + 1..], ids);
  }

  /** The two additions of `dragStartConnection`: a fresh cable, then the drag handle, moved to the end. */
  lemma DragStartChildren(cs: seq<SceneChild>, cable: SceneChild, next: nat)
    requires GroupOk(cs, next) && DragHandleObj < next && cable.obj == next
    ensures Add(cs, cable) == cs + [cable]
    ensures Add(Add(cs, cable), DragHandleChild) == Without(cs, DragHandleObj) + [cable, DragHandleChild]
    ensures GroupOk(Add(Add(cs, cable), DragHandleChild), next + 1)
  {
    var added := Add(cs, cable);
    assert added == cs + [cable] by {
      FilterAll(cs, ObjOtherThan(cable.obj));
    }
    assert Without(added, DragHandleObj) == Without(cs, DragHandleObj) + [cable] by {
      FilterConcat(cs, [cable], ObjOtherThan(DragHandleObj));
      assert [cable][1..] == [];
    }
    assert GroupOk(cs, next + 1);
    AddGroupOk(cs, cable, next + 1);
    AddGroupOk(added, DragHandleChild, next + 1);
  }

  /** The actions whose handling calls `drawCables`, which looks up every listed connection. */
  predicate Draws(action: ActionType) {
    action.DeleteProcessorAction? || action.ConnectProcessorsAction? || action.DisconnectProcessorsAction?
    || action.DragSelectedProcessorAction? || action.DragAllProcessorsAction? || action.CreateProjectAction?
  }

  class CableEditor {
    var state: AuthoringState
    /** Identity of the cable being dragged (`currentCable`), once a drag has started. */
    var currentCable: Option<nat>
    var dragHandlePosition: Vec3
    /** `cablesGroup.children`. */
    var children: seq<SceneChild>
    /** Scene objects are numbered as they are created. */
    var nextObj: nat
    /** Actions passed to the store's `dispatch`, in order. */
    var dispatched: seq<Action>

    /** Every child is a distinct, already created scene object. */
    ghost predicate Valid()
      reads this
    {
      && DragHandleObj < nextObj
      && GroupOk(children, nextObj)
      && (currentCable.Some? ==> currentCable.value < nextObj)
    }

    /** `setup`: the drag handle exists; no drag has happened. */
    constructor ()
      ensures Valid()
      ensures state == AuthoringState(None, None, None) && currentCable == None
      ensures children == [] && dispatched == []
    {
      state := AuthoringState(None, None, None);
      currentCable := None;
      dragHandlePosition := Vec3(0.0, 0.0, 0.0);
      children := [];
      nextObj := DragHandleObj + 1;
      dispatched := [];
    }

    /** `dragStartConnection`: record the source and show the dragged cable and the handle. */
    method DragStartConnection(sourceProcessorID: string, sourceConnectorID: string, sourceConnectorPosition: Vec3)
      requires Valid()
      modifies this
      ensures Valid()
      ensures state == AuthoringState(Some(sourceProcessorID), Some(sourceConnectorID), Some(sourceConnectorPosition))
      ensures currentCable == Some(old(nextObj)) && nextObj == old(nextObj) + 1
      ensures children == Add(Add(old(children), SceneChild(old(nextObj), CurrentCableName, None)), DragHandleChild)
      ensures children == Without(old(children), DragHandleObj) + [SceneChild(old(nextObj), CurrentCableName, None), DragHandleChild]
      ensures dragHandlePosition == sourceConnectorPosition
      ensures dispatched == old(dispatched)
    {
      state := AuthoringState(Some(sourceProcessorID), Some(sourceConnectorID), Some(sourceConnectorPosition));
      var cable := SceneChild(nextObj, CurrentCableName, None);
      DragStartChildren(children, cable, nextObj);
      nextObj := nextObj + 1;
      currentCable := Some(cable.obj);
      children := Add(children, cable);
      dragHandlePosition := sourceConnectorPosition;
      children := Add(children, DragHandleChild);
    }

    /** `dragMoveConnection`: only the drag handle moves (the dragged cable's shape is redrawn). */
    method DragMoveConnection(position3d: Vec3)
      requires currentCable.Some? && state.sourceConnectorPosition.Some?
      modifies this`dragHandlePosition
      ensures dragHandlePosition == position3d
      ensures state == old(state) && children == old(children) && dispatched == old(dispatched)
    {
      dragHandlePosition := position3d;
    }

    /** `dragEndConnection`: the dragged cable and the drag handle leave the group; nothing else does. */
    method DragEndConnection()
      requires Valid() && currentCable.Some?
      modifies this`children
      ensures Valid()
      ensures children == Without(Without(old(children), currentCable.value), DragHandleObj)
      ensures forall c :: c in children <==> c in old(children) && c.obj != currentCable.value && c.obj != DragHandleObj
      ensures state == old(state) && dispatched == old(dispatched)
    {
      FilterGroupOk(children, ObjOtherThan(currentCable.value), nextObj);
      children := Without(children, currentCable.value);
      FilterGroupOk(children, ObjOtherThan(DragHandleObj), nextObj);
      children := Without(children, DragHandleObj);
    }

    /**
     * `createConnection`: dispatch one `connectProcessors` action from the
     * recorded source to the given destination, then forget the source ids
     * (the source position is kept).
     */
    method CreateConnection(destinationProcessorID: string, destinationConnectorID: string)
      modifies this`dispatched, this`state
      ensures dispatched == old(dispatched) + [ConnectProcessors(old(state).sourceProcessorID, old(state).sourceConnectorID,
                                                                 destinationProcessorID, destinationConnectorID)]
      ensures state == AuthoringState(None, None, old(state).sourceConnectorPosition)
    {
      dispatched := dispatched + [ConnectProcessors(state.sourceProcessorID, state.sourceConnectorID,
                                                    destinationProcessorID, destinationConnectorID)];
      state := state.(sourceProcessorID := None, sourceConnectorID := None);
    }

    /** `updateCables`: drop the cables of removed connections, then create the missing ones. */
    method UpdateCables(s: StoreState)
      requires Valid()
      modifies this`children, this`nextObj
      ensures Valid()
      ensures children == Reconciled(old(children), s, old(nextObj))
      ensures nextObj == old(nextObj) + |children| - |Prune(old(children), s.connectionIds)|
    {
      RemoveStaleCables(s.connectionIds);
      CreateMissingCables(s.connectionIds, s.isConnectMode);
    }

    /** The removal pass of `updateCables`, last child first. */
    method RemoveStaleCables(ids: seq<string>)
      requires Valid()
      modifies this`children
      ensures Valid()
      ensures children == Prune(old(children), ids)
    {
      ghost var original := children;
      FilterGroupOk(original, NameIn(ids), nextObj);
      var count := |children|;
      while count > 0
        invariant 0 <= count <= |original|
        invariant children == original[..count] + Prune(original[count..], ids)
      {
        count := count - 1;
        PruneStep(original, count, ids, children);
        if children[count].name !in ids {
          children := children[..count] + children[count + 1..];
        }
      }
      assert original[0..] == original;
    }

    /** The creation pass of `updateCables`, id by id. */
    method CreateMissingCables(ids: seq<string>, visible: bool)
      requires Valid()
      modifies this`children, this`nextObj
      ensures Valid()
      ensures children == AddMissing(old(children), ids, old(nextObj), visible)
      ensures nextObj == old(nextObj) + |children| - |old(children)|
    {
      AddMissingGroupOk(children, ids, nextObj, visible);
      ghost var pruned := children;
      for i := 0 to |ids|
        invariant |children| >= |pruned|
        invariant children == AddMissing(pruned, ids[..i], old(nextObj), visible)
        invariant nextObj == old(nextObj) + |children| - |pruned|
      {
        assert ids[..i + 1][..i] == ids[..i];
        var found := HasNameLoop(children, ids[i]);
        if !found {
          children := children + [SceneChild(nextObj, ids[i], Some(visible))];
          nextObj := nextObj + 1;
        }
      }
      assert ids[..|ids|] == ids;
    }

    /** `cablesGroup.getObjectByName(name)`, searched child by child. */
    static method HasNameLoop(cs: seq<SceneChild>, name: string) returns (found: bool)
      ensures found == HasName(cs, name)
    {
      found := false;
      var i := 0;
      while i < |cs|
        invariant 0 <= i <= |cs|
        invariant forall j :: 0 <= j < i ==> cs[j].name != name
      {
        if cs[i].name == name {
          return true;
        }
        i := i + 1;
      }
    }

    /**
     * `toggleConnectMode`: set every cable's delete button visibility to the
     * connect mode flag, child by child; `ok` is false when a child without a
     * delete button made the loop throw.
     */
    method ToggleConnectMode(s: StoreState) returns (ok: bool)
      modifies this`children
      ensures ok == (FirstWithoutButton(old(children)) == |old(children)|)
      ensures children == Toggled(old(children), s.connectModeActive)
    {
      ghost var cs := children;
      var k := 0;
      while k < |children|
        invariant 0 <= k <= |children| == |cs|
        invariant forall i :: 0 <= i < k ==> cs[i].deleteButton.Some?
        invariant forall i :: 0 <= i < k ==> children[i] == cs[i].(deleteButton := Some(s.connectModeActive))
        invariant forall i :: k <= i < |cs| ==> children[i] == cs[i]
      {
        if children[k].deleteButton.None? {
          FirstWithoutButtonAt(cs, k);
          return false;
        }
        children := children[k := children[k].(deleteButton := Some(s.connectModeActive))];
        k := k + 1;
      }
      FirstWithoutButtonAt(cs, k);
      return true;
    }

    static lemma {:induction false} FirstWithoutButtonAt(cs: seq<SceneChild>, k: nat)
      requires k <= |cs|
      requires forall i :: 0 <= i < k ==> cs[i].deleteButton.Some?
      requires k < |cs| ==> cs[k].deleteButton.None?
      ensures FirstWithoutButton(cs) == k
    {
      if k > 0 {
        FirstWithoutButtonAt(cs[1..], k - 1);
      }
    }

    /**
     * `handleStateChanges`: the dispatch table from action type to the cable
     * operations. `drawn` lists the connection ids handed to `drawCable`;
     * `ok` is false when `toggleConnectMode` threw.
     */
    method HandleStateChanges(action: ActionType, s: StoreState) returns (drawn: seq<string>, ok: bool)
      requires Valid()
      requires Draws(action) ==> forall id :: id in s.connectionIds ==> id in s.connectionsById
      modifies this`children, this`nextObj
      ensures Valid()
      ensures match action
        case ToggleConnectModeAction =>
          && children == Toggled(old(children), s.connectModeActive) && nextObj == old(nextObj) && drawn == []
          && ok == (FirstWithoutButton(old(children)) == |old(children)|)
        case DeleteProcessorAction | ConnectProcessorsAction | DisconnectProcessorsAction =>
          children == Reconciled(old(children), s, old(nextObj)) && drawn == CablesToDraw(s) && ok
        case DragSelectedProcessorAction | DragAllProcessorsAction =>
          children == old(children) && nextObj == old(nextObj) && drawn == CablesToDraw(s) && ok
        case CreateProjectAction =>
          var r := Reconciled(old(children), s, old(nextObj));
          children == Toggled(r, s.connectModeActive) && drawn == CablesToDraw(s)
          && ok == (FirstWithoutButton(r) == |r|)
        case SetThemeAction =>
          && children == Toggled(old(children), s.connectModeActive) && nextObj == old(nextObj) && drawn == []
          && ok == (FirstWithoutButton(old(children)) == |old(children)|)
        case UnlistedAction(_) =>
          children == old(children) && nextObj == old(nextObj) && drawn == [] && ok
    {
      drawn, ok := [], true;
      match action {
        case ToggleConnectModeAction =>
          ok := ToggleConnectMode(s);
          ToggledGroupOk(old(children), s.connectModeActive, nextObj);
        case DeleteProcessorAction =>
          UpdateCables(s);
          drawn := CablesToDraw(s);
        case ConnectProcessorsAction =>
          UpdateCables(s);
          drawn := CablesToDraw(s);
        case DisconnectProcessorsAction =>
          UpdateCables(s);
          drawn := CablesToDraw(s);
        case DragSelectedProcessorAction =>
          drawn := CablesToDraw(s);
        case DragAllProcessorsAction =>
          drawn := CablesToDraw(s);
        case CreateProjectAction =>
          UpdateCables(s);
          drawn := CablesToDraw(s);
          ghost var r := children;
          ok := ToggleConnectMode(s);
          ToggledGroupOk(r, s.connectModeActive, nextObj);
        case SetThemeAction =>
          ok := ToggleConnectMode(s);
          ToggledGroupOk(old(children), s.connectModeActive, nextObj);
        case UnlistedAction(_) =>
      }
    }
  }

  /** Toggling visibility keeps the group well formed. */
  lemma ToggledGroupOk(cs: seq<SceneChild>, visible: bool, next: nat)
    requires GroupOk(cs, next)
    ensures GroupOk(Toggled(cs, visible), next)
  {
  }
}
