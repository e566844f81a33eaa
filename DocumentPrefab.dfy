/** Prefab instance maintenance of an editor document (the prefab part of
    ezDocument): updating every prefab instance of the document from its
    prefab file, reverting and unlinking selected instances, and replacing an
    object by a freshly authored prefab.

    The document's object tree and its per-object metadata store are state of
    the document; what the code does to the tree it does by adding commands to
    the command history (a remove followed by an instantiate), and executing
    those commands is the command system's business. So the tree is a value
    here, the metadata store a map, and the command history a log of entries.
    The three-way merge, the guid remapping, graph loading and document
    creation are code outside this file and appear as symbolic values or as
    parameters of the document. */
module DocumentPrefab {
  import opened Wrappers

  // ==================================================================
  // Values
  // ==================================================================

  /** ezUuid; 0 stands for the invalid uuid ezUuid() that IsValid rejects. */
  type Uuid = nat

  const NilUuid: Uuid := 0

  predicate IsValid(u: Uuid)
  {
    u != NilUuid
  }

  /** The metadata of one object that the prefab code reads and writes. */
  datatype PrefabMeta = PrefabMeta(createFromPrefab: Uuid, prefabSeed: Uuid, basePrefab: string, hidden: bool)

  /** The metadata of an object nothing has been recorded for. */
  const DefaultMeta: PrefabMeta := PrefabMeta(NilUuid, NilUuid, "", false)

  function MetaOf(meta: map<Uuid, PrefabMeta>, guid: Uuid): PrefabMeta
  {
    if guid in meta then meta[guid] else DefaultMeta
  }

  /** The object was instantiated from a prefab and is still linked to it. */
  predicate IsInstance(meta: map<Uuid, PrefabMeta>, guid: Uuid)
  {
    IsValid(MetaOf(meta, guid).createFromPrefab)
  }

  /** An object of the document's tree: its guid and its children, in order. */
  datatype ObjectNode = ObjectNode(guid: Uuid, children: seq<ObjectNode>)

  /** An object as the commands need it: its guid and its parent's guid. */
  datatype ObjectRef = ObjectRef(guid: Uuid, parent: Uuid)

  /** The JSON graph an instantiate command carries: a prefab file's text, or
      what ezPrefabUtils::Merge makes of the base prefab text, the new prefab
      text and the instance (left uninterpreted). */
  datatype GraphText =
    | Text(text: string)
    | Merged(basePrefab: string, newPrefab: string, instance: Uuid, seed: Uuid)

  /** A parsed prefab graph: what ezPrefabUtils::LoadGraph makes of a text. */
  datatype Graph = LoadedGraph(source: string)

  datatype Command =
    | RemoveObject(obj: Uuid)
    | InstantiatePrefab(allowPickedPosition: bool, createFromPrefab: Uuid, parent: Uuid,
                        jsonGraph: GraphText, remapGuid: Uuid)

  /** What the command history records. */
  datatype HistoryEntry =
    | StartTransaction(name: string)
    | AddCommand(command: Command)
    | FinishTransaction

  /** ezStatus */
  datatype Status = Success | Failure(message: string)

  /** The files the document can read, and where each prefab document is
      stored. Both may change between two calls (a prefab file edited on
      disk); the operations here never change them. */
  datatype Storage = Storage(files: map<string, string>, documentPaths: map<Uuid, string>)

  // ==================================================================
  // Reading prefab text
  // ==================================================================

  /** The whole file, or the empty string when it cannot be opened. */
  function ReadDocumentAsString(files: map<string, string>, path: string): string
  {
    if path in files then files[path] else ""
  }

  /** The path of the document with the given guid; an unknown guid gives the
      empty path. */
  function DocumentPath(documentPaths: map<Uuid, string>, guid: Uuid): string
  {
    if guid in documentPaths then documentPaths[guid] else ""
  }

  /** The current text of a prefab document. */
  function PrefabText(st: Storage, guid: Uuid): string
  {
    ReadDocumentAsString(st.files, DocumentPath(st.documentPaths, guid))
  }

  /** What GetCachedPrefabDocument returns for `guid` given the cache. */
  function LookupText(cache: map<Uuid, string>, st: Storage, guid: Uuid): string
  {
    if guid in cache then cache[guid] else PrefabText(st, guid)
  }

  // ==================================================================
  // The remove / instantiate pair
  // ==================================================================

  /** An object whose parent is the document root is instantiated without a
      parent (the nil uuid); any other keeps its parent. */
  function InstantiateParent(rootGuid: Uuid, parent: Uuid): Uuid
  {
    if parent == rootGuid then NilUuid else parent
  }

  function InstantiateCommand(rootGuid: Uuid, obj: ObjectRef, asset: Uuid, seed: Uuid, graph: GraphText): Command
  {
    InstantiatePrefab(false, asset, InstantiateParent(rootGuid, obj.parent), graph, seed)
  }

  /** The two commands by which update, revert and replace exchange an object
      for a new instance of a prefab: remove it, then instantiate the prefab
      under the same parent. */
  function ReplaceCommands(rootGuid: Uuid, obj: ObjectRef, asset: Uuid, seed: Uuid, graph: GraphText)
    : seq<HistoryEntry>
  {
    [AddCommand(RemoveObject(obj.guid)), AddCommand(InstantiateCommand(rootGuid, obj, asset, seed, graph))]
  }

  // ==================================================================
  // The update walk
  // ==================================================================

  /** A prefab instance found by the walk, with the metadata read for it. */
  datatype Instance = Instance(obj: ObjectRef, meta: PrefabMeta)

  /** The instances UpdatePrefabsRecursive handles below `node`, in the
      order it handles them: the children in order, each one either an
      instance (and then nothing below it) or walked in turn. */
  function Instances(node: ObjectNode, meta: map<Uuid, PrefabMeta>): seq<Instance>
    decreases node, |node.children| + 1
  {
    ChildInstances(node, meta, 0)
  }

  /** The instances found from the `i`-th child of `node` on. */
  function ChildInstances(node: ObjectNode, meta: map<Uuid, PrefabMeta>, i: nat): seq<Instance>
    requires i <= |node.children|
    decreases node, |node.children| - i
  {
    if i == |node.children| then []
    else ChildVisit(node, meta, i) + ChildInstances(node, meta, i + 1)
  }

  /** The instances found through the `i`-th child of `node`. */
  function ChildVisit(node: ObjectNode, meta: map<Uuid, PrefabMeta>, i: nat): seq<Instance>
    requires i < |node.children|
    decreases node, 0
  {
    var child := node.children[i];
    if IsInstance(meta, child.guid) then [Instance(ObjectRef(child.guid, node.guid), MetaOf(meta, child.guid))]
    else Instances(child, meta)
  }

  /** The guids of `node` and everything below it. */
  function Guids(node: ObjectNode): set<Uuid>
    decreases node, 1
  {
    {node.guid} + Descendants(node)
  }

  /** The guids of everything strictly below `node`. */
  function Descendants(node: ObjectNode): set<Uuid>
    decreases node, 0
  {
    set c, g | c in node.children && g in Guids(c) :: g
  }

  /** Every instance the walk finds lies strictly below the start, its parent
      at or below the start, is linked to a prefab, and carries the metadata
      stored for it. */
  lemma {:induction false} InstancesFound(node: ObjectNode, meta: map<Uuid, PrefabMeta>)
    ensures forall x :: x in Instances(node, meta) ==>
      && IsInstance(meta, x.obj.guid) && x.meta == MetaOf(meta, x.obj.guid)
      && x.obj.guid in Descendants(node) && x.obj.parent in Guids(node)
    decreases node, |node.children| + 1
  {
    ChildInstancesFound(node, meta, 0);
  }

  lemma {:induction false} ChildInstancesFound(node: ObjectNode, meta: map<Uuid, PrefabMeta>, i: nat)
    requires i <= |node.children|
    ensures forall x :: x in ChildInstances(node, meta, i) ==>
      && IsInstance(meta, x.obj.guid) && x.meta == MetaOf(meta, x.obj.guid)
      && x.obj.guid in Descendants(node) && x.obj.parent in Guids(node)
    decreases node, |node.children| - i
  {
    if i < |node.children| {
      var child := node.children[i];
      assert child in node.children;
      assert Guids(child) <= Descendants(node);
      if !IsInstance(meta, child.guid) {
        InstancesFound(child, meta);
      }
      ChildInstancesFound(node, meta, i + 1);
    }
  }

  /** `g` is an outermost prefab instance below `node`: some child of `node`
      is the instance `g` itself, or is not an instance and has `g` as an
      outermost instance below it. */
  ghost predicate TopInstance(node: ObjectNode, meta: map<Uuid, PrefabMeta>, g: Uuid)
    decreases node, 1
  {
    exists c :: c in node.children && ReachedThrough(c, meta, g)
  }

  /** `g` is reached through the child `c`: `c` is the instance `g`, or `c`
      is not an instance and `g` is an outermost instance below it. */
  ghost predicate ReachedThrough(c: ObjectNode, meta: map<Uuid, PrefabMeta>, g: Uuid)
    decreases c, 2
  {
    (c.guid == g && IsInstance(meta, g)) || (!IsInstance(meta, c.guid) && TopInstance(c, meta, g))
  }

  /** The walk finds exactly the outermost instances: an object is updated
      if and only if it is an instance with no instance above it below the
      start. */
  lemma {:induction false} InstancesComplete(node: ObjectNode, meta: map<Uuid, PrefabMeta>, g: Uuid)
    ensures TopInstance(node, meta, g) <==> exists x :: x in Instances(node, meta) && x.obj.guid == g
    decreases node, |node.children| + 1
  {
    ChildInstancesComplete(node, meta, g, 0);
    if TopInstance(node, meta, g) {
      var c :| c in node.children && ReachedThrough(c, meta, g);
      var j :| 0 <= j < |node.children| && node.children[j] == c;
    }
  }

  lemma {:induction false} ChildInstancesComplete(node: ObjectNode, meta: map<Uuid, PrefabMeta>, g: Uuid, i: nat)
    requires i <= |node.children|
    ensures (exists j :: i <= j < |node.children| && ReachedThrough(node.children[j], meta, g))
        <==> exists x :: x in ChildInstances(node, meta, i) && x.obj.guid == g
    decreases node, |node.children| - i
  {
    if i < |node.children| {
      var child := node.children[i];
      var visit, rest := ChildVisit(node, meta, i), ChildInstances(node, meta, i + 1);
      assert ChildInstances(node, meta, i) == visit + rest;
      assert child in node.children;
      ChildInstancesComplete(node, meta, g, i + 1);
      if !IsInstance(meta, child.guid) {
        InstancesComplete(child, meta, g);
      }
      assert ReachedThrough(child, meta, g) <==> exists x :: x in visit && x.obj.guid == g;
    }
  }

  /** No two objects of the tree share a guid: the subtrees of two children
      are disjoint, and so on all the way down. */
  ghost predicate DistinctGuids(node: ObjectNode)
  {
    && (forall j, k :: 0 <= j < k < |node.children| ==> Guids(node.children[j]) !! Guids(node.children[k]))
    && (forall c :: c in node.children ==> DistinctGuids(c))
  }

  /** Every instance found from the `i`-th child on lies in the subtree of
      one of those children. */
  lemma {:induction false} ChildInstancesWithin(node: ObjectNode, meta: map<Uuid, PrefabMeta>, i: nat)
    requires i <= |node.children|
    ensures forall x :: x in ChildInstances(node, meta, i) ==>
      exists j :: i <= j < |node.children| && x.obj.guid in Guids(node.children[j])
    decreases |node.children| - i
  {
    if i < |node.children| {
      var child := node.children[i];
      assert ChildInstances(node, meta, i) == ChildVisit(node, meta, i) + ChildInstances(node, meta, i + 1);
      if !IsInstance(meta, child.guid) {
        InstancesFound(child, meta);
      }
      assert forall x :: x in ChildVisit(node, meta, i) ==> x.obj.guid in Guids(child);
      ChildInstancesWithin(node, meta, i + 1);
    }
  }

  /** No guid occurs twice in a list of instances. */
  ghost predicate NoRepeatedGuid(xs: seq<Instance>)
  {
    forall a, b :: 0 <= a < b < |xs| ==> xs[a].obj.guid != xs[b].obj.guid
  }

  /** In a tree without repeated guids, the walk updates each object at
      most once. */
  lemma {:induction false} InstancesDistinct(node: ObjectNode, meta: map<Uuid, PrefabMeta>)
    requires DistinctGuids(node)
    ensures NoRepeatedGuid(Instances(node, meta))
    decreases node, |node.children| + 1
  {
    ChildInstancesDistinct(node, meta, 0);
  }

  lemma {:induction false} ChildInstancesDistinct(node: ObjectNode, meta: map<Uuid, PrefabMeta>, i: nat)
    requires DistinctGuids(node) && i <= |node.children|
    ensures NoRepeatedGuid(ChildInstances(node, meta, i))
    decreases node, |node.children| - i
  {
    if i < |node.children| {
      var child := node.children[i];
      var visit, rest := ChildVisit(node, meta, i), ChildInstances(node, meta, i + 1);
      var xs := ChildInstances(node, meta, i);
      assert xs == visit + rest;
      assert child in node.children;
      if !IsInstance(meta, child.guid) {
        InstancesFound(child, meta);
        InstancesDistinct(child, meta);
        assert visit == Instances(child, meta);
      }
      assert NoRepeatedGuid(visit);
      assert forall x :: x in visit ==> x.obj.guid in Guids(child);
      ChildInstancesWithin(node, meta, i + 1);
      ChildInstancesDistinct(node, meta, i + 1);
      forall a, b | 0 <= a < b < |xs| ensures xs[a].obj.guid != xs[b].obj.guid {
        if b < |visit| {
          assert xs[a] == visit[a] && xs[b] == visit[b];
        } else if a >= |visit| {
          assert xs[a] == rest[a - |visit|] && xs[b] == rest[b - |visit|];
        } else {
          assert xs[a] in visit && xs[b] in rest;
          var j :| i + 1 <= j < |node.children| && xs[b].obj.guid in Guids(node.children[j]);
          assert Guids(child) !! Guids(node.children[j]);
        }
      }
    }
  }

  /** The tree with everything below each instance cut away. */
  function Pruned(node: ObjectNode, meta: map<Uuid, PrefabMeta>): (r: ObjectNode)
    ensures r.guid == node.guid && |r.children| == |node.children|
  {
    ObjectNode(node.guid, seq(|node.children|, i requires 0 <= i < |node.children| =>
      var c := node.children[i];
      if IsInstance(meta, c.guid) then ObjectNode(c.guid, []) else Pruned(c, meta)))
  }

  /** The walk never looks below an instance: cutting away everything below
      the instances leaves what it finds unchanged. */
  lemma {:induction false} PrunedInstances(node: ObjectNode, meta: map<Uuid, PrefabMeta>)
    ensures Instances(Pruned(node, meta), meta) == Instances(node, meta)
    decreases node, |node.children| + 1
  {
    PrunedChildInstances(node, meta, 0);
  }

  lemma {:induction false} PrunedChildInstances(node: ObjectNode, meta: map<Uuid, PrefabMeta>, i: nat)
    requires i <= |node.children|
    ensures ChildInstances(Pruned(node, meta), meta, i) == ChildInstances(node, meta, i)
    decreases node, |node.children| - i
  {
    if i < |node.children| {
      var child := node.children[i];
      var p := Pruned(node, meta);
      if !IsInstance(meta, child.guid) {
        assert p.children[i] == Pruned(child, meta);
        PrunedInstances(child, meta);
      } else {
        assert p.children[i] == ObjectNode(child.guid, []);
      }
      assert ChildVisit(p, meta, i) == ChildVisit(node, meta, i);
      PrunedChildInstances(node, meta, i + 1);
    }
  }

  /** The prefab assets of a list of instances. */
  function AssetsOf(xs: seq<Instance>): set<Uuid>
  {
    set x | x in xs :: x.meta.createFromPrefab
  }

  lemma AssetsOfAppend(a: seq<Instance>, b: seq<Instance>)
    ensures AssetsOf(a + b) == AssetsOf(a) + AssetsOf(b)
  {
  }

  /** The commands UpdatePrefabObject adds for one instance: the instance is
      replaced by the merge of its base prefab text, the prefab's current
      text and the instance itself. */
  function UpdateEntry(rootGuid: Uuid, st: Storage, x: Instance): seq<HistoryEntry>
  {
    var asset := x.meta.createFromPrefab;
    var seed := x.meta.prefabSeed;
    ReplaceCommands(rootGuid, x.obj, asset, seed, Merged(x.meta.basePrefab, PrefabText(st, asset), x.obj.guid, seed))
  }

  function UpdateHistory(rootGuid: Uuid, st: Storage, xs: seq<Instance>): seq<HistoryEntry>
  {
    if xs == [] then [] else UpdateEntry(rootGuid, st, xs[0]) + UpdateHistory(rootGuid, st, xs[1..])
  }

  lemma {:induction false} UpdateHistoryAppend(rootGuid: Uuid, st: Storage, a: seq<Instance>, b: seq<Instance>)
    ensures UpdateHistory(rootGuid, st, a + b) == UpdateHistory(rootGuid, st, a) + UpdateHistory(rootGuid, st, b)
  {
    if a != [] {
      assert (a + b)[0] == a[0] && (a + b)[1..] == a[1..] + b;
      UpdateHistoryAppend(rootGuid, st, a[1..], b);
    } else {
      assert a + b == b;
    }
  }

  /** Two commands per instance, in the order the instances were found: the
      remove of the instance, then an instantiate, under the instance's parent,
      of its own prefab asset with its own seed and the merged graph; no
      transaction starts or ends among them. */
  lemma {:induction false} UpdateHistoryShape(rootGuid: Uuid, st: Storage, xs: seq<Instance>)
    ensures var h := UpdateHistory(rootGuid, st, xs);
      && |h| == 2 * |xs|
      && (forall k :: 0 <= k < |xs| ==>
            var m := xs[k].meta;
            && h[2 * k] == AddCommand(RemoveObject(xs[k].obj.guid))
            && h[2 * k + 1] == AddCommand(InstantiateCommand(rootGuid, xs[k].obj, m.createFromPrefab, m.prefabSeed,
                                 Merged(m.basePrefab, PrefabText(st, m.createFromPrefab), xs[k].obj.guid, m.prefabSeed))))
      && (forall e :: e in h ==> e.AddCommand?)
  {
    if xs != [] {
      var h := UpdateHistory(rootGuid, st, xs);
      var t := UpdateHistory(rootGuid, st, xs[1..]);
      UpdateHistoryShape(rootGuid, st, xs[1..]);
      assert h == UpdateEntry(rootGuid, st, xs[0]) + t;
      forall k | 1 <= k < |xs|
        ensures h[2 * k] == t[2 * (k - 1)] && h[2 * k + 1] == t[2 * (k - 1) + 1]
      {
      }
    }
  }

  /** The instantiate command keeps asset and seed, never allows a picked
      position, and has no parent exactly when the object sits directly
      under the root (or had none). */
  lemma InstantiateCommandFields(rootGuid: Uuid, obj: ObjectRef, asset: Uuid, seed: Uuid, graph: GraphText)
    ensures var c := InstantiateCommand(rootGuid, obj, asset, seed, graph);
      && c.InstantiatePrefab? && !c.allowPickedPosition
      && c.createFromPrefab == asset && c.remapGuid == seed && c.jsonGraph == graph
      && (c.parent == NilUuid <==> obj.parent == rootGuid || obj.parent == NilUuid)
      && (c.parent != NilUuid ==> c.parent == obj.parent)
  {
  }

  // ==================================================================
  // Revert and unlink
  // ==================================================================

  /** The commands RevertPrefab adds for one selected object: none when it is
      not linked to a prefab, else the pair that replaces it by the prefab's
      current text with its seed. */
  function RevertEntry(rootGuid: Uuid, st: Storage, meta: map<Uuid, PrefabMeta>, obj: ObjectRef): seq<HistoryEntry>
  {
    var m := MetaOf(meta, obj.guid);
    if IsValid(m.createFromPrefab) then
      ReplaceCommands(rootGuid, obj, m.createFromPrefab, m.prefabSeed, Text(PrefabText(st, m.createFromPrefab)))
    else []
  }

  function RevertHistory(rootGuid: Uuid, st: Storage, meta: map<Uuid, PrefabMeta>, selection: seq<ObjectRef>)
    : seq<HistoryEntry>
  {
    if selection == [] then []
    else RevertEntry(rootGuid, st, meta, selection[0]) + RevertHistory(rootGuid, st, meta, selection[1..])
  }

  /** The selected objects that are linked to a prefab. */
  function LinkedObjects(meta: map<Uuid, PrefabMeta>, selection: seq<ObjectRef>): seq<ObjectRef>
  {
    if selection == [] then []
    else (if IsInstance(meta, selection[0].guid) then [selection[0]] else []) + LinkedObjects(meta, selection[1..])
  }

  /** The prefab assets the selected linked objects come from. */
  function SelectedAssets(meta: map<Uuid, PrefabMeta>, selection: seq<ObjectRef>): set<Uuid>
  {
    set x | x in selection && IsInstance(meta, x.guid) :: MetaOf(meta, x.guid).createFromPrefab
  }

  /** Reverting replaces each linked selected object, in selection order, by
      two commands, the remove and then the instantiate of its own prefab with
      its own seed; unlinked objects add nothing. */
  lemma {:induction false} RevertHistoryShape(rootGuid: Uuid, st: Storage, meta: map<Uuid, PrefabMeta>, selection: seq<ObjectRef>)
    ensures var h := RevertHistory(rootGuid, st, meta, selection);
      var linked := LinkedObjects(meta, selection);
      && |h| == 2 * |linked|
      && (forall k :: 0 <= k < |linked| ==>
            var m := MetaOf(meta, linked[k].guid);
            && IsValid(m.createFromPrefab)
            && h[2 * k] == AddCommand(RemoveObject(linked[k].guid))
            && h[2 * k + 1] == AddCommand(InstantiateCommand(rootGuid, linked[k], m.createFromPrefab, m.prefabSeed,
                                                              Text(PrefabText(st, m.createFromPrefab)))))
      && (forall e :: e in h ==> e.AddCommand?)
  {
    if selection != [] {
      var h := RevertHistory(rootGuid, st, meta, selection);
      var t := RevertHistory(rootGuid, st, meta, selection[1..]);
      var linked := LinkedObjects(meta, selection);
      var rest := LinkedObjects(meta, selection[1..]);
      RevertHistoryShape(rootGuid, st, meta, selection[1..]);
      if IsInstance(meta, selection[0].guid) {
        assert linked == [selection[0]] + rest;
        assert h == RevertEntry(rootGuid, st, meta, selection[0]) + t;
        forall k | 1 <= k < |linked|
          ensures h[2 * k] == t[2 * (k - 1)] && h[2 * k + 1] == t[2 * (k - 1) + 1] && linked[k] == rest[k - 1]
        {
        }
      } else {
        assert linked == rest && h == t;
      }
    }
  }

  lemma {:induction false} RevertHistoryStep(rootGuid: Uuid, st: Storage, meta: map<Uuid, PrefabMeta>,
                                             selection: seq<ObjectRef>, i: nat)
    requires i < |selection|
    ensures RevertHistory(rootGuid, st, meta, selection[i..])
         == RevertEntry(rootGuid, st, meta, selection[i]) + RevertHistory(rootGuid, st, meta, selection[i + 1..])
    ensures SelectedAssets(meta, selection[i..])
         == (if IsInstance(meta, selection[i].guid) then {MetaOf(meta, selection[i].guid).createFromPrefab} else {})
            + SelectedAssets(meta, selection[i + 1..])
  {
    assert selection[i..][1..] == selection[i + 1..];
    assert selection[i..] == [selection[i]] + selection[i + 1..];
  }

  /** The metadata of an unlinked object: no prefab asset, no seed, no base
      prefab text, and everything else as it was. */
  function Unlink(m: PrefabMeta): PrefabMeta
  {
    m.(createFromPrefab := NilUuid, prefabSeed := NilUuid, basePrefab := "")
  }

  /** The metadata store after the selected objects are unlinked in turn. */
  function Unlinked(meta: map<Uuid, PrefabMeta>, selection: seq<Uuid>): map<Uuid, PrefabMeta>
    decreases |selection|
  {
    if selection == [] then meta
    else Unlinked(meta[selection[0] := Unlink(MetaOf(meta, selection[0]))], selection[1..])
  }

  /** Unlinking touches the selected objects' metadata only, and leaves each
      of them without a prefab link and with its other metadata kept. */
  lemma {:induction false} UnlinkedMeta(meta: map<Uuid, PrefabMeta>, selection: seq<Uuid>)
    ensures forall g :: MetaOf(Unlinked(meta, selection), g)
                     == if g in selection then Unlink(MetaOf(meta, g)) else MetaOf(meta, g)
    ensures forall g :: g in selection ==> !IsInstance(Unlinked(meta, selection), g)
    ensures Unlinked(meta, selection).Keys == meta.Keys + set g | g in selection
    decreases |selection|
  {
    if selection != [] {
      var x := selection[0];
      var next := meta[x := Unlink(MetaOf(meta, x))];
      UnlinkedMeta(next, selection[1..]);
      assert forall g :: g in selection <==> g == x || g in selection[1..];
    }
  }

  // ==================================================================
  // The document
  // ==================================================================

  /** One step of a loop that keeps "done + still to do == all". */
  lemma ShiftSeq<T>(done: seq<T>, step: seq<T>, rest: seq<T>, all: seq<T>)
    requires done + (step + rest) == all
    ensures (done + step) + rest == all
  {
  }

  lemma ShiftSet<T>(done: set<T>, step: set<T>, rest: set<T>, all: set<T>)
    requires done + (step + rest) == all
    ensures (done + step) + rest == all
  {
  }

  class Document {
    /** The object manager's root object and the tree below it. */
    const root: ObjectNode
    /** What executing an instantiate command reports as its created root
        object (m_CreatedRootObject). */
    const createdRootOf: Command -> Uuid
    /** CreatePrefabDocument for a file, the object to save and the seed:
        the new document's guid and the text saved to the file, or the error. */
    const createPrefabDocument: (string, Uuid, Uuid) -> Result<(Uuid, string), string>

    var storage: Storage
    var meta: map<Uuid, PrefabMeta>
    var cachedDocuments: map<Uuid, string>
    var cachedGraphs: map<Uuid, Graph>
    var history: seq<HistoryEntry>
    /** The last text passed to ShowDocumentStatus. */
    var documentStatus: string

    constructor(root: ObjectNode, storage: Storage, meta: map<Uuid, PrefabMeta>,
                createdRootOf: Command -> Uuid,
                createPrefabDocument: (string, Uuid, Uuid) -> Result<(Uuid, string), string>)
      ensures this.root == root && this.storage == storage && this.meta == meta
      ensures this.createdRootOf == createdRootOf && this.createPrefabDocument == createPrefabDocument
      ensures cachedDocuments == map[] && cachedGraphs == map[] && history == [] && documentStatus == ""
    {
      this.root := root;
      this.storage := storage;
      this.meta := meta;
      this.createdRootOf := createdRootOf;
      this.createPrefabDocument := createPrefabDocument;
      cachedDocuments := map[];
      cachedGraphs := map[];
      history := [];
      documentStatus := "";
    }

    /** The caches agree with the prefab files: a cached text is the file's
        current text, and a cached graph is the one loaded from the cached,
        non-empty text. */
    predicate CacheCoherent()
      reads this
    {
      && (forall g :: g in cachedDocuments ==> cachedDocuments[g] == PrefabText(storage, g))
      && (forall g :: g in cachedGraphs ==>
            g in cachedDocuments && cachedDocuments[g] != "" && cachedGraphs[g] == LoadedGraph(cachedDocuments[g]))
    }

    /** The prefab text for a guid: read and stored on the first request,
        the stored text on every later one. */
    method GetCachedPrefabDocument(documentGuid: Uuid) returns (text: string)
      modifies this
      ensures text == LookupText(old(cachedDocuments), storage, documentGuid)
      ensures cachedDocuments == old(cachedDocuments)[documentGuid := text]
      ensures documentGuid in old(cachedDocuments) ==> cachedDocuments == old(cachedDocuments)
      ensures old(CacheCoherent()) ==> CacheCoherent() && text == PrefabText(storage, documentGuid)
      ensures storage == old(storage) && meta == old(meta) && cachedGraphs == old(cachedGraphs)
      ensures history == old(history) && documentStatus == old(documentStatus)
    {
      if documentGuid !in cachedDocuments {
        var prefabFile := DocumentPath(storage.documentPaths, documentGuid);
        cachedDocuments := cachedDocuments[documentGuid := ReadDocumentAsString(storage.files, prefabFile)];
      }
      text := cachedDocuments[documentGuid];
    }

    /** The parsed prefab graph for a guid: the stored one if there is one;
        else none when the prefab text is empty, and otherwise a graph loaded
        from the text and stored. */
    method GetCachedPrefabGraph(documentGuid: Uuid) returns (graph: Option<Graph>)
      modifies this
      ensures documentGuid in old(cachedGraphs) ==>
        graph == Some(old(cachedGraphs)[documentGuid]) && cachedDocuments == old(cachedDocuments)
        && cachedGraphs == old(cachedGraphs)
      ensures documentGuid !in old(cachedGraphs) ==>
        var text := LookupText(old(cachedDocuments), storage, documentGuid);
        && cachedDocuments == old(cachedDocuments)[documentGuid := text]
        && (text == "" ==> graph == None && cachedGraphs == old(cachedGraphs))
        && (text != "" ==> graph == Some(LoadedGraph(text))
                           && cachedGraphs == old(cachedGraphs)[documentGuid := LoadedGraph(text)])
      ensures old(CacheCoherent()) ==> CacheCoherent()
      ensures storage == old(storage) && meta == old(meta) && history == old(history)
      ensures documentStatus == old(documentStatus)
    {
      if documentGuid in cachedGraphs {
        return Some(cachedGraphs[documentGuid]);
      }
      var prefabText := GetCachedPrefabDocument(documentGuid);
      if prefabText == "" {
        return None;
      }
      cachedGraphs := cachedGraphs[documentGuid := LoadedGraph(prefabText)];
      return Some(cachedGraphs[documentGuid]);
    }

    /** Replaces one instance by the merge of its base prefab text, the
        prefab's text and its current state. */
    method UpdatePrefabObject(obj: ObjectRef, prefabAsset: Uuid, prefabSeed: Uuid, basePrefab: string)
      modifies this
      ensures var text := LookupText(old(cachedDocuments), storage, prefabAsset);
        && cachedDocuments == old(cachedDocuments)[prefabAsset := text]
        && history == old(history)
             + ReplaceCommands(root.guid, obj, prefabAsset, prefabSeed, Merged(basePrefab, text, obj.guid, prefabSeed))
      ensures old(CacheCoherent()) ==> CacheCoherent()
      ensures storage == old(storage) && meta == old(meta) && cachedGraphs == old(cachedGraphs)
      ensures documentStatus == old(documentStatus)
    {
      var newPrefab := GetCachedPrefabDocument(prefabAsset);
      var newGraph := Merged(basePrefab, newPrefab, obj.guid, prefabSeed);
      var rm := RemoveObject(obj.guid);
      var inst := InstantiatePrefab(false, prefabAsset, InstantiateParent(root.guid, obj.parent), newGraph, prefabSeed);
      history := history + [AddCommand(rm)];
      history := history + [AddCommand(inst)];
    }

    /** Walks the children of `node`, taken before any update: an instance is
        updated and not descended into, any other child is walked in turn. */
    method UpdatePrefabsRecursive(node: ObjectNode)
      requires CacheCoherent()
      modifies this
      ensures CacheCoherent()
      ensures history == old(history) + UpdateHistory(root.guid, storage, Instances(node, meta))
      ensures cachedDocuments.Keys == old(cachedDocuments.Keys) + AssetsOf(Instances(node, meta))
      ensures storage == old(storage) && meta == old(meta) && cachedGraphs == old(cachedGraphs)
      ensures documentStatus == old(documentStatus)
      decreases node, 1
    {
      var childArray := node.children;
      var i := 0;
      while i < |childArray|
        invariant 0 <= i <= |childArray|
        invariant CacheCoherent()
        invariant history + UpdateHistory(root.guid, storage, ChildInstances(node, meta, i))
               == old(history) + UpdateHistory(root.guid, storage, Instances(node, meta))
        invariant cachedDocuments.Keys + AssetsOf(ChildInstances(node, meta, i))
               == old(cachedDocuments.Keys) + AssetsOf(Instances(node, meta))
        invariant storage == old(storage) && meta == old(meta) && cachedGraphs == old(cachedGraphs)
        invariant documentStatus == old(documentStatus)
      {
        ghost var visit := ChildVisit(node, meta, i);
        ghost var rest := ChildInstances(node, meta, i + 1);
        ghost var done, doneKeys := history, cachedDocuments.Keys;
        assert ChildInstances(node, meta, i) == visit + rest;
        UpdateHistoryAppend(root.guid, storage, visit, rest);
        AssetsOfAppend(visit, rest);
        VisitChild(node, i);
        ShiftSeq(done, UpdateHistory(root.guid, storage, visit), UpdateHistory(root.guid, storage, rest),
                 old(history) + UpdateHistory(root.guid, storage, Instances(node, meta)));
        ShiftSet(doneKeys, AssetsOf(visit), AssetsOf(rest), old(cachedDocuments.Keys) + AssetsOf(Instances(node, meta)));
        i := i + 1;
      }
    }

    /** One turn of the walk's loop: the `i`-th child is updated when it is
        an instance and walked otherwise. */
    method VisitChild(node: ObjectNode, i: nat)
      requires i < |node.children| && CacheCoherent()
      modifies this
      ensures CacheCoherent()
      ensures history == old(history) + UpdateHistory(root.guid, storage, ChildVisit(node, meta, i))
      ensures cachedDocuments.Keys == old(cachedDocuments.Keys) + AssetsOf(ChildVisit(node, meta, i))
      ensures storage == old(storage) && meta == old(meta) && cachedGraphs == old(cachedGraphs)
      ensures documentStatus == old(documentStatus)
      decreases node, 0
    {
      var child := node.children[i];
      var m := MetaOf(meta, child.guid);
      if IsValid(m.createFromPrefab) {
        ghost var x := Instance(ObjectRef(child.guid, node.guid), m);
        assert ChildVisit(node, meta, i) == [x];
        assert UpdateHistory(root.guid, storage, [x]) == UpdateEntry(root.guid, storage, x);
        assert AssetsOf([x]) == {m.createFromPrefab};
        UpdatePrefabObject(ObjectRef(child.guid, node.guid), m.createFromPrefab, m.prefabSeed, m.basePrefab);
      } else {
        UpdatePrefabsRecursive(child);
      }
    }

    /** Updates every prefab instance of the document, with both caches
        emptied first so that every instance is merged with its prefab's
        current text, all inside one transaction. */
    method UpdatePrefabs()
      modifies this
      ensures cachedGraphs == map[] && CacheCoherent()
      ensures cachedDocuments.Keys == AssetsOf(Instances(root, meta))
      ensures history == old(history) + [StartTransaction("Update Prefabs")]
                         + UpdateHistory(root.guid, storage, Instances(root, meta)) + [FinishTransaction]
      ensures documentStatus == "Prefabs have been updated"
      ensures storage == old(storage) && meta == old(meta)
    {
      cachedDocuments := map[];
      cachedGraphs := map[];
      history := history + [StartTransaction("Update Prefabs")];
      UpdatePrefabsRecursive(root);
      history := history + [FinishTransaction];
      documentStatus := "Prefabs have been updated";
    }

    /** Replaces a linked object by a fresh instance of its prefab, with its
        own seed; an object without a prefab link is left alone and the nil
        uuid returned. */
    method RevertPrefab(obj: ObjectRef) returns (createdRoot: Uuid)
      modifies this
      ensures var m := MetaOf(meta, obj.guid);
        && (!IsValid(m.createFromPrefab) ==>
              createdRoot == NilUuid && history == old(history) && cachedDocuments == old(cachedDocuments))
        && (IsValid(m.createFromPrefab) ==>
              var text := LookupText(old(cachedDocuments), storage, m.createFromPrefab);
              var graph := Text(text);
              && cachedDocuments == old(cachedDocuments)[m.createFromPrefab := text]
              && history == old(history) + ReplaceCommands(root.guid, obj, m.createFromPrefab, m.prefabSeed, graph)
              && createdRoot == createdRootOf(InstantiateCommand(root.guid, obj, m.createFromPrefab, m.prefabSeed, graph)))
      ensures old(CacheCoherent()) ==>
        && CacheCoherent()
        && history == old(history) + RevertEntry(root.guid, storage, meta, obj)
        && cachedDocuments.Keys == old(cachedDocuments.Keys)
             + (if IsInstance(meta, obj.guid) then {MetaOf(meta, obj.guid).createFromPrefab} else {})
      ensures storage == old(storage) && meta == old(meta) && cachedGraphs == old(cachedGraphs)
      ensures documentStatus == old(documentStatus)
    {
      var m := MetaOf(meta, obj.guid);
      var prefabAsset := m.createFromPrefab;
      if !IsValid(prefabAsset) {
        return NilUuid;
      }
      var remCmd := RemoveObject(obj.guid);
      var text := GetCachedPrefabDocument(m.createFromPrefab);
      var instCmd := InstantiatePrefab(false, prefabAsset, InstantiateParent(root.guid, obj.parent), Text(text), m.prefabSeed);
      history := history + [AddCommand(remCmd)];
      history := history + [AddCommand(instCmd)];
      createdRoot := createdRootOf(instCmd);
    }

    /** Reverts each selected object in turn, inside one transaction and
        with both caches emptied first; an empty selection does nothing. */
    method RevertPrefabs(selection: seq<ObjectRef>)
      modifies this
      ensures selection == [] ==>
        && history == old(history) && cachedDocuments == old(cachedDocuments) && cachedGraphs == old(cachedGraphs)
      ensures selection != [] ==>
        && cachedGraphs == map[] && CacheCoherent()
        && cachedDocuments.Keys == SelectedAssets(meta, selection)
        && history == old(history) + [StartTransaction("Revert Prefab")]
                      + RevertHistory(root.guid, storage, meta, selection) + [FinishTransaction]
      ensures storage == old(storage) && meta == old(meta) && documentStatus == old(documentStatus)
    {
      if selection == [] {
        return;
      }
      cachedDocuments := map[];
      cachedGraphs := map[];
      history := history + [StartTransaction("Revert Prefab")];
      ghost var start := history;
      for i := 0 to |selection|
        invariant CacheCoherent() && cachedGraphs == map[]
        invariant history + RevertHistory(root.guid, storage, meta, selection[i..])
               == start + RevertHistory(root.guid, storage, meta, selection)
        invariant cachedDocuments.Keys + SelectedAssets(meta, selection[i..]) == SelectedAssets(meta, selection)
        invariant storage == old(storage) && meta == old(meta) && documentStatus == old(documentStatus)
      {
        RevertHistoryStep(root.guid, storage, meta, selection, i);
        ghost var done, doneKeys := history, cachedDocuments.Keys;
        ghost var x := selection[i];
        ghost var stepKeys: set<Uuid> := if IsInstance(meta, x.guid) then {MetaOf(meta, x.guid).createFromPrefab} else {};
        var _ := RevertPrefab(selection[i]);
        ShiftSeq(done, RevertEntry(root.guid, storage, meta, x), RevertHistory(root.guid, storage, meta, selection[i + 1..]),
                 start + RevertHistory(root.guid, storage, meta, selection));
        ShiftSet(doneKeys, stepKeys, SelectedAssets(meta, selection[i + 1..]), SelectedAssets(meta, selection));
      }
      history := history + [FinishTransaction];
    }

    /** Removes the prefab link of each selected object, in its metadata
        only: no command is recorded and the caches stay. */
    method UnlinkPrefabs(selection: seq<Uuid>)
      modifies this
      ensures meta == Unlinked(old(meta), selection)
      ensures storage == old(storage) && history == old(history) && cachedDocuments == old(cachedDocuments)
      ensures cachedGraphs == old(cachedGraphs) && documentStatus == old(documentStatus)
    {
      if selection == [] {
        return;
      }
      for i := 0 to |selection|
        invariant Unlinked(meta, selection[i..]) == Unlinked(old(meta), selection)
        invariant storage == old(storage) && history == old(history) && cachedDocuments == old(cachedDocuments)
        invariant cachedGraphs == old(cachedGraphs) && documentStatus == old(documentStatus)
      {
        assert selection[i..][1..] == selection[i + 1..];
        var obj := selection[i];
        var metaDoc := MetaOf(meta, obj);
        metaDoc := metaDoc.(createFromPrefab := NilUuid);
        metaDoc := metaDoc.(prefabSeed := NilUuid);
        metaDoc := metaDoc.(basePrefab := "");
        meta := meta[obj := metaDoc];
      }
      assert selection[|selection|..] == [];
    }

    /** Replaces an object by an instance of the prefab stored in
        `prefabFile`, read from the file itself, inside one transaction. */
    method ReplaceByPrefab(rootObject: ObjectRef, prefabFile: string, prefabAsset: Uuid, prefabSeed: Uuid)
      returns (createdRoot: Uuid)
      modifies this
      ensures var graph := Text(ReadDocumentAsString(storage.files, prefabFile));
        && history == old(history) + [StartTransaction("Replace by Prefab")]
                      + ReplaceCommands(root.guid, rootObject, prefabAsset, prefabSeed, graph) + [FinishTransaction]
        && createdRoot == createdRootOf(InstantiateCommand(root.guid, rootObject, prefabAsset, prefabSeed, graph))
      ensures storage == old(storage) && meta == old(meta) && cachedDocuments == old(cachedDocuments)
      ensures cachedGraphs == old(cachedGraphs) && documentStatus == old(documentStatus)
    {
      history := history + [StartTransaction("Replace by Prefab")];
      var remCmd := RemoveObject(rootObject.guid);
      var instCmd := InstantiatePrefab(false, prefabAsset, InstantiateParent(root.guid, rootObject.parent),
                                       Text(ReadDocumentAsString(storage.files, prefabFile)), prefabSeed);
      history := history + [AddCommand(remCmd)];
      history := history + [AddCommand(instCmd)];
      history := history + [FinishTransaction];
      createdRoot := createdRootOf(instCmd);
    }

    /** Saves the single selected top-level object as a new prefab document
        and replaces it by an instance of that prefab with the new seed.
        `selection` is the top-level selection and `seedGuid` the freshly
        created seed. */
    method CreatePrefabDocumentFromSelection(file: string, selection: seq<ObjectRef>, seedGuid: Uuid)
      returns (status: Status)
      modifies this
      ensures |selection| != 1 ==>
        && status == Failure("To create a prefab, the selection must contain exactly one game object")
        && storage == old(storage) && history == old(history)
      ensures |selection| == 1 ==>
        var res := createPrefabDocument(file, selection[0].guid, seedGuid);
        && (res.Err? ==> status == Failure(res.error) && storage == old(storage) && history == old(history))
        && (res.Ok? ==>
              var (prefabGuid, savedText) := res.value;
              && status == Success
              && storage == old(storage).(files := old(storage).files[file := savedText])
              && history == old(history) + [StartTransaction("Replace by Prefab")]
                            + ReplaceCommands(root.guid, selection[0], prefabGuid, seedGuid, Text(savedText))
                            + [FinishTransaction])
      ensures meta == old(meta) && cachedDocuments == old(cachedDocuments) && cachedGraphs == old(cachedGraphs)
      ensures documentStatus == old(documentStatus)
    {
      if |selection| != 1 {
        return Failure("To create a prefab, the selection must contain exactly one game object");
      }
      var node := selection[0];
      var res := createPrefabDocument(file, node.guid, seedGuid);
      if res.Err? {
        return Failure(res.error);
      }
      var (prefabGuid, savedText) := res.value;
      storage := storage.(files := storage.files[file := savedText]);
      var _ := ReplaceByPrefab(node, file, prefabGuid, seedGuid);
      status := Success;
    }
  }
}
