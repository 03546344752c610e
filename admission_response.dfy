/**
 * Namespace filtering and JSON-patch synthesis (admission_response.go).
 * A patch is a list of RFC 6902 operations; only `add` (section 4.1) and
 * `replace` (section 4.3) are produced.
 */
module AdmissionResponse {
  import opened Wrappers
  import Meta

  /** The recommended application labels. */
  const LabelName: string := "app.kubernetes.io/name"
  const LabelInstance: string := "app.kubernetes.io/instance"
  const LabelVersion: string := "app.kubernetes.io/version"
  const LabelComponent: string := "app.kubernetes.io/component"
  const LabelPartOf: string := "app.kubernetes.io/part-of"
  const LabelManagedBy: string := "app.kubernetes.io/managed-by"

  /** Namespaces used when the caller passes a nil list. */
  const IgnoredNamespaces: seq<string> := [Meta.NamespaceSystem, Meta.NamespacePublic]

  const AnnotationsPath: string := "/metadata/annotations"
  const LabelsPath: string := "/metadata/labels"

  /**
   * Whether the object's namespace is in `namespaces`, or in
   * `IgnoredNamespaces` when `namespaces` is nil.
   */
  method IsObjectInNamespaces(meta: Meta.ObjectMeta, namespaces: Option<seq<string>>) returns (b: bool)
    ensures namespaces.Some? ==> (b <==> meta.namespace in namespaces.value)
    ensures namespaces.None? ==> (b <==> meta.namespace == "kube-system" || meta.namespace == "kube-public")
  {
    var list := if namespaces.None? then IgnoredNamespaces else namespaces.value;
    for i := 0 to |list|
      invariant forall j :: 0 <= j < i ==> list[j] != meta.namespace
    {
      if meta.namespace == list[i] {
        return true;
      }
    }
    if namespaces.None? {
      assert list[0] != meta.namespace && list[1] != meta.namespace;
    }
    return false;
  }

  /** The `value` of an operation: a whole string map, or one string. */
  datatype PatchValue = Entries(entries: map<string, string>) | Text(text: string)

  /** One JSON-patch operation. */
  datatype PatchOperation = PatchOperation(op: string, path: string, value: PatchValue)

  /** A map with the single entry `key: value`. */
  function KeyValue(key: string, value: string): (m: map<string, string>)
    ensures m.Keys == {key} && m[key] == value
  {
    map[key := value]
  }

  /** An `add` operation at `path`. */
  function NewAddPatch(path: string, value: PatchValue): (p: PatchOperation)
    ensures p.op == "add" && p.path == path && p.value == value
  {
    PatchOperation("add", path, value)
  }

  /** A `replace` operation at `path`. */
  function NewReplacePatch(path: string, value: PatchValue): (p: PatchOperation)
    ensures p.op == "replace" && p.path == path && p.value == value
  {
    PatchOperation("replace", path, value)
  }

  /**
   * A key needs an `add` when there is no current map, or the key is
   * missing from it (Go's map read yields "") or holds "".
   */
  predicate NeedsAdd(current: Option<map<string, string>>, key: string)
  {
    current.None? || key !in current.value || current.value[key] == ""
  }

  /**
   * The operation that answers key `key` of `added`: the `add` of
   * `{key: value}` at `path`, or the `replace` of `path + key` by the new value.
   */
  ghost function UpsertOp(current: Option<map<string, string>>, added: map<string, string>,
                          path: string, key: string): PatchOperation
    requires key in added
  {
    if NeedsAdd(current, key)
    then PatchOperation("add", path, Entries(map[key := added[key]]))
    else PatchOperation("replace", path + key, Text(added[key]))
  }

  /**
   * `patches` answers `added` key by key, in the iteration order `order`,
   * which lists every key of `added` exactly once.
   */
  ghost predicate IsUpsertPatch(current: Option<map<string, string>>, added: map<string, string>,
                                path: string, patches: seq<PatchOperation>, order: seq<string>)
  {
    && |patches| == |order| == |added|
    && (forall k :: k in added <==> k in order)
    && (forall i, j :: 0 <= i < j < |order| ==> order[i] != order[j])
    && (forall i :: 0 <= i < |patches| ==> patches[i] == UpsertOp(current, added, path, order[i]))
  }

  /** Each key's operation occurs in an upsert patch, which has one operation per key. */
  lemma UpsertCoversEveryKey(current: Option<map<string, string>>, added: map<string, string>,
                             path: string, patches: seq<PatchOperation>, order: seq<string>)
    requires IsUpsertPatch(current, added, path, patches, order)
    ensures |patches| == |added|
    ensures forall k :: k in added ==> UpsertOp(current, added, path, k) in patches
  {
    forall k | k in added ensures UpsertOp(current, added, path, k) in patches {
      var i :| 0 <= i < |order| && order[i] == k;
      assert patches[i] == UpsertOp(current, added, path, k);
    }
  }

  /**
   * `updateItems`: one operation per key of `added`, visited in an
   * unspecified order (Go map iteration); the order chosen is returned as
   * a ghost witness.
   */
  method UpdateItems(current: Option<map<string, string>>, added: map<string, string>, path: string)
    returns (patches: seq<PatchOperation>, ghost order: seq<string>)
    ensures IsUpsertPatch(current, added, path, patches, order)
    ensures |patches| == |added|
    ensures forall k :: k in added ==> UpsertOp(current, added, path, k) in patches
  {
    patches, order := [], [];
    var remaining := added.Keys;
    while remaining != {}
      invariant remaining <= added.Keys
      invariant |patches| == |order| && |order| + |remaining| == |added|
      invariant forall k :: k in added ==> (k in order <==> k !in remaining)
      invariant forall k :: k in order ==> k in added
      invariant forall i, j :: 0 <= i < j < |order| ==> order[i] != order[j]
      invariant forall i :: 0 <= i < |patches| ==> patches[i] == UpsertOp(current, added, path, order[i])
      decreases remaining
    {
      var key :| key in remaining;
      var value := added[key];
      var currentValue := if current.Some? && key in current.value then current.value[key] else "";
      if current.None? || currentValue == "" {
        patches := patches + [NewAddPatch(path, Entries(KeyValue(key, value)))];
      } else {
        patches := patches + [NewReplacePatch(path + key, Text(value))];
      }
      order := order + [key];
      remaining := remaining - {key};
    }
    UpsertCoversEveryKey(current, added, path, patches, order);
  }

  /** `UpdateAnnotations`: `updateItems` under `/metadata/annotations`. */
  method UpdateAnnotations(current: Option<map<string, string>>, added: map<string, string>)
    returns (patches: seq<PatchOperation>, ghost order: seq<string>)
    ensures IsUpsertPatch(current, added, "/metadata/annotations", patches, order)
  {
    patches, order := UpdateItems(current, added, AnnotationsPath);
  }

  /** `UpdateLabels`: `updateItems` under `/metadata/labels`. */
  method UpdateLabels(current: Option<map<string, string>>, added: map<string, string>)
    returns (patches: seq<PatchOperation>, ghost order: seq<string>)
    ensures IsUpsertPatch(current, added, "/metadata/labels", patches, order)
  {
    patches, order := UpdateItems(current, added, LabelsPath);
  }

  /** Every operation of an upsert patch is an `add` or a `replace`. */
  lemma UpsertOpsAreAddOrReplace(current: Option<map<string, string>>, added: map<string, string>,
                                 path: string, patches: seq<PatchOperation>, order: seq<string>)
    requires IsUpsertPatch(current, added, path, patches, order)
    ensures forall i :: 0 <= i < |patches| ==> patches[i].op == "add" || patches[i].op == "replace"
  {
  }

  /**
   * Each key of `added` is addressed by exactly one operation, which is an
   * `add` iff the key needs one.
   */
  lemma UpsertOneOpPerKey(current: Option<map<string, string>>, added: map<string, string>,
                          path: string, patches: seq<PatchOperation>, order: seq<string>, key: string)
    requires IsUpsertPatch(current, added, path, patches, order)
    requires key in added
    ensures exists i :: (0 <= i < |patches| && order[i] == key &&
      (patches[i].op == "add" <==> NeedsAdd(current, key)) &&
      forall j :: 0 <= j < |patches| && j != i ==> order[j] != key)
  {
    var i :| 0 <= i < |order| && order[i] == key;
    assert forall j :: 0 <= j < |patches| && j != i ==> order[j] != key by {
      forall j | 0 <= j < |patches| && j != i ensures order[j] != key {
        if j < i { assert order[j] != order[i]; } else { assert order[i] != order[j]; }
      }
    }
  }

  /** Two keys never produce the same `replace` path: `path + key` determines `key`. */
  lemma ReplacePathsDistinct(path: string, k1: string, k2: string)
    requires path + k1 == path + k2
    ensures k1 == k2
  {
    assert k1 == (path + k1)[|path|..];
    assert k2 == (path + k2)[|path|..];
  }

  /** The operations of an upsert patch are pairwise different. */
  lemma UpsertOpsDistinct(current: Option<map<string, string>>, added: map<string, string>,
                          path: string, patches: seq<PatchOperation>, order: seq<string>)
    requires IsUpsertPatch(current, added, path, patches, order)
    ensures forall i, j :: 0 <= i < j < |patches| ==> patches[i] != patches[j]
  {
    forall i, j | 0 <= i < j < |patches| ensures patches[i] != patches[j] {
      var ki, kj := order[i], order[j];
      if NeedsAdd(current, ki) && NeedsAdd(current, kj) {
        assert ki in patches[i].value.entries && ki !in patches[j].value.entries;
      } else if !NeedsAdd(current, ki) && !NeedsAdd(current, kj) {
        if patches[i] == patches[j] {
          ReplacePathsDistinct(path, ki, kj);
        }
      }
    }
  }

  /** Without a current map, a single label becomes one `add` of `{key: value}` at the prefix. */
  lemma AddWhenNoCurrentMap(key: string, value: string, patches: seq<PatchOperation>, order: seq<string>)
    requires IsUpsertPatch(None, map[key := value], LabelsPath, patches, order)
    ensures patches == [PatchOperation("add", "/metadata/labels", Entries(map[key := value]))]
  {
    assert key in order;
    assert order == [key];
  }

  /**
   * With a non-empty current value, a label becomes one `replace` whose
   * path is the plain concatenation, e.g. "/metadata/labelsteam".
   */
  lemma ReplaceWhenValuePresent(patches: seq<PatchOperation>, order: seq<string>)
    requires IsUpsertPatch(Some(map["team" := "y"]), map["team" := "x"], LabelsPath, patches, order)
    ensures patches == [PatchOperation("replace", "/metadata/labelsteam", Text("x"))]
  {
    assert "team" in order;
    assert order == ["team"];
    assert LabelsPath + "team" == "/metadata/labelsteam";
  }
}
