/** The Kubernetes objects the Lab shares, as documents with optimistic concurrency: every write carries the
    resourceVersion of the read it was computed from. */
module VersionedStore {
  import opened Json

  /** The three controlled objects: ConfigMap lab-scenario-config (section `data`), Service lab-app-metrics
      (section `labels`) and ServiceMonitor fcapsule-lab-mysql (section `spec`). */
  datatype Resource = Config | Service | Monitor

  datatype Doc = Doc(version: nat, ann: map<Name, Json>, fields: map<Name, Json>)

  datatype Docs = Docs(config: Doc, service: Doc, monitor: Doc) {
    function At(r: Resource): Doc {
      match r
      case Config => config
      case Service => service
      case Monitor => monitor
    }

    function With(r: Resource, doc: Doc): Docs {
      match r
      case Config => this.(config := doc)
      case Service => this.(service := doc)
      case Monitor => this.(monitor := doc)
    }
  }

  /** A merge patch: its version precondition and its annotation and section members. */
  datatype Patch = Patch(version: nat, ann: map<Name, Json>, fields: map<Name, Json>)

  /** The server keeps the version when a write changes nothing. */
  function Commit(doc: Doc, ann: map<Name, Json>, fields: map<Name, Json>): Doc {
    if ann == doc.ann && fields == doc.fields then doc else Doc(doc.version + 1, ann, fields)
  }

  function Apply(doc: Doc, patch: Patch): Doc
    requires patch.version == doc.version
  {
    Commit(doc, MergeMembers(doc.ann, patch.ann), MergeMembers(doc.fields, patch.fields))
  }

  /** No value that merging treats as a subtree. */
  predicate Flat(members: map<Name, Json>) {
    forall name | name in members :: !members[name].Object?
  }

  /** What the server stores: no nulls, and annotations that are strings. */
  predicate Stored(doc: Doc) {
    NullFreeMembers(doc.ann) && Flat(doc.ann) && NullFreeMembers(doc.fields)
  }

  /** The fate of one PATCH: it never reached the server, it took effect and was acknowledged, or it took
      effect and only the reply was lost. */
  datatype Fate = Dropped | Acknowledged | ReplyLost

  /** A patch computed from `read`, sent when the server holds `doc`. */
  function Send(doc: Doc, patch: Patch, fate: Fate): (result: (Doc, bool)) {
    if fate == Dropped || patch.version != doc.version then (doc, false)
    else (Apply(doc, patch), fate == Acknowledged)
  }

  // ----- The same objects as whole JSON trees -----

  function Plain(version: nat, ann: map<Name, Json>): map<Name, Json> {
    map[ResourceVersion := Number(version), Annotations := Object(ann)]
  }

  function WithLabels(version: nat, ann: map<Name, Json>, labels: map<Name, Json>): map<Name, Json> {
    map[ResourceVersion := Number(version), Annotations := Object(ann), Labels := Object(labels)]
  }

  /** Labels live inside `metadata`; `data` and `spec` beside it. */
  function Tree(version: nat, ann: map<Name, Json>, fields: map<Name, Json>, r: Resource): Json {
    if r == Service then Object(map[Metadata := Object(WithLabels(version, ann, fields))])
    else Object(map[Metadata := Object(Plain(version, ann)), Section := Object(fields)])
  }

  lemma MergeMemberwise(base: map<Name, Json>, patch: map<Name, Json>, result: map<Name, Json>)
    requires base.Keys == patch.Keys == result.Keys
    requires forall name | name in patch :: patch[name] != Null && MergePatch(base[name], patch[name]) == result[name]
    ensures MergePatch(Object(base), Object(patch)) == Object(result)
  {
    assert MergeMembers(base, patch) == result;
  }

  lemma MergeOne(n: Name, base: Json, patch: Json)
    requires patch != Null
    ensures MergePatch(Object(map[n := base]), Object(map[n := patch])) == Object(map[n := MergePatch(base, patch)])
  {
    assert MergeMembers(map[n := base], map[n := patch]) == map[n := MergePatch(base, patch)];
  }

  lemma MergeTwo(n: Name, base: Json, patch: Json, n': Name, base': Json, patch': Json)
    requires n != n' && patch != Null && patch' != Null
    ensures MergePatch(Object(map[n := base, n' := base']), Object(map[n := patch, n' := patch']))
         == Object(map[n := MergePatch(base, patch), n' := MergePatch(base', patch')])
  {
    var target, change := map[n := base, n' := base'], map[n := patch, n' := patch'];
    var merged := map[n := MergePatch(base, patch), n' := MergePatch(base', patch')];
    assert target.Keys == {n, n'} && change.Keys == {n, n'} && merged.Keys == {n, n'};
    MergeMemberwise(target, change, merged);
  }

  lemma LabelKeys(version: nat, ann: map<Name, Json>, labels: map<Name, Json>)
    ensures WithLabels(version, ann, labels).Keys == {ResourceVersion, Annotations, Labels}
  {
  }

  lemma MergeLabels(version: nat, ann: map<Name, Json>, annPatch: map<Name, Json>, labels: map<Name, Json>,
          labelPatch: map<Name, Json>)
    ensures MergePatch(Object(WithLabels(version, ann, labels)), Object(WithLabels(version, annPatch, labelPatch)))
         == Object(WithLabels(version, MergeMembers(ann, annPatch), MergeMembers(labels, labelPatch)))
  {
    var base, patch := WithLabels(version, ann, labels), WithLabels(version, annPatch, labelPatch);
    var merged := WithLabels(version, MergeMembers(ann, annPatch), MergeMembers(labels, labelPatch));
    LabelKeys(version, ann, labels);
    LabelKeys(version, annPatch, labelPatch);
    LabelKeys(version, MergeMembers(ann, annPatch), MergeMembers(labels, labelPatch));
    forall name | name in patch ensures patch[name] != Null && MergePatch(base[name], patch[name]) == merged[name] {
      assert name == ResourceVersion || name == Annotations || name == Labels;
    }
    MergeMemberwise(base, patch, merged);
  }

  /** Merging a document member by member is RFC 7396 on the whole object as the API server sees it. */
  lemma ApplyIsMergePatch(doc: Doc, patch: Patch, r: Resource)
    requires patch.version == doc.version
    ensures MergePatch(Tree(doc.version, doc.ann, doc.fields, r), Tree(patch.version, patch.ann, patch.fields, r))
         == Tree(doc.version, Apply(doc, patch).ann, Apply(doc, patch).fields, r)
  {
    var number, a, b, f, g := Number(doc.version), Object(doc.ann), Object(patch.ann), Object(doc.fields),
        Object(patch.fields);
    if r == Service {
      MergeLabels(doc.version, doc.ann, patch.ann, doc.fields, patch.fields);
      MergeOne(Metadata, Object(WithLabels(doc.version, doc.ann, doc.fields)),
               Object(WithLabels(doc.version, patch.ann, patch.fields)));
    } else {
      MergeTwo(ResourceVersion, number, number, Annotations, a, b);
      MergeTwo(Metadata, Object(Plain(doc.version, doc.ann)), Object(Plain(doc.version, patch.ann)), Section, f, g);
    }
  }

  /** What holds of an earlier read: versions only grow, and equal versions mean equal documents. */
  ghost predicate ReadOf(read: Doc, current: Doc) {
    read.version <= current.version && (read.version == current.version ==> read == current)
  }
}
