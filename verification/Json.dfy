/** JSON values and JSON Merge Patch (section 2 of RFC 7396), the patch format of every controller write. */
module Json {

  /** Member names. The Lab's annotation keys and the few structural names are constructors; any other
      name (a ConfigMap key, a label, a spec field, a foreign annotation) is `Key`. */
  datatype Name =
    | RunOwner | RunTargets | RunBaseline | RunExpiry | RunJobId
    | FieldOwner | FieldBaseline | FieldApplied
    | ProbeOwner
    | Metadata | ResourceVersion | Annotations | Labels | Section
    | Endpoints | Path
    | Key(text: string)

  /** `Encoded(v)` is the string that `json.dumps(v)` produces: a string as far as merging goes, and
      `json.loads` gives `v` back. */
  datatype Json =
    | Null
    | Text(text: string)
    | Number(value: int)
    | Encoded(document: Json)
    | Array(items: seq<Json>)
    | Object(members: map<Name, Json>)

  /** `dict.get`: an absent member reads as null. */
  function Get(members: map<Name, Json>, name: Name): Json {
    if name in members then members[name] else Null
  }

  function Members(value: Json): map<Name, Json> {
    if value.Object? then value.members else map[]
  }

  /** MergePatch of section 2 of RFC 7396: null deletes a member, an object merges member by member,
      anything else (arrays included) replaces the target. */
  function MergePatch(target: Json, patch: Json): Json
    decreases patch
  {
    if !patch.Object? then
      patch
    else
      var base := Members(target);
      Object(map name | name in base.Keys + patch.members.Keys
          && (name in patch.members ==> patch.members[name] != Null) ::
                 if name in patch.members then MergePatch(Get(base, name), patch.members[name]) else base[name])
  }

  function MergeMembers(base: map<Name, Json>, patch: map<Name, Json>): map<Name, Json> {
    MergePatch(Object(base), Object(patch)).members
  }

  /** No null is stored as an object member, at any depth that merging can reach. */
  predicate NullFree(value: Json) {
    value.Object? ==> forall name | name in value.members ::
        value.members[name] != Null && NullFree(value.members[name])
  }

  predicate NullFreeMembers(members: map<Name, Json>) {
    forall name | name in members :: members[name] != Null && NullFree(members[name])
  }

  /** Every member of `previous` is also set by `updated`, so that nothing of `previous` shows through after a merge. */
  predicate Covers(updated: Json, previous: Json)
    decreases previous
  {
    updated.Object? && previous.Object? ==>
      forall name | name in previous.members ::
          name in updated.members && Covers(updated.members[name], previous.members[name])
  }

  /** Merging never stores a null. */
  lemma {:induction false} MergeIsNullFree(target: Json, patch: Json)
    requires NullFree(target)
    ensures NullFree(MergePatch(target, patch))
    ensures patch != Null ==> MergePatch(target, patch) != Null
    decreases patch
  {
    if patch.Object? {
      var base := Members(target);
      var merged := MergePatch(target, patch).members;
      forall name | name in merged ensures merged[name] != Null && NullFree(merged[name]) {
        if name in patch.members {
          MergeIsNullFree(Get(base, name), patch.members[name]);
        }
      }
    }
  }

  /** What one member reads as after a merge. */
  lemma MergeGet(base: map<Name, Json>, patch: map<Name, Json>, name: Name)
    ensures Get(MergeMembers(base, patch), name) ==
            if name in patch then
              (if patch[name] == Null then Null else MergePatch(Get(base, name), patch[name]))
            else Get(base, name)
  {
  }

  /** Two null-free objects that read the same everywhere are the same object. */
  lemma SameReads(left: map<Name, Json>, right: map<Name, Json>)
    requires NullFreeMembers(left) && NullFreeMembers(right)
    requires forall name :: Get(left, name) == Get(right, name)
    ensures left == right
  {
    forall name ensures name in left <==> name in right {
      assert Get(left, name) == Get(right, name);
    }
    forall name | name in left ensures left[name] == right[name] {
      assert Get(left, name) == Get(right, name);
    }
  }

  lemma MergeMembersNullFree(base: map<Name, Json>, patch: map<Name, Json>)
    requires NullFreeMembers(base)
    ensures NullFreeMembers(MergeMembers(base, patch))
  {
    MergeIsNullFree(Object(base), Object(patch));
  }

  /** Exactly when a merge installs the patch value itself: no null inside it, and nothing shows through. */
  lemma {:induction false} MergeInstallsExactly(target: Json, patch: Json)
    requires NullFree(target)
    ensures MergePatch(target, patch) == patch <==> NullFree(patch) && Covers(patch, target)
    decreases patch
  {
    MergeIsNullFree(target, patch);
    if patch.Object? && NullFree(patch) {
      var base := Members(target);
      var merged := MergePatch(target, patch).members;
      forall name | name in patch.members
        ensures name in merged
        ensures merged[name] == patch.members[name] <==> Covers(patch.members[name], Get(base, name))
      {
        MergeInstallsExactly(Get(base, name), patch.members[name]);
      }
      assert merged.Keys == base.Keys + patch.members.Keys;
      if Covers(patch, target) {
        assert base.Keys <= patch.members.Keys;
        assert merged == patch.members;
      }
    }
  }
}
