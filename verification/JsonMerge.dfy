/** Merging a patch into a JSON value, against the MergePatch function of section 2 of RFC 7396. */
module JsonMerge {
  import opened Operations

  datatype Json =
    | Null
    | Boolean(b: bool)
    | Number(n: real)
    | Text(s: string)
    | Array(items: seq<Json>)
    | Object(fields: map<string, Json>)

  function FieldsOf(j: Json): map<string, Json> {
    if j.Object? then j.fields else map[]
  }

  /** A missing member counts as null, which no patch tells from an absent one. */
  function Member(fields: map<string, Json>, key: string): Json {
    if key in fields then fields[key] else Null
  }

  /** MergePatch, member by member: null removes, anything else is merged into what is there. */
  function MergePatch(target: Json, patch: Json): Json
    decreases patch
  {
    if !patch.Object? then patch
    else
      var fields := FieldsOf(target);
      Object(map key | key in fields.Keys + patch.fields.Keys && !(key in patch.fields && patch.fields[key].Null?) ::
        if key in patch.fields then MergePatch(Member(fields, key), patch.fields[key]) else fields[key])
  }

  /** The members of `keys` merged, the others as they were. */
  ghost predicate MergedOn(fields: map<string, Json>, start: map<string, Json>, patch: map<string, Json>,
      keys: set<string>)
  {
    && (forall key | key in keys :: key in patch)
    && (forall key :: key in fields <==> if key in keys then !patch[key].Null? else key in start)
    && (forall key | key in fields && key in keys :: fields[key] == MergePatch(Member(start, key), patch[key]))
    && (forall key | key in fields && key !in keys :: fields[key] == start[key])
  }

  /** Merge member by member, in the patch's order. */
  method Merge(target: Json, patch: Json) returns (merged: Json)
    ensures merged == MergePatch(target, patch)
    ensures !patch.Object? ==> merged == patch
    decreases patch
  {
    if !patch.Object? {
      return patch;
    }
    var fields := FieldsOf(target);
    ghost var start := fields;
    var rest := patch.fields.Keys;
    while rest != {}
      invariant rest <= patch.fields.Keys
      invariant MergedOn(fields, start, patch.fields, patch.fields.Keys - rest)
    {
      var key :| key in rest;
      var value := patch.fields[key];
      if value.Null? {
        fields := fields - {key};
      } else {
        assert value < patch;
        var member := Merge(Member(fields, key), value);
        fields := fields[key := member];
      }
      rest := rest - {key};
    }
    merged := Object(fields);
    assert patch.fields.Keys - {} == patch.fields.Keys;
    MergedIsPatched(target, patch, fields);
  }

  lemma MergedIsPatched(target: Json, patch: Json, fields: map<string, Json>)
    requires patch.Object? && MergedOn(fields, FieldsOf(target), patch.fields, patch.fields.Keys)
    ensures Object(fields) == MergePatch(target, patch)
  {
    assert fields == MergePatch(target, patch).fields;
  }

  /** Merging the same patch again changes nothing. */
  lemma {:induction false} MergeIsIdempotent(target: Json, patch: Json)
    ensures MergePatch(MergePatch(target, patch), patch) == MergePatch(target, patch)
    decreases patch
  {
    if patch.Object? {
      var once := MergePatch(target, patch);
      var twice := MergePatch(once, patch);
      forall key | key in once.fields && key in patch.fields ensures twice.fields[key] == once.fields[key] {
        MergeIsIdempotent(Member(FieldsOf(target), key), patch.fields[key]);
      }
      assert twice.fields == once.fields;
    }
  }

  /** What stands at a path of member names, if anything does. */
  function At(j: Json, path: seq<string>): Option<Json>
    decreases |path|
  {
    if path == [] then Some(j)
    else if path[0] in FieldsOf(j) then At(FieldsOf(j)[path[0]], path[1..])
    else None
  }

  lemma NullHasNothing(path: seq<string>)
    requires path != []
    ensures At(Null, path) == None
  {
  }

  /** The patch goes along with the path for a while and then does not name its next member. */
  predicate LeavesAlone(patch: Json, path: seq<string>)
    decreases |path|
  {
    patch.Object? && path != [] && (path[0] in patch.fields ==> LeavesAlone(patch.fields[path[0]], path[1..]))
  }

  /** Members the patch does not name keep their values, nulls too, and absent ones stay absent, at every depth. */
  lemma {:induction false} UnnamedMembersStay(target: Json, patch: Json, path: seq<string>)
    requires LeavesAlone(patch, path)
    ensures At(MergePatch(target, patch), path) == At(target, path)
    decreases |path|
  {
    var key := path[0];
    if key in patch.fields {
      UnnamedMembersStay(Member(FieldsOf(target), key), patch.fields[key], path[1..]);
      if key !in FieldsOf(target) {
        NullHasNothing(path[1..]);
      }
    }
  }

  /** Where the patch holds a value that is no object, the result holds that value; where it holds null, the member is
   * gone; where it holds an object, so does the result. */
  lemma {:induction false} NamedMembersAreSet(target: Json, patch: Json, path: seq<string>, value: Json)
    requires At(patch, path) == Some(value)
    ensures var merged := At(MergePatch(target, patch), path);
      && (!value.Object? && !value.Null? ==> merged == Some(value))
      && (value.Null? && path != [] ==> merged == None)
      && (value.Object? ==> merged.Some? && merged.value.Object?)
    decreases |path|
  {
    if path != [] {
      var key := path[0];
      if patch.fields[key].Null? {
        if path[1..] != [] {
          NullHasNothing(path[1..]);
        }
      } else {
        NamedMembersAreSet(Member(FieldsOf(target), key), patch.fields[key], path[1..], value);
      }
    }
  }

  predicate HasNoNulls(j: Json)
    decreases j
  {
    j.Object? ==> forall key | key in j.fields :: !j.fields[key].Null? && HasNoNulls(j.fields[key])
  }

  /** Merging never leaves a null behind that was not there: nulls only remove. */
  lemma {:induction false} MergeLeavesNoNulls(target: Json, patch: Json)
    requires HasNoNulls(target)
    ensures HasNoNulls(MergePatch(target, patch))
    decreases patch
  {
    if patch.Object? {
      var merged := MergePatch(target, patch);
      forall key | key in merged.fields ensures !merged.fields[key].Null? && HasNoNulls(merged.fields[key]) {
        if key in patch.fields {
          MergeLeavesNoNulls(Member(FieldsOf(target), key), patch.fields[key]);
        }
      }
    }
  }
}
