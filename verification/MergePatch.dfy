/** JSON documents and the MergePatch algorithm of section 2 of RFC 7396. */
module MergePatch {
  import opened Base

  datatype Json =
    | Null
    | Bool(b: bool)
    | Num(n: int)
    | Str(s: string)
    | Arr(items: seq<Json>)
    | Object(fields: map<string, Json>)

  function Fields(j: Json): map<string, Json> {
    if j.Object? then j.fields else map[]
  }

  // A member that is absent from the target is merged as Null, which Merge
  // treats like every other target that is not an object.
  function Merge(target: Json, patch: Json): Json
    decreases patch
  {
    if !patch.Object? then patch
    else
      var was := Fields(target);
      Object(map k | k in was.Keys + patch.fields.Keys && !(k in patch.fields && patch.fields[k].Null?) ::
               if k in patch.fields then Merge(if k in was then was[k] else Null, patch.fields[k]) else was[k])
  }

  function Member(j: Json, k: string): Option<Json> {
    if k in Fields(j) then Some(Fields(j)[k]) else None
  }

  // A patch that is no object replaces the document. Otherwise, member by member: what the
  // patch does not name is kept, null removes, any other value that is no object replaces,
  // and an object is merged into what is there, or into nothing.
  lemma MergeMember(target: Json, patch: Json, k: string)
    ensures !patch.Object? ==> Merge(target, patch) == patch
    ensures patch.Object? ==>
              var was, change, now := Member(target, k), Member(patch, k), Member(Merge(target, patch), k);
              && (change == None ==> now == was)
              && (change == Some(Null) ==> now == None)
              && (change.Some? && !change.value.Null? && !change.value.Object? ==> now == change)
              && (change.Some? && change.value.Object? ==>
                    now == Some(Merge(if was.Some? then was.value else Object(map[]), change.value)))
  {
  }

  // Applying any patch a second time changes nothing.
  lemma {:induction false} MergeTwice(target: Json, patch: Json)
    ensures Merge(Merge(target, patch), patch) == Merge(target, patch)
    decreases patch
  {
    if patch.Object? {
      var once := Merge(target, patch);
      var twice := Merge(once, patch);
      var was := Fields(target);
      forall k | k in once.fields
        ensures k in twice.fields && twice.fields[k] == once.fields[k]
      {
        if k in patch.fields {
          MergeTwice(if k in was then was[k] else Null, patch.fields[k]);
        }
      }
      assert twice.fields.Keys == once.fields.Keys;
      assert twice.fields == once.fields;
    }
  }
}
