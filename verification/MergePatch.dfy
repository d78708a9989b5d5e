/** JSON documents and the merge patch of section 2 of RFC 7396. */
module MergePatch {

  datatype Json = JNull | JNum(n: int) | JStr(s: string) | JArr(items: seq<Json>) | JObj(fields: map<string, Json>)

  function FieldsOf(j: Json): map<string, Json> {
    if j.JObj? then j.fields else map[]
  }

  function FieldOf(j: Json, name: string): Json {
    if name in FieldsOf(j) then FieldsOf(j)[name] else JNull
  }

  // An absent target member is merged like null: both become an empty object.
  function Merge(target: Json, patch: Json): Json
    decreases patch
  {
    match patch
    case JObj(p) =>
      var t := FieldsOf(target);
      JObj(map name | name in t.Keys + p.Keys && !(name in p && p[name].JNull?) ::
             if name in p then Merge(FieldOf(target, name), p[name]) else t[name])
    case _ => patch
  }

  /** Members outside the patch keep their value; null removes; anything but an object replaces. */
  lemma MergeFrame(target: Json, patch: map<string, Json>, name: string)
    ensures var r := Merge(target, JObj(patch));
            && r.JObj?
            && (name !in patch ==>
                  (name in r.fields <==> name in FieldsOf(target)) && FieldOf(r, name) == FieldOf(target, name))
            && (name in patch && patch[name].JNull? ==> name !in r.fields)
            && (name in patch && !patch[name].JNull? ==>
                  name in r.fields && r.fields[name] == Merge(FieldOf(target, name), patch[name]))
  {
  }

  /** Applying the same patch twice is applying it once. */
  lemma {:induction false} MergeIdempotent(target: Json, patch: Json)
    ensures Merge(Merge(target, patch), patch) == Merge(target, patch)
    decreases patch
  {
    if patch.JObj? {
      var once := Merge(target, patch);
      var twice := Merge(once, patch);
      forall k | k in patch.fields && !patch.fields[k].JNull?
        ensures Merge(FieldOf(once, k), patch.fields[k]) == FieldOf(once, k)
      {
        MergeIdempotent(FieldOf(target, k), patch.fields[k]);
      }
      assert twice.fields.Keys == once.fields.Keys;
      assert forall k :: k in once.fields ==> twice.fields[k] == once.fields[k];
    }
  }
}
