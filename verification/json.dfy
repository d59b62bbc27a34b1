/** The JSON-compatible structures the service stores, caches and answers
    with: the Python values that `json.dumps` accepts and `json.loads`
    produces, without floating point. */
module Json {
  import opened Outcomes

  /** `Null` is Python's `None`. `Obj` keeps its members in insertion order,
      as a Python dict does; its keys are distinct in every value the
      service builds. */
  datatype Json =
    | Null
    | Bool(b: bool)
    | Num(n: int)
    | Str(s: string)
    | Arr(items: seq<Json>)
    | Obj(fields: seq<(string, Json)>)

  /** Python truthiness: `None`, `False`, `0`, `""`, `[]` and `{}` are falsy,
      everything else is truthy. */
  predicate Truthy(v: Json) {
    match v
    case Null => false
    case Bool(b) => b
    case Num(n) => n != 0
    case Str(s) => |s| > 0
    case Arr(items) => |items| > 0
    case Obj(fields) => |fields| > 0
  }

  /** The falsy values, listed one by one: exactly `None`, `False`, `0`,
      `""`, `[]` and `{}`. */
  lemma FalsyValues(v: Json)
    ensures !Truthy(v) <==> v == Null || v == Bool(false) || v == Num(0) || v == Str("")
                            || v == Arr([]) || v == Obj([])
  {
  }

  /** The first member of `fields` called `name`, if there is one. */
  function Member(fields: seq<(string, Json)>, name: string): Option<Json>
    decreases |fields|
  {
    if |fields| == 0 then None
    else if fields[0].0 == name then Some(fields[0].1)
    else Member(fields[1..], name)
  }

  /** The keys of `fields` are pairwise distinct, as in every Python dict. */
  predicate DistinctKeys(fields: seq<(string, Json)>) {
    forall i, j :: 0 <= i < j < |fields| ==> fields[i].0 != fields[j].0
  }

  /** In a dict, looking a member's key up finds that member. */
  lemma {:induction false} MemberAt(fields: seq<(string, Json)>, i: int)
    requires DistinctKeys(fields)
    requires 0 <= i < |fields|
    ensures Member(fields, fields[i].0) == Some(fields[i].1)
    decreases i
  {
    if i > 0 {
      assert fields[0].0 != fields[i].0;
      assert fields[1..][i - 1] == fields[i];
      MemberAt(fields[1..], i - 1);
    }
  }

  /** `v[name]` for a dict `v`; `None` when `v` is no dict or lacks the key. */
  function Field(v: Json, name: string): Option<Json> {
    if v.Obj? then Member(v.fields, name) else None
  }

  /** Every member of a dict is found under its own key. */
  lemma FieldsOf(v: Json)
    requires v.Obj? && DistinctKeys(v.fields)
    ensures forall i :: 0 <= i < |v.fields| ==> Field(v, v.fields[i].0) == Some(v.fields[i].1)
  {
    forall i | 0 <= i < |v.fields|
      ensures Field(v, v.fields[i].0) == Some(v.fields[i].1)
    {
      MemberAt(v.fields, i);
    }
  }
}
