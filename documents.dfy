/**
  Structured documents as the YAML and JSON codecs produce them: the in-memory
  value of a parsed `serverless.yaml`, `package.json` or `serverless.env.yaml`.
  Encoding to and decoding from bytes is not modelled.
 */
module Documents {
  import opened Wrappers

  /** The fields of an object document, by key. */
  type Fields = map<string, Doc>

  datatype Doc =
    | Null
    | Bool(b: bool)
    | Num(n: int)
    | Str(s: string)
    | List(items: seq<Doc>)
    | Obj(fields: Fields)

  /** Follows a chain of property accesses such as `doc.stages.dev.regions`; `None` where a key is missing. */
  function Lookup(d: Doc, keys: seq<string>): (r: Option<Doc>)
    ensures keys == [] ==> r == Some(d)
    ensures r.Some? && keys != [] ==> d.Obj? && keys[0] in d.fields
    decreases |keys|
  {
    if keys == [] then Some(d)
    else if d.Obj? && keys[0] in d.fields then Lookup(d.fields[keys[0]], keys[1..])
    else None
  }

  /** A chain of accesses can be split anywhere: `d.a.b` is `(d.a).b`, and undefined once a prefix is. */
  lemma {:induction false} LookupAppend(d: Doc, front: seq<string>, back: seq<string>)
    ensures Lookup(d, front + back) == if Lookup(d, front).Some? then Lookup(Lookup(d, front).value, back) else None
    decreases |front|
  {
    if front == [] {
      assert front + back == back;
    } else {
      assert (front + back)[0] == front[0];
      assert (front + back)[1..] == front[1..] + back;
      if d.Obj? && front[0] in d.fields {
        LookupAppend(d.fields[front[0]], front[1..], back);
      }
    }
  }

  /**
    `template[key] = value` on an object document: `key` now holds the string `value`,
    every other field of the template is kept as it was and no field is added besides `key`.
   */
  function SetField(template: Fields, key: string, value: string): (r: Fields)
    ensures key in r && r[key] == Str(value)
    ensures r.Keys == template.Keys + {key}
    ensures forall k :: k in template && k != key ==> r[k] == template[k]
  {
    template[key := Str(value)]
  }

  /** Setting a field to the value it already holds changes nothing. */
  lemma SetFieldIdempotent(template: Fields, key: string, value: string)
    ensures SetField(SetField(template, key, value), key, value) == SetField(template, key, value)
  {
  }

  /** The environment document `{stages: {<stage>: {regions: {<region>: {}}}}}`. */
  function EnvDocument(stage: string, region: string): Doc {
    Obj(map["stages" := Obj(map[stage := Obj(map["regions" := Obj(map[region := Obj(map[])])])])])
  }

  /** `stages[stage].regions[region]` of the environment document is an empty object. */
  lemma {:induction false} EnvDocumentBranch(stage: string, region: string)
    ensures Lookup(EnvDocument(stage, region), ["stages", stage, "regions", region]) == Some(Obj(map[]))
  {
    var env := EnvDocument(stage, region);
    var st := env.fields["stages"];
    var sg := st.fields[stage];
    var rg := sg.fields["regions"];
    calc {
      Lookup(env, ["stages", stage, "regions", region]);
      Lookup(st, [stage, "regions", region]);
      Lookup(sg, ["regions", region]);
      Lookup(rg, [region]);
      Lookup(Obj(map[]), []);
    }
  }

  /**
    The environment document holds a single branch: no top-level key but `stages`, no other
    stage, no key but `regions` under the stage, and no other region under that. Keys are taken exactly as given.
   */
  lemma {:induction false} EnvDocumentSingleBranch(stage: string, region: string)
    ensures forall k :: k != "stages" ==> Lookup(EnvDocument(stage, region), [k]) == None
    ensures forall s :: s != stage ==> Lookup(EnvDocument(stage, region), ["stages", s]) == None
    ensures forall k :: k != "regions" ==> Lookup(EnvDocument(stage, region), ["stages", stage, k]) == None
    ensures forall r :: r != region ==> Lookup(EnvDocument(stage, region), ["stages", stage, "regions", r]) == None
  {
    var env := EnvDocument(stage, region);
    var st := env.fields["stages"];
    var sg := st.fields[stage];
    var rg := sg.fields["regions"];
    forall s | s != stage
      ensures Lookup(env, ["stages", s]) == None
    {
      assert Lookup(env, ["stages", s]) == Lookup(st, [s]);
    }
    forall k | k != "regions"
      ensures Lookup(env, ["stages", stage, k]) == None
    {
      calc {
        Lookup(env, ["stages", stage, k]);
        Lookup(st, [stage, k]);
        Lookup(sg, [k]);
      }
    }
    forall r | r != region
      ensures Lookup(env, ["stages", stage, "regions", r]) == None
    {
      calc {
        Lookup(env, ["stages", stage, "regions", r]);
        Lookup(st, [stage, "regions", r]);
        Lookup(sg, ["regions", r]);
        Lookup(rg, [r]);
      }
    }
  }
}
