/**
 * The control messages of the WebSocket protocol (server.rs, `Command`): a
 * JSON object whose string field `type` names the variant (`resize`, `env`
 * or `init`) and whose other fields carry its data. Optional fields are
 * omitted when encoding and read as absent when missing or `null`; fields a
 * variant does not know are ignored.
 */
module Protocol {
  import opened Common
  import opened Wrappers

  /** A JSON value after parsing; numbers are kept apart as integers and non-integers. */
  datatype Json =
    | JNull
    | JBool(b: bool)
    | JInt(i: int)
    | JFloat(f: real)
    | JString(s: string)
    | JArray(items: seq<Json>)
    | JObject(fields: map<string, Json>)

  datatype Command =
    | Resize(cols: U16, rows: U16)
    | Env(cwd: Option<string>, env: Option<map<string, string>>)
    | Init(shellType: Option<string>, shellArgs: Option<seq<string>>, cwd: Option<string>, env: Option<map<string, string>>)

  /** The value of the `type` field for each variant. */
  function Tag(c: Command): string {
    match c
    case Resize(_, _) => "resize"
    case Env(_, _) => "env"
    case Init(_, _, _, _) => "init"
  }

  /** The fields other than `type` that the variant named `tag` reads. */
  function FieldsOf(tag: string): set<string> {
    if tag == "resize" then {"cols", "rows"}
    else if tag == "env" then {"cwd", "env"}
    else if tag == "init" then {"shell_type", "shell_args", "cwd", "env"}
    else {}
  }

  // Field decoders: the outer Option is failure (None) or success; the inner
  // one, for an optional field, is the field's own value.

  /** A required `u16` field: a JSON integer in 0..65535. */
  function U16Field(fields: map<string, Json>, key: string): Option<U16> {
    if key in fields && fields[key].JInt? && 0 <= fields[key].i < 0x1_0000 then Some(fields[key].i) else None
  }

  /** Whether an optional field is to be read as absent. */
  predicate Absent(fields: map<string, Json>, key: string) {
    key !in fields || fields[key].JNull?
  }

  function OptStringField(fields: map<string, Json>, key: string): Option<Option<string>> {
    if Absent(fields, key) then Some(None)
    else if fields[key].JString? then Some(Some(fields[key].s))
    else None
  }

  predicate AllStrings(items: seq<Json>) {
    forall i :: 0 <= i < |items| ==> items[i].JString?
  }

  function Strings(items: seq<Json>): seq<string>
    requires AllStrings(items)
  {
    seq(|items|, i requires 0 <= i < |items| => items[i].s)
  }

  function OptStringsField(fields: map<string, Json>, key: string): Option<Option<seq<string>>> {
    if Absent(fields, key) then Some(None)
    else if fields[key].JArray? && AllStrings(fields[key].items) then Some(Some(Strings(fields[key].items)))
    else None
  }

  predicate AllStringValues(m: map<string, Json>) {
    forall k :: k in m ==> m[k].JString?
  }

  function StringMap(m: map<string, Json>): map<string, string>
    requires AllStringValues(m)
  {
    map k | k in m :: m[k].s
  }

  function OptMapField(fields: map<string, Json>, key: string): Option<Option<map<string, string>>> {
    if Absent(fields, key) then Some(None)
    else if fields[key].JObject? && AllStringValues(fields[key].fields) then Some(Some(StringMap(fields[key].fields)))
    else None
  }

  /**
   * `serde_json::from_str::<Command>` after the text has been parsed: the
   * value must be an object with a string `type` naming a variant, and each
   * field that variant reads must have the right shape.
   */
  function Decode(j: Json): (r: Option<Command>)
    ensures r.Some? ==> j.JObject? && "type" in j.fields && j.fields["type"] == JString(Tag(r.value))
    ensures r.Some? && r.value.Resize? ==>
      "cols" in j.fields && "rows" in j.fields && j.fields["cols"] == JInt(r.value.cols) && j.fields["rows"] == JInt(r.value.rows)
  {
    if !j.JObject? || "type" !in j.fields || !j.fields["type"].JString? then None
    else
      var f := j.fields;
      var tag := f["type"].s;
      if tag == "resize" then
        var cols := U16Field(f, "cols");
        var rows := U16Field(f, "rows");
        if cols.Some? && rows.Some? then Some(Resize(cols.value, rows.value)) else None
      else if tag == "env" then
        var cwd := OptStringField(f, "cwd");
        var env := OptMapField(f, "env");
        if cwd.Some? && env.Some? then Some(Env(cwd.value, env.value)) else None
      else if tag == "init" then
        var shellType := OptStringField(f, "shell_type");
        var shellArgs := OptStringsField(f, "shell_args");
        var cwd := OptStringField(f, "cwd");
        var env := OptMapField(f, "env");
        if shellType.Some? && shellArgs.Some? && cwd.Some? && env.Some? then
          Some(Init(shellType.value, shellArgs.value, cwd.value, env.value))
        else None
      else None
  }

  // Encoding (`Serialize`), with `skip_serializing_if = "Option::is_none"`.

  function StringJson(o: Option<string>): Option<Json> {
    if o.Some? then Some(JString(o.value)) else None
  }

  function StringsJson(o: Option<seq<string>>): Option<Json> {
    if o.Some? then Some(JArray(seq(|o.value|, i requires 0 <= i < |o.value| => JString(o.value[i])))) else None
  }

  function MapJson(o: Option<map<string, string>>): Option<Json> {
    if o.Some? then Some(JObject(map k | k in o.value :: JString(o.value[k]))) else None
  }

  /** Add `key` to an object only when there is a value for it. */
  function Put(fields: map<string, Json>, key: string, v: Option<Json>): map<string, Json> {
    if v.Some? then fields[key := v.value] else fields
  }

  /** The fields other than `type` that the encoding of `c` carries. */
  function Present(c: Command): set<string> {
    match c
    case Resize(_, _) => {"cols", "rows"}
    case Env(cwd, env) =>
      (if cwd.Some? then {"cwd"} else {}) + (if env.Some? then {"env"} else {})
    case Init(st, sa, cwd, env) =>
      (if st.Some? then {"shell_type"} else {}) + (if sa.Some? then {"shell_args"} else {}) +
      (if cwd.Some? then {"cwd"} else {}) + (if env.Some? then {"env"} else {})
  }

  /**
   * The JSON object a command serializes to: its tag, and exactly the fields
   * the variant has, with no key at all for an absent optional field.
   */
  function Encode(c: Command): (j: Json)
    ensures j.JObject? && j.fields.Keys == {"type"} + Present(c)
    ensures j.fields["type"] == JString(Tag(c))
    ensures Present(c) <= FieldsOf(Tag(c))
  {
    var base := map["type" := JString(Tag(c))];
    match c
    case Resize(cols, rows) => JObject(base["cols" := JInt(cols)]["rows" := JInt(rows)])
    case Env(cwd, env) => JObject(Put(Put(base, "cwd", StringJson(cwd)), "env", MapJson(env)))
    case Init(st, sa, cwd, env) =>
      JObject(Put(Put(Put(Put(base, "shell_type", StringJson(st)), "shell_args", StringsJson(sa)),
                  "cwd", StringJson(cwd)), "env", MapJson(env)))
  }

  lemma StringsRoundTrip(o: Option<seq<string>>)
    requires o.Some?
    ensures StringsJson(o).value.JArray? && AllStrings(StringsJson(o).value.items)
    ensures Strings(StringsJson(o).value.items) == o.value
  {
  }

  lemma MapRoundTrip(o: Option<map<string, string>>)
    requires o.Some?
    ensures StringMap(MapJson(o).value.fields) == o.value
  {
  }

  /** Every command survives encoding and decoding unchanged. */
  lemma DecodeEncode(c: Command)
    ensures Decode(Encode(c)) == Some(c)
  {
    match c
    case Resize(_, _) =>
    case Env(cwd, env) => DecodeEncodeEnv(cwd, env);
    case Init(st, sa, cwd, env) => DecodeEncodeInit(st, sa, cwd, env);
  }

  lemma DecodeEncodeEnv(cwd: Option<string>, env: Option<map<string, string>>)
    ensures Decode(Encode(Env(cwd, env))) == Some(Env(cwd, env))
  {
    var f := Encode(Env(cwd, env)).fields;
    assert OptStringField(f, "cwd") == Some(cwd);
    if env.Some? {
      MapRoundTrip(env);
      assert f["env"] == MapJson(env).value;
    }
    assert OptMapField(f, "env") == Some(env);
  }

  lemma DecodeEncodeInit(st: Option<string>, sa: Option<seq<string>>, cwd: Option<string>, env: Option<map<string, string>>)
    ensures Decode(Encode(Init(st, sa, cwd, env))) == Some(Init(st, sa, cwd, env))
  {
    var f := Encode(Init(st, sa, cwd, env)).fields;
    assert OptStringField(f, "shell_type") == Some(st);
    assert OptStringField(f, "cwd") == Some(cwd);
    if sa.Some? {
      StringsRoundTrip(sa);
      assert f["shell_args"] == StringsJson(sa).value;
    }
    assert OptStringsField(f, "shell_args") == Some(sa);
    if env.Some? {
      MapRoundTrip(env);
      assert f["env"] == MapJson(env).value;
    }
    assert OptMapField(f, "env") == Some(env);
  }

  /** A field the variant does not read, whatever its value, changes nothing. */
  lemma IgnoresUnknownFields(f: map<string, Json>, key: string, v: Json)
    requires "type" in f && f["type"].JString?
    requires key != "type" && key !in FieldsOf(f["type"].s)
    ensures Decode(JObject(f[key := v])) == Decode(JObject(f))
  {
    var g := f[key := v];
    var tag := f["type"].s;
    assert forall k :: k != key && k in f ==> k in g && g[k] == f[k];
    assert forall k :: k in FieldsOf(tag) ==> (k in g <==> k in f);
  }

  /** An optional field that is `null` decodes exactly as if it were missing. */
  lemma NullIsAbsent(f: map<string, Json>, key: string)
    requires "type" in f && f["type"].JString?
    requires key in FieldsOf(f["type"].s) && key != "cols" && key != "rows"
    ensures Decode(JObject(f[key := JNull])) == Decode(JObject(f - {key}))
  {
  }

  /**
   * A `resize` object decodes exactly when both `cols` and `rows` are
   * integers in the `u16` range, and then to those two numbers.
   */
  lemma ResizeDecodes(f: map<string, Json>)
    requires "type" in f && f["type"] == JString("resize")
    ensures Decode(JObject(f)).Some? <==>
      "cols" in f && f["cols"].JInt? && 0 <= f["cols"].i < 0x1_0000 &&
      "rows" in f && f["rows"].JInt? && 0 <= f["rows"].i < 0x1_0000
    ensures Decode(JObject(f)).Some? ==> Decode(JObject(f)) == Some(Resize(f["cols"].i, f["rows"].i))
  {
  }
}
