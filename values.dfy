/**
 * The provider protocol's self-describing values, and the accessors of the
 * athanor-go value library that the generated code calls (sdk.Map, sdk.String,
 * sdk.Bool, sdk.List, sdk.ToType). That library is not part of this model: its
 * accessors are modelled here as the evident partial functions, each failing
 * with its own error when the value has the wrong shape.
 */
module Values {
  import opened Errors

  /** sdk.File: an opaque file handle (path plus content checksum). */
  datatype FileRef = FileRef(path: string, checksum: string)

  /**
   * A value as the generated code sees it through `any`. `Nil` is Go's nil,
   * which is also what indexing a Go map with a missing key yields.
   */
  datatype Value =
    | Nil
    | Str(s: string)
    | Bool(b: bool)
    | Map(entries: map<string, Value>)
    | List(items: seq<Value>)
    | File(file: FileRef)
    | Ident(id: Identifier)

  /** sdk.Identifier: a resource-type tag and the identifier's fields. */
  datatype Identifier = Identifier(resourceType: string, body: Value)

  /** value.UpdateMaskField: which field changed, how, and its changed sub-fields. */
  datatype Operation = Update | Delete
  datatype MaskField = MaskField(name: string, operation: Operation, subFields: seq<MaskField>)

  /** sdk.Resource: what a handler returns to the orchestrator. */
  datatype Resource = Resource(identifier: Identifier, config: Value, attrs: Value)

  /** `m[key]` on a Go map: the entry, or nil when the key is absent. */
  function Get(m: map<string, Value>, key: string): (v: Value)
    ensures key !in m ==> v == Nil
    ensures key in m ==> v == m[key]
  {
    if key in m then m[key] else Nil
  }

  /** sdk.Map[any] */
  function AsMap(v: Value): (r: Result<map<string, Value>>)
    ensures r.Ok? <==> v.Map?
    ensures r.Ok? ==> r.value == v.entries
    ensures r.Err? ==> r.error == NotAMap
  {
    if v.Map? then Ok(v.entries) else Err(NotAMap)
  }

  /** sdk.String */
  function AsString(v: Value): (r: Result<string>)
    ensures r.Ok? <==> v.Str?
    ensures r.Ok? ==> v == Str(r.value)
    ensures r.Err? ==> r.error == NotAString
  {
    if v.Str? then Ok(v.s) else Err(NotAString)
  }

  /** sdk.Bool */
  function AsBool(v: Value): (r: Result<bool>)
    ensures r.Ok? <==> v.Bool?
    ensures r.Ok? ==> v == Bool(r.value)
    ensures r.Err? ==> r.error == NotABool
  {
    if v.Bool? then Ok(v.b) else Err(NotABool)
  }

  predicate AllStrings(entries: map<string, Value>) {
    forall k :: k in entries ==> entries[k].Str?
  }

  /** sdk.Map[string]: a map all of whose values are strings. */
  function AsStringMap(v: Value): (r: Result<map<string, string>>)
    ensures r.Ok? <==> v.Map? && AllStrings(v.entries)
    ensures r.Ok? ==> r.value.Keys == v.entries.Keys
    ensures r.Ok? ==> forall k :: k in r.value ==> v.entries[k] == Str(r.value[k])
    ensures r.Err? ==> r.error == NotAStringMap
  {
    if v.Map? && AllStrings(v.entries) then
      Ok(map k | k in v.entries :: v.entries[k].s)
    else
      Err(NotAStringMap)
  }

  /** sdk.ToType[string] of a map[string]string; sdk.Map[string] reads it back. */
  function StringMap(m: map<string, string>): (v: Value)
    ensures v.Map? && v.entries.Keys == m.Keys
    ensures AsStringMap(v) == Ok(m)
  {
    var v := Map(map k | k in m :: Str(m[k]));
    assert AsStringMap(v).Ok?;
    assert AsStringMap(v).value == m;
    v
  }

  predicate AllFiles(items: seq<Value>) {
    forall i :: 0 <= i < |items| ==> items[i].File?
  }

  /** sdk.List[sdk.File]: a list all of whose elements are files, element by element. */
  function AsFileList(v: Value): (r: Result<seq<FileRef>>)
    ensures r.Ok? <==> v.List? && AllFiles(v.items)
    ensures r.Ok? ==> |r.value| == |v.items|
    ensures r.Ok? ==> forall i :: 0 <= i < |r.value| ==> v.items[i] == File(r.value[i])
    ensures r.Err? ==> r.error == NotAFileList
  {
    if v.List? && AllFiles(v.items) then
      Ok(seq(|v.items|, i requires 0 <= i < |v.items| => v.items[i].file))
    else
      Err(NotAFileList)
  }

  /** sdk.ToImmutableType(sdk.ToType[sdk.File]) of a file slice; sdk.List[sdk.File] reads it back. */
  function FileList(files: seq<FileRef>): (v: Value)
    ensures v.List? && |v.items| == |files|
    ensures AsFileList(v) == Ok(files)
  {
    var v := List(seq(|files|, i requires 0 <= i < |files| => File(files[i])));
    assert AsFileList(v).Ok?;
    assert AsFileList(v).value == files;
    v
  }
}
