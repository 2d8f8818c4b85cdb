/**
 * The storage bucket client (internal/bucket): the Getter, Creator, Updator
 * and Deleter behind the bucket handler.
 *
 * The client is written against an older generated bucket type whose config
 * labels are `map[string]any`; `Bucket` below is that type. The Cloud Storage
 * client is not part of this model: each method returns the storage calls it
 * makes, in order (`sent`), and takes the storage replies as parameters.
 */
module BucketClient {
  import opened Errors
  import opened Values
  import opened Identifiers
  import Lists

  /** What the client reads from storage.BucketAttrs: the labels and the creation time, rendered. */
  datatype StorageAttrs = StorageAttrs(labels: map<string, string>, created: string)

  /** A call on storage.BucketAttrsToUpdate. */
  datatype LabelEdit = SetLabel(key: string, value: string) | DeleteLabel(key: string)

  /** The storage calls the client makes. */
  datatype Request =
    | AttrsCall(bucket: string)
    | CreateCall(bucket: string, project: string, labels: map<string, string>, location: string)
    | UpdateCall(bucket: string, edits: seq<LabelEdit>)
    | DeleteCall(bucket: string)

  /** provider.Bucket as the client sees it: the identifier, labels of any type and the creation time. */
  datatype Bucket = Bucket(identifier: ResourceIdentifier, labels: map<string, Value>, created: string)

  // ---------------------------------------------------------------------------
  // Reading a bucket back

  /** The labels of a storage reply, copied into the `map[string]any` of the result. */
  method CopyLabels(labels: map<string, string>) returns (out: map<string, Value>)
    ensures Map(out) == StringMap(labels)
  {
    out := map[];
    var rest := labels.Keys;
    while rest != {}
      invariant rest <= labels.Keys
      invariant out == map k | k in labels.Keys - rest :: Str(labels[k])
      decreases rest
    {
      var k :| k in rest;
      out := out[k := Str(labels[k])];
      rest := rest - {k};
    }
    assert labels.Keys - rest == labels.Keys;
  }

  /** The bucket reported after a successful storage call: the identifier as given, the labels read back. */
  function Reported(id: ResourceIdentifier, attrs: StorageAttrs): (b: Bucket)
    ensures b.identifier == id && b.created == attrs.created
    ensures AsStringMap(Map(b.labels)) == Ok(attrs.labels)
  {
    Bucket(id, StringMap(attrs.labels).entries, attrs.created)
  }

  /** Create and Update: a failed call's error unchanged, otherwise the bucket read back. */
  function ReadBack(id: ResourceIdentifier, reply: Result<StorageAttrs>): (r: Result<Bucket>)
    ensures reply.Err? ==> r == Err(reply.error)
    ensures reply.Ok? ==> r.Ok? && r.value.identifier == id && AsStringMap(Map(r.value.labels)) == Ok(reply.value.labels)
  {
    if reply.Err? then Err(reply.error) else Ok(Reported(id, reply.value))
  }

  /** GetBucket's error: a bucket that does not exist is NotFound; anything else is wrapped. */
  function GetFailure(e: Error): (r: Error)
    ensures r == NotFound <==> e == Vendor(BucketNotExist)
    ensures e != Vendor(BucketNotExist) ==> r == Context("oh no", e)
  {
    if e == Vendor(BucketNotExist) then NotFound else Context("oh no", e)
  }

  /** GetBucket: one Attrs call on the bucket's name. */
  method GetBucket(id: ResourceIdentifier, reply: Result<StorageAttrs>) returns (sent: seq<Request>, r: Result<Bucket>)
    requires id.BucketId?
    ensures sent == [AttrsCall(id.name)]
    ensures reply.Err? ==> r == Err(GetFailure(reply.error))
    ensures reply.Ok? ==> r == Ok(Reported(id, reply.value))
  {
    sent := [AttrsCall(id.name)];
    if reply.Err? {
      if reply.error == Vendor(BucketNotExist) {
        return sent, Err(NotFound);
      }
      return sent, Err(Context("oh no", reply.error));
    }
    var labels := CopyLabels(reply.value.labels);
    r := Ok(Bucket(id, labels, reply.value.created));
  }

  // ---------------------------------------------------------------------------
  // Creating a bucket

  /**
   * CreateBucket's label loop: every value must be a string. Go visits a map
   * in no fixed order, so when several values are not strings, which one is
   * reported is not determined.
   */
  method CoerceLabels(labels: map<string, Value>) returns (r: Result<map<string, string>>)
    ensures r.Ok? <==> AllStrings(labels)
    ensures r.Ok? ==> r == AsStringMap(Map(labels))
    ensures r.Err? ==> r.error.ExpectedStringLabel? && r.error.key in labels && !labels[r.error.key].Str?
  {
    var out: map<string, string> := map[];
    var rest := labels.Keys;
    while rest != {}
      invariant rest <= labels.Keys
      invariant out.Keys == labels.Keys - rest
      invariant forall k :: k in out ==> labels[k] == Str(out[k])
      decreases rest
    {
      var k :| k in rest;
      if !labels[k].Str? {
        return Err(ExpectedStringLabel(k));
      }
      out := out[k := labels[k].s];
      rest := rest - {k};
    }
    assert AllStrings(labels);
    assert out == AsStringMap(Map(labels)).value;
    return Ok(out);
  }

  /**
   * CreateBucket: coerce the labels before any call, create the bucket in the
   * identifier's project and location, then read it back.
   */
  method CreateBucket(id: ResourceIdentifier, labels: map<string, Value>, createReply: Option<Error>,
                      attrsReply: Result<StorageAttrs>) returns (sent: seq<Request>, r: Result<Bucket>)
    requires id.BucketId?
    ensures !AllStrings(labels) ==>
              sent == [] && r.Err? && r.error.ExpectedStringLabel? && r.error.key in labels && !labels[r.error.key].Str?
    ensures AllStrings(labels) && createReply.Some? ==>
              sent == [CreateCall(id.name, id.project, AsStringMap(Map(labels)).value, id.location)] &&
              r == Err(createReply.value)
    ensures AllStrings(labels) && createReply.None? ==>
              sent == [CreateCall(id.name, id.project, AsStringMap(Map(labels)).value, id.location), AttrsCall(id.name)] &&
              r == ReadBack(id, attrsReply)
  {
    var coerced := CoerceLabels(labels);
    if coerced.Err? {
      return [], Err(coerced.error);
    }
    sent := [CreateCall(id.name, id.project, coerced.value, id.location)];
    if createReply.Some? {
      return sent, Err(createReply.value);
    }
    sent := sent + [AttrsCall(id.name)];
    if attrsReply.Err? {
      return sent, Err(attrsReply.error);
    }
    var read := CopyLabels(attrsReply.value.labels);
    r := Ok(Bucket(id, read, attrsReply.value.created));
  }

  /**
   * A storage service that stores the labels it was sent makes CreateBucket
   * report exactly the labels of the config.
   */
  lemma EchoedLabelsRoundTrip(id: ResourceIdentifier, labels: map<string, Value>, created: string)
    requires AllStrings(labels)
    ensures AsStringMap(Map(labels)).Ok?
    ensures ReadBack(id, Ok(StorageAttrs(AsStringMap(Map(labels)).value, created))) == Ok(Bucket(id, labels, created))
  {
    var sent := AsStringMap(Map(labels)).value;
    assert StringMap(sent).entries == labels;
  }

  // ---------------------------------------------------------------------------
  // Updating a bucket

  /** The sub-fields a mask entry contributes: those of an entry named "labels", none otherwise. */
  function OwnLabels(m: MaskField): (subs: seq<MaskField>)
    ensures m.name != "labels" ==> subs == []
    ensures m.name == "labels" ==> subs == m.subFields
  {
    if m.name == "labels" then m.subFields else []
  }

  /** The label sub-fields of a mask, in mask order. */
  function LabelSubFields(mask: seq<MaskField>): (subs: seq<MaskField>)
  {
    if mask == [] then [] else OwnLabels(mask[0]) + LabelSubFields(mask[1..])
  }

  /** The label sub-fields of two masks in a row are those of the first, then those of the second. */
  lemma {:induction false} LabelSubFieldsAppend(a: seq<MaskField>, b: seq<MaskField>)
    ensures LabelSubFields(a + b) == LabelSubFields(a) + LabelSubFields(b)
  {
    if a == [] {
      assert a + b == b;
    } else {
      assert (a + b)[0] == a[0];
      assert (a + b)[1..] == a[1..] + b;
      LabelSubFieldsAppend(a[1..], b);
    }
  }

  /**
   * The edit one label sub-field asks for: a delete whatever the config
   * holds; otherwise the config's value for that label, which must be there
   * and be a string.
   */
  function EditFor(labels: map<string, Value>, sub: MaskField): (r: Result<LabelEdit>)
    ensures r.Ok? <==> sub.operation == Delete || (sub.name in labels && labels[sub.name].Str?)
    ensures r.Ok? ==> r.value.key == sub.name
    ensures r.Ok? ==> (r.value.DeleteLabel? <==> sub.operation == Delete)
    ensures r.Ok? && r.value.SetLabel? ==> labels[sub.name] == Str(r.value.value)
    ensures sub.operation != Delete && sub.name !in labels ==> r == Err(LabelMissing(sub.name))
    ensures sub.operation != Delete && sub.name in labels && !labels[sub.name].Str? ==> r == Err(LabelNotString(sub.name))
  {
    if sub.operation == Delete then Ok(DeleteLabel(sub.name))
    else if sub.name !in labels then Err(LabelMissing(sub.name))
    else if !labels[sub.name].Str? then Err(LabelNotString(sub.name))
    else Ok(SetLabel(sub.name, labels[sub.name].s))
  }

  function Editor(labels: map<string, Value>): MaskField -> Result<LabelEdit> {
    sub => EditFor(labels, sub)
  }

  /** UpdateBucket's mask loop as a function: the edits of every label sub-field, in order, or the first error. */
  function LabelEdits(mask: seq<MaskField>, labels: map<string, Value>): (r: Result<seq<LabelEdit>>)
  {
    Lists.ParseAll(LabelSubFields(mask), Editor(labels))
  }

  /**
   * The mask is honoured exactly when every label sub-field is a delete or
   * names a string label of the config; then the i-th edit is the i-th
   * sub-field's, and otherwise the error is that of a sub-field that is
   * neither.
   */
  lemma LabelEditsCases(mask: seq<MaskField>, labels: map<string, Value>)
    ensures var subs := LabelSubFields(mask);
            LabelEdits(mask, labels).Ok? <==>
              forall k :: 0 <= k < |subs| ==> subs[k].operation == Delete || (subs[k].name in labels && labels[subs[k].name].Str?)
    ensures var subs := LabelSubFields(mask);
            LabelEdits(mask, labels).Ok? ==>
              |LabelEdits(mask, labels).value| == |subs| &&
              forall k :: 0 <= k < |subs| ==> LabelEdits(mask, labels).value[k] == EditFor(labels, subs[k]).value
    ensures var subs := LabelSubFields(mask);
            LabelEdits(mask, labels).Err? ==>
              exists k :: 0 <= k < |subs| && subs[k].operation != Delete &&
                          (LabelEdits(mask, labels).error == LabelMissing(subs[k].name) ||
                           LabelEdits(mask, labels).error == LabelNotString(subs[k].name))
  {
    var subs := LabelSubFields(mask);
    var r := LabelEdits(mask, labels);
    EditorCases(subs, labels);
    if r.Err? {
      var k :| 0 <= k < |subs| && EditFor(labels, subs[k]).Err? && r.error == EditFor(labels, subs[k]).error;
      assert subs[k].operation != Delete;
    }
  }

  /** LabelEdits through EditFor rather than through the Editor closure. */
  lemma EditorCases(subs: seq<MaskField>, labels: map<string, Value>)
    ensures Lists.ParseAll(subs, Editor(labels)).Ok? <==> forall k :: 0 <= k < |subs| ==> EditFor(labels, subs[k]).Ok?
    ensures Lists.ParseAll(subs, Editor(labels)).Ok? ==>
              forall k :: 0 <= k < |subs| ==> Lists.ParseAll(subs, Editor(labels)).value[k] == EditFor(labels, subs[k]).value
    ensures Lists.ParseAll(subs, Editor(labels)).Err? ==>
              exists k :: 0 <= k < |subs| && EditFor(labels, subs[k]).Err? &&
                          Lists.ParseAll(subs, Editor(labels)).error == EditFor(labels, subs[k]).error
  {
    var f := Editor(labels);
    forall k | 0 <= k < |subs|
      ensures f(subs[k]) == EditFor(labels, subs[k])
    {
    }
    Lists.ParseAllCases(subs, f);
  }

  /** Mask entries with any other name change nothing, wherever they stand. */
  lemma UnmaskedEntryIgnored(a: seq<MaskField>, m: MaskField, b: seq<MaskField>, labels: map<string, Value>)
    requires m.name != "labels"
    ensures LabelEdits(a + [m] + b, labels) == LabelEdits(a + b, labels)
  {
    LabelSubFieldsAppend(a, [m] + b);
    LabelSubFieldsAppend(a, b);
    assert a + [m] + b == a + ([m] + b);
    assert ([m] + b)[0] == m && ([m] + b)[1..] == b;
    assert LabelSubFields([m] + b) == LabelSubFields(b);
  }

  /** A mask whose label sub-fields are all deletes gives the same edits, one delete each, whatever the config. */
  lemma DeletesIgnoreConfig(mask: seq<MaskField>, labels1: map<string, Value>, labels2: map<string, Value>)
    requires forall k :: 0 <= k < |LabelSubFields(mask)| ==> LabelSubFields(mask)[k].operation == Delete
    ensures LabelEdits(mask, labels1).Ok?
    ensures LabelEdits(mask, labels1) == LabelEdits(mask, labels2)
    ensures forall k :: 0 <= k < |LabelSubFields(mask)| ==>
              LabelEdits(mask, labels1).value[k] == DeleteLabel(LabelSubFields(mask)[k].name)
  {
    LabelEditsCases(mask, labels1);
    LabelEditsCases(mask, labels2);
    var subs := LabelSubFields(mask);
    var e1, e2 := LabelEdits(mask, labels1).value, LabelEdits(mask, labels2).value;
    assert forall k :: 0 <= k < |subs| ==> e1[k] == DeleteLabel(subs[k].name) == e2[k];
    assert e1 == e2;
  }

  /** The sub-field loop of one "labels" mask entry: its edits in order, or the first error. */
  method EntryEdits(labels: map<string, Value>, subs: seq<MaskField>) returns (r: Result<seq<LabelEdit>>)
    ensures r == Lists.ParseAll(subs, Editor(labels))
  {
    var edits: seq<LabelEdit> := [];
    var j := 0;
    while j < |subs|
      invariant 0 <= j <= |subs|
      invariant Lists.ParseAll(subs[..j], Editor(labels)) == Ok(edits)
    {
      var sub := subs[j];
      var edit: Result<LabelEdit>;
      if sub.operation == Delete {
        edit := Ok(DeleteLabel(sub.name));
      } else if sub.name !in labels {
        edit := Err(LabelMissing(sub.name));
      } else if !labels[sub.name].Str? {
        edit := Err(LabelNotString(sub.name));
      } else {
        edit := Ok(SetLabel(sub.name, labels[sub.name].s));
      }
      Lists.ParseAllStep(subs, j, Editor(labels), edits, edit);
      if edit.Err? {
        return Err(edit.error);
      }
      edits := edits + [edit.value];
      j := j + 1;
    }
    assert subs[..j] == subs;
    return Ok(edits);
  }

  /** One step of the mask loop: the front entry's edits, then the rest's, or the first error. */
  lemma MaskStep(edits: seq<LabelEdit>, rest: seq<MaskField>, labels: map<string, Value>)
    requires rest != []
    ensures var entry := Lists.ParseAll(OwnLabels(rest[0]), Editor(labels));
            entry.Err? ==> Lists.Then(edits, LabelEdits(rest, labels)) == entry
    ensures var entry := Lists.ParseAll(OwnLabels(rest[0]), Editor(labels));
            entry.Ok? ==> Lists.Then(edits, LabelEdits(rest, labels)) == Lists.Then(edits + entry.value, LabelEdits(rest[1..], labels))
  {
    assert LabelSubFields(rest) == OwnLabels(rest[0]) + LabelSubFields(rest[1..]);
    Lists.ThenAppend(edits, OwnLabels(rest[0]), LabelSubFields(rest[1..]), Editor(labels));
  }

  /** UpdateBucket's mask loop: only entries named "labels" contribute, each through its sub-fields. */
  method MaskEdits(labels: map<string, Value>, mask: seq<MaskField>) returns (r: Result<seq<LabelEdit>>)
    ensures r == LabelEdits(mask, labels)
  {
    var edits: seq<LabelEdit> := [];
    var rest := mask;
    if LabelEdits(mask, labels).Ok? {
      assert [] + LabelEdits(mask, labels).value == LabelEdits(mask, labels).value;
    }
    while rest != []
      invariant LabelEdits(mask, labels) == Lists.Then(edits, LabelEdits(rest, labels))
    {
      var m := rest[0];
      if m.name == "labels" {
        var entry := EntryEdits(labels, m.subFields);
        MaskStep(edits, rest, labels);
        if entry.Err? {
          return Err(entry.error);
        }
        edits := edits + entry.value;
      } else {
        MaskStep(edits, rest, labels);
        assert edits + [] == edits;
      }
      rest := rest[1..];
    }
    assert edits + [] == edits;
    return Ok(edits);
  }

  /**
   * UpdateBucket: the label edits of the mask, computed before any call; the
   * first missing or non-string label ends the operation with nothing sent.
   */
  method UpdateBucket(id: ResourceIdentifier, labels: map<string, Value>, mask: seq<MaskField>,
                      reply: Result<StorageAttrs>) returns (sent: seq<Request>, r: Result<Bucket>)
    requires id.BucketId?
    ensures LabelEdits(mask, labels).Err? ==> sent == [] && r == Err(LabelEdits(mask, labels).error)
    ensures LabelEdits(mask, labels).Ok? ==>
              sent == [UpdateCall(id.name, LabelEdits(mask, labels).value)] && r == ReadBack(id, reply)
  {
    var edits := MaskEdits(labels, mask);
    if edits.Err? {
      return [], Err(edits.error);
    }
    sent := [UpdateCall(id.name, edits.value)];
    if reply.Err? {
      return sent, Err(reply.error);
    }
    var read := CopyLabels(reply.value.labels);
    r := Ok(Bucket(id, read, reply.value.created));
  }

  // ---------------------------------------------------------------------------
  // Deleting a bucket

  /** DeleteBucket: one Delete call naming the bucket alone; its error is the result. */
  function DeleteBucket(id: ResourceIdentifier, reply: Option<Error>): (r: (seq<Request>, Option<Error>))
    requires id.BucketId?
    ensures r.0 == [DeleteCall(id.name)] && r.1 == reply
  {
    ([DeleteCall(id.name)], reply)
  }
}
