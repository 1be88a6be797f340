/** The property service's write requests. Each one flattens a plain property
    object into a multipart body key by key: the `images` key contributes one
    `images` entry per file, and every other key one entry holding its value.
    The HTTP client is not modelled: a request is the verb, path and body it
    would send. */
module PropertyService {
  import opened Common
  import opened FormData

  /** A property object's value: a field value, or an array of files. */
  datatype PropertyValue = Field(scalar: Scalar) | Files(files: seq<Upload>)

  /** A property object as `Object.keys` enumerates it. */
  type PropertyData = seq<(string, PropertyValue)>

  const ImagesKey := "images"

  datatype Verb = Post | Put | Patch

  datatype Request = Request(verb: Verb, path: string, body: seq<Entry<Part>>)

  /** `String(files)`: an array of File objects joins their "[object File]" texts with commas. */
  function FilesText(files: seq<Upload>): (s: string)
    ensures files == [] <==> s == ""
    decreases |files|
  {
    if files == [] then ""
    else if |files| == 1 then "[object File]"
    else FilesText(files[..|files| - 1]) + ",[object File]"
  }

  /** What `formData.append(key, value)` stores for a key other than `images`. */
  function AppendedValue(value: PropertyValue): Scalar {
    match value
    case Field(s) => AppendedScalar(s)
    case Files(fs) => Text(FilesText(fs))
  }

  /** One `images` entry per file, in array order. */
  function ImageEntries(files: seq<Upload>): seq<Entry<Part>> {
    seq(|files|, i requires 0 <= i < |files| => Entry(ImagesKey, File(files[i])))
  }

  /** The entries one key contributes; None where `data.images.forEach` throws
      because `images` is not an array. */
  function KeyEntries(key: string, value: PropertyValue): Option<seq<Entry<Part>>> {
    if key == ImagesKey then
      if value.Files? then Some(ImageEntries(value.files)) else None
    else Some([Entry(key, Value(AppendedValue(value)))])
  }

  /** The body the service builds from `data`, or None when building throws. */
  function Flatten(data: PropertyData): Option<seq<Entry<Part>>>
    decreases |data|
  {
    if data == [] then Some([])
    else
      var last := data[|data| - 1];
      match Flatten(data[..|data| - 1])
      case None => None
      case Some(front) =>
        match KeyEntries(last.0, last.1)
        case None => None
        case Some(entries) => Some(front + entries)
  }

  /** Once a key has thrown, the body is lost whatever keys follow. */
  lemma {:induction false} FlattenFailureSticks(data: PropertyData, n: nat)
    requires n <= |data| && Flatten(data[..n]) == None
    ensures Flatten(data) == None
    decreases |data| - n
  {
    if n < |data| {
      assert data[..n + 1][..n] == data[..n];
      FlattenFailureSticks(data, n + 1);
    } else {
      assert data[..n] == data;
    }
  }

  /** The `Object.keys(data).forEach(...)` loop. */
  method FlattenEntries(data: PropertyData) returns (r: Option<seq<Entry<Part>>>)
    ensures r == Flatten(data)
  {
    var body: seq<Entry<Part>> := [];
    var i := 0;
    while i < |data|
      invariant 0 <= i <= |data|
      invariant Flatten(data[..i]) == Some(body)
    {
      assert data[..i + 1][..i] == data[..i];
      var key, value := data[i].0, data[i].1;
      if key == ImagesKey {
        if value.Field? {
          FlattenFailureSticks(data, i + 1);
          return None;
        }
        ghost var front := body;
        var j := 0;
        while j < |value.files|
          invariant 0 <= j <= |value.files|
          invariant body == front + ImageEntries(value.files[..j])
        {
          assert ImageEntries(value.files[..j + 1]) == ImageEntries(value.files[..j]) + [Entry(ImagesKey, File(value.files[j]))];
          body := body + [Entry(ImagesKey, File(value.files[j]))];
          j := j + 1;
        }
        assert value.files[..j] == value.files;
      } else {
        body := body + [Entry(key, Value(AppendedValue(value)))];
      }
      i := i + 1;
    }
    assert data[..i] == data;
    r := Some(body);
  }

  /** `createProperty`: POST /properties. */
  method CreateProperty(data: PropertyData) returns (r: Option<Request>)
    ensures r.Some? <==> Flatten(data).Some?
    ensures r.Some? ==> r.value == Request(Post, "/properties", Flatten(data).value)
  {
    var body := FlattenEntries(data);
    r := if body.Some? then Some(Request(Post, "/properties", body.value)) else None;
  }

  /** `updateProperty`: PUT /properties/{id}, with the same flattening. */
  method UpdateProperty(id: Id, data: PropertyData) returns (r: Option<Request>)
    ensures r.Some? <==> Flatten(data).Some?
    ensures r.Some? ==> r.value == Request(Put, "/properties/" + id, Flatten(data).value)
  {
    var body := FlattenEntries(data);
    r := if body.Some? then Some(Request(Put, "/properties/" + id, body.value)) else None;
  }

  /** `updatePropertyPartial`: PATCH /properties/{id}, with the same flattening. */
  method UpdatePropertyPartial(id: Id, data: PropertyData) returns (r: Option<Request>)
    ensures r.Some? <==> Flatten(data).Some?
    ensures r.Some? ==> r.value == Request(Patch, "/properties/" + id, Flatten(data).value)
  {
    var body := FlattenEntries(data);
    r := if body.Some? then Some(Request(Patch, "/properties/" + id, body.value)) else None;
  }

  // --- What the flattening promises ---

  /** Every entry a key contributes carries that key. */
  lemma KeyEntriesCarryKey(key: string, value: PropertyValue)
    requires KeyEntries(key, value).Some?
    ensures forall i :: 0 <= i < |KeyEntries(key, value).value| ==> KeyEntries(key, value).value[i].key == key
  {
  }

  /** A body that was built is the body of all keys but the last, then the last key's entries. */
  lemma FlattenLast(data: PropertyData)
    requires data != [] && Flatten(data).Some?
    ensures Flatten(data[..|data| - 1]).Some?
    ensures KeyEntries(data[|data| - 1].0, data[|data| - 1].1).Some?
    ensures Flatten(data).value == Flatten(data[..|data| - 1]).value + KeyEntries(data[|data| - 1].0, data[|data| - 1].1).value
  {
  }

  /** Number of `images` keys (at most one in an object). */
  function ImagesKeyCount(data: PropertyData): nat
    decreases |data|
  {
    if data == [] then 0
    else ImagesKeyCount(data[..|data| - 1]) + (if data[|data| - 1].0 == ImagesKey then 1 else 0)
  }

  /** The files under `images` keys, in order. */
  function ImagesOf(data: PropertyData): seq<Upload>
    decreases |data|
  {
    if data == [] then []
    else
      var last := data[|data| - 1];
      ImagesOf(data[..|data| - 1]) + (if last.0 == ImagesKey && last.1.Files? then last.1.files else [])
  }

  /** Flattening throws exactly when an `images` key holds something other than an array. */
  lemma {:induction false} FlattenFails(data: PropertyData)
    ensures Flatten(data).None? <==> exists k :: 0 <= k < |data| && data[k].0 == ImagesKey && data[k].1.Field?
    decreases |data|
  {
    if data != [] {
      var front := data[..|data| - 1];
      FlattenFails(front);
      if exists k :: 0 <= k < |front| && front[k].0 == ImagesKey && front[k].1.Field? {
        var k :| 0 <= k < |front| && front[k].0 == ImagesKey && front[k].1.Field?;
        assert data[k] == front[k];
      }
      if exists k :: 0 <= k < |data| && data[k].0 == ImagesKey && data[k].1.Field? {
        var k :| 0 <= k < |data| && data[k].0 == ImagesKey && data[k].1.Field?;
        if k < |front| {
          assert front[k] == data[k];
        }
      }
    }
  }

  /** One entry per key other than `images`, plus one per image. */
  lemma {:induction false} FlattenCount(data: PropertyData)
    requires Flatten(data).Some?
    ensures |Flatten(data).value| == |data| - ImagesKeyCount(data) + |ImagesOf(data)|
    decreases |data|
  {
    if data != [] {
      FlattenCount(data[..|data| - 1]);
    }
  }

  /** The files the last key adds to ImagesOf. */
  function KeyImages(key: string, value: PropertyValue): seq<Upload> {
    if key == ImagesKey && value.Files? then value.files else []
  }

  /** The entries of one key read back under `images` as that key's files. */
  lemma KeyImagesReadBack(key: string, value: PropertyValue)
    requires KeyEntries(key, value).Some?
    ensures GetAll(KeyEntries(key, value).value, ImagesKey) == FileParts(KeyImages(key, value))
  {
    var entries := KeyEntries(key, value).value;
    KeyEntriesCarryKey(key, value);
    if key == ImagesKey {
      GetAllUniform(entries, ImagesKey);
      assert Values(entries) == FileParts(value.files);
    } else {
      GetAllAbsent(entries, ImagesKey);
    }
  }

  /** The `images` key reads back as every image, in array order. */
  lemma {:induction false} FlattenImagesReadBack(data: PropertyData)
    requires Flatten(data).Some?
    ensures GetAll(Flatten(data).value, ImagesKey) == FileParts(ImagesOf(data))
    decreases |data|
  {
    if data != [] {
      var front := data[..|data| - 1];
      var last := data[|data| - 1];
      FlattenLast(data);
      var body, entries := Flatten(front).value, KeyEntries(last.0, last.1).value;
      var images, extra := ImagesOf(front), KeyImages(last.0, last.1);
      calc {
        GetAll(Flatten(data).value, ImagesKey);
        GetAll(body + entries, ImagesKey);
        { GetAllAppend(body, entries, ImagesKey); }
        GetAll(body, ImagesKey) + GetAll(entries, ImagesKey);
        { FlattenImagesReadBack(front); KeyImagesReadBack(last.0, last.1); }
        FileParts(images) + FileParts(extra);
        { FilePartsAppend(images, extra); }
        FileParts(images + extra);
        { assert ImagesOf(data) == images + extra; }
        FileParts(ImagesOf(data));
      }
    }
  }

  /** A key other than `images` that the object holds once (as keys of an
      object are) reads back as the one value appended for it. */
  lemma {:induction false} FlattenFieldReadBack(data: PropertyData, k: nat)
    requires Flatten(data).Some?
    requires k < |data| && data[k].0 != ImagesKey
    requires forall i :: 0 <= i < |data| && i != k ==> data[i].0 != data[k].0
    ensures GetAll(Flatten(data).value, data[k].0) == [Value(AppendedValue(data[k].1))]
    decreases |data|
  {
    var front := data[..|data| - 1];
    var last := data[|data| - 1];
    var key := data[k].0;
    FlattenLast(data);
    KeyEntriesCarryKey(last.0, last.1);
    var entries := KeyEntries(last.0, last.1).value;
    GetAllAppend(Flatten(front).value, entries, key);
    assert forall i :: 0 <= i < |front| ==> front[i] == data[i];
    if k < |data| - 1 {
      FlattenFieldReadBack(front, k);
      GetAllAbsent(entries, key);
    } else {
      FlattenKeyAbsent(front, key);
      GetAllUniform(entries, key);
    }
  }

  /** A key the object lacks reads back as nothing. */
  lemma {:induction false} FlattenKeyAbsent(data: PropertyData, key: string)
    requires Flatten(data).Some?
    requires key != ImagesKey
    requires forall i :: 0 <= i < |data| ==> data[i].0 != key
    ensures GetAll(Flatten(data).value, key) == []
    decreases |data|
  {
    if data != [] {
      var front := data[..|data| - 1];
      var last := data[|data| - 1];
      FlattenLast(data);
      KeyEntriesCarryKey(last.0, last.1);
      assert forall i :: 0 <= i < |front| ==> front[i] == data[i];
      FlattenKeyAbsent(front, key);
      var entries := KeyEntries(last.0, last.1).value;
      GetAllAppend(Flatten(front).value, entries, key);
      GetAllAbsent(entries, key);
    }
  }
}
