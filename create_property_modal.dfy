/** The host's "Create New Property" form: the validation schema, the initial
    values, the list of picked image files with their previews, and the
    multipart body the form submits. */
module CreatePropertyModal {
  import opened Common
  import opened FormData

  /** The form's values. A numeric input holds `Text("")` until something
      parseable is typed, and the number afterwards. */
  datatype FormValues = FormValues(
    title: string,
    description: string,
    pricePerNight: Scalar,
    location: string,
    maxGuests: Scalar,
    bathrooms: Scalar,
    bedrooms: Scalar,
    amenities: seq<string>,
    houseRules: seq<string>)

  /** `initialValues`. */
  const InitialValues := FormValues("", "", Text(""), "", Text(""), Text(""), Text(""), ["wifi"], ["No smoking"])

  // --- The validation schema ---

  /** One field's rule: a required string of a minimum length, a required
      positive number (whole or not), or a list of a minimum length. */
  datatype Rule =
    | RequiredString(minLength: nat)
    | PositiveNumber(whole: bool)
    | ListOf(minItems: nat)

  /** A field's value as the schema sees it. */
  datatype FieldValue = TextValue(text: string) | NumberValue(scalar: Scalar) | ListValue(items: seq<string>)

  /** `validationSchema`, field by field in declaration order. */
  const Schema: seq<(string, Rule)> := [
    ("title", RequiredString(3)),
    ("description", RequiredString(10)),
    ("pricePerNight", PositiveNumber(false)),
    ("location", RequiredString(0)),
    ("maxGuests", PositiveNumber(true)),
    ("bathrooms", PositiveNumber(true)),
    ("bedrooms", PositiveNumber(true)),
    ("amenities", ListOf(1)),
    ("houseRules", ListOf(1))
  ]

  /** The value the form holds for a schema field. */
  function FieldOf(v: FormValues, name: string): Option<FieldValue> {
    match name
    case "title" => Some(TextValue(v.title))
    case "description" => Some(TextValue(v.description))
    case "pricePerNight" => Some(NumberValue(v.pricePerNight))
    case "location" => Some(TextValue(v.location))
    case "maxGuests" => Some(NumberValue(v.maxGuests))
    case "bathrooms" => Some(NumberValue(v.bathrooms))
    case "bedrooms" => Some(NumberValue(v.bedrooms))
    case "amenities" => Some(ListValue(v.amenities))
    case "houseRules" => Some(ListValue(v.houseRules))
    case _ => None
  }

  predicate IsWhole(r: real) {
    r.Floor as real == r
  }

  /** Yup's reading of one rule: `required` refuses the empty string and a
      missing number, `positive` wants more than zero, `integer` a whole
      number, `min` a length. */
  predicate Satisfies(rule: Rule, value: FieldValue) {
    match rule
    case RequiredString(minLength) => value.TextValue? && |value.text| > 0 && |value.text| >= minLength
    case PositiveNumber(whole) =>
      value.NumberValue? && value.scalar.Number? && value.scalar.number > 0.0
      && (whole ==> IsWhole(value.scalar.number))
    case ListOf(minItems) => value.ListValue? && |value.items| >= minItems
  }

  /** Every schema field holds a value its rule accepts. */
  predicate IsValidForm(v: FormValues) {
    forall i :: 0 <= i < |Schema| ==> FieldOf(v, Schema[i].0).Some? && Satisfies(Schema[i].1, FieldOf(v, Schema[i].0).value)
  }

  predicate IsPositiveWhole(s: Scalar) {
    s.Number? && s.number > 0.0 && IsWhole(s.number)
  }

  /** What the schema demands, field by field. */
  lemma ValidFormMeans(v: FormValues)
    ensures IsValidForm(v) <==>
      |v.title| >= 3 && |v.description| >= 10
      && v.pricePerNight.Number? && v.pricePerNight.number > 0.0
      && |v.location| > 0
      && IsPositiveWhole(v.maxGuests) && IsPositiveWhole(v.bathrooms) && IsPositiveWhole(v.bedrooms)
      && |v.amenities| >= 1 && |v.houseRules| >= 1
  {
    if IsValidForm(v) {
      assert Satisfies(Schema[0].1, FieldOf(v, Schema[0].0).value);
      assert Satisfies(Schema[1].1, FieldOf(v, Schema[1].0).value);
      assert Satisfies(Schema[2].1, FieldOf(v, Schema[2].0).value);
      assert Satisfies(Schema[3].1, FieldOf(v, Schema[3].0).value);
      assert Satisfies(Schema[4].1, FieldOf(v, Schema[4].0).value);
      assert Satisfies(Schema[5].1, FieldOf(v, Schema[5].0).value);
      assert Satisfies(Schema[6].1, FieldOf(v, Schema[6].0).value);
      assert Satisfies(Schema[7].1, FieldOf(v, Schema[7].0).value);
      assert Satisfies(Schema[8].1, FieldOf(v, Schema[8].0).value);
    }
  }

  /** The initial lists already pass, while the seven empty fields do not,
      so the blank form cannot be submitted. */
  lemma InitialValuesOnlyListsPass()
    ensures Satisfies(ListOf(1), ListValue(InitialValues.amenities))
    ensures Satisfies(ListOf(1), ListValue(InitialValues.houseRules))
    ensures forall i :: 0 <= i < 7 ==> !Satisfies(Schema[i].1, FieldOf(InitialValues, Schema[i].0).value)
    ensures !IsValidForm(InitialValues)
  {
    ValidFormMeans(InitialValues);
  }

  // --- Picked images ---

  /** `s.filter((_, i) => i !== index)`. */
  function FilterOutIndex<T>(s: seq<T>, index: int): (r: seq<T>)
    ensures 0 <= index < |s| ==> r == s[..index] + s[index + 1..]
    ensures !(0 <= index < |s|) ==> r == s
    decreases |s|
  {
    if s == [] then []
    else
      var rest := FilterOutIndex(s[1..], index - 1);
      assert 0 < index <= |s| - 1 ==> s[1..][..index - 1] + s[1..][index..] == s[1..index] + s[index + 1..];
      assert s == [s[0]] + s[1..];
      (if index == 0 then [] else [s[0]]) + rest
  }

  /** The image files picked so far and the data URLs of their previews. */
  class ImageSelection {
    var files: seq<Upload>
    var previews: seq<string>

    constructor ()
      ensures files == [] && previews == []
    {
      files, previews := [], [];
    }

    /** `handleImageChange`: the new files go after the old ones; their
        previews arrive later, one `PreviewLoaded` each. */
    method HandleImageChange(picked: seq<Upload>)
      modifies this
      ensures files == old(files) + picked && previews == old(previews)
    {
      files := files + picked;
    }

    /** A FileReader's `onloadend` for one picked file. */
    method PreviewLoaded(dataUrl: string)
      modifies this
      ensures previews == old(previews) + [dataUrl] && files == old(files)
    {
      previews := previews + [dataUrl];
    }

    /** `removeImage`: drops position `index` from both lists. */
    method RemoveImage(index: int)
      modifies this
      ensures files == FilterOutIndex(old(files), index)
      ensures previews == FilterOutIndex(old(previews), index)
    {
      files := FilterOutIndex(files, index);
      previews := FilterOutIndex(previews, index);
    }

    /** `handleSubmit`: builds the body from the values and the picked files;
        when `onSubmit` resolves (`accepted`) the files and previews are
        cleared, and when it throws they stay. */
    method HandleSubmit(v: FormValues, accepted: bool) returns (body: seq<Entry<Part>>)
      modifies this
      ensures body == SubmissionEntries(v, old(files))
      ensures accepted ==> files == [] && previews == []
      ensures !accepted ==> files == old(files) && previews == old(previews)
    {
      body := BuildSubmission(v, files);
      if accepted {
        files, previews := [], [];
      }
    }
  }

  /** Removing one picked image keeps files and previews paired position by position. */
  lemma RemoveImageKeepsPairs<T, U>(files: seq<T>, previews: seq<U>, index: int)
    requires |files| == |previews|
    ensures |FilterOutIndex(files, index)| == |FilterOutIndex(previews, index)|
    ensures 0 <= index < |files| ==> |FilterOutIndex(files, index)| == |files| - 1
    ensures forall k :: 0 <= k < |FilterOutIndex(files, index)| ==>
              FilterOutIndex(files, index)[k] == files[if 0 <= index <= k then k + 1 else k]
    ensures forall k :: 0 <= k < |FilterOutIndex(previews, index)| ==>
              FilterOutIndex(previews, index)[k] == previews[if 0 <= index <= k then k + 1 else k]
  {
    FilterOutIndexShift(files, index);
    FilterOutIndexShift(previews, index);
  }

  /** Past the removed position every item moves one place forward; before it, none moves. */
  lemma FilterOutIndexShift<T>(s: seq<T>, index: int)
    ensures forall k :: 0 <= k < |FilterOutIndex(s, index)| ==>
              FilterOutIndex(s, index)[k] == s[if 0 <= index <= k then k + 1 else k]
  {
    if 0 <= index < |s| {
      var r := s[..index] + s[index + 1..];
      forall k | 0 <= k < |r|
        ensures r[k] == s[if index <= k then k + 1 else k]
      {
        if k < index {
          assert r[k] == s[..index][k];
        } else {
          assert r[k] == s[index + 1..][k - index];
        }
      }
    }
  }

  // --- The submitted body ---

  /** `name[i]`, the key under which list item `i` is appended. */
  function IndexedKey(name: string, i: nat): string {
    name + "[" + Show(i) + "]"
  }

  const ScalarKeys: seq<string> := ["title", "description", "pricePerNight", "location", "maxGuests", "bathrooms", "bedrooms"]

  /** The seven scalar appends, in the order the form makes them. */
  function ScalarEntries(v: FormValues): (r: seq<Entry<Part>>)
    ensures |r| == |ScalarKeys|
    ensures forall j :: 0 <= j < |r| ==> r[j].key == ScalarKeys[j]
  {
    [Entry("title", Value(Text(v.title))),
     Entry("description", Value(Text(v.description))),
     Entry("pricePerNight", Value(AppendedScalar(v.pricePerNight))),
     Entry("location", Value(Text(v.location))),
     Entry("maxGuests", Value(AppendedScalar(v.maxGuests))),
     Entry("bathrooms", Value(AppendedScalar(v.bathrooms))),
     Entry("bedrooms", Value(AppendedScalar(v.bedrooms)))]
  }

  /** One `name[i]` entry per list item, in list order. */
  function IndexedEntries(name: string, items: seq<string>): seq<Entry<Part>> {
    seq(|items|, i requires 0 <= i < |items| => Entry(IndexedKey(name, i), Value(Text(items[i]))))
  }

  /** One `images` entry per picked file, in pick order. */
  function FileEntries(files: seq<Upload>): seq<Entry<Part>> {
    seq(|files|, i requires 0 <= i < |files| => Entry("images", File(files[i])))
  }

  /** The body `handleSubmit` builds. */
  function SubmissionEntries(v: FormValues, files: seq<Upload>): (r: seq<Entry<Part>>)
    ensures |r| == 7 + |v.amenities| + |v.houseRules| + |files|
  {
    ScalarEntries(v) + IndexedEntries("amenities", v.amenities)
      + IndexedEntries("houseRules", v.houseRules) + FileEntries(files)
  }

  /** The appends of `handleSubmit`, one `forEach` loop per list. */
  method BuildSubmission(v: FormValues, files: seq<Upload>) returns (body: seq<Entry<Part>>)
    ensures body == SubmissionEntries(v, files)
  {
    body := [];
    body := body + [Entry("title", Value(Text(v.title)))];
    body := body + [Entry("description", Value(Text(v.description)))];
    body := body + [Entry("pricePerNight", Value(AppendedScalar(v.pricePerNight)))];
    body := body + [Entry("location", Value(Text(v.location)))];
    body := body + [Entry("maxGuests", Value(AppendedScalar(v.maxGuests)))];
    body := body + [Entry("bathrooms", Value(AppendedScalar(v.bathrooms)))];
    body := body + [Entry("bedrooms", Value(AppendedScalar(v.bedrooms)))];
    body := AppendIndexed(body, "amenities", v.amenities);
    body := AppendIndexed(body, "houseRules", v.houseRules);
    var i := 0;
    while i < |files|
      invariant 0 <= i <= |files|
      invariant body == ScalarEntries(v) + IndexedEntries("amenities", v.amenities)
                        + IndexedEntries("houseRules", v.houseRules) + FileEntries(files[..i])
    {
      assert FileEntries(files[..i + 1]) == FileEntries(files[..i]) + [Entry("images", File(files[i]))];
      body := body + [Entry("images", File(files[i]))];
      i := i + 1;
    }
    assert files[..i] == files;
  }

  /** `items.forEach((item, index) => formData.append(`name[${index}]`, item))`. */
  method AppendIndexed(body: seq<Entry<Part>>, name: string, items: seq<string>) returns (r: seq<Entry<Part>>)
    ensures r == body + IndexedEntries(name, items)
  {
    r := body;
    var i := 0;
    while i < |items|
      invariant 0 <= i <= |items|
      invariant r == body + IndexedEntries(name, items[..i])
    {
      assert IndexedEntries(name, items[..i + 1])
          == IndexedEntries(name, items[..i]) + [Entry(IndexedKey(name, i), Value(Text(items[i])))];
      r := r + [Entry(IndexedKey(name, i), Value(Text(items[i])))];
      i := i + 1;
    }
    assert items[..i] == items;
  }

  // --- Reading the body back ---

  /** Distinct positions of one list get distinct keys. */
  lemma IndexedKeyInjective(name: string, i: nat, j: nat)
    requires i != j
    ensures IndexedKey(name, i) != IndexedKey(name, j)
  {
    ShowInjective(i, j);
    var a, b := IndexedKey(name, i), IndexedKey(name, j);
    assert a[|name| + 1..|a| - 1] == Show(i);
    assert b[|name| + 1..|b| - 1] == Show(j);
  }

  /** An indexed key ends in ']' and begins as its list's name does. */
  lemma IndexedKeyShape(name: string, i: nat)
    requires |name| > 0
    ensures var k := IndexedKey(name, i); |k| > |name| && k[0] == name[0] && k[|k| - 1] == ']'
  {
  }

  /** Of a list's entries, only the one at position `i` carries the key `name[i]`. */
  lemma IndexedKeyOnlyAt(name: string, items: seq<string>, i: nat)
    requires i < |items|
    ensures IndexedEntries(name, items)[i].key == IndexedKey(name, i)
    ensures forall k :: 0 <= k < |items| && k != i ==> IndexedEntries(name, items)[k].key != IndexedKey(name, i)
  {
    forall k | 0 <= k < |items| && k != i
      ensures IndexedEntries(name, items)[k].key != IndexedKey(name, i)
    {
      IndexedKeyInjective(name, k, i);
    }
  }

  /** An item appended under `name[i]` reads back as itself, whatever
      entries without that key surround the list. */
  lemma IndexedReadBack(before: seq<Entry<Part>>, name: string, items: seq<string>, after: seq<Entry<Part>>, i: nat)
    requires i < |items|
    requires forall j :: 0 <= j < |before| ==> before[j].key != IndexedKey(name, i)
    requires forall j :: 0 <= j < |after| ==> after[j].key != IndexedKey(name, i)
    ensures GetAll(before + IndexedEntries(name, items) + after, IndexedKey(name, i)) == [Value(Text(items[i]))]
  {
    var middle := IndexedEntries(name, items);
    var key := IndexedKey(name, i);
    IndexedKeyOnlyAt(name, items, i);
    GetAllSingle(middle, key, i);
    GetAllAbsent(before, key);
    GetAllAbsent(after, key);
    GetAllAppend(before, middle, key);
    GetAllAppend(before + middle, after, key);
  }

  /** Amenity `i` reads back from the submitted body under `amenities[i]`. */
  lemma AmenityReadBack(v: FormValues, files: seq<Upload>, i: nat)
    requires i < |v.amenities|
    ensures GetAll(SubmissionEntries(v, files), IndexedKey("amenities", i)) == [Value(Text(v.amenities[i]))]
  {
    var key := IndexedKey("amenities", i);
    IndexedKeyShape("amenities", i);
    var after := IndexedEntries("houseRules", v.houseRules) + FileEntries(files);
    forall j | 0 <= j < |after| ensures after[j].key != key {
      if j < |v.houseRules| {
        IndexedKeyShape("houseRules", j);
      }
    }
    IndexedReadBack(ScalarEntries(v), "amenities", v.amenities, after, i);
    assert SubmissionEntries(v, files) == ScalarEntries(v) + IndexedEntries("amenities", v.amenities) + after;
  }

  /** House rule `i` reads back from the submitted body under `houseRules[i]`. */
  lemma HouseRuleReadBack(v: FormValues, files: seq<Upload>, i: nat)
    requires i < |v.houseRules|
    ensures GetAll(SubmissionEntries(v, files), IndexedKey("houseRules", i)) == [Value(Text(v.houseRules[i]))]
  {
    var key := IndexedKey("houseRules", i);
    IndexedKeyShape("houseRules", i);
    var before := ScalarEntries(v) + IndexedEntries("amenities", v.amenities);
    forall j | 0 <= j < |before| ensures before[j].key != key {
      if j >= 7 {
        IndexedKeyShape("amenities", j - 7);
      }
    }
    IndexedReadBack(before, "houseRules", v.houseRules, FileEntries(files), i);
  }

  /** The picked files read back under `images`, all of them and in order. */
  lemma ImagesReadBack(v: FormValues, files: seq<Upload>)
    ensures GetAll(SubmissionEntries(v, files), "images") == FileParts(files)
  {
    var before := ScalarEntries(v) + IndexedEntries("amenities", v.amenities) + IndexedEntries("houseRules", v.houseRules);
    forall j | 0 <= j < |before| ensures before[j].key != "images" {
      if 7 <= j < 7 + |v.amenities| {
        IndexedKeyShape("amenities", j - 7);
      } else if j >= 7 + |v.amenities| {
        IndexedKeyShape("houseRules", j - 7 - |v.amenities|);
      }
    }
    GetAllAbsent(before, "images");
    GetAllUniform(FileEntries(files), "images");
    assert Values(FileEntries(files)) == FileParts(files);
    GetAllAppend(before, FileEntries(files), "images");
  }

  /** Each of the seven fields reads back under its own key as the value the form held. */
  lemma ScalarReadBack(v: FormValues, files: seq<Upload>, j: nat)
    requires j < |ScalarKeys|
    ensures GetAll(SubmissionEntries(v, files), ScalarKeys[j]) == [ScalarEntries(v)[j].value]
  {
    var entries := SubmissionEntries(v, files);
    var key := ScalarKeys[j];
    var n := |v.amenities|;
    forall k | 0 <= k < |entries| && k != j ensures entries[k].key != key {
      if k < 7 {
        assert entries[k] == ScalarEntries(v)[k];
      } else if k < 7 + n {
        assert entries[k] == IndexedEntries("amenities", v.amenities)[k - 7];
        IndexedKeyShape("amenities", k - 7);
      } else if k < 7 + n + |v.houseRules| {
        assert entries[k] == IndexedEntries("houseRules", v.houseRules)[k - 7 - n];
        IndexedKeyShape("houseRules", k - 7 - n);
      } else {
        assert entries[k] == FileEntries(files)[k - 7 - n - |v.houseRules|];
      }
    }
    assert entries[j] == ScalarEntries(v)[j];
    GetAllSingle(entries, key, j);
  }

  /** On a form the schema accepts, the guest, bathroom and bedroom counts are
      sent as their decimal digits, which read back as the counts. */
  lemma CountsSentAsDigits(v: FormValues, files: seq<Upload>)
    requires IsValidForm(v)
    requires v.maxGuests.Number? && v.maxGuests.number < PlainDigitsBound
    requires v.bathrooms.Number? && v.bathrooms.number < PlainDigitsBound
    requires v.bedrooms.Number? && v.bedrooms.number < PlainDigitsBound
    ensures GetAll(SubmissionEntries(v, files), "maxGuests") == [Value(Text(ShowInt(v.maxGuests.number.Floor)))]
    ensures GetAll(SubmissionEntries(v, files), "bathrooms") == [Value(Text(ShowInt(v.bathrooms.number.Floor)))]
    ensures GetAll(SubmissionEntries(v, files), "bedrooms") == [Value(Text(ShowInt(v.bedrooms.number.Floor)))]
  {
    ValidFormMeans(v);
    ScalarReadBack(v, files, 4);
    ScalarReadBack(v, files, 5);
    ScalarReadBack(v, files, 6);
  }
}
