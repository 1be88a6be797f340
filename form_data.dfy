/** The multipart form body that the browser's FormData builds: an ordered list
    of (key, value) entries in which a key may repeat. Both the property form
    and the property service fill one by successive appends. */
module FormData {
  import opened Common

  /** A file picked in a file input; only its identity matters to the model. */
  datatype Upload = Upload(name: string, size: nat)

  /** A form field value: the text of an input, or the number a numeric input yields. */
  datatype Scalar = Text(text: string) | Number(number: real)

  /** One appended entry. */
  datatype Entry<V> = Entry(key: string, value: V)

  /** What an append stores: a field value in the form `AppendedScalar` gives
      it, or a file. */
  datatype Part = Value(scalar: Scalar) | File(upload: Upload)

  /** Below this magnitude JavaScript writes a whole number as plain digits. */
  const PlainDigitsBound: real := 1000000000000000000000.0

  predicate IsPlainWhole(r: real) {
    r.Floor as real == r && -PlainDigitsBound < r < PlainDigitsBound
  }

  /** What `formData.append(key, value)` stores for a field value: FormData
      keeps the string form of every value that is not a file. A text is kept
      as it is, and a whole number below 1e21 in magnitude becomes its decimal
      digits, as `String(n)` writes them. A fractional number stays a number
      here: its JavaScript text (the shortest decimal that reads back as the
      same double) is not computed. */
  function AppendedScalar(s: Scalar): (t: Scalar)
    ensures s.Text? ==> t == s
    ensures t.Number? ==> t == s && !IsPlainWhole(s.number)
    ensures s.Number? && IsPlainWhole(s.number) && s.number >= 0.0
            ==> t.Text? && AllDigits(t.text) && ParseDecimal(t.text) as real == s.number
    ensures s.Number? && IsPlainWhole(s.number) && s.number < 0.0
            ==> t.Text? && |t.text| >= 2 && t.text[0] == '-' && AllDigits(t.text[1..])
                && -(ParseDecimal(t.text[1..]) as real) == s.number
  {
    match s
    case Text(_) => s
    case Number(r) =>
      if IsPlainWhole(r) then
        var n := r.Floor;
        ParseShow(if n < 0 then -n else n);
        assert n < 0 ==> ("-" + Show(-n))[1..] == Show(-n);
        Text(ShowInt(n))
      else s
  }

  /** The values of `entries`, in order. */
  function Values<V>(entries: seq<Entry<V>>): seq<V> {
    seq(|entries|, i requires 0 <= i < |entries| => entries[i].value)
  }

  /** `formData.getAll(key)`: the values appended under `key`, in append order. */
  function GetAll<V>(entries: seq<Entry<V>>, key: string): (vs: seq<V>)
    ensures |vs| <= |entries|
    ensures forall v :: v in vs ==> Entry(key, v) in entries
    decreases |entries|
  {
    if entries == [] then []
    else GetAll(entries[..|entries| - 1], key)
         + (if entries[|entries| - 1].key == key then [entries[|entries| - 1].value] else [])
  }

  /** Appending more entries never disturbs what earlier keys read back. */
  lemma {:induction false} GetAllAppend<V>(a: seq<Entry<V>>, b: seq<Entry<V>>, key: string)
    ensures GetAll(a + b, key) == GetAll(a, key) + GetAll(b, key)
    decreases |b|
  {
    if b == [] {
      assert a + b == a;
    } else {
      assert (a + b)[..|a + b| - 1] == a + b[..|b| - 1];
      GetAllAppend(a, b[..|b| - 1], key);
    }
  }

  /** A key that no entry carries reads back as nothing. */
  lemma {:induction false} GetAllAbsent<V>(entries: seq<Entry<V>>, key: string)
    requires forall i :: 0 <= i < |entries| ==> entries[i].key != key
    ensures GetAll(entries, key) == []
    decreases |entries|
  {
    if entries != [] {
      GetAllAbsent(entries[..|entries| - 1], key);
    }
  }

  /** Entries that all carry `key` read back as all their values, in order. */
  lemma {:induction false} GetAllUniform<V>(entries: seq<Entry<V>>, key: string)
    requires forall i :: 0 <= i < |entries| ==> entries[i].key == key
    ensures GetAll(entries, key) == Values(entries)
    decreases |entries|
  {
    if entries != [] {
      var front := entries[..|entries| - 1];
      GetAllUniform(front, key);
      assert Values(entries) == Values(front) + [entries[|entries| - 1].value];
    }
  }

  /** One entry under `key` between entries under other keys reads back alone. */
  lemma GetAllBetween<V>(before: seq<Entry<V>>, e: Entry<V>, after: seq<Entry<V>>, key: string)
    requires e.key == key
    requires forall j :: 0 <= j < |before| ==> before[j].key != key
    requires forall j :: 0 <= j < |after| ==> after[j].key != key
    ensures GetAll(before + [e] + after, key) == [e.value]
  {
    GetAllAbsent(before, key);
    GetAllAbsent(after, key);
    assert [e][..0] == [];
    assert GetAll([e], key) == [e.value];
    GetAllAppend(before, [e], key);
    GetAllAppend(before + [e], after, key);
  }

  /** A key carried by exactly one entry reads back as that entry's value. */
  lemma GetAllSingle<V>(entries: seq<Entry<V>>, key: string, i: int)
    requires 0 <= i < |entries| && entries[i].key == key
    requires forall j :: 0 <= j < |entries| && j != i ==> entries[j].key != key
    ensures GetAll(entries, key) == [entries[i].value]
  {
    var before, after := entries[..i], entries[i + 1..];
    assert forall j :: 0 <= j < |before| ==> before[j] == entries[j];
    assert forall j :: 0 <= j < |after| ==> after[j] == entries[i + 1 + j];
    assert entries == before + [entries[i]] + after;
    GetAllBetween(before, entries[i], after, key);
  }

  /** The parts a list of files is appended as, in order. */
  function FileParts(files: seq<Upload>): (parts: seq<Part>)
    ensures |parts| == |files|
    ensures forall i :: 0 <= i < |files| ==> parts[i] == File(files[i])
  {
    seq(|files|, i requires 0 <= i < |files| => File(files[i]))
  }

  /** The parts of two lists of files are the parts of each, in order. */
  lemma FilePartsAppend(a: seq<Upload>, b: seq<Upload>)
    ensures FileParts(a + b) == FileParts(a) + FileParts(b)
  {
  }
}
