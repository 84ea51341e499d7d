/** DynamicDataProvider.java: test data files turned into one record per test iteration.
    The third-party readers (spreadsheet, CSV tokeniser, JSON mapper, XML parser) are
    outside the model: their outcome for the file is given, the CSV one as tokenised
    rows. What is modelled is the harness's own work on top of them. */
module TestData {
  import opened Common
  import opened Text

  // ---------------------------------------------------------------------------------
  // Records: LinkedHashMap<String, String>

  /** One map entry; Java allows a null key and null values. */
  datatype Entry = Entry(key: Option<string>, value: Option<string>)

  /** A LinkedHashMap: entries in insertion order. */
  type Record = seq<Entry>

  /** The keys in insertion order. */
  function Keys(m: Record): (ks: seq<Option<string>>)
    ensures |ks| == |m| && forall i | 0 <= i < |m| :: ks[i] == m[i].key
  {
    if m == [] then [] else [m[0].key] + Keys(m[1..])
  }

  predicate Distinct<T(==)>(s: seq<T>) {
    forall i, j | 0 <= i < j < |s| :: s[i] != s[j]
  }

  /** A map never holds two entries for one key. */
  predicate DistinctKeys(m: Record) {
    Distinct(Keys(m))
  }

  /** `get(k)`: None when the key is absent, else the stored (possibly null) value. */
  function Get(m: Record, k: Option<string>): Option<Option<string>>
    decreases |m|
  {
    if m == [] then None
    else if m[0].key == k then Some(m[0].value)
    else Get(m[1..], k)
  }

  /** `put(k, v)`: an existing key keeps its position and takes the new value; a new key
      is appended. */
  function Put(m: Record, k: Option<string>, v: Option<string>): (r: Record)
    ensures Get(r, k) == Some(v)
    ensures forall e | e in r :: e in m || e == Entry(k, v)
    decreases |m|
  {
    if m == [] then [Entry(k, v)]
    else if m[0].key == k then [Entry(k, v)] + m[1..]
    else [m[0]] + Put(m[1..], k, v)
  }

  /** `put` leaves the other keys alone. */
  lemma {:induction false} PutOther(m: Record, k: Option<string>, v: Option<string>, k': Option<string>)
    requires k' != k
    ensures Get(Put(m, k, v), k') == Get(m, k')
    decreases |m|
  {
    if m != [] && m[0].key != k {
      PutOther(m[1..], k, v, k');
    }
  }

  /** A key not yet present is appended at the end. */
  lemma {:induction false} PutNew(m: Record, k: Option<string>, v: Option<string>)
    requires k !in Keys(m)
    ensures Put(m, k, v) == m + [Entry(k, v)]
    decreases |m|
  {
    if m != [] {
      assert m[0].key == Keys(m)[0];
      assert Keys(m[1..]) == Keys(m)[1..];
      PutNew(m[1..], k, v);
    }
  }

  /** `put` adds a key only when it is new, at the end. */
  lemma {:induction false} PutKeys(m: Record, k: Option<string>, v: Option<string>)
    ensures Keys(Put(m, k, v)) == if k in Keys(m) then Keys(m) else Keys(m) + [k]
    decreases |m|
  {
    if m != [] && m[0].key != k {
      PutKeys(m[1..], k, v);
      assert k in Keys(m) <==> k in Keys(m[1..]);
    }
  }

  /** `put` never creates a second entry for a key. */
  lemma PutDistinct(m: Record, k: Option<string>, v: Option<string>)
    requires DistinctKeys(m)
    ensures DistinctKeys(Put(m, k, v))
  {
    PutKeys(m, k, v);
  }

  /** Every non-null key and value equals its own trim. */
  predicate AllTrimmed(m: Record) {
    forall e | e in m :: (e.key.Some? ==> IsTrimmed(e.key.value)) && (e.value.Some? ==> IsTrimmed(e.value.value))
  }

  // ---------------------------------------------------------------------------------
  // readCsv: header row plus data rows

  /** The header row after the in-place trim loop. */
  function TrimmedHeaders(header: seq<string>): (hs: seq<string>)
    ensures |hs| == |header| && forall j | 0 <= j < |header| :: hs[j] == Trim(header[j])
  {
    seq(|header|, j requires 0 <= j < |header| => Trim(header[j]))
  }

  /** The value a row gives column `j`: its trimmed cell, or "" past the row's end. */
  function Cell(row: seq<string>, j: nat): (c: string)
    ensures IsTrimmed(c)
    ensures j >= |row| ==> c == ""
  {
    if j < |row| then Trim(row[j]) else ""
  }

  /** The record of one data row after the first `n` columns of the header were put. */
  function RowRecord(headers: seq<string>, row: seq<string>, n: nat): Record
    requires n <= |headers|
  {
    if n == 0 then []
    else Put(RowRecord(headers, row, n - 1), Some(headers[n - 1]), Some(Cell(row, n - 1)))
  }

  /** What `readCsv` returns for the tokenised rows: nothing for an empty file, otherwise
      one record per row after the header, in row order. */
  function CsvRecords(rows: seq<seq<string>>): (data: seq<Record>)
    ensures |rows| == 0 ==> data == []
    ensures |rows| > 0 ==> |data| == |rows| - 1
    ensures |rows| > 0 ==> forall i | 0 <= i < |data| ::
              data[i] == RowRecord(TrimmedHeaders(rows[0]), rows[i + 1], |rows[0]|)
  {
    if rows == [] then []
    else
      var headers := TrimmedHeaders(rows[0]);
      seq(|rows| - 1, i requires 0 <= i < |rows| - 1 => RowRecord(headers, rows[i + 1], |headers|))
  }

  /** The last column among the first `n` whose header is `k`, if any. */
  function LastColumn(headers: seq<string>, k: string, n: nat): (r: Option<nat>)
    requires n <= |headers|
    ensures r.Some? ==> r.value < n && headers[r.value] == k
    ensures r.Some? ==> forall j | r.value < j < n :: headers[j] != k
    ensures r.None? ==> forall j | 0 <= j < n :: headers[j] != k
  {
    if n == 0 then None
    else if headers[n - 1] == k then Some(n - 1)
    else LastColumn(headers, k, n - 1)
  }

  /** Every key and value of a CSV record is non-null and trimmed. */
  lemma {:induction false} RowRecordClean(headers: seq<string>, row: seq<string>, n: nat)
    requires n <= |headers|
    requires forall j | 0 <= j < |headers| :: IsTrimmed(headers[j])
    ensures AllTrimmed(RowRecord(headers, row, n))
    ensures forall e | e in RowRecord(headers, row, n) :: e.key.Some? && e.value.Some?
  {
    if n > 0 {
      RowRecordClean(headers, row, n - 1);
    }
  }

  /** Looking up a header in a CSV record gives the trimmed cell of the LAST column with
      that header (an earlier duplicate column is overwritten); a string that is not a
      header is absent. */
  lemma {:induction false} RowRecordGet(headers: seq<string>, row: seq<string>, n: nat, k: string)
    requires n <= |headers|
    ensures Get(RowRecord(headers, row, n), Some(k)) ==
              match LastColumn(headers, k, n)
              case Some(j) => Some(Some(Cell(row, j)))
              case None => None
  {
    if n > 0 {
      RowRecordGet(headers, row, n - 1, k);
      if headers[n - 1] != k {
        PutOther(RowRecord(headers, row, n - 1), Some(headers[n - 1]), Some(Cell(row, n - 1)), Some(k));
      }
    }
  }

  /** With distinct headers the record is exactly header j mapped to cell j, for every
      column j of the header, in column order: short rows are padded with "" and cells
      past the header are dropped. */
  lemma {:induction false} RowRecordDistinct(headers: seq<string>, row: seq<string>, n: nat)
    requires n <= |headers|
    requires forall i, j | 0 <= i < j < |headers| :: headers[i] != headers[j]
    ensures RowRecord(headers, row, n) == seq(n, j requires 0 <= j < n => Entry(Some(headers[j]), Some(Cell(row, j))))
  {
    if n > 0 {
      RowRecordDistinct(headers, row, n - 1);
      var prev := RowRecord(headers, row, n - 1);
      assert Some(headers[n - 1]) !in Keys(prev);
      PutNew(prev, Some(headers[n - 1]), Some(Cell(row, n - 1)));
    }
  }

  /** The header-keyed shape of every CSV record. */
  lemma CsvRecordShape(rows: seq<seq<string>>, i: nat)
    requires i + 1 < |rows|
    requires forall a, b | 0 <= a < b < |rows[0]| :: Trim(rows[0][a]) != Trim(rows[0][b])
    ensures var rec := CsvRecords(rows)[i];
      && |rec| == |rows[0]|
      && forall j | 0 <= j < |rows[0]| ::
           rec[j] == Entry(Some(Trim(rows[0][j])), Some(if j < |rows[i + 1]| then Trim(rows[i + 1][j]) else ""))
  {
    var headers := TrimmedHeaders(rows[0]);
    RowRecordDistinct(headers, rows[i + 1], |headers|);
  }

  /** The in-place trim loop over the header array. */
  method TrimInPlace(headers: array<string>)
    modifies headers
    ensures headers[..] == TrimmedHeaders(old(headers[..]))
  {
    ghost var original := headers[..];
    for i := 0 to headers.Length
      invariant headers[..i] == TrimmedHeaders(original)[..i]
      invariant headers[i..] == original[i..]
    {
      headers[i] := Trim(headers[i]);
    }
  }

  /** The inner loop of `readCsv`: one data row put column by column into a fresh map. */
  method ReadRow(headers: array<string>, row: seq<string>) returns (m: Record)
    ensures m == RowRecord(headers[..], row, headers.Length)
  {
    m := [];
    for j := 0 to headers.Length
      invariant m == RowRecord(headers[..], row, j)
    {
      var value := if j < |row| then row[j] else "";
      m := Put(m, Some(headers[j]), Some(Trim(value)));
    }
  }

  /** `readCsv` on the tokenised rows: the header array is trimmed in place, then each
      data row is put column by column into a fresh record. */
  method ReadCsv(rows: seq<seq<string>>) returns (data: seq<Record>)
    ensures data == CsvRecords(rows)
  {
    data := [];
    if |rows| == 0 {
      return;
    }
    var headers := new string[|rows[0]|](j requires 0 <= j < |rows[0]| => rows[0][j]);
    assert headers[..] == rows[0];
    TrimInPlace(headers);
    ghost var expected := CsvRecords(rows);
    for i := 1 to |rows|
      invariant headers[..] == TrimmedHeaders(rows[0])
      invariant data == expected[..i - 1]
    {
      var m := ReadRow(headers, rows[i]);
      assert m == expected[i - 1];
      data := data + [m];
    }
    assert data == expected;
  }

  // ---------------------------------------------------------------------------------
  // The unified trim applied to every format

  /** `x != null ? x.trim() : null`. */
  function TrimOpt(s: Option<string>): (r: Option<string>)
    ensures r.Some? <==> s.Some?
    ensures s.Some? ==> r == Some(Trim(s.value))
    ensures r.Some? ==> IsTrimmed(r.value)
  {
    match s
    case Some(v) => Some(Trim(v))
    case None => None
  }

  /** The first `n` entries of `m`, with trimmed keys and values, put into a fresh map. */
  function Trimmed(m: Record, n: nat): (r: Record)
    requires n <= |m|
    ensures AllTrimmed(r) && DistinctKeys(r)
  {
    if n == 0 then []
    else
      var prev := Trimmed(m, n - 1);
      PutDistinct(prev, TrimOpt(m[n - 1].key), TrimOpt(m[n - 1].value));
      Put(prev, TrimOpt(m[n - 1].key), TrimOpt(m[n - 1].value))
  }

  /** The cleaned data: one trimmed record per raw record, in the same order. */
  function Normalized(raw: seq<Record>): (data: seq<Record>)
    ensures |data| == |raw|
    ensures forall i | 0 <= i < |raw| :: data[i] == Trimmed(raw[i], |raw[i]|) && AllTrimmed(data[i])
  {
    seq(|raw|, i requires 0 <= i < |raw| => Trimmed(raw[i], |raw[i]|))
  }

  /** The trimmed keys of the first `n` entries, duplicates included. */
  function TrimmedKeyList(m: Record, n: nat): seq<Option<string>>
    requires n <= |m|
  {
    seq(n, i requires 0 <= i < n => TrimOpt(m[i].key))
  }

  /** Each element of `s` at its first occurrence, in that order. */
  function FirstOccurrences<T(==)>(s: seq<T>): seq<T> {
    if s == [] then []
    else
      var p := FirstOccurrences(s[..|s| - 1]);
      if s[|s| - 1] in p then p else p + [s[|s| - 1]]
  }

  /** `FirstOccurrences` keeps every element once and loses none. */
  lemma {:induction false} FirstOccurrencesMembers<T>(s: seq<T>)
    ensures forall x :: x in FirstOccurrences(s) <==> x in s
    ensures Distinct(FirstOccurrences(s))
  {
    if s != [] {
      FirstOccurrencesMembers(s[..|s| - 1]);
      assert s == s[..|s| - 1] + [s[|s| - 1]];
    }
  }

  /** The trimmed map has one key per trimmed key of the input, placed where that key
      first occurred: a later key that trims to an earlier one takes no new position. */
  lemma {:induction false} TrimmedKeys(m: Record, n: nat)
    requires n <= |m|
    ensures Keys(Trimmed(m, n)) == FirstOccurrences(TrimmedKeyList(m, n))
  {
    if n > 0 {
      var prev, key, val := Trimmed(m, n - 1), TrimOpt(m[n - 1].key), TrimOpt(m[n - 1].value);
      var ks := TrimmedKeyList(m, n);
      TrimmedKeys(m, n - 1);
      assert ks[..|ks| - 1] == TrimmedKeyList(m, n - 1);
      PutKeys(prev, key, val);
    }
  }

  /** The value of the last of the first `n` entries whose key trims to `k`, trimmed. */
  function LastTrimmedValue(m: Record, n: nat, k: Option<string>): Option<Option<string>>
    requires n <= |m|
  {
    if n == 0 then None
    else if TrimOpt(m[n - 1].key) == k then Some(TrimOpt(m[n - 1].value))
    else LastTrimmedValue(m, n - 1, k)
  }

  /** The scan from the end finds a value exactly when some key trims to `k`, and then
      the value of an entry with that key after which no key trims to `k`. */
  lemma {:induction false} LastTrimmedValueIsLast(m: Record, n: nat, k: Option<string>)
    requires n <= |m|
    ensures LastTrimmedValue(m, n, k).None? <==> forall i | 0 <= i < n :: TrimOpt(m[i].key) != k
    ensures LastTrimmedValue(m, n, k).Some? ==>
              exists i | 0 <= i < n :: && TrimOpt(m[i].key) == k
                                       && LastTrimmedValue(m, n, k).value == TrimOpt(m[i].value)
                                       && forall j | i < j < n :: TrimOpt(m[j].key) != k
  {
    if n > 0 && TrimOpt(m[n - 1].key) != k {
      LastTrimmedValueIsLast(m, n - 1, k);
      if LastTrimmedValue(m, n - 1, k).Some? {
        var i :| && 0 <= i < n - 1 && TrimOpt(m[i].key) == k
                 && LastTrimmedValue(m, n - 1, k).value == TrimOpt(m[i].value)
                 && forall j | i < j < n - 1 :: TrimOpt(m[j].key) != k;
        assert forall j | i < j < n :: TrimOpt(m[j].key) != k;
      }
    }
  }

  /** Looking a key up in the trimmed map gives the trimmed value of the last entry
      whose key trims to it (a later `put` overwrites an earlier one), and nothing when
      no key trims to it. */
  lemma {:induction false} TrimmedGet(m: Record, n: nat, k: Option<string>)
    requires n <= |m|
    ensures Get(Trimmed(m, n), k) == LastTrimmedValue(m, n, k)
  {
    if n > 0 {
      var prev, key, val := Trimmed(m, n - 1), TrimOpt(m[n - 1].key), TrimOpt(m[n - 1].value);
      assert Trimmed(m, n) == Put(prev, key, val);
      if key != k {
        PutOther(prev, key, val, k);
        TrimmedGet(m, n - 1, k);
      }
    }
  }

  /** In a map with distinct keys, no entry's key occurs among the keys before it. */
  lemma KeyNotEarlier(m: Record, n: nat)
    requires n < |m| && DistinctKeys(m)
    ensures m[n].key !in Keys(m[..n])
  {
  }

  /** Trimming the key and value of a clean entry changes nothing. */
  lemma TrimOptOfClean(e: Entry)
    requires e.key.Some? ==> IsTrimmed(e.key.value)
    requires e.value.Some? ==> IsTrimmed(e.value.value)
    ensures TrimOpt(e.key) == e.key && TrimOpt(e.value) == e.value
  {
  }

  /** A record that is already clean comes out of the trim unchanged. */
  lemma {:induction false} TrimmedOfClean(m: Record, n: nat)
    requires n <= |m|
    requires AllTrimmed(m) && DistinctKeys(m)
    ensures Trimmed(m, n) == m[..n]
  {
    if n > 0 {
      TrimmedOfClean(m, n - 1);
      var e := m[n - 1];
      assert e in m;
      TrimOptOfClean(e);
      KeyNotEarlier(m, n - 1);
      PutNew(m[..n - 1], e.key, e.value);
      assert m[..n] == m[..n - 1] + [e];
    }
  }

  /** Normalising twice is normalising once. */
  lemma NormalizedIdempotent(raw: seq<Record>)
    ensures Normalized(Normalized(raw)) == Normalized(raw)
  {
    var once := Normalized(raw);
    forall i | 0 <= i < |raw|
      ensures Trimmed(once[i], |once[i]|) == once[i]
    {
      TrimmedOfClean(once[i], |once[i]|);
    }
  }

  /** The normalisation loop of `loadData`. */
  method NormalizeAll(raw: seq<Record>) returns (cleaned: seq<Record>)
    ensures cleaned == Normalized(raw)
  {
    cleaned := [];
    for i := 0 to |raw|
      invariant cleaned == Normalized(raw)[..i]
    {
      var original := raw[i];
      var trimmed: Record := [];
      for j := 0 to |original|
        invariant trimmed == Trimmed(original, j)
      {
        var key := if original[j].key.Some? then Some(Trim(original[j].key.value)) else None;
        var val := if original[j].value.Some? then Some(Trim(original[j].value.value)) else None;
        trimmed := Put(trimmed, key, val);
      }
      cleaned := cleaned + [trimmed];
    }
  }

  /** `convertToArray`: an n-by-1 array whose row i holds record i. */
  method ConvertToArray(data: seq<Record>) returns (arr: array2<Record>)
    ensures fresh(arr)
    ensures arr.Length0 == |data| && arr.Length1 == 1
    ensures forall i | 0 <= i < |data| :: arr[i, 0] == data[i]
  {
    arr := new Record[|data|, 1];
    for i := 0 to |data|
      invariant forall k | 0 <= k < i :: arr[k, 0] == data[k]
    {
      arr[i, 0] := data[i];
    }
  }

  // ---------------------------------------------------------------------------------
  // loadData and getData

  datatype Format = Xlsx | Csv | Json | Xml

  function Suffix(f: Format): string {
    match f
    case Xlsx => ".xlsx"
    case Csv => ".csv"
    case Json => ".json"
    case Xml => ".xml"
  }

  /** The extension dispatch, tried in the order of the source. */
  function FormatOf(fileName: string): Option<Format> {
    if EndsWith(fileName, ".xlsx") then Some(Xlsx)
    else if EndsWith(fileName, ".csv") then Some(Csv)
    else if EndsWith(fileName, ".json") then Some(Json)
    else if EndsWith(fileName, ".xml") then Some(Xml)
    else None
  }

  /** A file is read as a format exactly when its name ends with that format's suffix
      (no suffix is a suffix of another, so the order of the tests does not matter). */
  lemma FormatOfIsSuffix(fileName: string, f: Format)
    ensures FormatOf(fileName) == Some(f) <==> EndsWith(fileName, Suffix(f))
  {
    var n := |fileName|;
    if EndsWith(fileName, Suffix(f)) {
      match f
      case Xlsx =>
      case Csv =>
        assert fileName[n - 1] == 'v';
      case Json =>
        assert fileName[n - 1] == 'n';
      case Xml =>
        assert fileName[n - 1] == 'l';
    }
  }

  /** What the third-party readers yield for the file: records for the spreadsheet
      (of the requested sheet), JSON and XML readers, tokenised rows for the CSV one,
      or the exception they throw. */
  datatype Readers = Readers(
    xlsx: Result<seq<Record>>,
    csv: Result<seq<seq<string>>>,
    json: Result<seq<Record>>,
    xml: Result<seq<Record>>)

  const LoadFailedPrefix := "Failed to load test data from: "

  /** The records `loadData` hands to TestNG, or its wrapped exception. */
  function LoadedRecords(fileName: string, readers: Readers): (r: Result<seq<Record>>)
    ensures r.Err? ==> r.error == LoadFailedPrefix + fileName
    ensures FormatOf(fileName).None? ==> r.Err?
    ensures FormatOf(fileName) == Some(Xlsx) ==>
              && (r.Ok? <==> readers.xlsx.Ok?)
              && (r.Ok? ==> r.value == Normalized(readers.xlsx.value))
    ensures FormatOf(fileName) == Some(Csv) ==>
              && (r.Ok? <==> readers.csv.Ok?)
              && (r.Ok? ==> r.value == Normalized(CsvRecords(readers.csv.value)))
    ensures FormatOf(fileName) == Some(Json) ==>
              && (r.Ok? <==> readers.json.Ok?)
              && (r.Ok? ==> r.value == Normalized(readers.json.value))
    ensures FormatOf(fileName) == Some(Xml) ==>
              && (r.Ok? <==> readers.xml.Ok?)
              && (r.Ok? ==> r.value == Normalized(readers.xml.value))
    ensures r.Ok? ==> forall i | 0 <= i < |r.value| :: AllTrimmed(r.value[i])
  {
    var raw: Result<seq<Record>> :=
      match FormatOf(fileName)
      case Some(Xlsx) => readers.xlsx
      case Some(Csv) => (match readers.csv case Ok(rows) => Ok(CsvRecords(rows)) case Err(e) => Err(e))
      case Some(Json) => readers.json
      case Some(Xml) => readers.xml
      case None => Err("Unsupported file type: " + fileName);
    match raw
    case Ok(data) => Ok(Normalized(data))
    case Err(_) => Err(LoadFailedPrefix + fileName)
  }

  /** `loadData`: dispatch on the extension, normalise, pack. Any exception inside,
      including an unsupported extension, comes out wrapped with the file name. */
  method LoadData(fileName: string, readers: Readers) returns (r: Result<array2<Record>>)
    ensures r.Ok? <==> LoadedRecords(fileName, readers).Ok?
    ensures r.Err? ==> r.error == LoadedRecords(fileName, readers).error
    ensures r.Ok? ==> fresh(r.value)
    ensures r.Ok? ==> var data := LoadedRecords(fileName, readers).value;
              && r.value.Length0 == |data| && r.value.Length1 == 1
              && forall i | 0 <= i < |data| :: r.value[i, 0] == data[i]
  {
    var raw: seq<Record>;
    if EndsWith(fileName, ".xlsx") {
      if readers.xlsx.Err? { return Err(LoadFailedPrefix + fileName); }
      raw := readers.xlsx.value;
    } else if EndsWith(fileName, ".csv") {
      if readers.csv.Err? { return Err(LoadFailedPrefix + fileName); }
      raw := ReadCsv(readers.csv.value);
    } else if EndsWith(fileName, ".json") {
      if readers.json.Err? { return Err(LoadFailedPrefix + fileName); }
      raw := readers.json.value;
    } else if EndsWith(fileName, ".xml") {
      if readers.xml.Err? { return Err(LoadFailedPrefix + fileName); }
      raw := readers.xml.value;
    } else {
      return Err(LoadFailedPrefix + fileName);
    }
    var cleaned := NormalizeAll(raw);
    var arr := ConvertToArray(cleaned);
    r := Ok(arr);
  }

  /** The `@TestDataFile` annotation of a test method. */
  datatype TestDataFile = TestDataFile(file: string, sheet: string)

  /** `getData`: a test method without the annotation is refused before any file is
      touched (this exception is not wrapped); otherwise the annotated file is loaded. */
  method GetData(methodName: string, annotation: Option<TestDataFile>, readers: Readers) returns (r: Result<array2<Record>>)
    ensures annotation.None? ==> r == Err("\U{26A0}\U{FE0F} Missing @TestDataFile annotation on test: " + methodName)
    ensures annotation.Some? ==> (r.Ok? <==> LoadedRecords(annotation.value.file, readers).Ok?)
    ensures annotation.Some? && r.Err? ==> r.error == LoadedRecords(annotation.value.file, readers).error
    ensures annotation.Some? && r.Ok? ==> fresh(r.value)
    ensures annotation.Some? && r.Ok? ==> var data := LoadedRecords(annotation.value.file, readers).value;
              && r.value.Length0 == |data| && r.value.Length1 == 1
              && forall i | 0 <= i < |data| :: r.value[i, 0] == data[i]
  {
    if annotation.None? {
      return Err("\U{26A0}\U{FE0F} Missing @TestDataFile annotation on test: " + methodName);
    }
    r := LoadData(annotation.value.file, readers);
  }
}
