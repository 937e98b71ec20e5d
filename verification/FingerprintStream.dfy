/**
 The byte stream a dependency fingerprint hashes (internal/dependencies/fingerprint.go) is a uniquely
 decodable serialisation of its inputs. A char stands for one byte.
 */
module FingerprintStream {
  import opened Common

  const NUL := '\0'

  predicate NulFree(s: string) { NUL !in s }

  /** Version, platform, architecture, runtime, runtime version, ABI, manager, manager version, mode,
      and the command as JSON, which escapes NUL. */
  const HEADER_FIELDS := 10

  datatype FileInput = Missing(path: string) | Present(path: string, content: string)

  datatype Input = Input(header: seq<string>, files: seq<FileInput>)

  // ---------------------------------------------------------------------------------------------
  // Writing
  // ---------------------------------------------------------------------------------------------

  function Digit(d: nat): char
    requires d < 10
  {
    ('0' as int + d) as char
  }

  function Decimal(n: nat): string { if n < 10 then [Digit(n)] else Decimal(n / 10) + [Digit(n % 10)] }

  function Field(field: string): string { field + [NUL] }

  function Fields(fields: seq<string>): string { if fields == [] then "" else Field(fields[0]) + Fields(fields[1..]) }

  function FileBytes(file: FileInput): string {
    match file
    case Missing(path) => Field(path) + Field("missing")
    case Present(path, content) => Field(path) + Field(Decimal(|content|)) + content + [NUL]
  }

  function FilesBytes(files: seq<FileInput>): string { if files == [] then "" else FileBytes(files[0]) + FilesBytes(files[1..]) }

  function Stream(input: Input): string { Fields(input.header) + FilesBytes(input.files) }

  // ---------------------------------------------------------------------------------------------
  // Reading back
  // ---------------------------------------------------------------------------------------------

  predicate IsDigit(c: char) { '0' <= c <= '9' }

  function Parse(s: string): Option<nat> {
    if s == "" then None
    else
      var last := s[|s| - 1];
      if !IsDigit(last) then None
      else if |s| == 1 then Some(last as int - '0' as int)
      else
        var rest := Parse(s[..|s| - 1]);
        if rest.None? then None else Some(rest.value * 10 + (last as int - '0' as int))
  }

  datatype Taken<T> = Taken(value: T, rest: string)

  /** Up to the first NUL. */
  function ReadField(s: string): (r: Option<Taken<string>>)
    ensures r.Some? ==> |r.value.rest| < |s|
  {
    if s == "" then None
    else if s[0] == NUL then Some(Taken("", s[1..]))
    else
      var r := ReadField(s[1..]);
      if r.None? then None else Some(Taken([s[0]] + r.value.value, r.value.rest))
  }

  function ReadFields(s: string, n: nat): Option<Taken<seq<string>>>
    decreases n
  {
    if n == 0 then Some(Taken([], s))
    else
      var first := ReadField(s);
      if first.None? then None
      else
        var others := ReadFields(first.value.rest, n - 1);
        if others.None? then None else Some(Taken([first.value.value] + others.value.value, others.value.rest))
  }

  function ReadFile(s: string): (r: Option<Taken<FileInput>>)
    ensures r.Some? ==> |r.value.rest| < |s|
  {
    var path := ReadField(s);
    if path.None? then None
    else
      var size := ReadField(path.value.rest);
      if size.None? then None
      else if size.value.value == "missing" then Some(Taken(Missing(path.value.value), size.value.rest))
      else
        var n := Parse(size.value.value);
        if n.None? || |size.value.rest| <= n.value || size.value.rest[n.value] != NUL then None
        else Some(Taken(Present(path.value.value, size.value.rest[..n.value]), size.value.rest[n.value + 1..]))
  }

  function ReadFiles(s: string): Option<seq<FileInput>>
    decreases |s|
  {
    if s == "" then Some([])
    else
      var first := ReadFile(s);
      if first.None? then None
      else
        var others := ReadFiles(first.value.rest);
        if others.None? then None else Some([first.value.value] + others.value)
  }

  function Decode(s: string): Option<Input> {
    var header := ReadFields(s, HEADER_FIELDS);
    if header.None? then None
    else
      var files := ReadFiles(header.value.rest);
      if files.None? then None else Some(Input(header.value.value, files.value))
  }

  // ---------------------------------------------------------------------------------------------
  // The round trip
  // ---------------------------------------------------------------------------------------------

  lemma {:induction false} DecimalParses(n: nat)
    ensures Decimal(n) != "" && Parse(Decimal(n)) == Some(n)
    ensures forall c :: c in Decimal(n) ==> IsDigit(c)
  {
    if n >= 10 {
      DecimalParses(n / 10);
      var s := Decimal(n);
      assert s[..|s| - 1] == Decimal(n / 10);
    }
  }

  lemma {:induction false} FieldReads(field: string, rest: string)
    requires NulFree(field)
    ensures ReadField(Field(field) + rest) == Some(Taken(field, rest))
  {
    var s := Field(field) + rest;
    if field == "" {
      assert s[1..] == rest;
    } else {
      assert s[1..] == Field(field[1..]) + rest;
      FieldReads(field[1..], rest);
      assert field == [field[0]] + field[1..];
    }
  }

  lemma {:induction false} FieldsRead(fields: seq<string>, rest: string)
    requires forall f :: f in fields ==> NulFree(f)
    ensures ReadFields(Fields(fields) + rest, |fields|) == Some(Taken(fields, rest))
  {
    if fields == [] {
      assert Fields(fields) + rest == rest;
    } else {
      assert Fields(fields) + rest == Field(fields[0]) + (Fields(fields[1..]) + rest);
      FieldReads(fields[0], Fields(fields[1..]) + rest);
      FieldsRead(fields[1..], rest);
      assert fields == [fields[0]] + fields[1..];
    }
  }

  /** A size is never mistaken for the missing marker, nor the other way round. */
  lemma FileReads(file: FileInput, rest: string)
    requires NulFree(file.path)
    ensures ReadFile(FileBytes(file) + rest) == Some(Taken(file, rest))
  {
    var s := FileBytes(file) + rest;
    match file
    case Missing(path) =>
      assert s == Field(path) + (Field("missing") + rest);
      FieldReads(path, Field("missing") + rest);
      FieldReads("missing", rest);
    case Present(path, content) =>
      var size := Decimal(|content|);
      var tail := content + [NUL] + rest;
      DecimalParses(|content|);
      assert s == Field(path) + (Field(size) + tail);
      FieldReads(path, Field(size) + tail);
      FieldReads(size, tail);
      assert "missing"[0] == 'm';
      assert tail[..|content|] == content && tail[|content| + 1..] == rest;
  }

  lemma {:induction false} FilesRead(files: seq<FileInput>)
    requires forall f :: f in files ==> NulFree(f.path)
    ensures ReadFiles(FilesBytes(files)) == Some(files)
  {
    if files != [] {
      FileReads(files[0], FilesBytes(files[1..]));
      FilesRead(files[1..]);
      assert files == [files[0]] + files[1..];
      assert |FileBytes(files[0])| > 0;
    }
  }

  predicate Encodable(input: Input) {
    |input.header| == HEADER_FIELDS && (forall f :: f in input.header ==> NulFree(f)) && forall f :: f in input.files ==> NulFree(f.path)
  }

  /** The decoder recovers every header field and every path with its marker or content, whatever
      bytes the content holds. */
  lemma StreamDecodes(input: Input)
    requires Encodable(input)
    ensures Decode(Stream(input)) == Some(input)
  {
    FieldsRead(input.header, FilesBytes(input.files));
    FilesRead(input.files);
  }

  /** So different inputs never hash the same bytes. */
  lemma DifferentInputsDifferentStreams(x: Input, y: Input)
    requires Encodable(x) && Encodable(y) && x != y
    ensures Stream(x) != Stream(y)
  {
    StreamDecodes(x);
    StreamDecodes(y);
  }
}
