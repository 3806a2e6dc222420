/** The upload route: the stored file's name and public URL, and the decisions of
    `POST /api/upload` around the file-system calls, whose outcomes are parameters. */
module Upload {
  import opened Wrappers
  import opened Text

  // ---------------------------------------------------------------------------
  // `name.replace(/\s+/g, rep)`

  /** `s` without its leading white space. */
  function SkipWhitespace(s: string): (r: string)
    ensures |r| <= |s| && r == s[|s| - |r|..]
    ensures r == [] || !IsWhitespace(r[0])
    ensures IsBlank(s[..|s| - |r|])
    ensures |s| > 0 && IsWhitespace(s[0]) ==> |r| < |s|
  {
    if s != [] && IsWhitespace(s[0]) then SkipWhitespace(s[1..]) else s
  }

  /** Every maximal run of white space in `s` replaced by one copy of `rep`. */
  function ReplaceWhitespaceRuns(s: string, rep: string): (r: string)
    ensures NoWhitespace(rep) ==> NoWhitespace(r)
    decreases |s|
  {
    if s == [] then ""
    else if IsWhitespace(s[0]) then rep + ReplaceWhitespaceRuns(SkipWhitespace(s), rep)
    else [s[0]] + ReplaceWhitespaceRuns(s[1..], rep)
  }

  /** The reference reading of the same replacement: a left-to-right scan that
      writes `rep` at the first white-space character of each run and drops the
      rest of the run. */
  function ScanReplace(s: string, rep: string, inRun: bool): string
    decreases |s|
  {
    if s == [] then ""
    else if IsWhitespace(s[0]) then (if inRun then "" else rep) + ScanReplace(s[1..], rep, true)
    else [s[0]] + ScanReplace(s[1..], rep, false)
  }

  lemma {:induction false} ScanInRun(s: string, rep: string)
    ensures ScanReplace(s, rep, true) == ScanReplace(SkipWhitespace(s), rep, false)
    decreases |s|
  {
    if s != [] && IsWhitespace(s[0]) {
      ScanInRun(s[1..], rep);
    }
  }

  /** The run-by-run definition agrees with the scanner on every input. */
  lemma {:induction false} ReplaceAgreesWithScan(s: string, rep: string)
    ensures ReplaceWhitespaceRuns(s, rep) == ScanReplace(s, rep, false)
    decreases |s|
  {
    if s != [] {
      if IsWhitespace(s[0]) {
        ScanInRun(s[1..], rep);
        assert SkipWhitespace(s) == SkipWhitespace(s[1..]);
        ReplaceAgreesWithScan(SkipWhitespace(s), rep);
      } else {
        ReplaceAgreesWithScan(s[1..], rep);
      }
    }
  }

  /** A name without white space is left as it is. */
  lemma {:induction false} ReplaceWithoutWhitespace(s: string, rep: string)
    requires NoWhitespace(s)
    ensures ReplaceWhitespaceRuns(s, rep) == s
    decreases |s|
  {
    if s != [] {
      assert !IsWhitespace(s[0]);
      ReplaceWithoutWhitespace(s[1..], rep);
    }
  }

  /** `s` with every white-space character removed. */
  function Erase(s: string): (r: string)
    ensures NoWhitespace(r)
  {
    if s == [] then ""
    else if IsWhitespace(s[0]) then Erase(s[1..])
    else [s[0]] + Erase(s[1..])
  }

  /** `s` with every `-` removed. */
  function DropDashes(s: string): string {
    if s == [] then "" else if s[0] == '-' then DropDashes(s[1..]) else [s[0]] + DropDashes(s[1..])
  }

  lemma {:induction false} DropDashesAppend(a: string, b: string)
    ensures DropDashes(a + b) == DropDashes(a) + DropDashes(b)
  {
    if a != [] {
      assert (a + b)[0] == a[0];
      assert (a + b)[1..] == a[1..] + b;
      DropDashesAppend(a[1..], b);
    } else {
      assert a + b == b;
    }
  }

  lemma {:induction false} EraseSkipped(s: string)
    ensures Erase(SkipWhitespace(s)) == Erase(s)
  {
    if s != [] && IsWhitespace(s[0]) {
      EraseSkipped(s[1..]);
    }
  }

  /** Apart from the dashes, the replacement keeps exactly the non-white-space
      characters of the name, in their original order. */
  lemma {:induction false} ReplaceKeepsOtherCharacters(s: string)
    ensures DropDashes(ReplaceWhitespaceRuns(s, "-")) == DropDashes(Erase(s))
    decreases |s|
  {
    if s != [] {
      if IsWhitespace(s[0]) {
        var rest := SkipWhitespace(s);
        DropDashesAppend("-", ReplaceWhitespaceRuns(rest, "-"));
        ReplaceKeepsOtherCharacters(rest);
        EraseSkipped(s);
      } else {
        DropDashesAppend([s[0]], ReplaceWhitespaceRuns(s[1..], "-"));
        DropDashesAppend([s[0]], Erase(s[1..]));
        ReplaceKeepsOtherCharacters(s[1..]);
      }
    }
  }

  /** With an empty replacement the operation is exactly the removal of white space. */
  lemma {:induction false} ReplaceWithNothingErases(s: string)
    ensures ReplaceWhitespaceRuns(s, "") == Erase(s)
    decreases |s|
  {
    if s != [] {
      if IsWhitespace(s[0]) {
        ReplaceWithNothingErases(SkipWhitespace(s));
        EraseSkipped(s);
      } else {
        ReplaceWithNothingErases(s[1..]);
      }
    }
  }

  // ---------------------------------------------------------------------------
  // Stored name and public URL

  /** The name part of the stored file: white-space runs become `-`. */
  function SanitizeName(name: string): (r: string)
    ensures NoWhitespace(r)
  {
    ReplaceWhitespaceRuns(name, "-")
  }

  /** Sanitising a sanitised name changes nothing. */
  lemma SanitizeIdempotent(name: string)
    ensures SanitizeName(SanitizeName(name)) == SanitizeName(name)
  {
    ReplaceWithoutWhitespace(SanitizeName(name), "-");
  }

  /** `${Date.now()}-${sanitised name}`. */
  function Filename(now: nat, name: string): string {
    Decimal(now) + "-" + SanitizeName(name)
  }

  const UrlPrefix := "/uploads/"

  /** `/uploads/${filename}`. */
  function PublicUrl(filename: string): string {
    UrlPrefix + filename
  }

  /** Reads a stored name back into its timestamp and its name part: the digits
      before the first `-`, and everything after it. */
  function ParseFilename(f: string): Option<(nat, string)> {
    if '-' !in f then None
    else
      var i := IndexOf(f, '-');
      if i > 0 && AllDigits(f[..i]) then Some((ParseDecimal(f[..i]), f[i + 1..])) else None
  }

  /** Reads a public URL back into the timestamp and name part of its file. */
  function ParseUploadUrl(u: string): Option<(nat, string)> {
    if |u| >= |UrlPrefix| && u[..|UrlPrefix|] == UrlPrefix then ParseFilename(u[|UrlPrefix|..]) else None
  }

  lemma DigitsHaveNoDash(s: string)
    requires AllDigits(s)
    ensures '-' !in s
  {
  }

  /** The stored name determines the upload time and the sanitised name. */
  lemma FilenameRoundTrip(now: nat, name: string)
    ensures ParseFilename(Filename(now, name)) == Some((now, SanitizeName(name)))
  {
    var d := Decimal(now);
    var f := Filename(now, name);
    DigitsHaveNoDash(d);
    IndexOfPrefix(d, '-', SanitizeName(name));
    assert f[..|d|] == d;
    assert f[|d| + 1..] == SanitizeName(name);
    DecimalRoundTrip(now);
  }

  /** The public URL determines the upload time and the sanitised name. */
  lemma PublicUrlRoundTrip(now: nat, name: string)
    ensures ParseUploadUrl(PublicUrl(Filename(now, name))) == Some((now, SanitizeName(name)))
  {
    var u := PublicUrl(Filename(now, name));
    assert u[..|UrlPrefix|] == UrlPrefix;
    assert u[|UrlPrefix|..] == Filename(now, name);
    FilenameRoundTrip(now, name);
  }

  // ---------------------------------------------------------------------------
  // `POST /api/upload`

  /** What `formData.get('file')` gives: nothing, a text field, or a file. */
  datatype FormValue = Missing | TextValue(text: string) | FileValue(name: string, bytes: seq<bv8>)

  /** The request: a body that is not form data, or a parsed form's `file` entry. */
  datatype UploadRequest = UnreadableForm | Form(file: FormValue)

  datatype UploadBody = UrlBody(url: string) | ErrorBody(error: string)

  datatype UploadResponse = UploadResponse(status: int, body: UploadBody)

  const NoFile := UploadResponse(400, ErrorBody("No file uploaded"))
  const UploadFailed := UploadResponse(500, ErrorBody("Failed to upload file"))

  /** `!file` in JavaScript: no entry, or an empty text entry. */
  predicate FileMissing(v: FormValue) {
    v.Missing? || (v.TextValue? && !Truthy(v.text))
  }

  /** The upload directory `public/uploads`: whether it exists and the files in it. */
  class UploadDirectory {
    var present: bool
    var files: map<string, seq<bv8>>

    /** The directory holds files only once it exists. */
    ghost predicate Valid()
      reads this
    {
      files != map[] ==> present
    }

    constructor (present: bool, files: map<string, seq<bv8>>)
      requires files != map[] ==> present
      ensures Valid() && this.present == present && this.files == files
    {
      this.present := present;
      this.files := files;
    }

    /** The route's `POST`. `now` is `Date.now()`; `mkdirOk` and `writeOk` are the
        outcomes of `fs.mkdir` and `fs.writeFile`; `fs.access` fails exactly when the
        directory is absent. */
    method Post(request: UploadRequest, now: nat, mkdirOk: bool, writeOk: bool) returns (response: UploadResponse)
      requires Valid()
      modifies this
      ensures Valid()
      ensures request.UnreadableForm? ==> response == UploadFailed
      ensures request.Form? && FileMissing(request.file) ==> response == NoFile
      ensures request.Form? && request.file.TextValue? && request.file.text != "" ==> response == UploadFailed
      ensures response.status != 200 ==> files == old(files)
      ensures response.status == 400 || request.UnreadableForm? || request.file.TextValue? ==> present == old(present)
      ensures present == (old(present) || (request.Form? && request.file.FileValue? && mkdirOk))
      ensures request.Form? && request.file.FileValue? ==>
                var name := Filename(now, request.file.name);
                if (old(present) || mkdirOk) && writeOk then
                  response == UploadResponse(200, UrlBody(PublicUrl(name)))
                  && files == old(files)[name := request.file.bytes]
                else response == UploadFailed
    {
      if request.UnreadableForm? {
        return UploadFailed;
      }
      var file := request.file;
      if FileMissing(file) {
        return NoFile;
      }
      if file.TextValue? {
        // a text entry has no `arrayBuffer`: the call throws
        return UploadFailed;
      }
      if !present {
        if !mkdirOk {
          return UploadFailed;
        }
        present := true;
      }
      var filename := Filename(now, file.name);
      if !writeOk {
        return UploadFailed;
      }
      files := files[filename := file.bytes];
      response := UploadResponse(200, UrlBody(PublicUrl(filename)));
    }
  }
}
