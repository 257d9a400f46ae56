/** Upload validation and model availability (rag-local-api/config/utils.py). */
module FileRules {
  import opened Common
  import opened Text

  const MaxFileSizeMb: nat := 8
  const BytesPerMb: nat := 1024 * 1024

  /** The largest accepted upload, in bytes: `size_mb > 8` is `size > 8 * 1024 * 1024`. */
  const MaxFileBytes: nat := MaxFileSizeMb * BytesPerMb

  const AllowedExtensions: set<string> := {".pdf", ".txt", ".docx"}

  /** The document loader registered for an extension. */
  datatype Loader = PyPdfLoader | Docx2txtLoader | Utf8TextLoader

  const Loaders: map<string, Loader> :=
    map[".pdf" := PyPdfLoader, ".docx" := Docx2txtLoader, ".txt" := Utf8TextLoader]

  /** Every allowed extension has a loader and every loader's extension is allowed. */
  lemma AllowedExtensionsAreLoaderKeys()
    ensures Loaders.Keys == AllowedExtensions
  {
  }

  /** The index of the last occurrence of `c` in `s`, or -1. */
  function LastIndexOf(s: string, c: char): (i: int)
    ensures -1 <= i < |s|
    ensures i >= 0 ==> s[i] == c
    ensures forall j :: i < j < |s| ==> s[j] != c
  {
    if s == [] then -1
    else if s[|s| - 1] == c then |s| - 1
    else LastIndexOf(s[..|s| - 1], c)
  }

  /** `os.path.splitext(p)[1]` on POSIX: the text from the last dot of the last path
      component, unless that component consists of dots up to it (".pdf", "..x"). */
  function SplitExt(p: string): string {
    var sep := LastIndexOf(p, '/');
    var dot := LastIndexOf(p, '.');
    if dot > sep && exists i :: sep < i < dot && p[i] != '.' then p[dot..] else ""
  }

  /** An extension is empty or a dot followed by text without dots or slashes, taken from the end of the name. */
  lemma SplitExtIsSuffix(p: string)
    ensures var e := SplitExt(p);
            e == "" ||
            (|e| <= |p| && e == p[|p| - |e|..] && e[0] == '.' &&
             forall j :: 0 < j < |e| ==> e[j] != '.' && e[j] != '/')
  {
    var e := SplitExt(p);
    if e != "" {
      var dot := LastIndexOf(p, '.');
      var sep := LastIndexOf(p, '/');
      forall j | 0 < j < |e| ensures e[j] != '.' && e[j] != '/' {
        assert e[j] == p[dot + j];
      }
    }
  }

  /** The lower-cased extension `validate_file` and `ingest` compare. */
  function Extension(filename: string): string {
    Lower(SplitExt(filename))
  }

  /** Python's round-half-to-even of n / d. */
  function RoundHalfEven(n: nat, d: nat): nat
    requires d > 0
  {
    var q := n / d;
    var r := n % d;
    if 2 * r > d || (2 * r == d && q % 2 == 1) then q + 1 else q
  }

  /** `f"{size / 2**20:.2f}"`: the size in MiB with two decimals. */
  function FormatMb(size: nat): string {
    var hundredths := RoundHalfEven(size * 100, BytesPerMb);
    var cents := hundredths % 100;
    NatToDecimal(hundredths / 100) + "." + [DigitChar(cents / 10), DigitChar(cents % 10)]
  }

  /** Why `validate_file` refuses a file. */
  datatype Rejection = BadType(ext: string) | TooLarge(size: nat)

  /** The decision `validate_file` takes: the extension first, then the size. */
  function CheckFile(filename: string, size: nat): (r: Option<Rejection>)
    ensures r.Some? && r.value.TooLarge? ==> r.value.size == size
  {
    var ext := Extension(filename);
    if ext !in AllowedExtensions then Some(BadType(ext))
    else if size > MaxFileBytes then Some(TooLarge(size))
    else None
  }

  /** The 400 `validate_file` raises for a rejection. */
  function RejectionError(r: Rejection): (e: HttpError)
    ensures e.status == 400
  {
    match r
    case BadType(ext) => HttpError(400, "Tipo de archivo no permitido: " + ext)
    case TooLarge(size) => HttpError(400, "Archivo muy grande: " + FormatMb(size) + " MB (máx 8 MB)")
  }

  /** A file passes exactly when its lower-cased extension is allowed and it is at most 8 MiB. */
  lemma CheckFilePasses(filename: string, size: nat)
    ensures CheckFile(filename, size).None? <==>
            Extension(filename) in AllowedExtensions && size <= 8 * 1024 * 1024
  {
  }

  /** A disallowed type is reported, with the extension, even when the file is also too large. */
  lemma ExtensionCheckedFirst(filename: string, size: nat)
    requires Extension(filename) !in AllowedExtensions
    ensures CheckFile(filename, size) == Some(BadType(Extension(filename)))
    ensures RejectionError(CheckFile(filename, size).value) ==
            HttpError(400, "Tipo de archivo no permitido: " + Extension(filename))
  {
  }

  /** A name without a dot has extension "" and is rejected. */
  lemma NoDotRejected(filename: string, size: nat)
    requires forall i :: 0 <= i < |filename| ==> filename[i] != '.'
    ensures SplitExt(filename) == "" && CheckFile(filename, size) == Some(BadType(""))
  {
    assert LastIndexOf(filename, '.') == -1;
  }

  /** The extension is compared case-insensitively: "Informe.PDF" is a PDF. */
  lemma UpperCaseExtensionAccepted()
    ensures Extension("Informe.PDF") == ".pdf"
  {
    var p := "Informe.PDF";
    assert LastIndexOf(p, '/') == -1;
    assert p[7] == '.' && p[8] != '.' && p[9] != '.' && p[10] != '.';
    assert LastIndexOf(p, '.') == 7;
    assert p[0] != '.';
    assert SplitExt(p) == ".PDF";
  }

  /** A file of exactly 8 MiB passes; one byte more is rejected, and the message rounds it to 8.00 MB. */
  lemma SizeBoundary()
    ensures CheckFile("a.pdf", 8388608) == None
    ensures CheckFile("a.pdf", 8388609) == Some(TooLarge(8388609))
    ensures RejectionError(TooLarge(8388609)) == HttpError(400, "Archivo muy grande: 8.00 MB (máx 8 MB)")
  {
    var p := "a.pdf";
    assert LastIndexOf(p, '/') == -1;
    assert p[1] == '.' && p[2] != '.' && p[3] != '.' && p[4] != '.';
    assert LastIndexOf(p, '.') == 1;
    assert p[0] != '.';
    assert SplitExt(p) == ".pdf";
    assert Extension(p) == ".pdf";
    assert RoundHalfEven(8388609 * 100, BytesPerMb) == 800;
    assert NatToDecimal(8) == "8";
    assert FormatMb(8388609) == "8.00";
    assert "Archivo muy grande: " + "8.00" + " MB (máx 8 MB)" == "Archivo muy grande: 8.00 MB (máx 8 MB)";
  }

  /** `is_valid_model`: the name is among the names Ollama reported; a failed query
      (`None`) makes every name invalid. */
  function IsValidModel(name: string, fetched: Option<seq<string>>): (ok: bool)
    ensures ok ==> fetched.Some?
  {
    match fetched
    case None => false
    case Some(names) => name in names
  }

  /** An uploaded file: its name, its size in bytes, and the read position of its stream. */
  class Upload {
    const filename: string
    const size: nat
    var position: nat

    constructor (filename: string, size: nat, position: nat)
      ensures this.filename == filename && this.size == size && this.position == position
    {
      this.filename := filename;
      this.size := size;
      this.position := position;
    }

    /** `file.file.seek(0, os.SEEK_END)` followed by `file.file.tell()`. */
    method SeekEndAndTell() returns (offset: nat)
      modifies this`position
      ensures position == size && offset == size
    {
      position := size;
      offset := position;
    }

    /** `validate_file(file)`: `None` when the file passes, else the 400 it raises.
        The stream is rewound to 0 once the extension has passed, whatever the size;
        a rejected extension leaves the position untouched. */
    method ValidateFile() returns (r: Option<HttpError>)
      modifies this`position
      ensures r.None? <==> CheckFile(filename, size).None?
      ensures r.Some? ==> r.value == RejectionError(CheckFile(filename, size).value)
      ensures Extension(filename) in AllowedExtensions ==> position == 0
      ensures Extension(filename) !in AllowedExtensions ==> position == old(position)
    {
      var ext := Extension(filename);
      if ext !in AllowedExtensions {
        return Some(HttpError(400, "Tipo de archivo no permitido: " + ext));
      }
      var bytes := SeekEndAndTell();
      position := 0;
      if bytes > MaxFileBytes {
        return Some(HttpError(400, "Archivo muy grande: " + FormatMb(bytes) + " MB (máx 8 MB)"));
      }
      return None;
    }
  }
}
