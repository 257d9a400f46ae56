/** The glue in the `Ingest` page (ux-react/src/components/Ingest.jsx, component
    `DropzoneUploader`): the two chunk fields and how an edit is coerced, what the upload
    button sends and when it is disabled, and when the result panels show. */
module IngestView {
  import opened Common
  import opened Text
  import opened ClientEffects
  import opened UploaderHook
  import IngestRoute

  /** The characters JavaScript's `parseInt` skips before the number: its WhiteSpace
      and LineTerminator characters. */
  predicate IsJsSpace(c: char) {
    c == '\t' || c == '\n' || c == '\U{0B}' || c == '\U{0C}' || c == '\r' || c == ' ' ||
    c == '\U{A0}' || c == '\U{1680}' || ('\U{2000}' <= c <= '\U{200A}') ||
    c == '\U{2028}' || c == '\U{2029}' || c == '\U{202F}' || c == '\U{205F}' ||
    c == '\U{3000}' || c == '\U{FEFF}'
  }

  function TrimStart(s: string): (r: string)
    ensures |r| <= |s| && r == s[|s| - |r|..]
    ensures r == [] || !IsJsSpace(r[0])
  {
    if s != [] && IsJsSpace(s[0]) then TrimStart(s[1..]) else s
  }

  /** The longest run of decimal digits at the start of `s`. */
  function DigitPrefix(s: string): (r: string)
    ensures r <= s && AllDigits(r)
    ensures |r| < |s| ==> !IsDigit(s[|r|])
  {
    if s != [] && IsDigit(s[0]) then [s[0]] + DigitPrefix(s[1..]) else []
  }

  /** `parseInt(s)` for decimal text: leading white space is skipped, then an optional
      sign and the digits that follow it; anything after them is ignored. `None` is NaN. */
  function JsParseInt(s: string): Option<int> {
    ParseSigned(TrimStart(s))
  }

  /** `parseInt` after the white space: an optional sign, then the leading digits. */
  function ParseSigned(t: string): Option<int> {
    var body := if t != [] && (t[0] == '-' || t[0] == '+') then t[1..] else t;
    var digits := DigitPrefix(body);
    if digits == [] then None
    else if t[0] == '-' then Some(-(DecimalValue(digits) as int))
    else Some(DecimalValue(digits) as int)
  }

  /** `parseInt(value) || 0`: NaN (and 0) give 0. */
  function FieldValue(text: string): int {
    match JsParseInt(text)
    case None => 0
    case Some(n) => if n == 0 then 0 else n
  }

  lemma {:induction false} DigitPrefixOfDigits(d: string, rest: string)
    requires AllDigits(d) && (rest == [] || !IsDigit(rest[0]))
    ensures DigitPrefix(d + rest) == d
  {
    if d != [] {
      assert (d + rest)[1..] == d[1..] + rest;
      DigitPrefixOfDigits(d[1..], rest);
    }
  }

  /** A numeral starts with a sign or a digit, so no white space is skipped before it. */
  lemma NumeralNotTrimmed(s: string)
    requires s != [] && (s[0] == '-' || IsDigit(s[0]))
    ensures TrimStart(s) == s
  {
    assert !IsJsSpace(s[0]);
  }

  /** Text starting with a digit is read as its leading digits. */
  lemma ParseUnsigned(x: string, d: string)
    requires d != [] && DigitPrefix(x) == d
    ensures ParseSigned(x) == Some(DecimalValue(d) as int)
  {
    assert x[0] == d[0];
  }

  /** A minus sign negates the digits after it. */
  lemma ParseNegative(x: string, d: string)
    requires d != [] && DigitPrefix(x) == d
    ensures ParseSigned("-" + x) == Some(-(DecimalValue(d) as int))
  {
    var s := "-" + x;
    assert s[0] == '-';
    assert s[1..] == x;
  }

  /** The numeral of a natural number and what follows it, as `parseInt` reads them. */
  lemma ParseNaturalNumeral(n: nat, rest: string)
    requires rest == [] || !IsDigit(rest[0])
    ensures JsParseInt(NatToDecimal(n) + rest) == Some(n as int)
  {
    var d := NatToDecimal(n);
    var s := d + rest;
    assert s[0] == d[0];
    NumeralNotTrimmed(s);
    DigitPrefixOfDigits(d, rest);
    ParseUnsigned(s, d);
    DecimalRoundTrip(n);
  }

  /** The numeral of a negative number and what follows it, as `parseInt` reads them. */
  lemma ParseNegativeNumeral(n: int, rest: string)
    requires n < 0 && (rest == [] || !IsDigit(rest[0]))
    ensures JsParseInt("-" + NatToDecimal(-n) + rest) == Some(n)
  {
    var d := NatToDecimal(-n);
    var s := "-" + d + rest;
    assert s == "-" + (d + rest);
    assert s[0] == '-';
    NumeralNotTrimmed(s);
    DigitPrefixOfDigits(d, rest);
    ParseNegative(d + rest, d);
    DecimalRoundTrip(-n);
    assert -(DecimalValue(d) as int) == n;
  }

  /** A numeral followed by anything that does not continue it (".5", "e3", "px") is
      read as its integer part, sign included. */
  lemma ParseLeadingInt(n: int, rest: string)
    requires rest == [] || !IsDigit(rest[0])
    requires rest == [] || (rest[0] != 'x' && rest[0] != 'X')
    ensures JsParseInt(IntToDecimal(n) + rest) == Some(n)
  {
    if n < 0 {
      ParseNegativeNumeral(n, rest);
    } else {
      ParseNaturalNumeral(n, rest);
    }
  }

  /** Editing a field to the numeral of an integer stores that integer, 0 and negative
      values included. */
  lemma FieldValueRoundTrip(n: int)
    ensures FieldValue(IntToDecimal(n)) == n
  {
    ParseLeadingInt(n, "");
    assert IntToDecimal(n) + "" == IntToDecimal(n);
  }

  /** An emptied field stores 0, and a fraction stores its integer part. */
  lemma FieldValueExamples()
    ensures FieldValue("") == 0
    ensures FieldValue("12.5") == 12
  {
    var t := "12.5";
    assert TrimStart(t) == t;
    assert DigitPrefix(t[2..]) == [];
    assert DigitPrefix(t[1..]) == "2";
    assert DigitPrefix(t) == "12";
    assert DecimalValue("1") == 1;
  }

  class DropzoneUploader {
    const uploader: Uploader
    var chunkSize: int
    var chunkOverlap: int

    /** The fields start at the server's defaults. */
    constructor (uploader: Uploader)
      ensures this.uploader == uploader
      ensures chunkSize == 1000 && chunkOverlap == 50
      ensures chunkSize == IngestRoute.DefaultChunkSize && chunkOverlap == IngestRoute.DefaultChunkOverlap
    {
      this.uploader := uploader;
      chunkSize := 1000;
      chunkOverlap := 50;
    }

    /** The chunk-size input's `onChange`. */
    method EditChunkSize(text: string)
      modifies this`chunkSize
      ensures chunkSize == FieldValue(text)
    {
      chunkSize := FieldValue(text);
    }

    /** The chunk-overlap input's `onChange`. */
    method EditChunkOverlap(text: string)
      modifies this`chunkOverlap
      ensures chunkOverlap == FieldValue(text)
    {
      chunkOverlap := FieldValue(text);
    }

    /** `disabled={!selectedFiles || loading}`: an empty but non-null selection leaves
        the button enabled. */
    predicate UploadDisabled()
      reads this, uploader
    {
      uploader.selected.None? || uploader.loading
    }

    /** The success panel shows iff `hasIndexed`. */
    predicate ShowsSuccessPanel()
      reads this, uploader
    {
      HasIndexed(uploader.result)
    }

    /** The error panel shows iff `hasErrors`, independently of the success panel. */
    predicate ShowsErrorPanel()
      reads this, uploader
    {
      HasErrors(uploader.result)
    }

    /** `onUploadClick`: the fields go to the upload as they are; the server, not the
        client, rejects a non-positive size or an overlap that is not below the size. */
    method UploadClick() returns (payload: Option<seq<FormField>>)
      modifies uploader`loading, uploader`requests, uploader`reports
      ensures payload.None? <==> NothingSelected(uploader.selected)
      ensures payload.None? ==>
                uploader.loading == old(uploader.loading) && uploader.requests == old(uploader.requests) &&
                uploader.reports == old(uploader.reports) + [SelectionWarning]
      ensures payload.Some? ==>
                uploader.loading &&
                uploader.requests == old(uploader.requests) + [PostIngest(payload.value)] &&
                GetAll(payload.value, "files") == FileParts(uploader.selected.value) &&
                ReadIntField(payload.value, "chunk_size") == Value(chunkSize) &&
                ReadIntField(payload.value, "chunk_overlap") == Value(chunkOverlap)
    {
      payload := uploader.StartUpload(Some(chunkSize), Some(chunkOverlap));
    }
  }

  /** With an empty selection the button is enabled, and clicking it only warns. */
  method ClickWithEmptySelection(view: DropzoneUploader) returns (payload: Option<seq<FormField>>)
    requires view.uploader.selected == Some([]) && !view.uploader.loading
    modifies view.uploader
    ensures !old(view.UploadDisabled())
    ensures payload.None? && !view.uploader.loading
    ensures view.uploader.reports == old(view.uploader.reports) + [SelectionWarning]
    ensures view.uploader.requests == old(view.uploader.requests)
  {
    payload := view.UploadClick();
  }

  /** A partially successful ingest shows both panels. */
  lemma BothPanelsShow(indexed: string, failed: IngestRoute.FileError, chunks: nat)
    ensures var r := Some(FromServer(IngestRoute.Respond(IngestRoute.Tally([indexed], chunks, [failed]))));
            HasIndexed(r) && HasErrors(r)
  {
  }
}
