/** Reading a fixture file (`parse_html5lib_dat_file`, src/html5lib_tests_bench/html5lib_dat.py).

    The file's bytes are a parameter (reading the file is I/O). The UTF-8 and UTF-16
    codecs are parameters too: each maps bytes to text, or to `None` where Python raises
    `UnicodeDecodeError`. Only the byte-order-mark dispatch and the Latin-1 fallback are
    concrete. */
module Decoding {
  import opened Wrappers
  import opened DatParser
  import opened FixturePath

  newtype byte = b: int | 0 <= b < 256

  /** The strict decoders the dispatch chooses from. */
  datatype Codecs = Codecs(
    utf8: seq<byte> -> Option<string>,
    utf16le: seq<byte> -> Option<string>,
    utf16be: seq<byte> -> Option<string>)

  /** The exception a failed decode raises out of `parse_html5lib_dat_file`. */
  datatype DecodeError = UnicodeDecodeError(encoding: string)

  const BomUtf8: seq<byte> := [0xEF, 0xBB, 0xBF]
  const BomUtf16Le: seq<byte> := [0xFF, 0xFE]
  const BomUtf16Be: seq<byte> := [0xFE, 0xFF]

  predicate StartsWith(data: seq<byte>, prefix: seq<byte>) {
    |prefix| <= |data| && data[..|prefix|] == prefix
  }

  /** The three marks differ in their first byte, so at most one of them opens the data. */
  lemma BomsExclusive(data: seq<byte>)
    ensures StartsWith(data, BomUtf8) ==> !StartsWith(data, BomUtf16Le) && !StartsWith(data, BomUtf16Be)
    ensures StartsWith(data, BomUtf16Le) ==> !StartsWith(data, BomUtf16Be)
  {
    if StartsWith(data, BomUtf8) {
      assert data[0] == BomUtf8[0];
    }
    if StartsWith(data, BomUtf16Le) {
      assert data[0] == BomUtf16Le[0];
    }
  }

  /** What every strict UTF-8 decoder does: the bytes 0xF5 to 0xFF occur in no UTF-8
      text, so data holding one is rejected. */
  ghost predicate StrictUtf8(codecs: Codecs) {
    forall data: seq<byte>, i :: 0 <= i < |data| && data[i] >= 0xF5 ==> codecs.utf8(data).None?
  }

  predicate HasBom(data: seq<byte>) {
    StartsWith(data, BomUtf8) || StartsWith(data, BomUtf16Le) || StartsWith(data, BomUtf16Be)
  }

  /** Latin-1: byte `b` is code point `b`. */
  function Latin1Decode(data: seq<byte>): (r: string)
    ensures |r| == |data|
    ensures forall i :: 0 <= i < |data| ==> r[i] as int == data[i] as int
  {
    seq(|data|, i requires 0 <= i < |data| => (data[i] as int) as char)
  }

  predicate IsLatin1(s: string) {
    forall i :: 0 <= i < |s| ==> s[i] as int < 256
  }

  /** The inverse direction, defined on text whose code points all fit in a byte. */
  function Latin1Encode(s: string): (r: seq<byte>)
    requires IsLatin1(s)
    ensures |r| == |s|
  {
    seq(|s|, i requires 0 <= i < |s| => (s[i] as int) as byte)
  }

  /** Latin-1 loses nothing: encoding the decoded text gives the bytes back. */
  lemma Latin1RoundTrip(data: seq<byte>)
    ensures IsLatin1(Latin1Decode(data))
    ensures Latin1Encode(Latin1Decode(data)) == data
  {
  }

  /** ... and decoding the encoded text gives the text back. */
  lemma Latin1RoundTripText(s: string)
    requires IsLatin1(s)
    ensures Latin1Decode(Latin1Encode(s)) == s
  {
  }

  /** The text of a fixture file: a UTF-8 byte-order mark selects UTF-8 without the mark,
      a UTF-16 mark (either order) selects UTF-16 of that order without the mark; with
      no mark strict UTF-8 is tried and Latin-1 taken when it fails. */
  function DecodeFixture(data: seq<byte>, codecs: Codecs): (r: Result<string, DecodeError>)
    // without a byte-order mark decoding never fails
    ensures !HasBom(data) ==> r.Success?
    ensures !HasBom(data) && codecs.utf8(data).Some? ==> r == Success(codecs.utf8(data).value)
    ensures !HasBom(data) && codecs.utf8(data).None? ==> r == Success(Latin1Decode(data))
    // a UTF-8 mark is checked before the UTF-16 marks, and the mark is not decoded
    ensures StartsWith(data, BomUtf8) ==>
              r == (match codecs.utf8(data[3..])
                    case Some(t) => Success(t)
                    case None => Failure(UnicodeDecodeError("utf-8-sig")))
    ensures StartsWith(data, BomUtf16Le) ==>
              r == (match codecs.utf16le(data[2..])
                    case Some(t) => Success(t)
                    case None => Failure(UnicodeDecodeError("utf-16")))
    ensures StartsWith(data, BomUtf16Be) ==>
              r == (match codecs.utf16be(data[2..])
                    case Some(t) => Success(t)
                    case None => Failure(UnicodeDecodeError("utf-16")))
  {
    BomsExclusive(data);
    if StartsWith(data, BomUtf8) then
      match codecs.utf8(data[3..])
      case Some(t) => Success(t)
      case None => Failure(UnicodeDecodeError("utf-8-sig"))
    else if StartsWith(data, BomUtf16Le) || StartsWith(data, BomUtf16Be) then
      // Python's "utf-16" codec reads the mark, decodes the rest in that byte order
      var rest := data[2..];
      match (if StartsWith(data, BomUtf16Le) then codecs.utf16le(rest) else codecs.utf16be(rest))
      case Some(t) => Success(t)
      case None => Failure(UnicodeDecodeError("utf-16"))
    else
      match codecs.utf8(data)
      case Some(t) => Success(t)
      case None => Success(Latin1Decode(data))
  }

  /** `parse_html5lib_dat_file(path)`: decode, then parse with `str(Path(path))` as the
      source file. */
  function ParseFile(path: string, data: seq<byte>, codecs: Codecs): (r: Result<seq<DatTest>, DecodeError>)
    ensures r.Success? <==> DecodeFixture(data, codecs).Success?
    ensures r.Success? ==> r.value == ParseText(DecodeFixture(data, codecs).value, PathName(path))
    ensures r.Success? ==>
              forall i :: 0 <= i < |r.value| ==> r.value[i].index == i && r.value[i].sourceFile == PathName(path)
  {
    match DecodeFixture(data, codecs)
    case Success(text) => Success(ParseText(text, PathName(path)))
    case Failure(e) => Failure(e)
  }

  lemma ParseDecoded(path: string, data: seq<byte>, codecs: Codecs, text: string)
    requires DecodeFixture(data, codecs) == Success(text)
    ensures ParseFile(path, data, codecs) == Success(ParseText(text, PathName(path)))
  {
  }

  /** Every test of a parsed file names the file as `str(Path(path))` renders it. */
  lemma ParseFileNames(path: string, data: seq<byte>, codecs: Codecs, t: DatTest)
    requires ParseFile(path, data, codecs).Success? && t in ParseFile(path, data, codecs).value
    ensures t.sourceFile == PathName(path)
  {
    var ts := ParseFile(path, data, codecs).value;
    var j :| 0 <= j < |ts| && ts[j] == t;
  }
}
