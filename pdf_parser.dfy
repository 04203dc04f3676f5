/** The PDF service: a magic-byte check on an uploaded buffer, and the placeholder
    text that stands in for extraction, built from the length of the buffer's
    base64 encoding (section 4 of RFC 4648, with `=` padding). */
module PdfParser {
  import opened Wrappers

  /** `%PDF`. */
  const PDF_MAGIC: seq<Byte> := [0x25, 0x50, 0x44, 0x46]

  /** `buffer.subarray(0, 4)`: at most the first four bytes. */
  function Head(b: seq<Byte>): seq<Byte> {
    if |b| < 4 then b else b[..4]
  }

  /** `validatePDFFile`. */
  function ValidatePdf(b: seq<Byte>): (ok: bool)
    ensures ok <==> |b| >= 4 && b[0] == 0x25 && b[1] == 0x50 && b[2] == 0x44 && b[3] == 0x46
  {
    Head(b) == PDF_MAGIC
  }

  lemma ShortBufferRejected(b: seq<Byte>)
    requires |b| < 4
    ensures !ValidatePdf(b)
  {
  }

  /** Only the first four bytes matter. */
  lemma OnlyPrefixMatters(b: seq<Byte>, c: seq<Byte>)
    requires |b| >= 4 && |c| >= 4 && b[..4] == c[..4]
    ensures ValidatePdf(b) == ValidatePdf(c)
  {
    assert b[0] == b[..4][0] && b[1] == b[..4][1] && b[2] == b[..4][2] && b[3] == b[..4][3];
    assert c[0] == c[..4][0] && c[1] == c[..4][1] && c[2] == c[..4][2] && c[3] == c[..4][3];
  }

  lemma MagicAccepted(rest: seq<Byte>)
    ensures ValidatePdf(PDF_MAGIC + rest)
  {
  }

  // ---------------------------------------------------------------------------
  // Base64

  /** The base64 alphabet: `A`-`Z`, `a`-`z`, `0`-`9`, `+`, `/`. */
  function Base64Char(n: int): (c: char)
    requires 0 <= n < 64
  {
    if n < 26 then ('A' as int + n) as char
    else if n < 52 then ('a' as int + n - 26) as char
    else if n < 62 then ('0' as int + n - 52) as char
    else if n == 62 then '+' else '/'
  }

  predicate IsBase64Char(c: char) {
    'A' <= c <= 'Z' || 'a' <= c <= 'z' || '0' <= c <= '9' || c == '+' || c == '/' || c == '='
  }

  /** The last one or two bytes, padded with `=` to four characters. */
  function EncodeTail(b: seq<Byte>): (s: string)
    requires 1 <= |b| <= 2
    ensures |s| == 4
  {
    if |b| == 1 then
      [Base64Char(b[0] / 4), Base64Char((b[0] % 4) * 16), '=', '=']
    else
      [Base64Char(b[0] / 4), Base64Char((b[0] % 4) * 16 + b[1] / 16), Base64Char((b[1] % 16) * 4), '=']
  }

  /** `buffer.toString('base64')`: three bytes at a time into four characters. */
  function Base64Encode(b: seq<Byte>): (s: string)
    ensures forall i | 0 <= i < |s| :: IsBase64Char(s[i])
  {
    if |b| == 0 then ""
    else if |b| < 3 then EncodeTail(b)
    else
      [Base64Char(b[0] / 4), Base64Char((b[0] % 4) * 16 + b[1] / 16),
       Base64Char((b[1] % 16) * 4 + b[2] / 64), Base64Char(b[2] % 64)] + Base64Encode(b[3..])
  }

  /** The padded length: four characters per started group of three bytes. */
  lemma {:induction false} Base64Length(b: seq<Byte>)
    ensures |Base64Encode(b)| == 4 * ((|b| + 2) / 3)
  {
    if |b| >= 3 {
      Base64Length(b[3..]);
    }
  }

  // ---------------------------------------------------------------------------
  // Decimal rendering of the length

  function DecimalDigit(d: int): char
    requires 0 <= d < 10
  {
    ('0' as int + d) as char
  }

  /** A template literal's rendering of a natural number. */
  function NatToDecimal(n: nat): (s: string)
    ensures |s| >= 1
    ensures forall i | 0 <= i < |s| :: '0' <= s[i] <= '9'
    ensures |s| > 1 ==> s[0] != '0'
  {
    if n < 10 then [DecimalDigit(n)] else NatToDecimal(n / 10) + [DecimalDigit(n % 10)]
  }

  function DecimalToNat(s: string): nat
    requires forall i | 0 <= i < |s| :: '0' <= s[i] <= '9'
  {
    if s == [] then 0 else DecimalToNat(s[..|s| - 1]) * 10 + (s[|s| - 1] as int - '0' as int)
  }

  lemma {:induction false} DecimalRoundTrip(n: nat)
    ensures DecimalToNat(NatToDecimal(n)) == n
  {
    if n >= 10 {
      var s := NatToDecimal(n);
      assert s[..|s| - 1] == NatToDecimal(n / 10);
      DecimalRoundTrip(n / 10);
    }
  }

  lemma NatToDecimalInjective(m: nat, n: nat)
    requires NatToDecimal(m) == NatToDecimal(n)
    ensures m == n
  {
    DecimalRoundTrip(m);
    DecimalRoundTrip(n);
  }

  // ---------------------------------------------------------------------------
  // Placeholder extraction

  const PLACEHOLDER_PREFIX := "[PDF_CONTENT_EXTRACTED_FROM_"
  const PLACEHOLDER_SUFFIX := "_BYTES]"

  /** `extractTextFromPDF`. */
  function ExtractText(b: seq<Byte>): string {
    PLACEHOLDER_PREFIX + NatToDecimal(|Base64Encode(b)|) + PLACEHOLDER_SUFFIX
  }

  /** The number in the placeholder is the padded base64 length `4 * ceil(n / 3)`,
      not the byte count. */
  lemma ExtractTextLength(b: seq<Byte>)
    ensures ExtractText(b) == PLACEHOLDER_PREFIX + NatToDecimal(4 * ((|b| + 2) / 3)) + PLACEHOLDER_SUFFIX
  {
    Base64Length(b);
  }

  /** The placeholder depends on the buffer's length only. */
  lemma ExtractTextIgnoresContents(b: seq<Byte>, c: seq<Byte>)
    requires |b| == |c|
    ensures ExtractText(b) == ExtractText(c)
  {
    Base64Length(b);
    Base64Length(c);
  }

  /** Buffers of different padded lengths give different placeholders. */
  lemma ExtractTextDistinguishesLengths(b: seq<Byte>, c: seq<Byte>)
    requires (|b| + 2) / 3 != (|c| + 2) / 3
    ensures ExtractText(b) != ExtractText(c)
  {
    Base64Length(b);
    Base64Length(c);
    if ExtractText(b) == ExtractText(c) {
      var x := NatToDecimal(|Base64Encode(b)|);
      var y := NatToDecimal(|Base64Encode(c)|);
      var p := |PLACEHOLDER_PREFIX|;
      assert ExtractText(b)[p..|ExtractText(b)| - |PLACEHOLDER_SUFFIX|] == x;
      assert ExtractText(c)[p..|ExtractText(c)| - |PLACEHOLDER_SUFFIX|] == y;
      NatToDecimalInjective(|Base64Encode(b)|, |Base64Encode(c)|);
    }
  }
}
