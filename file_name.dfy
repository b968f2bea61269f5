/**
 * The name of the downloaded PDF (`generatePDF` in src/App.tsx): the product
 * name with every character outside `[A-Za-z0-9]` replaced by `_`, followed by
 * `_pricing.pdf`. A `char` here is one Unicode scalar value, which is one
 * UTF-16 code unit of the JavaScript string inside the Basic Multilingual Plane.
 */
module FileName {

  const Suffix: string := "_pricing.pdf"

  /** The characters the case-insensitive class `[a-z0-9]` matches. */
  predicate IsAsciiAlnum(ch: char) {
    'a' <= ch <= 'z' || 'A' <= ch <= 'Z' || '0' <= ch <= '9'
  }

  /** The characters a sanitised name can contain. */
  predicate IsSafe(ch: char) {
    IsAsciiAlnum(ch) || ch == '_'
  }

  /** `name.replace(/[^a-z0-9]/gi, '_')`, one character at a time from the left. */
  function Sanitize(name: string): (r: string)
    ensures |r| == |name|
    ensures forall i :: 0 <= i < |name| ==> r[i] == (if IsAsciiAlnum(name[i]) then name[i] else '_')
  {
    if name == [] then []
    else [if IsAsciiAlnum(name[0]) then name[0] else '_'] + Sanitize(name[1..])
  }

  /**
   * The file name handed to `doc.save`: as long as the product name plus the
   * suffix, made of safe characters up to the suffix, with every letter and
   * digit of the product name kept at its position.
   */
  function PdfFileName(productName: string): (f: string)
    ensures |f| == |productName| + |Suffix|
    ensures f[..|productName|] == Sanitize(productName) && f[|productName|..] == Suffix
    ensures forall i :: 0 <= i < |productName| ==> IsSafe(f[i])
    ensures forall i :: 0 <= i < |productName| && IsAsciiAlnum(productName[i]) ==> f[i] == productName[i]
    ensures forall i :: 0 <= i < |productName| && !IsAsciiAlnum(productName[i]) ==> f[i] == '_'
  {
    Sanitize(productName) + Suffix
  }

  /** Sanitising twice is sanitising once. */
  lemma {:induction false} SanitizeIsIdempotent(name: string)
    ensures Sanitize(Sanitize(name)) == Sanitize(name)
  {
    if name != [] {
      SanitizeIsIdempotent(name[1..]);
      assert Sanitize(name)[1..] == Sanitize(name[1..]);
    }
  }

  /** A name is left as it is exactly when it holds only letters, digits and underscores. */
  lemma SanitizeFixesExactlySafeNames(name: string)
    ensures Sanitize(name) == name <==> forall i :: 0 <= i < |name| ==> IsSafe(name[i])
  {
    if Sanitize(name) == name {
      forall i | 0 <= i < |name| ensures IsSafe(name[i]) {
        assert Sanitize(name)[i] == name[i];
      }
    }
  }
}
