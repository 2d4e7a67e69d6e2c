/** The content-addressed image file names of `save_image` and the rows of the CSV index. */
module Naming {
  import opened Errors

  /** One row of dataframe.csv: a file name and its label. */
  datatype Row = Row(file: string, text: string)

  /** The header row written when the index is created. */
  const Header: Row := Row("file", "label")

  const HexDigits: string := "0123456789abcdef"

  /** What `hashlib.sha1(...).hexdigest()` returns: 40 lower-case hex characters. */
  predicate IsHexDigest(d: string)
  {
    |d| == 40 && forall k :: 0 <= k < |d| ==> d[k] in HexDigits
  }

  /** The name `save_image` gives the image, and the first column of its CSV row. */
  function Filename(text: string, digest: string): string
  {
    text + "_" + digest + ".png"
  }

  /** Splits a file name back into its label text and digest. The digest has a fixed
      width, so the split is found from the end (a label may itself contain '_'). */
  function ParseFilename(f: string): (r: Option<(string, string)>)
    ensures r.Some? ==> IsHexDigest(r.value.1) && f == Filename(r.value.0, r.value.1)
  {
    var n := |f|;
    if n >= 45 && f[n - 45] == '_' && f[n - 4..] == ".png" && IsHexDigest(f[n - 44..n - 4]) then
      assert f == f[..n - 45] + "_" + f[n - 44..n - 4] + ".png";
      Some((f[..n - 45], f[n - 44..n - 4]))
    else None
  }

  /** Every file name built from a label and a hex digest parses back to both parts. */
  lemma ParseFilenameRoundTrip(text: string, digest: string)
    requires IsHexDigest(digest)
    ensures ParseFilename(Filename(text, digest)) == Some((text, digest))
  {
    var f := Filename(text, digest);
    var n := |f|;
    assert f[n - 45] == '_';
    assert f[n - 4..] == ".png";
    assert f[n - 44..n - 4] == digest;
    assert f[..n - 45] == text;
  }

  /** Distinct (label, digest) pairs give distinct file names. */
  lemma FilenameInjective(l1: string, d1: string, l2: string, d2: string)
    requires IsHexDigest(d1) && IsHexDigest(d2)
    requires Filename(l1, d1) == Filename(l2, d2)
    ensures l1 == l2 && d1 == d2
  {
    ParseFilenameRoundTrip(l1, d1);
    ParseFilenameRoundTrip(l2, d2);
  }
}
