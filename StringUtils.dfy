/** The few string and path helpers of the engine's foundation
    (ezStringBuilder, ezPathUtils, ezConversionUtils, ezArgU) that the texture
    asset code relies on, reduced to what that code uses: case-insensitive
    suffix tests, splitting a path into directory, file name and extension, and
    formatting numbers as decimal or zero-padded hexadecimal text.

    A path is split at its last '/' or '\': what precedes is the directory
    (with its separator), what follows is the file; the file's extension is
    what follows its last '.', and its name is what precedes that dot (the
    whole file when it has no dot). Case folding is ASCII only. */
module StringUtils {

  // ------------------------------------------------------------------
  // Case-insensitive comparison
  // ------------------------------------------------------------------

  function ToLowerAscii(c: char): char
  {
    if 'A' <= c <= 'Z' then (c as int + 32) as char else c
  }

  predicate EqualsNoCase(a: string, b: string)
  {
    |a| == |b| && forall i :: 0 <= i < |a| ==> ToLowerAscii(a[i]) == ToLowerAscii(b[i])
  }

  /** ezStringBuilder::EndsWith_NoCase */
  predicate EndsWithNoCase(s: string, suffix: string)
  {
    |suffix| <= |s| && EqualsNoCase(s[|s| - |suffix|..], suffix)
  }

  /** ezPathUtils::HasExtension: the path ends, ignoring case, with a dot and
      the extension. */
  predicate HasExtension(path: string, extension: string)
  {
    EndsWithNoCase(path, "." + extension)
  }

  // ------------------------------------------------------------------
  // Paths
  // ------------------------------------------------------------------

  predicate IsPathSeparator(c: char)
  {
    c == '/' || c == '\\'
  }

  /** Text that can stand as one path component without being split. */
  ghost predicate HasNoSeparator(s: string)
  {
    forall i :: 0 <= i < |s| ==> !IsPathSeparator(s[i])
  }

  ghost predicate HasNoDot(s: string)
  {
    forall i :: 0 <= i < |s| ==> s[i] != '.'
  }

  /** Just after the last separator in `path[..hi]`, or 0 when there is none. */
  function SeparatorEnd(path: string, hi: nat): (r: nat)
    requires hi <= |path|
    ensures r <= hi
    ensures 0 < r ==> IsPathSeparator(path[r - 1])
    ensures forall i :: r <= i < hi ==> !IsPathSeparator(path[i])
  {
    if hi == 0 then 0
    else if IsPathSeparator(path[hi - 1]) then hi
    else SeparatorEnd(path, hi - 1)
  }

  /** Where the file part of a path starts: just after its last separator. */
  function FileStart(path: string): (r: nat)
    ensures r <= |path|
    ensures 0 < r ==> IsPathSeparator(path[r - 1])
    ensures forall i :: r <= i < |path| ==> !IsPathSeparator(path[i])
  {
    SeparatorEnd(path, |path|)
  }

  /** The last '.' in `path[lo..hi]`, or |path| when there is none. */
  function LastDot(path: string, lo: nat, hi: nat): (r: nat)
    requires lo <= hi <= |path|
    ensures r == |path| || (lo <= r < hi && path[r] == '.')
    ensures forall i :: (if r == |path| then lo else r + 1) <= i < hi ==> path[i] != '.'
    decreases hi
  {
    if hi == lo then |path|
    else if path[hi - 1] == '.' then hi - 1
    else LastDot(path, lo, hi - 1)
  }

  /** Where the extension starts (at its dot), or |path| when the file part
      has no dot. */
  function ExtensionStart(path: string): (r: nat)
    ensures FileStart(path) <= r <= |path|
    ensures r < |path| ==> path[r] == '.'
    ensures forall i :: (if r == |path| then FileStart(path) else r + 1) <= i < |path| ==> path[i] != '.'
  {
    LastDot(path, FileStart(path), |path|)
  }

  /** The three properties of FileStart determine it. */
  lemma FileStartUnique(path: string, k: nat)
    requires k <= |path|
    requires 0 < k ==> IsPathSeparator(path[k - 1])
    requires forall i :: k <= i < |path| ==> !IsPathSeparator(path[i])
    ensures FileStart(path) == k
  {
  }

  /** The properties of ExtensionStart determine it. */
  lemma ExtensionStartUnique(path: string, e: nat)
    requires FileStart(path) <= e <= |path|
    requires e < |path| ==> path[e] == '.'
    requires forall i :: (if e == |path| then FileStart(path) else e + 1) <= i < |path| ==> path[i] != '.'
    ensures ExtensionStart(path) == e
  {
  }

  /** The directory part, with its trailing separator. */
  function FileDirectory(path: string): string
  {
    path[..FileStart(path)]
  }

  /** ezStringBuilder::GetFileName: the file part without its extension. */
  function FileName(path: string): string
  {
    path[FileStart(path)..ExtensionStart(path)]
  }

  /** The extension without its dot ("" when there is none). */
  function FileExtension(path: string): string
  {
    var e := ExtensionStart(path);
    if e == |path| then "" else path[e + 1..]
  }

  /** A file name never holds a separator, and holds a dot only when the file
      also has an extension after it. */
  lemma FileNameIsComponent(path: string)
    ensures HasNoSeparator(FileName(path))
    ensures ExtensionStart(path) == |path| ==> HasNoDot(FileName(path))
  {
    var d, e := FileStart(path), ExtensionStart(path);
    forall i | 0 <= i < e - d ensures FileName(path)[i] == path[d + i] {
    }
  }

  /** ezStringBuilder::ChangeFileExtension: the extension is replaced, or
      appended after a dot when there was none. */
  function ChangeFileExtension(path: string, extension: string): string
  {
    path[..ExtensionStart(path)] + "." + extension
  }

  /** ezStringBuilder::ChangeFileName: the name is replaced, directory and
      extension kept. */
  function ChangeFileName(path: string, name: string): string
  {
    path[..FileStart(path)] + name + path[ExtensionStart(path)..]
  }

  /** Changing the extension to a plain one keeps directory and name, and the
      new path's extension is the one given. */
  lemma ChangeFileExtensionParts(path: string, extension: string)
    requires HasNoSeparator(extension) && HasNoDot(extension)
    ensures var r := ChangeFileExtension(path, extension);
      && FileDirectory(r) == FileDirectory(path)
      && FileName(r) == FileName(path)
      && FileExtension(r) == extension
  {
    var d, e := FileStart(path), ExtensionStart(path);
    var r := ChangeFileExtension(path, extension);
    assert |r| == e + 1 + |extension|;
    assert r[..e] == path[..e] && r[e] == '.' && r[e + 1..] == extension;
    forall i | d <= i < |r| ensures !IsPathSeparator(r[i]) {
      if i < e {
        assert r[i] == path[i];
      } else if i > e {
        assert r[i] == extension[i - e - 1];
      }
    }
    FileStartUnique(r, d);
    forall i | e + 1 <= i < |r| ensures r[i] != '.' {
      assert r[i] == extension[i - e - 1];
    }
    ExtensionStartUnique(r, e);
  }

  /** What a renamed path is made of: the old directory, the new name and
      the old extension with its dot. */
  lemma ChangeFileNameSlices(path: string, name: string)
    ensures var d, e := FileStart(path), ExtensionStart(path);
      var r, n := ChangeFileName(path, name), FileStart(path) + |name|;
      && |r| == n + (|path| - e)
      && r[..d] == path[..d] && r[d..n] == name && r[n..] == path[e..]
  {
  }

  /** A name without separators leaves the file part where it was. */
  lemma ChangeFileNameStart(path: string, name: string)
    requires HasNoSeparator(name)
    ensures FileStart(ChangeFileName(path, name)) == FileStart(path)
  {
    var d, e := FileStart(path), ExtensionStart(path);
    var r := ChangeFileName(path, name);
    var n := d + |name|;
    ChangeFileNameSlices(path, name);
    forall i | d <= i < |r| ensures !IsPathSeparator(r[i]) {
      if i < n {
        assert r[i] == r[d..n][i - d];
      } else {
        assert r[i] == r[n..][i - n] == path[e + i - n];
      }
    }
    if d > 0 {
      assert r[d - 1] == r[..d][d - 1] == path[d - 1];
    }
    FileStartUnique(r, d);
  }

  /** A dot after the last separator with no dot after it starts the
      extension. */
  lemma ExtensionStartAt(path: string, e: nat)
    requires FileStart(path) <= e < |path| && path[e] == '.'
    requires forall i :: e < i < |path| ==> path[i] != '.'
    ensures ExtensionStart(path) == e
  {
    ExtensionStartUnique(path, e);
  }

  /** A file part without a dot has no extension. */
  lemma NoExtension(path: string)
    requires forall i :: FileStart(path) <= i < |path| ==> path[i] != '.'
    ensures ExtensionStart(path) == |path|
  {
    ExtensionStartUnique(path, |path|);
  }

  /** The extension of a renamed path starts right after the new name. */
  lemma ChangeFileNameDot(path: string, name: string)
    requires HasNoSeparator(name)
    requires ExtensionStart(path) == |path| ==> HasNoDot(name)
    ensures ExtensionStart(ChangeFileName(path, name)) == FileStart(path) + |name|
  {
    ChangeFileNameStart(path, name);
    if ExtensionStart(path) < |path| {
      ChangeFileNameKeepsDot(path, name);
    } else {
      ChangeFileNameNoDot(path, name);
    }
  }

  lemma ChangeFileNameKeepsDot(path: string, name: string)
    requires ExtensionStart(path) < |path|
    requires FileStart(ChangeFileName(path, name)) == FileStart(path)
    ensures ExtensionStart(ChangeFileName(path, name)) == FileStart(path) + |name|
  {
    var d, e := FileStart(path), ExtensionStart(path);
    var r := ChangeFileName(path, name);
    var n := d + |name|;
    ChangeFileNameSlices(path, name);
    assert r[n] == r[n..][0] == path[e];
    forall i | n < i < |r| ensures r[i] != '.' {
      assert r[i] == r[n..][i - n] == path[e + i - n];
    }
    ExtensionStartAt(r, n);
  }

  lemma ChangeFileNameNoDot(path: string, name: string)
    requires ExtensionStart(path) == |path| && HasNoDot(name)
    requires FileStart(ChangeFileName(path, name)) == FileStart(path)
    ensures ExtensionStart(ChangeFileName(path, name)) == FileStart(path) + |name|
  {
    var d := FileStart(path);
    var r := ChangeFileName(path, name);
    var n := d + |name|;
    ChangeFileNameSlices(path, name);
    assert n == |r|;
    forall i | d <= i < n ensures r[i] != '.' {
      assert r[i] == r[d..n][i - d];
    }
    NoExtension(r);
  }

  /** Changing the file name to one that is a single component keeps the
      directory and the extension, and the new path's name is the one given.
      When the path has no extension the new name must not bring a dot, or
      part of it would become one. */
  lemma ChangeFileNameParts(path: string, name: string)
    requires HasNoSeparator(name)
    requires ExtensionStart(path) == |path| ==> HasNoDot(name)
    ensures var r := ChangeFileName(path, name);
      && FileDirectory(r) == FileDirectory(path)
      && FileName(r) == name
      && FileExtension(r) == FileExtension(path)
  {
    var d, e := FileStart(path), ExtensionStart(path);
    var r := ChangeFileName(path, name);
    var n := d + |name|;
    ChangeFileNameSlices(path, name);
    ChangeFileNameStart(path, name);
    ChangeFileNameDot(path, name);
    if e < |path| {
      assert r[n + 1..] == r[n..][1..] == path[e..][1..] == path[e + 1..];
    }
  }

  // ------------------------------------------------------------------
  // Numbers as text
  // ------------------------------------------------------------------

  /** Upper-case digits, as ezArgU with bUpperCase writes them. */
  function DigitChar(d: nat): char
    requires d < 16
  {
    "0123456789ABCDEF"[d]
  }

  function DigitValue(c: char): nat
  {
    if '0' <= c <= '9' then c as nat - '0' as nat
    else if 'A' <= c <= 'F' then c as nat - 'A' as nat + 10
    else 0
  }

  /** ezConversionUtils::ToString and QString::number of an unsigned value:
      decimal, no padding. */
  function DecimalString(n: nat): (s: string)
    ensures 1 <= |s|
  {
    if n < 10 then [DigitChar(n)] else DecimalString(n / 10) + [DigitChar(n % 10)]
  }

  function ParseDecimal(s: string): nat
  {
    if s == [] then 0 else ParseDecimal(s[..|s| - 1]) * 10 + DigitValue(s[|s| - 1])
  }

  lemma {:induction false} DecimalRoundTrip(n: nat)
    ensures ParseDecimal(DecimalString(n)) == n
  {
    var s := DecimalString(n);
    if n >= 10 {
      DecimalRoundTrip(n / 10);
      assert s[..|s| - 1] == DecimalString(n / 10);
    }
  }

  function Pow16(k: nat): nat
  {
    if k == 0 then 1 else 16 * Pow16(k - 1)
  }

  /** ezArgU(value, width, bPadWithZeros = true, base 16, bUpperCase = true)
      for a value that fits in `width` digits. */
  function HexDigits(n: nat, width: nat): (s: string)
    ensures |s| == width
  {
    if width == 0 then "" else HexDigits(n / 16, width - 1) + [DigitChar(n % 16)]
  }

  function ParseHex(s: string): nat
  {
    if s == [] then 0 else ParseHex(s[..|s| - 1]) * 16 + DigitValue(s[|s| - 1])
  }

  /** Zero-padded hex text of a value below 16^width reads back as the value. */
  lemma {:induction false} HexRoundTrip(n: nat, width: nat)
    requires n < Pow16(width)
    ensures ParseHex(HexDigits(n, width)) == n
  {
    if width > 0 {
      var s := HexDigits(n, width);
      HexRoundTrip(n / 16, width - 1);
      assert s[..|s| - 1] == HexDigits(n / 16, width - 1);
    }
  }
}
