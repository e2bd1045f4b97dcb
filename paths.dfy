/**
 * Storage paths (backend/jamflow/services/utils.py `generate_file_path`, and
 * the identical `_generate_path` of backend/jamflow/services/track.py):
 * `YYYY/MM/<YYYYmmddHHMMSS>_<hex>.<ext>`, every part taken from one instant.
 * The clock and the UUID are parameters.
 */
module Paths {
  import opened Strings

  /** A UTC `datetime` down to the second. */
  datatype Instant = Instant(year: nat, month: nat, day: nat, hour: nat, minute: nat, second: nat)

  predicate ValidInstant(t: Instant) {
    1 <= t.year <= 9999 && 1 <= t.month <= 12 && 1 <= t.day <= 31
    && t.hour < 24 && t.minute < 60 && t.second < 60
  }

  /** `uuid4().hex`: 32 lower-case hexadecimal digits. */
  predicate IsUuidHex(h: string) {
    |h| == 32 && forall i :: 0 <= i < |h| ==> ('0' <= h[i] <= '9' || 'a' <= h[i] <= 'f')
  }

  /** `%Y`: the year in decimal, without padding (the C library's behaviour for years below 1000). */
  function Year(t: Instant): string
  {
    NatToString(t.year)
  }

  /** `%m`, `%d`, `%H`, `%M`, `%S`: two zero-padded digits. */
  function TwoDigits(n: nat): (s: string)
    requires n < 100
    ensures |s| == 2 && AllDigits(s) && '/' !in s
  {
    [DigitChar(n / 10), DigitChar(n % 10)]
  }

  /** The two digits read back as the number: the rendering loses nothing below 100. */
  lemma TwoDigitsValue(n: nat)
    requires n < 100
    ensures ParseNat(TwoDigits(n)) == n
  {
    var s := TwoDigits(n);
    var first := s[..1];
    assert first[..0] == [];
    assert ParseNat(first) == DigitValue(s[0]) == n / 10;
    assert ParseNat(s) == 10 * ParseNat(first) + DigitValue(s[1]);
    assert DigitValue(s[1]) == n % 10;
  }

  lemma DigitsConcat(a: string, b: string)
    requires AllDigits(a) && AllDigits(b)
    ensures AllDigits(a + b) && '/' !in a + b
  {
    assert forall i :: 0 <= i < |a + b| ==> (a + b)[i] == if i < |a| then a[i] else b[i - |a|];
  }

  /** A four-digit year renders as four characters. */
  lemma FourDigitYear(year: nat)
    ensures 1000 <= year <= 9999 ==> |NatToString(year)| == 4
  {
    if 1000 <= year <= 9999 {
      var a := year / 10;
      var b := a / 10;
      var c := b / 10;
      assert 100 <= a && 10 <= b && 1 <= c < 10;
      assert |NatToString(c)| == 1;
      assert |NatToString(b)| == 2;
      assert |NatToString(a)| == 3;
    }
  }

  /** `s` begins with `prefix`. */
  predicate StartsWith(s: string, prefix: string)
  {
    |s| >= |prefix| && s[..|prefix|] == prefix
  }

  /** `%Y%m%d%H%M%S` */
  function Timestamp(t: Instant): string
    requires ValidInstant(t)
  {
    var date := Year(t) + TwoDigits(t.month);
    var time := TwoDigits(t.hour) + TwoDigits(t.minute);
    (date + TwoDigits(t.day)) + (time + TwoDigits(t.second))
  }

  /**
   * The timestamp is all digits (so it holds no "/"), is fourteen characters
   * long for a four-digit year, and begins with the year and month.
   */
  lemma TimestampShape(t: Instant)
    requires ValidInstant(t)
    ensures AllDigits(Timestamp(t)) && '/' !in Timestamp(t)
    ensures 1000 <= t.year ==> |Timestamp(t)| == 14
    ensures StartsWith(Timestamp(t), Year(t) + TwoDigits(t.month))
  {
    var date := Year(t) + TwoDigits(t.month);
    DigitsConcat(Year(t), TwoDigits(t.month));
    var withDay := date + TwoDigits(t.day);
    DigitsConcat(date, TwoDigits(t.day));
    var time := TwoDigits(t.hour) + TwoDigits(t.minute);
    DigitsConcat(TwoDigits(t.hour), TwoDigits(t.minute));
    var withSecond := time + TwoDigits(t.second);
    DigitsConcat(time, TwoDigits(t.second));
    DigitsConcat(withDay, withSecond);
    FourDigitYear(t.year);
    PrefixKept(date, TwoDigits(t.day), |date|);
    PrefixKept(withDay, withSecond, |date|);
    assert Timestamp(t) == withDay + withSecond;
  }

  /** `f"{timestamp}_{uuid4().hex}.{extension}"` */
  function FileName(t: Instant, hex: string, extension: string): string
    requires ValidInstant(t)
  {
    Timestamp(t) + ("_" + hex) + ("." + extension)
  }

  lemma JoinThree(a: string, b: string, c: string, sep: string)
    ensures Join([a, b, c], sep) == a + sep + (b + sep + c)
  {
    assert [a, b, c][1..] == [b, c];
    assert [b, c][1..] == [c];
  }

  /** Appending keeps every ending of the appended part. */
  lemma EndsWith(x: string, y: string, z: string)
    requires |z| <= |y| && y[|y| - |z|..] == z
    ensures (x + y)[|x + y| - |z|..] == z
  {
    assert (x + y)[|x + y| - |z|..] == y[|y| - |z|..];
  }

  /** `"/".join((year, month, name))` */
  function Assemble(year: string, month: string, name: string): string
  {
    year + "/" + (month + "/" + name)
  }

  /** `path` ends with "." followed by `extension`. */
  predicate HasExtension(path: string, extension: string)
  {
    |path| > |extension| && path[|path| - |extension| - 1..] == "." + extension
  }

  /** Whatever the year, month, stamp and hex, the assembled path ends with the extension's dot and the extension. */
  lemma AssembledEnding(year: string, month: string, stamp: string, hex: string, extension: string)
    ensures HasExtension(Assemble(year, month, stamp + ("_" + hex) + ("." + extension)), extension)
  {
    var z := "." + extension;
    var name := stamp + ("_" + hex) + z;
    EndsWith(stamp + ("_" + hex), z, z);
    EndsWith(month + "/", name, z);
    EndsWith(year + "/", month + "/" + name, z);
    assert Assemble(year, month, name) == (year + "/") + (month + "/" + name);
  }

  /** The path at instant `t` with UUID digits `hex`; an empty extension is not rejected. */
  function GenerateFilePath(t: Instant, hex: string, extension: string): string
    requires ValidInstant(t)
  {
    Assemble(Year(t), TwoDigits(t.month), FileName(t, hex, extension))
  }

  /** The path ends with "." and the extension it was given. */
  lemma GenerateFilePathEnding(t: Instant, hex: string, extension: string)
    requires ValidInstant(t)
    ensures HasExtension(GenerateFilePath(t, hex, extension), extension)
  {
    var year, month, stamp := Year(t), TwoDigits(t.month), Timestamp(t);
    var path := Assemble(year, month, stamp + ("_" + hex) + ("." + extension));
    assert GenerateFilePath(t, hex, extension) == path;
    AssembledEnding(year, month, stamp, hex, extension);
  }

  /** Three "/"-free segments joined by "/" split back into themselves. */
  lemma SplitAssemble(year: string, month: string, name: string)
    requires '/' !in year && '/' !in month && '/' !in name
    ensures Split(Assemble(year, month, name), '/') == [year, month, name]
  {
    var parts := [year, month, name];
    forall k | 0 <= k < |parts|
      ensures '/' !in parts[k]
    {
    }
    JoinThree(year, month, name, "/");
    SplitJoin(parts, '/');
  }

  /** A name built from a stamp, "_" + hex and "." + extension has no "/" when none of them does. */
  lemma NameHasNoSlash(stamp: string, hex: string, extension: string)
    requires '/' !in stamp && '/' !in hex && '/' !in extension
    ensures '/' !in stamp + ("_" + hex) + ("." + extension)
  {
  }

  lemma DigitsHaveNoSlash(s: string)
    requires AllDigits(s)
    ensures '/' !in s
  {
  }

  /** A prefix of the first part of a concatenation is a prefix of the whole. */
  lemma PrefixKept(a: string, b: string, n: nat)
    requires n <= |a|
    ensures n <= |a + b| && (a + b)[..n] == a[..n]
  {
  }

  /**
   * With a UUID's digits and an extension free of "/", the path has exactly
   * three "/"-separated segments: the year, the month and the file name.
   */
  lemma PathSegments(t: Instant, hex: string, extension: string)
    requires ValidInstant(t) && IsUuidHex(hex) && '/' !in extension
    ensures Split(GenerateFilePath(t, hex, extension), '/') == [Year(t), TwoDigits(t.month), FileName(t, hex, extension)]
  {
    var year, month, stamp := Year(t), TwoDigits(t.month), Timestamp(t);
    var name := FileName(t, hex, extension);
    TimestampShape(t);
    assert GenerateFilePath(t, hex, extension) == Assemble(year, month, name);
    assert '/' !in hex by {
      assert forall i :: 0 <= i < |hex| ==> hex[i] != '/';
    }
    DigitsHaveNoSlash(year);
    NameHasNoSlash(stamp, hex, extension);
    SplitAssemble(year, month, name);
  }

  /** Appending the hex and the extension keeps the stamp's prefixes. */
  lemma NameKeepsPrefix(stamp: string, hex: string, extension: string, prefix: string)
    requires StartsWith(stamp, prefix)
    ensures StartsWith(stamp + ("_" + hex) + ("." + extension), prefix)
  {
    PrefixKept(stamp, "_" + hex, |prefix|);
    PrefixKept(stamp + ("_" + hex), "." + extension, |prefix|);
  }

  /** The file name begins with the year and month of the directories above it. */
  lemma FileNameStartsWithDate(t: Instant, hex: string, extension: string)
    requires ValidInstant(t)
    ensures StartsWith(FileName(t, hex, extension), Year(t) + TwoDigits(t.month))
  {
    var stamp, date := Timestamp(t), Year(t) + TwoDigits(t.month);
    var name := FileName(t, hex, extension);
    assert name == stamp + ("_" + hex) + ("." + extension);
    TimestampShape(t);
    NameKeepsPrefix(stamp, hex, extension, date);
  }
}
