/** The file names the generation runner derives: Python's `str.replace`,
    the zero-padded frame names `NNNN.png`, and the names of the upscaled
    image, the final video and the interim videos. */
module Filenames {

  /** `pat` occurs in `s` starting at position `i`. */
  predicate OccursAt(s: string, pat: string, i: nat) {
    i + |pat| <= |s| && s[i..i + |pat|] == pat
  }

  /** `s.replace(pat, sub)`: every occurrence of `pat`, scanning left to
      right and never overlapping, is replaced by `sub`. */
  function Replace(s: string, pat: string, sub: string): (r: string)
    requires |pat| > 0
    ensures |s| < |pat| ==> r == s
    decreases |s|
  {
    if |s| < |pat| then s
    else if s[..|pat|] == pat then sub + Replace(s[|pat|..], pat, sub)
    else [s[0]] + Replace(s[1..], pat, sub)
  }

  /** A string in which `pat` never occurs comes back unchanged. */
  lemma {:induction false} ReplaceAbsent(s: string, pat: string, sub: string)
    requires |pat| > 0
    requires forall i: nat :: !OccursAt(s, pat, i)
    ensures Replace(s, pat, sub) == s
    decreases |s|
  {
    if |s| >= |pat| {
      assert !OccursAt(s, pat, 0);
      assert s[..|pat|] != pat;
      forall i: nat
        ensures !OccursAt(s[1..], pat, i)
      {
        assert !OccursAt(s, pat, i + 1);
        if i + |pat| <= |s[1..]| {
          assert s[1..][i..i + |pat|] == s[i + 1..i + 1 + |pat|];
        }
      }
      ReplaceAbsent(s[1..], pat, sub);
      assert [s[0]] + s[1..] == s;
    }
  }

  /** A prefix followed by one `pat` at the end, where the last character
      of `pat` appears nowhere before that end: only that last occurrence
      is replaced. */
  lemma {:induction false} ReplaceAtEnd(prefix: string, pat: string, sub: string)
    requires |pat| > 0
    requires pat[|pat| - 1] !in prefix + pat[..|pat| - 1]
    ensures Replace(prefix + pat, pat, sub) == prefix + sub
    decreases |prefix|
  {
    var s := prefix + pat;
    if prefix == [] {
      assert s[..|pat|] == pat;
      assert s[|pat|..] == [];
    } else {
      assert s[|pat| - 1] == (prefix + pat[..|pat| - 1])[|pat| - 1];
      assert s[..|pat|] != pat;
      assert s[1..] == prefix[1..] + pat;
      assert prefix[1..] + pat[..|pat| - 1] == (prefix + pat[..|pat| - 1])[1..];
      ReplaceAtEnd(prefix[1..], pat, sub);
      assert [s[0]] + (prefix[1..] + sub) == prefix + sub;
    }
  }

  // ---------------------------------------------------------------------
  // Decimal numbers

  function DigitChar(d: nat): (c: char)
    requires d < 10
    ensures '0' <= c <= '9'
  {
    "0123456789"[d]
  }

  function DigitValue(c: char): (d: nat)
    requires '0' <= c <= '9'
    ensures d < 10
  {
    (c - '0') as nat
  }

  /** The decimal digits of `n`, most significant first, no leading zero. */
  function Digits(n: nat): (r: string)
    ensures |r| >= 1
    ensures forall i :: 0 <= i < |r| ==> '0' <= r[i] <= '9'
    ensures n >= 10 ==> r[0] != '0'
  {
    if n < 10 then [DigitChar(n)] else Digits(n / 10) + [DigitChar(n % 10)]
  }

  predicate AllDigits(s: string) {
    forall i :: 0 <= i < |s| ==> '0' <= s[i] <= '9'
  }

  /** The number a string of decimal digits spells; leading zeros count
      for nothing. */
  function Value(s: string): nat
    requires AllDigits(s)
  {
    if s == [] then 0 else Value(s[..|s| - 1]) * 10 + DigitValue(s[|s| - 1])
  }

  lemma {:induction false} ValueOfDigits(n: nat)
    ensures Value(Digits(n)) == n
  {
    if n >= 10 {
      ValueOfDigits(n / 10);
      var d := Digits(n);
      assert d[..|d| - 1] == Digits(n / 10);
      assert DigitValue(d[|d| - 1]) == n % 10;
    }
  }

  function Zeros(k: nat): (r: string)
    ensures |r| == k && AllDigits(r)
  {
    if k == 0 then [] else Zeros(k - 1) + "0"
  }

  lemma {:induction false} ValueOfZeros(k: nat)
    ensures Value(Zeros(k)) == 0
  {
    if k > 0 {
      assert Zeros(k)[..k - 1] == Zeros(k - 1);
      ValueOfZeros(k - 1);
    }
  }

  lemma {:induction false} ValueIgnoresLeadingZeros(k: nat, d: string)
    requires AllDigits(d)
    ensures AllDigits(Zeros(k) + d)
    ensures Value(Zeros(k) + d) == Value(d)
    decreases |d|
  {
    var s := Zeros(k) + d;
    if d == [] {
      assert s == Zeros(k);
      ValueOfZeros(k);
    } else {
      assert s[..|s| - 1] == Zeros(k) + d[..|d| - 1];
      ValueIgnoresLeadingZeros(k, d[..|d| - 1]);
    }
  }

  /** `f'{n:04}'`: at least four digits, padded with zeros on the left. */
  function Pad4(n: nat): (r: string)
    ensures AllDigits(r)
    ensures |r| >= 4
  {
    var d := Digits(n);
    if |d| < 4 then Zeros(4 - |d|) + d else d
  }

  function Pow10(k: nat): (p: nat)
    ensures p >= 1
  {
    if k == 0 then 1 else 10 * Pow10(k - 1)
  }

  lemma {:induction false} DigitsFit(n: nat, k: nat)
    requires k >= 1 && n < Pow10(k)
    ensures |Digits(n)| <= k
  {
    if n >= 10 {
      DigitsFit(n / 10, k - 1);
    }
  }

  // ---------------------------------------------------------------------
  // The runner's names

  /** The frame file of video step `n` inside the steps directory. */
  function FrameName(n: nat): (r: string)
    ensures |r| >= 8 && r[|r| - 4..] == ".png"
  {
    Pad4(n) + ".png"
  }

  /** Steps below 10000 get exactly four digits. */
  lemma FrameNameWidth(n: nat)
    requires n < 10000
    ensures |FrameName(n)| == 8
  {
    DigitsFit(n, 4);
  }

  /** Reads the number back from a frame name. */
  function FrameNumber(name: string): nat
    requires |name| >= 4 && AllDigits(name[..|name| - 4])
  {
    Value(name[..|name| - 4])
  }

  /** Frame names spell their step number, so distinct steps never share
      a frame file. */
  lemma FrameNameRoundTrip(n: nat)
    ensures AllDigits(FrameName(n)[..|FrameName(n)| - 4])
    ensures FrameNumber(FrameName(n)) == n
  {
    PadValue(n);
    DropSuffix(Pad4(n), ".png");
  }

  /** Padding with zeros keeps the number's value. */
  lemma PadValue(n: nat)
    ensures Value(Pad4(n)) == n
  {
    ValueOfDigits(n);
    if |Digits(n)| < 4 {
      ValueIgnoresLeadingZeros(4 - |Digits(n)|, Digits(n));
    }
  }

  lemma DropSuffix(p: string, suffix: string)
    ensures (p + suffix)[..|p + suffix| - |suffix|] == p
  {
  }

  lemma FrameNameInjective(a: nat, b: nat)
    requires FrameName(a) == FrameName(b)
    ensures a == b
  {
    FrameNameRoundTrip(a);
    FrameNameRoundTrip(b);
  }

  /** `os.path.join` of a directory and a bare file name. */
  function Join(dir: string, name: string): (r: string)
    ensures |r| == |dir| + 1 + |name|
    ensures r[..|dir|] == dir && r[|dir|] == '/' && r[|dir| + 1..] == name
  {
    dir + "/" + name
  }

  /** `path` is a direct entry of directory `dir`. */
  predicate InDir(dir: string, path: string) {
    |path| > |dir| + 1 && path[..|dir|] == dir && path[|dir|] == '/' && '/' !in path[|dir| + 1..]
  }

  /** The upscaled copy of an image: every `.png` becomes `-upscaled.png`. */
  function Upscaled(output: string): string {
    Replace(output, ".png", "-upscaled.png")
  }

  /** The final video: `png` becomes `mp4`, prefixed with the run's name. */
  function VideoName(name: string, output: string): string {
    name + "-" + Replace(output, "png", "mp4")
  }

  /** The interim video: `.png` of the output file name becomes
      `-<name>-interim.mp4`. */
  function InterimName(name: string, output: string): string {
    Replace(output, ".png", "-" + name + "-interim.mp4")
  }

  /** The service's output file is `output.png`, which gives the names the
      run publishes. */
  lemma UpscaledOutput()
    ensures Upscaled("output.png") == "output" + "-upscaled.png"
  {
    assert "output.png" == "output" + ".png";
    assert ".png"[3] !in "output" + ".pn";
    ReplaceAtEnd("output", ".png", "-upscaled.png");
  }

  lemma VideoOutput(name: string)
    ensures VideoName(name, "output.png") == name + "-" + "output." + "mp4"
  {
    assert "output.png" == "output." + "png";
    assert "png"[2] !in "output." + "pn";
    ReplaceAtEnd("output.", "png", "mp4");
  }

  lemma InterimOutput(name: string)
    ensures InterimName(name, "output.png") == "output" + ("-" + name + "-interim.mp4")
  {
    assert "output.png" == "output" + ".png";
    assert ".png"[3] !in "output" + ".pn";
    ReplaceAtEnd("output", ".png", "-" + name + "-interim.mp4");
  }
}
