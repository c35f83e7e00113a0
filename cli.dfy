/**
 * The entry point's own logic: the argument-count check and the run option,
 * which `main` reads with C's `atoi` from `argv[5]`.
 *
 * Note that `argv[5]` is the sixth entry. The usage banner lists the image path in
 * that slot and the run option after it, so the banner's own example invocation
 * selects run option 0 whatever run option it passes (`UsageExampleSelectsFlagZero`).
 */
module Cli {
  import opened Backend

  /** C's `isspace` in the "C" locale: space, and `\t` `\n` `\v` `\f` `\r`. */
  predicate IsSpace(c: char) { c == ' ' || ('\t' <= c <= '\r') }

  predicate IsDigit(c: char) { '0' <= c <= '9' }

  predicate AllDigits(s: string) { forall i :: 0 <= i < |s| ==> IsDigit(s[i]) }

  function SkipSpace(s: string): (t: string)
    ensures |t| <= |s| && t == s[|s| - |t|..]
    ensures t == [] || !IsSpace(t[0])
    ensures forall i :: 0 <= i < |s| - |t| ==> IsSpace(s[i])
  {
    if s != [] && IsSpace(s[0]) then SkipSpace(s[1..]) else s
  }

  /** The longest prefix of `s` made of decimal digits. */
  function DigitPrefix(s: string): (d: string)
    ensures |d| <= |s| && d == s[..|d|] && AllDigits(d)
    ensures |d| < |s| ==> !IsDigit(s[|d|])
  {
    if s != [] && IsDigit(s[0]) then [s[0]] + DigitPrefix(s[1..]) else []
  }

  /** The value of a string of decimal digits, most significant first. */
  function DigitsValue(d: string): nat
    requires AllDigits(d)
  {
    if d == [] then 0 else DigitsValue(d[..|d| - 1]) * 10 + (d[|d| - 1] as int - '0' as int)
  }

  /**
   * C's `atoi`: skip leading white space, take an optional sign, then as many
   * decimal digits as follow; no digits gives 0.
   */
  function Atoi(s: string): (r: int)
    ensures var t := SkipSpace(s);
            (t == [] || (!IsDigit(t[0]) && t[0] != '-' && t[0] != '+')) ==> r == 0
    ensures r < 0 ==> SkipSpace(s)[0] == '-'
    ensures r != 0 ==> exists i :: 0 <= i < |s| && IsDigit(s[i])
  {
    var t := SkipSpace(s);
    if t != [] && t[0] == '-' then 0 - DigitsValue(DigitPrefix(t[1..]))
    else if t != [] && t[0] == '+' then DigitsValue(DigitPrefix(t[1..]))
    else DigitsValue(DigitPrefix(t))
  }

  function DigitChar(k: nat): (c: char)
    requires k < 10
    ensures IsDigit(c) && c as int - '0' as int == k
  {
    ('0' as int + k) as char
  }

  /** Decimal rendering of a natural number, without leading zeros. */
  function Decimal(n: nat): (s: string)
    ensures |s| > 0 && AllDigits(s)
  {
    if n < 10 then [DigitChar(n)] else Decimal(n / 10) + [DigitChar(n % 10)]
  }

  /** Decimal rendering of an integer, with a leading '-' when negative. */
  function IntToString(i: int): string
  {
    if i < 0 then "-" + Decimal(-i) else Decimal(i)
  }

  lemma {:induction false} DecimalValue(n: nat)
    ensures DigitsValue(Decimal(n)) == n
    decreases n
  {
    if n >= 10 {
      var s := Decimal(n);
      assert s[..|s| - 1] == Decimal(n / 10);
      DecimalValue(n / 10);
    }
  }

  /** The digit prefix of a digit string followed by a non-digit is that digit string. */
  lemma {:induction false} DigitPrefixOf(d: string, rest: string)
    requires AllDigits(d)
    requires rest == [] || !IsDigit(rest[0])
    ensures DigitPrefix(d + rest) == d
    decreases |d|
  {
    if d != [] {
      assert (d + rest)[1..] == d[1..] + rest;
      DigitPrefixOf(d[1..], rest);
    } else {
      assert d + rest == rest;
    }
  }

  /** A digit string, followed by text that does not continue it, reads as its value. */
  lemma AtoiDigits(d: string, rest: string)
    requires d != [] && AllDigits(d)
    requires rest == [] || !IsDigit(rest[0])
    ensures Atoi(d + rest) == DigitsValue(d)
  {
    var s := d + rest;
    assert s[0] == d[0];
    assert IsDigit(s[0]) && !IsSpace(s[0]) && s[0] != '-' && s[0] != '+';
    assert SkipSpace(s) == s;
    DigitPrefixOf(d, rest);
    assert Atoi(s) == DigitsValue(DigitPrefix(s));
  }

  /** The same behind a minus sign. */
  lemma AtoiNegativeDigits(d: string, rest: string)
    requires AllDigits(d)
    requires rest == [] || !IsDigit(rest[0])
    ensures Atoi("-" + d + rest) == 0 - DigitsValue(d)
  {
    var s := "-" + d + rest;
    assert SkipSpace(s) == s;
    assert s[1..] == d + rest;
    DigitPrefixOf(d, rest);
  }

  /** A plus sign and a digit string read as the digit string's value. */
  lemma AtoiPlusDigits(d: string, rest: string)
    requires AllDigits(d)
    requires rest == [] || !IsDigit(rest[0])
    ensures Atoi("+" + d + rest) == DigitsValue(d)
  {
    var s := "+" + d + rest;
    assert SkipSpace(s) == s;
    assert s[1..] == d + rest;
    DigitPrefixOf(d, rest);
  }

  lemma SkipSpaceIdempotent(s: string)
    ensures SkipSpace(SkipSpace(s)) == SkipSpace(s)
  {
  }

  /** Leading white space does not change what `atoi` reads. */
  lemma AtoiSkipsSpace(s: string)
    ensures Atoi(s) == Atoi(SkipSpace(s))
  {
    SkipSpaceIdempotent(s);
  }

  /**
   * `atoi` reads back what `IntToString` writes, even when other text follows
   * that does not start with a digit.
   */
  lemma AtoiIntToString(i: int, rest: string)
    requires rest == [] || !IsDigit(rest[0])
    ensures Atoi(IntToString(i) + rest) == i
  {
    if i < 0 {
      DecimalValue(-i);
      AtoiNegativeDigits(Decimal(-i), rest);
    } else {
      DecimalValue(i);
      AtoiDigits(Decimal(i), rest);
    }
  }

  /** `atoi` gives 0 for text that starts with neither white space, a sign nor a digit. */
  lemma AtoiNonNumeric(s: string)
    requires s != [] && !IsSpace(s[0]) && !IsDigit(s[0]) && s[0] != '-' && s[0] != '+'
    ensures Atoi(s) == 0
  {
  }

  /** What `main` does before the server starts. */
  datatype Launch =
    | Usage(exitCode: int)
    | Serve(detDir: string, clsDir: string, recDir: string, labelFile: string, option: RuntimeOption)

  /**
   * `main` up to the call of `build`: fewer than six argv entries print the
   * usage banner and exit with -1; otherwise the stage directories and label
   * file are argv[1..4] and the run option is `atoi(argv[5])`.
   */
  function EntryPoint(argv: seq<string>, defaultOption: RuntimeOption): (l: Launch)
    ensures l.Usage? <==> |argv| < 6
    ensures l.Usage? ==> l.exitCode == -1
    ensures l.Serve? ==>
      l.detDir == argv[1] && l.clsDir == argv[2] && l.recDir == argv[3] && l.labelFile == argv[4]
    ensures l.Serve? ==> l.option == OptionForFlag(Atoi(argv[5]), defaultOption)
  {
    if |argv| < 6 then Usage(-1)
    else Serve(argv[1], argv[2], argv[3], argv[4], OptionForFlag(Atoi(argv[5]), defaultOption))
  }

  /** A run option written in argv[5] as a decimal number is the one selected. */
  lemma FlagRoundTrip(argv: seq<string>, flag: int, d: RuntimeOption)
    requires |argv| >= 6 && argv[5] == IntToString(flag)
    ensures EntryPoint(argv, d) == Serve(argv[1], argv[2], argv[3], argv[4], OptionForFlag(flag, d))
  {
    AtoiIntToString(flag, []);
    assert IntToString(flag) + [] == IntToString(flag);
  }

  /**
   * The usage banner's example, `./infer_demo ... ./ppocr_keys_v1.txt ./12.jpg <run_option>`,
   * selects CPU with Paddle Inference whatever `run_option` says: the run option
   * is read from the image-path slot, and `atoi("./12.jpg")` is 0.
   */
  lemma UsageExampleSelectsFlagZero(runOption: string, d: RuntimeOption)
    ensures var argv := ["./infer_demo", "./ch_PP-OCRv3_det_infer", "./ch_ppocr_mobile_v2.0_cls_infer",
                         "./ch_PP-OCRv3_rec_infer", "./ppocr_keys_v1.txt", "./12.jpg", runOption];
            var l := EntryPoint(argv, d);
            l.Serve? && l.option.device == Cpu && l.option.backend == PaddleInference
  {
    AtoiNonNumeric("./12.jpg");
  }
}
