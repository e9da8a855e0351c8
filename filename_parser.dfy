/**
 * `parse_filename`: find a camera token anywhere in a file name and turn its
 * digits into a UTC timestamp.
 *
 * Two fixed-length tokens are recognised, tried in this order:
 *   PXL_YYYYMMDD_HHMMSSmmm   (22 characters, milliseconds in the last group)
 *   lv_0_YYYYMMDDHHMMSS      (19 characters, no sub-second part)
 * Each is searched for without anchoring, and the leftmost occurrence is used.
 * The digit groups go unchecked into the `datetime` constructor, which raises
 * on an out-of-range value; that outcome is `Invalid`, not `NotFound`.
 */
module FilenameParser {
  import opened Wrappers
  import opened Calendar

  /** The outcome of `parse_filename`: a datetime, `None`, or a raised `ValueError`. */
  datatype ParseResult = Found(dt: DateTime) | NotFound | Invalid(error: CalendarError)

  /** The two token layouts. */
  datatype Pattern = Pxl | Lv

  predicate IsDigit(c: char)
  {
    '0' <= c <= '9'
  }

  predicate AllDigits(s: string)
  {
    forall k :: 0 <= k < |s| ==> IsDigit(s[k])
  }

  function Pow10(n: nat): (p: nat)
    ensures p >= 1
  {
    if n == 0 then 1 else 10 * Pow10(n - 1)
  }

  function DigitValue(c: char): (d: nat)
    requires IsDigit(c)
    ensures d <= 9
  {
    c as int - '0' as int
  }

  function DigitChar(d: nat): (c: char)
    requires d <= 9
    ensures IsDigit(c) && DigitValue(c) == d
  {
    ('0' as int + d) as char
  }

  /** `int(group)` for a capture group of decimal digits, most significant first. */
  function DecimalValue(s: string): (n: nat)
    requires AllDigits(s)
    ensures n < Pow10(|s|)
  {
    if s == [] then 0
    else
      var high := DecimalValue(s[..|s| - 1]);
      assert high + 1 <= Pow10(|s| - 1);
      10 * high + DigitValue(s[|s| - 1])
  }

  /** `n` written with exactly `width` digits, zero-padded on the left. */
  function Padded(n: nat, width: nat): (s: string)
    requires n < Pow10(width)
    ensures |s| == width && AllDigits(s)
  {
    if width == 0 then []
    else
      assert n / 10 < Pow10(width - 1);
      Padded(n / 10, width - 1) + [DigitChar(n % 10)]
  }

  /** Reading back a zero-padded number gives the number. */
  lemma {:induction false} PaddedRoundTrip(n: nat, width: nat)
    requires n < Pow10(width)
    ensures DecimalValue(Padded(n, width)) == n
  {
    if width > 0 {
      var s := Padded(n, width);
      assert s[..|s| - 1] == Padded(n / 10, width - 1);
      PaddedRoundTrip(n / 10, width - 1);
    }
  }

  /** Writing back the value of a run of digits, zero-padded to its length, gives the run. */
  lemma {:induction false} DecimalRoundTrip(s: string)
    requires AllDigits(s)
    ensures Padded(DecimalValue(s), |s|) == s
  {
    if s != [] {
      var init, last := s[..|s| - 1], s[|s| - 1];
      DecimalRoundTrip(init);
      var n := DecimalValue(s);
      assert n / 10 == DecimalValue(init) && n % 10 == DigitValue(last);
      assert DigitChar(DigitValue(last)) == last;
      assert s == init + [last];
    }
  }

  function TokenLength(p: Pattern): nat
  {
    match p
    case Pxl => 22
    case Lv => 19
  }

  predicate DigitsIn(w: string, lo: nat, hi: nat)
    requires lo <= hi <= |w|
  {
    forall k :: lo <= k < hi ==> IsDigit(w[k])
  }

  /** The regular expression of pattern `p` matches the whole of `w`. */
  predicate WindowMatches(p: Pattern, w: string)
    requires |w| == TokenLength(p)
  {
    match p
    case Pxl => w[..4] == "PXL_" && DigitsIn(w, 4, 12) && w[12] == '_' && DigitsIn(w, 13, 22)
    case Lv => w[..5] == "lv_0_" && DigitsIn(w, 5, 19)
  }

  /** The token of pattern `p` occurs in `s` starting at index `i`. */
  predicate MatchesAt(p: Pattern, s: string, i: nat)
  {
    i + TokenLength(p) <= |s| && WindowMatches(p, s[i..i + TokenLength(p)])
  }

  ghost predicate Occurs(p: Pattern, s: string)
  {
    exists i :: MatchesAt(p, s, i)
  }

  /** `i` is where `re.search` finds pattern `p` in `s`: a match with none to its left. */
  ghost predicate IsLeftmost(p: Pattern, s: string, i: nat)
  {
    MatchesAt(p, s, i) && forall j: nat :: j < i ==> !MatchesAt(p, s, j)
  }

  /** The value of the capture group `w[lo..hi]`. */
  function Group(w: string, lo: nat, hi: nat): (n: nat)
    requires lo <= hi <= |w| && DigitsIn(w, lo, hi)
    ensures n < Pow10(hi - lo)
  {
    assert AllDigits(w[lo..hi]);
    DecimalValue(w[lo..hi])
  }

  /** The arguments the source passes to `datetime(...)` for a matched token:
      the capture groups as integers, and as microseconds the millisecond
      group times 1000 (PXL) or 0 (lv). */
  function WindowFields(p: Pattern, w: string): (r: DateTime)
    requires |w| == TokenLength(p) && WindowMatches(p, w)
    ensures Encodable(p, r)
  {
    match p
    case Pxl =>
      DateTime(Group(w, 4, 8), Group(w, 8, 10), Group(w, 10, 12),
               Group(w, 13, 15), Group(w, 15, 17), Group(w, 17, 19),
               Group(w, 19, 22) * 1000)
    case Lv =>
      DateTime(Group(w, 5, 9), Group(w, 9, 11), Group(w, 11, 13),
               Group(w, 13, 15), Group(w, 15, 17), Group(w, 17, 19),
               0)
  }

  function TokenFields(p: Pattern, s: string, i: nat): DateTime
    requires MatchesAt(p, s, i)
  {
    WindowFields(p, s[i..i + TokenLength(p)])
  }

  /**
   * The `datetime(...)` call on the token at `i`: the token's fields when
   * they form a valid date and time, otherwise the error of the first check
   * the constructor fails. Never `NotFound`: a match always yields a value
   * or an exception.
   */
  function Construct(p: Pattern, s: string, i: nat): (r: ParseResult)
    requires MatchesAt(p, s, i)
    ensures r != NotFound
    ensures r.Found? <==> IsValid(TokenFields(p, s, i))
    ensures r.Found? ==> r.dt == TokenFields(p, s, i)
    ensures r.Invalid? ==>
      && !Passes(TokenFields(p, s, i), r.error)
      && forall e :: CheckOrder(e) < CheckOrder(r.error) ==> Passes(TokenFields(p, s, i), e)
  {
    var f := TokenFields(p, s, i);
    match NewDateTime(f.year, f.month, f.day, f.hour, f.minute, f.second, f.microsecond)
    case Built(dt) => Found(dt)
    case Raised(e) => Invalid(e)
  }

  /** `re.search`: the first index at or after `from` where pattern `p` matches. */
  function FindFrom(p: Pattern, s: string, from: nat): (r: Option<nat>)
    decreases |s| - from
    ensures r.Some? ==> from <= r.value && MatchesAt(p, s, r.value)
    ensures forall j: nat :: from <= j && (r.None? || j < r.value) ==> !MatchesAt(p, s, j)
  {
    if from + TokenLength(p) > |s| then None
    else if MatchesAt(p, s, from) then Some(from)
    else FindFrom(p, s, from + 1)
  }

  /**
   * `parse_filename(filename)`: the leftmost PXL token if there is one,
   * otherwise the leftmost lv token, otherwise `NotFound`.
   */
  function ParseFilename(name: string): (r: ParseResult)
    ensures r.Found? ==> IsValid(r.dt)
    ensures r.Found? ==> r.dt.microsecond % 1000 == 0 && r.dt.microsecond <= 999000
  {
    match FindFrom(Pxl, name, 0)
    case Some(i) =>
      var r := Construct(Pxl, name, i);
      assert Pow10(3) == 1000;
      r
    case None =>
      match FindFrom(Lv, name, 0)
      case Some(j) => Construct(Lv, name, j)
      case None => NotFound
  }

  /** The leftmost PXL token decides the result, wherever an lv token sits. */
  lemma PxlDecides(name: string, i: nat)
    requires IsLeftmost(Pxl, name, i)
    ensures ParseFilename(name) == Construct(Pxl, name, i)
  {
  }

  /** Without any PXL token, the leftmost lv token decides the result. */
  lemma LvDecides(name: string, j: nat)
    requires !Occurs(Pxl, name) && IsLeftmost(Lv, name, j)
    ensures ParseFilename(name) == Construct(Lv, name, j)
  {
  }

  /** `None` is returned exactly when neither token occurs anywhere. */
  lemma NotFoundIff(name: string)
    ensures ParseFilename(name) == NotFound <==> !Occurs(Pxl, name) && !Occurs(Lv, name)
  {
  }

  /** Whether a token matches, and what it reads as, depends only on its window. */
  lemma SameWindow(p: Pattern, s: string, i: nat, t: string, j: nat)
    requires i + TokenLength(p) <= |s| && j + TokenLength(p) <= |t|
    requires s[i..i + TokenLength(p)] == t[j..j + TokenLength(p)]
    ensures MatchesAt(p, s, i) <==> MatchesAt(p, t, j)
    ensures MatchesAt(p, s, i) ==> TokenFields(p, s, i) == TokenFields(p, t, j)
  {
  }

  /** A token lying wholly inside `name` is unaffected by appending text. */
  lemma MatchUnderSuffix(p: Pattern, name: string, suffix: string, j: nat)
    requires j + TokenLength(p) <= |name|
    ensures MatchesAt(p, name + suffix, j) <==> MatchesAt(p, name, j)
    ensures MatchesAt(p, name, j) ==> TokenFields(p, name + suffix, j) == TokenFields(p, name, j)
  {
    var n := TokenLength(p);
    assert (name + suffix)[j..j + n] == name[j..j + n];
    SameWindow(p, name + suffix, j, name, j);
  }

  /**
   * Once `name` holds a PXL token, appending any suffix (`.NIGHT`, `(1)`,
   * `_exported_0_...`, an extension) leaves the result unchanged.
   */
  lemma SuffixPreserves(name: string, suffix: string, i: nat)
    requires MatchesAt(Pxl, name, i)
    ensures ParseFilename(name + suffix) == ParseFilename(name)
  {
    var k := FindFrom(Pxl, name, 0).value;
    MatchUnderSuffix(Pxl, name, suffix, k);
    forall j: nat | j < k
      ensures !MatchesAt(Pxl, name + suffix, j)
    {
      MatchUnderSuffix(Pxl, name, suffix, j);
    }
    PxlDecides(name + suffix, k);
  }

  /** A prefix shifts every match of the rest by its length. */
  lemma MatchUnderPrefix(p: Pattern, prefix: string, rest: string, j: nat)
    ensures MatchesAt(p, prefix + rest, |prefix| + j) <==> MatchesAt(p, rest, j)
    ensures MatchesAt(p, rest, j) ==>
      TokenFields(p, prefix + rest, |prefix| + j) == TokenFields(p, rest, j)
  {
    var n := TokenLength(p);
    if j + n <= |rest| {
      assert (prefix + rest)[|prefix| + j..|prefix| + j + n] == rest[j..j + n];
      SameWindow(p, prefix + rest, |prefix| + j, rest, j);
    }
  }

  /** No PXL token can start inside a prefix that has no letter `P`. */
  lemma NoPxlStartsIn(prefix: string, rest: string, j: nat)
    requires 'P' !in prefix && j < |prefix|
    ensures !MatchesAt(Pxl, prefix + rest, j)
  {
    if j + 22 <= |prefix + rest| {
      var w := (prefix + rest)[j..j + 22];
      assert w[0] == prefix[j] != 'P';
      assert w[..4] != "PXL_" by { assert w[..4][0] != 'P'; }
    }
  }

  /**
   * Text without a `P` in front of a name holding a PXL token does not change
   * the result, even when that text is itself a complete lv token.
   */
  lemma PrefixIgnored(prefix: string, rest: string, i: nat)
    requires 'P' !in prefix && MatchesAt(Pxl, rest, i)
    ensures ParseFilename(prefix + rest) == ParseFilename(rest)
  {
    var k := FindFrom(Pxl, rest, 0).value;
    MatchUnderPrefix(Pxl, prefix, rest, k);
    forall j: nat | j < |prefix| + k
      ensures !MatchesAt(Pxl, prefix + rest, j)
    {
      if j < |prefix| {
        NoPxlStartsIn(prefix, rest, j);
      } else {
        MatchUnderPrefix(Pxl, prefix, rest, j - |prefix|);
      }
    }
    PxlDecides(prefix + rest, |prefix| + k);
  }

  /** No PXL token occurs in text without a letter `P`. */
  lemma NoPxlWithoutP(s: string, j: nat)
    requires 'P' !in s
    ensures !MatchesAt(Pxl, s, j)
  {
    if j < |s| {
      NoPxlStartsIn(s, [], j);
      assert s + [] == s;
    }
  }

  /** The digit groups of pattern `p` can hold the fields of `dt`. */
  predicate Encodable(p: Pattern, dt: DateTime)
  {
    && 0 <= dt.year < 10000 && 0 <= dt.month < 100 && 0 <= dt.day < 100
    && 0 <= dt.hour < 100 && 0 <= dt.minute < 100 && 0 <= dt.second < 100
    && match p
       case Pxl => 0 <= dt.microsecond < 1000000 && dt.microsecond % 1000 == 0
       case Lv => dt.microsecond == 0
  }

  /** The token a camera writes for `dt`, as laid out in the module header. */
  function Token(p: Pattern, dt: DateTime): (s: string)
    requires Encodable(p, dt)
    ensures |s| == TokenLength(p)
  {
    assert Pow10(2) == 100 && Pow10(3) == 1000 && Pow10(4) == 10000;
    var date := Padded(dt.year, 4) + Padded(dt.month, 2) + Padded(dt.day, 2);
    var time := Padded(dt.hour, 2) + Padded(dt.minute, 2) + Padded(dt.second, 2);
    match p
    case Pxl => "PXL_" + date + "_" + time + Padded(dt.microsecond / 1000, 3)
    case Lv => "lv_0_" + date + time
  }

  /** The middle part of a concatenation, recovered by slicing. */
  lemma SliceOfConcat(a: string, b: string, c: string)
    ensures (a + b + c)[|a|..|a| + |b|] == b
  {
  }

  lemma TailOfConcat(a: string, b: string)
    ensures (a + b)[|a|..|a| + |b|] == b
  {
  }

  /** A group whose text is a zero-padded number is all digits and reads as that number. */
  lemma PaddedGroup(w: string, lo: nat, hi: nat, n: nat)
    requires lo <= hi <= |w| && n < Pow10(hi - lo) && w[lo..hi] == Padded(n, hi - lo)
    ensures DigitsIn(w, lo, hi) && Group(w, lo, hi) == n
  {
    forall k | lo <= k < hi
      ensures IsDigit(w[k])
    {
      assert w[k] == w[lo..hi][k - lo];
    }
    PaddedRoundTrip(n, hi - lo);
  }

  /** Two adjacent runs of digits form one run. */
  lemma DigitsJoin(w: string, lo: nat, mid: nat, hi: nat)
    requires lo <= mid <= hi <= |w| && DigitsIn(w, lo, mid) && DigitsIn(w, mid, hi)
    ensures DigitsIn(w, lo, hi)
  {
  }

  /** Where each digit run sits in text laid out as a PXL token. */
  lemma PxlLayout(y: string, mo: string, d: string, h: string, mi: string, sec: string, ms: string)
    requires |y| == 4 && |mo| == 2 && |d| == 2 && |h| == 2 && |mi| == 2 && |sec| == 2 && |ms| == 3
    ensures var w := "PXL_" + y + mo + d + "_" + h + mi + sec + ms;
      && |w| == 22 && w[..4] == "PXL_" && w[12] == '_'
      && w[4..8] == y && w[8..10] == mo && w[10..12] == d
      && w[13..15] == h && w[15..17] == mi && w[17..19] == sec && w[19..22] == ms
  {
    var w := "PXL_" + y + mo + d + "_" + h + mi + sec + ms;
    assert w[..4] == "PXL_" by { SliceOfConcat([], "PXL_", y + mo + d + "_" + h + mi + sec + ms); }
    assert w[4..8] == y by { SliceOfConcat("PXL_", y, mo + d + "_" + h + mi + sec + ms); }
    assert w[8..10] == mo by { SliceOfConcat("PXL_" + y, mo, d + "_" + h + mi + sec + ms); }
    assert w[10..12] == d by { SliceOfConcat("PXL_" + y + mo, d, "_" + h + mi + sec + ms); }
    assert w[12] == '_' by {
      SliceOfConcat("PXL_" + y + mo + d, "_", h + mi + sec + ms);
      assert w[12] == w[12..13][0];
    }
    assert w[13..15] == h by { SliceOfConcat("PXL_" + y + mo + d + "_", h, mi + sec + ms); }
    assert w[15..17] == mi by { SliceOfConcat("PXL_" + y + mo + d + "_" + h, mi, sec + ms); }
    assert w[17..19] == sec by { SliceOfConcat("PXL_" + y + mo + d + "_" + h + mi, sec, ms); }
    assert w[19..22] == ms by { TailOfConcat("PXL_" + y + mo + d + "_" + h + mi + sec, ms); }
  }

  /** The date half of a PXL window: digits, read back as the date of `dt`. */
  lemma PxlDateDigits(w: string, dt: DateTime)
    requires Encodable(Pxl, dt) && |w| == 22
    requires w[4..8] == Padded(dt.year, 4) && w[8..10] == Padded(dt.month, 2)
    requires w[10..12] == Padded(dt.day, 2)
    ensures DigitsIn(w, 4, 12)
    ensures Group(w, 4, 8) == dt.year && Group(w, 8, 10) == dt.month && Group(w, 10, 12) == dt.day
  {
    PaddedGroup(w, 4, 8, dt.year);
    PaddedGroup(w, 8, 10, dt.month);
    PaddedGroup(w, 10, 12, dt.day);
    DigitsJoin(w, 4, 8, 10);
    DigitsJoin(w, 4, 10, 12);
  }

  /** The time half of a PXL window: digits, read back as the time of `dt` in milliseconds. */
  lemma PxlTimeDigits(w: string, dt: DateTime)
    requires Encodable(Pxl, dt) && |w| == 22
    requires w[13..15] == Padded(dt.hour, 2) && w[15..17] == Padded(dt.minute, 2)
    requires w[17..19] == Padded(dt.second, 2) && w[19..22] == Padded(dt.microsecond / 1000, 3)
    ensures DigitsIn(w, 13, 22)
    ensures Group(w, 13, 15) == dt.hour && Group(w, 15, 17) == dt.minute && Group(w, 17, 19) == dt.second
    ensures Group(w, 19, 22) * 1000 == dt.microsecond
  {
    PaddedGroup(w, 13, 15, dt.hour);
    PaddedGroup(w, 15, 17, dt.minute);
    PaddedGroup(w, 17, 19, dt.second);
    PaddedGroup(w, 19, 22, dt.microsecond / 1000);
    DigitsJoin(w, 13, 15, 17);
    DigitsJoin(w, 13, 17, 19);
    DigitsJoin(w, 13, 19, 22);
  }

  /** A window holding the zero-padded fields of `dt` where a PXL token has them matches and reads back as `dt`. */
  lemma PxlWindow(w: string, dt: DateTime)
    requires Encodable(Pxl, dt) && |w| == 22 && w[..4] == "PXL_" && w[12] == '_'
    requires w[4..8] == Padded(dt.year, 4) && w[8..10] == Padded(dt.month, 2)
    requires w[10..12] == Padded(dt.day, 2) && w[13..15] == Padded(dt.hour, 2)
    requires w[15..17] == Padded(dt.minute, 2) && w[17..19] == Padded(dt.second, 2)
    requires w[19..22] == Padded(dt.microsecond / 1000, 3)
    ensures WindowMatches(Pxl, w) && WindowFields(Pxl, w) == dt
  {
    PxlDateDigits(w, dt);
    PxlTimeDigits(w, dt);
  }

  /** Where each digit run sits in text laid out as an lv token. */
  lemma LvLayout(y: string, mo: string, d: string, h: string, mi: string, sec: string)
    requires |y| == 4 && |mo| == 2 && |d| == 2 && |h| == 2 && |mi| == 2 && |sec| == 2
    ensures var w := "lv_0_" + y + mo + d + h + mi + sec;
      && |w| == 19 && w[..5] == "lv_0_"
      && w[5..9] == y && w[9..11] == mo && w[11..13] == d
      && w[13..15] == h && w[15..17] == mi && w[17..19] == sec
  {
    var w := "lv_0_" + y + mo + d + h + mi + sec;
    assert w[..5] == "lv_0_" by { SliceOfConcat([], "lv_0_", y + mo + d + h + mi + sec); }
    assert w[5..9] == y by { SliceOfConcat("lv_0_", y, mo + d + h + mi + sec); }
    assert w[9..11] == mo by { SliceOfConcat("lv_0_" + y, mo, d + h + mi + sec); }
    assert w[11..13] == d by { SliceOfConcat("lv_0_" + y + mo, d, h + mi + sec); }
    assert w[13..15] == h by { SliceOfConcat("lv_0_" + y + mo + d, h, mi + sec); }
    assert w[15..17] == mi by { SliceOfConcat("lv_0_" + y + mo + d + h, mi, sec); }
    assert w[17..19] == sec by { TailOfConcat("lv_0_" + y + mo + d + h + mi, sec); }
  }

  /** The date half of an lv window: digits, read back as the date of `dt`. */
  lemma LvDateDigits(w: string, dt: DateTime)
    requires Encodable(Lv, dt) && |w| == 19
    requires w[5..9] == Padded(dt.year, 4) && w[9..11] == Padded(dt.month, 2)
    requires w[11..13] == Padded(dt.day, 2)
    ensures DigitsIn(w, 5, 13)
    ensures Group(w, 5, 9) == dt.year && Group(w, 9, 11) == dt.month && Group(w, 11, 13) == dt.day
  {
    PaddedGroup(w, 5, 9, dt.year);
    PaddedGroup(w, 9, 11, dt.month);
    PaddedGroup(w, 11, 13, dt.day);
    DigitsJoin(w, 5, 9, 11);
    DigitsJoin(w, 5, 11, 13);
  }

  /** The time half of an lv window: digits, read back as the time of `dt`. */
  lemma LvTimeDigits(w: string, dt: DateTime)
    requires Encodable(Lv, dt) && |w| == 19
    requires w[13..15] == Padded(dt.hour, 2) && w[15..17] == Padded(dt.minute, 2)
    requires w[17..19] == Padded(dt.second, 2)
    ensures DigitsIn(w, 13, 19)
    ensures Group(w, 13, 15) == dt.hour && Group(w, 15, 17) == dt.minute && Group(w, 17, 19) == dt.second
  {
    PaddedGroup(w, 13, 15, dt.hour);
    PaddedGroup(w, 15, 17, dt.minute);
    PaddedGroup(w, 17, 19, dt.second);
    DigitsJoin(w, 13, 15, 17);
    DigitsJoin(w, 13, 17, 19);
  }

  /** A window holding the zero-padded fields of `dt` where an lv token has them matches and reads back as `dt`. */
  lemma LvWindow(w: string, dt: DateTime)
    requires Encodable(Lv, dt) && |w| == 19 && w[..5] == "lv_0_"
    requires w[5..9] == Padded(dt.year, 4) && w[9..11] == Padded(dt.month, 2)
    requires w[11..13] == Padded(dt.day, 2) && w[13..15] == Padded(dt.hour, 2)
    requires w[15..17] == Padded(dt.minute, 2) && w[17..19] == Padded(dt.second, 2)
    ensures WindowMatches(Lv, w) && WindowFields(Lv, w) == dt
  {
    LvDateDigits(w, dt);
    LvTimeDigits(w, dt);
    DigitsJoin(w, 5, 13, 19);
  }

  /** A capture group written back zero-padded to its width is the group's text. */
  lemma GroupWritesBack(w: string, lo: nat, hi: nat)
    requires lo <= hi <= |w| && DigitsIn(w, lo, hi)
    ensures Padded(Group(w, lo, hi), hi - lo) == w[lo..hi]
  {
    assert AllDigits(w[lo..hi]);
    DecimalRoundTrip(w[lo..hi]);
  }

  /** The token written for the fields a PXL window reads as is the window itself. */
  lemma PxlWindowWritesBack(w: string)
    requires |w| == 22 && WindowMatches(Pxl, w)
    ensures Token(Pxl, WindowFields(Pxl, w)) == w
  {
    var f := WindowFields(Pxl, w);
    GroupWritesBack(w, 4, 8);
    GroupWritesBack(w, 8, 10);
    GroupWritesBack(w, 10, 12);
    GroupWritesBack(w, 13, 15);
    GroupWritesBack(w, 15, 17);
    GroupWritesBack(w, 17, 19);
    GroupWritesBack(w, 19, 22);
    assert f.microsecond / 1000 == Group(w, 19, 22);
    assert Token(Pxl, f) == w[..4] + w[4..8] + w[8..10] + w[10..12] + w[12..13]
                            + w[13..15] + w[15..17] + w[17..19] + w[19..22];
    PxlPieces(w);
  }

  /** A 22-character window is the concatenation of its PXL fields' slices. */
  lemma PxlPieces(w: string)
    requires |w| == 22
    ensures w == w[..4] + w[4..8] + w[8..10] + w[10..12] + w[12..13]
                 + w[13..15] + w[15..17] + w[17..19] + w[19..22]
  {
    assert w[..8] == w[..4] + w[4..8];
    assert w[..10] == w[..8] + w[8..10];
    assert w[..12] == w[..10] + w[10..12];
    assert w[..13] == w[..12] + w[12..13];
    assert w[..15] == w[..13] + w[13..15];
    assert w[..17] == w[..15] + w[15..17];
    assert w[..19] == w[..17] + w[17..19];
    assert w == w[..19] + w[19..22];
  }

  /** The token written for the fields an lv window reads as is the window itself. */
  lemma LvWindowWritesBack(w: string)
    requires |w| == 19 && WindowMatches(Lv, w)
    ensures Token(Lv, WindowFields(Lv, w)) == w
  {
    var f := WindowFields(Lv, w);
    GroupWritesBack(w, 5, 9);
    GroupWritesBack(w, 9, 11);
    GroupWritesBack(w, 11, 13);
    GroupWritesBack(w, 13, 15);
    GroupWritesBack(w, 15, 17);
    GroupWritesBack(w, 17, 19);
    assert Token(Lv, f) == w[..5] + w[5..9] + w[9..11] + w[11..13] + w[13..15] + w[15..17] + w[17..19];
    LvPieces(w);
  }

  /** A 19-character window is the concatenation of its lv fields' slices. */
  lemma LvPieces(w: string)
    requires |w| == 19
    ensures w == w[..5] + w[5..9] + w[9..11] + w[11..13] + w[13..15] + w[15..17] + w[17..19]
  {
    assert w[..9] == w[..5] + w[5..9];
    assert w[..11] == w[..9] + w[9..11];
    assert w[..13] == w[..11] + w[11..13];
    assert w[..15] == w[..13] + w[13..15];
    assert w[..17] == w[..15] + w[15..17];
    assert w == w[..17] + w[17..19];
  }

  /** A matching window is the token of the fields it reads as. */
  lemma WindowWritesBack(p: Pattern, w: string)
    requires |w| == TokenLength(p) && WindowMatches(p, w)
    ensures Token(p, WindowFields(p, w)) == w
  {
    match p
    case Pxl => PxlWindowWritesBack(w);
    case Lv => LvWindowWritesBack(w);
  }

  /** The token written for a timestamp matches its own pattern. */
  lemma TokenMatches(p: Pattern, dt: DateTime)
    requires Encodable(p, dt)
    ensures WindowMatches(p, Token(p, dt))
  {
    var w := Token(p, dt);
    match p {
      case Pxl => PxlTokenReadsBack(dt);
      case Lv => LvTokenReadsBack(dt);
    }
    assert w[0..|w|] == w;
  }

  /**
   * Each regular expression matches exactly the tokens a camera writes: a
   * window of the right length matches when, and only when, it is the token
   * of some timestamp whose fields fit the digit widths.
   */
  lemma WindowMatchesIffToken(p: Pattern, w: string)
    requires |w| == TokenLength(p)
    ensures WindowMatches(p, w) <==> exists dt :: Encodable(p, dt) && Token(p, dt) == w
  {
    if WindowMatches(p, w) {
      WindowWritesBack(p, w);
    }
    if exists dt :: Encodable(p, dt) && Token(p, dt) == w {
      var dt :| Encodable(p, dt) && Token(p, dt) == w;
      TokenMatches(p, dt);
    }
  }

  lemma PxlTokenReadsBack(dt: DateTime)
    requires Encodable(Pxl, dt)
    ensures MatchesAt(Pxl, Token(Pxl, dt), 0)
    ensures TokenFields(Pxl, Token(Pxl, dt), 0) == dt
  {
    assert Pow10(2) == 100 && Pow10(3) == 1000 && Pow10(4) == 10000;
    var y, mo, d := Padded(dt.year, 4), Padded(dt.month, 2), Padded(dt.day, 2);
    var h, mi, sec := Padded(dt.hour, 2), Padded(dt.minute, 2), Padded(dt.second, 2);
    var ms := Padded(dt.microsecond / 1000, 3);
    var w := Token(Pxl, dt);
    assert w == "PXL_" + y + mo + d + "_" + h + mi + sec + ms;
    PxlLayout(y, mo, d, h, mi, sec, ms);
    PxlWindow(w, dt);
    assert w[0..22] == w;
  }

  lemma LvTokenReadsBack(dt: DateTime)
    requires Encodable(Lv, dt)
    ensures MatchesAt(Lv, Token(Lv, dt), 0)
    ensures TokenFields(Lv, Token(Lv, dt), 0) == dt
  {
    assert Pow10(2) == 100 && Pow10(4) == 10000;
    var y, mo, d := Padded(dt.year, 4), Padded(dt.month, 2), Padded(dt.day, 2);
    var h, mi, sec := Padded(dt.hour, 2), Padded(dt.minute, 2), Padded(dt.second, 2);
    var w := Token(Lv, dt);
    assert w == "lv_0_" + y + mo + d + h + mi + sec;
    LvLayout(y, mo, d, h, mi, sec);
    LvWindow(w, dt);
    assert w[0..19] == w;
  }

  /**
   * A file name that starts with a PXL token for `dt`, whatever follows it,
   * parses to `dt` when `dt` is a valid date and time, and otherwise raises
   * the error of the first check `dt` fails.
   */
  lemma PxlTokenParses(dt: DateTime, suffix: string)
    requires Encodable(Pxl, dt)
    ensures IsValid(dt) ==> ParseFilename(Token(Pxl, dt) + suffix) == Found(dt)
    ensures !IsValid(dt) ==>
      var r := ParseFilename(Token(Pxl, dt) + suffix);
      && r.Invalid?
      && !Passes(dt, r.error)
      && forall e :: CheckOrder(e) < CheckOrder(r.error) ==> Passes(dt, e)
  {
    var tok := Token(Pxl, dt);
    PxlTokenReadsBack(dt);
    SuffixPreserves(tok, suffix, 0);
    PxlDecides(tok, 0);
  }

  /**
   * A file name that starts with an lv token for `dt` and holds no PXL token
   * parses to `dt` when valid, and otherwise raises.
   */
  lemma LvTokenParses(dt: DateTime, suffix: string)
    requires Encodable(Lv, dt) && !Occurs(Pxl, Token(Lv, dt) + suffix)
    ensures IsValid(dt) ==> ParseFilename(Token(Lv, dt) + suffix) == Found(dt)
    ensures !IsValid(dt) ==>
      var r := ParseFilename(Token(Lv, dt) + suffix);
      && r.Invalid?
      && !Passes(dt, r.error)
      && forall e :: CheckOrder(e) < CheckOrder(r.error) ==> Passes(dt, e)
  {
    var tok := Token(Lv, dt);
    LvTokenReadsBack(dt);
    MatchUnderSuffix(Lv, tok, suffix, 0);
    LvDecides(tok + suffix, 0);
  }

  /** An lv token followed by text without the letter `P` holds no PXL token. */
  lemma LvTokenWithoutP(dt: DateTime, suffix: string)
    requires Encodable(Lv, dt) && 'P' !in suffix
    ensures !Occurs(Pxl, Token(Lv, dt) + suffix)
  {
    var name := Token(Lv, dt) + suffix;
    LvHasNoP(dt);
    assert 'P' !in name;
    forall j: nat
      ensures !MatchesAt(Pxl, name, j)
    {
      NoPxlWithoutP(name, j);
    }
  }

  /** An lv token is made of `lv_0_` and digits only. */
  lemma LvHasNoP(dt: DateTime)
    requires Encodable(Lv, dt)
    ensures 'P' !in Token(Lv, dt)
  {
    var w := Token(Lv, dt);
    LvTokenReadsBack(dt);
    assert w[0..19] == w;
    forall k | 0 <= k < |w|
      ensures w[k] != 'P'
    {
      if k < 5 {
        assert w[k] == w[..5][k];
      } else {
        assert IsDigit(w[k]);
      }
    }
  }

  /**
   * A PXL token wins over an lv token even when the lv token comes first:
   * the name reads as if the lv token were not there, whatever its fields.
   */
  lemma PxlWinsOverLv(lvDt: DateTime, dt: DateTime, suffix: string)
    requires Encodable(Lv, lvDt) && Encodable(Pxl, dt)
    ensures ParseFilename(Token(Lv, lvDt) + Token(Pxl, dt) + suffix)
         == ParseFilename(Token(Pxl, dt) + suffix)
  {
    var lv, tok := Token(Lv, lvDt), Token(Pxl, dt);
    LvHasNoP(lvDt);
    PxlTokenReadsBack(dt);
    MatchUnderSuffix(Pxl, tok, suffix, 0);
    PrefixIgnored(lv, tok + suffix, 0);
    assert lv + tok + suffix == lv + (tok + suffix);
  }

  /** The zero-padded digits of the example's year. */
  lemma ExampleYearPadding()
    ensures Padded(2023, 4) == "2023"
  {
  }

  /** The zero-padded digits of the example's date. */
  lemma ExampleDatePadding()
    ensures Padded(2023, 4) == "2023" && Padded(6, 2) == "06" && Padded(15, 2) == "15"
  {
    ExampleYearPadding();
  }

  /** The zero-padded digits of the example's time of day. */
  lemma ExampleTimePadding()
    ensures Padded(14, 2) == "14" && Padded(30, 2) == "30" && Padded(22, 2) == "22"
    ensures Padded(123, 3) == "123"
  {
  }

  /** `PXL_20230615_143022123` is a PXL token for 15 June 2023, 14:30:22.123. */
  lemma ExamplePxlWindow()
    ensures WindowMatches(Pxl, "PXL_20230615_143022123")
    ensures WindowFields(Pxl, "PXL_20230615_143022123") == DateTime(2023, 6, 15, 14, 30, 22, 123000)
  {
    var w := "PXL_20230615_143022123";
    PxlLayout("2023", "06", "15", "14", "30", "22", "123");
    assert "PXL_" + "2023" + "06" + "15" + "_" + "14" + "30" + "22" + "123" == w;
    assert Pow10(2) == 100 && Pow10(3) == 1000 && Pow10(4) == 10000;
    ExampleDatePadding();
    ExampleTimePadding();
    PxlWindow(w, DateTime(2023, 6, 15, 14, 30, 22, 123000));
  }

  /** `lv_0_20230615143022` is an lv token for 15 June 2023, 14:30:22. */
  lemma ExampleLvWindow()
    ensures WindowMatches(Lv, "lv_0_20230615143022")
    ensures WindowFields(Lv, "lv_0_20230615143022") == DateTime(2023, 6, 15, 14, 30, 22, 0)
  {
    var w := "lv_0_20230615143022";
    LvLayout("2023", "06", "15", "14", "30", "22");
    assert "lv_0_" + "2023" + "06" + "15" + "14" + "30" + "22" == w;
    assert Pow10(2) == 100 && Pow10(4) == 10000;
    ExampleDatePadding();
    ExampleTimePadding();
    LvWindow(w, DateTime(2023, 6, 15, 14, 30, 22, 0));
  }

  /** The example PXL token followed by anything. */
  lemma PxlExampleAnySuffix(suffix: string)
    ensures ParseFilename("PXL_20230615_143022123" + suffix) == Found(DateTime(2023, 6, 15, 14, 30, 22, 123000))
  {
    var name := "PXL_20230615_143022123" + suffix;
    assert name[0..22] == "PXL_20230615_143022123";
    ExamplePxlWindow();
    PxlDecides(name, 0);
  }

  /** The example lv token followed by anything that holds no PXL token. */
  lemma LvExampleAnySuffix(suffix: string)
    requires !Occurs(Pxl, "lv_0_20230615143022" + suffix)
    ensures ParseFilename("lv_0_20230615143022" + suffix) == Found(DateTime(2023, 6, 15, 14, 30, 22, 0))
  {
    var name := "lv_0_20230615143022" + suffix;
    assert name[0..19] == "lv_0_20230615143022";
    ExampleLvWindow();
    LvDecides(name, 0);
  }

  /** `random_video.mp4` holds no token. */
  lemma NoTokenExample()
    ensures ParseFilename("random_video.mp4") == NotFound
  {
  }

  /** A PXL token whose first failing check is `e` raises exactly `e`. */
  lemma PxlTokenRaises(dt: DateTime, suffix: string, e: CalendarError)
    requires Encodable(Pxl, dt)
    requires !Passes(dt, e) && forall f :: CheckOrder(f) < CheckOrder(e) ==> Passes(dt, f)
    ensures ParseFilename(Token(Pxl, dt) + suffix) == Invalid(e)
  {
    PxlTokenParses(dt, suffix);
    ValidIffAllPass(dt);
    var r := ParseFilename(Token(Pxl, dt) + suffix);
    assert CheckOrder(r.error) == CheckOrder(e);
  }

  /**
   * Out-of-range date fields in a well-formed PXL token raise: year 0000,
   * month 00 or above 12, day 00 or past the month's end (31 April,
   * 29 February outside a leap year).
   */
  lemma BadDateRaises(dt: DateTime, suffix: string)
    requires Encodable(Pxl, dt)
    ensures dt.year == 0 ==>
      ParseFilename(Token(Pxl, dt) + suffix) == Invalid(YearOutOfRange)
    ensures dt.year >= 1 && !(1 <= dt.month <= 12) ==>
      ParseFilename(Token(Pxl, dt) + suffix) == Invalid(MonthOutOfRange)
    ensures dt.year >= 1 && 1 <= dt.month <= 12 && !(1 <= dt.day <= DaysInMonth(dt.year, dt.month)) ==>
      ParseFilename(Token(Pxl, dt) + suffix) == Invalid(DayOutOfRange)
  {
    if dt.year == 0 {
      PxlTokenRaises(dt, suffix, YearOutOfRange);
    } else if !(1 <= dt.month <= 12) {
      PxlTokenRaises(dt, suffix, MonthOutOfRange);
    } else if !(1 <= dt.day <= DaysInMonth(dt.year, dt.month)) {
      PxlTokenRaises(dt, suffix, DayOutOfRange);
    }
  }

  /** On a valid date, hour 24 or more, minute 60 or more and second 60 or more raise. */
  lemma BadTimeRaises(dt: DateTime, suffix: string)
    requires Encodable(Pxl, dt)
    requires dt.year >= 1 && 1 <= dt.month <= 12 && 1 <= dt.day <= DaysInMonth(dt.year, dt.month)
    ensures dt.hour >= 24 ==>
      ParseFilename(Token(Pxl, dt) + suffix) == Invalid(HourOutOfRange)
    ensures dt.hour < 24 && dt.minute >= 60 ==>
      ParseFilename(Token(Pxl, dt) + suffix) == Invalid(MinuteOutOfRange)
    ensures dt.hour < 24 && dt.minute < 60 && dt.second >= 60 ==>
      ParseFilename(Token(Pxl, dt) + suffix) == Invalid(SecondOutOfRange)
  {
    if dt.hour >= 24 {
      PxlTokenRaises(dt, suffix, HourOutOfRange);
    } else if dt.minute >= 60 {
      PxlTokenRaises(dt, suffix, MinuteOutOfRange);
    } else if dt.second >= 60 {
      PxlTokenRaises(dt, suffix, SecondOutOfRange);
    }
  }

  /** A token for 29 February parses exactly in leap years, and raises otherwise. */
  lemma LeapDay(dt: DateTime, suffix: string)
    requires Encodable(Pxl, dt) && dt.month == 2 && dt.day == 29 && dt.year >= 1
    requires dt.hour < 24 && dt.minute < 60 && dt.second < 60
    ensures IsLeapYear(dt.year) ==> ParseFilename(Token(Pxl, dt) + suffix) == Found(dt)
    ensures !IsLeapYear(dt.year) ==> ParseFilename(Token(Pxl, dt) + suffix) == Invalid(DayOutOfRange)
  {
    PxlTokenParses(dt, suffix);
    BadDateRaises(dt, suffix);
  }
}
