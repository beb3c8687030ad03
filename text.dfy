/** The JavaScript string operations the core relies on, restricted to what the
    model needs: ASCII case folding (`toLowerCase`, `toUpperCase`), `includes`,
    `join` / `split` on one separator, decimal rendering of integers (template
    strings), `parseInt` in base 10, and `trim`. */
module Text {
  import opened Wrappers

  // ---------------------------------------------------------------------------
  // Case folding. Only the ASCII letters change case; every other character is
  // left as it is.

  predicate IsAsciiUpper(c: char) { 'A' <= c <= 'Z' }
  predicate IsAsciiLower(c: char) { 'a' <= c <= 'z' }

  function LowerChar(c: char): char {
    if IsAsciiUpper(c) then (c as int + 32) as char else c
  }

  function UpperChar(c: char): char {
    if IsAsciiLower(c) then (c as int - 32) as char else c
  }

  /** `s.toLowerCase()` */
  function ToLower(s: string): string {
    seq(|s|, i requires 0 <= i < |s| => LowerChar(s[i]))
  }

  lemma ToLowerIdempotent(s: string)
    ensures ToLower(ToLower(s)) == ToLower(s)
  {
  }

  // ---------------------------------------------------------------------------
  // `hay.includes(needle)`

  /** `needle` occurs in `hay` starting at index `i`. */
  predicate OccursAt(hay: string, needle: string, i: int) {
    0 <= i && i + |needle| <= |hay| && hay[i..i + |needle|] == needle
  }

  function Includes(hay: string, needle: string): (b: bool)
    ensures b <==> exists i :: OccursAt(hay, needle, i)
    decreases |hay|
  {
    if |needle| > |hay| then
      assert forall i :: !OccursAt(hay, needle, i);
      false
    else if hay[..|needle|] == needle then
      assert OccursAt(hay, needle, 0);
      true
    else
      var r := Includes(hay[1..], needle);
      assert !OccursAt(hay, needle, 0);
      forall i | i >= 1 {
        OccursShift(hay, needle, i);
      }
      assert (exists i :: OccursAt(hay[1..], needle, i)) ==> (exists i :: OccursAt(hay, needle, i)) by {
        if exists i :: OccursAt(hay[1..], needle, i) {
          var i :| OccursAt(hay[1..], needle, i);
          assert OccursAt(hay, needle, i + 1);
        }
      }
      r
  }

  lemma OccursShift(hay: string, needle: string, i: int)
    requires i >= 1 && hay != []
    ensures OccursAt(hay, needle, i) <==> OccursAt(hay[1..], needle, i - 1)
  {
    if i + |needle| <= |hay| {
      var here := hay[i..i + |needle|];
      var there := hay[1..][i - 1..i - 1 + |needle|];
      assert |here| == |there|;
      assert forall k :: 0 <= k < |here| ==> here[k] == there[k];
      assert here == there;
    }
  }

  /** `hay.toLowerCase().includes(needle.toLowerCase())` */
  predicate IncludesIgnoringCase(hay: string, needle: string) {
    Includes(ToLower(hay), ToLower(needle))
  }

  /** Every string includes the empty string. */
  lemma IncludesEmpty(hay: string)
    ensures Includes(hay, "")
  {
    assert OccursAt(hay, "", 0);
  }

  // ---------------------------------------------------------------------------
  // Decimal rendering: what a template string `${n}` prints for an integer.

  predicate IsDigit(c: char) { '0' <= c <= '9' }

  predicate AllDigits(s: string) {
    forall i :: 0 <= i < |s| ==> IsDigit(s[i])
  }

  function DigitChar(d: int): char
    requires 0 <= d < 10
  {
    ('0' as int + d) as char
  }

  function NatToString(n: nat): (s: string)
    ensures |s| > 0 && AllDigits(s)
    decreases n
  {
    if n < 10 then [DigitChar(n)] else NatToString(n / 10) + [DigitChar(n % 10)]
  }

  function IntToString(n: int): (s: string)
    ensures |s| > 0 && (s[0] == '-' || IsDigit(s[0]))
  {
    if n < 0 then "-" + NatToString(-n) else NatToString(n)
  }

  // ---------------------------------------------------------------------------
  // `parseInt(s)` in base 10: leading white space is skipped, one sign is
  // accepted, then the longest run of decimal digits is read; no digit at all
  // gives NaN, here None.

  /** The white space that `trim` and `parseInt` skip (ECMAScript WhiteSpace
      and LineTerminator). */
  predicate IsJsSpace(c: char) {
    var n := c as int;
    (0x09 <= n <= 0x0D) || n == 0x20 || n == 0xA0 || n == 0x1680 || (0x2000 <= n <= 0x200A) ||
    n == 0x2028 || n == 0x2029 || n == 0x202F || n == 0x205F || n == 0x3000 || n == 0xFEFF
  }

  /** `s.trimStart()` */
  function TrimStart(s: string): (t: string)
    ensures |t| <= |s| && t == s[|s| - |t|..]
    ensures t == [] || !IsJsSpace(t[0])
    ensures forall i :: 0 <= i < |s| - |t| ==> IsJsSpace(s[i])
  {
    if s != [] && IsJsSpace(s[0]) then TrimStart(s[1..]) else s
  }

  /** `s.trimEnd()` */
  function TrimEnd(s: string): (t: string)
    ensures |t| <= |s| && t == s[..|t|]
    ensures t == [] || !IsJsSpace(t[|t| - 1])
    ensures forall i :: |t| <= i < |s| ==> IsJsSpace(s[i])
  {
    if s != [] && IsJsSpace(s[|s| - 1]) then TrimEnd(s[..|s| - 1]) else s
  }

  /** `s.trim()` */
  function Trim(s: string): string {
    TrimEnd(TrimStart(s))
  }

  /** A string trims to nothing exactly when it is white space only. */
  lemma TrimEmptyIffBlank(s: string)
    ensures Trim(s) == "" <==> forall i :: 0 <= i < |s| ==> IsJsSpace(s[i])
  {
    var t := TrimStart(s);
    if Trim(s) == "" {
      assert t == [];
    }
    if forall i :: 0 <= i < |s| ==> IsJsSpace(s[i]) {
      if t != [] {
        assert t[0] == s[|s| - |t|];
      }
    }
  }

  /** The number of leading decimal digits of `s`. */
  function DigitRun(s: string): (k: nat)
    ensures k <= |s|
    ensures AllDigits(s[..k])
    ensures k < |s| ==> !IsDigit(s[k])
  {
    if s == [] || !IsDigit(s[0]) then 0
    else
      var k := 1 + DigitRun(s[1..]);
      assert s[..k] == [s[0]] + s[1..][..k - 1];
      k
  }

  function DigitsValue(d: string): nat
    requires AllDigits(d)
  {
    if d == [] then 0
    else
      assert IsDigit(d[|d| - 1]);
      DigitsValue(d[..|d| - 1]) * 10 + (d[|d| - 1] as int - '0' as int)
  }

  function ParseDigits(s: string): Option<int> {
    var k := DigitRun(s);
    if k == 0 then None else Some(DigitsValue(s[..k]))
  }

  function ParseInt(s: string): Option<int> {
    var t := TrimStart(s);
    if |t| > 0 && t[0] == '-' then
      match ParseDigits(t[1..])
      case None => None
      case Some(v) => Some(-v)
    else if |t| > 0 && t[0] == '+' then
      match ParseDigits(t[1..])
      case None => None
      case Some(v) => Some(v)
    else
      ParseDigits(t)
  }

  lemma {:induction false} DigitsValueOfNatToString(n: nat)
    ensures DigitsValue(NatToString(n)) == n
    decreases n
  {
    if n >= 10 {
      var s := NatToString(n);
      assert s[..|s| - 1] == NatToString(n / 10);
      DigitsValueOfNatToString(n / 10);
    }
  }

  lemma ParseDigitsOfNatToString(n: nat)
    ensures ParseDigits(NatToString(n)) == Some(n)
  {
    var s := NatToString(n);
    var k := DigitRun(s);
    assert k == |s|;
    assert s[..k] == s;
    DigitsValueOfNatToString(n);
  }

  /** `parseInt` reads back what the template string printed. */
  lemma ParseIntOfIntToString(n: int)
    ensures ParseInt(IntToString(n)) == Some(n)
  {
    ParseIntOfIntSuffix(n, "");
    assert IntToString(n) + "" == IntToString(n);
  }

  /** The digits are read up to the first character that is not a digit. */
  lemma DigitRunOfNatToString(n: nat, rest: string)
    requires rest == [] || !IsDigit(rest[0])
    ensures DigitRun(NatToString(n) + rest) == |NatToString(n)|
    ensures (NatToString(n) + rest)[..|NatToString(n)|] == NatToString(n)
  {
    var s := NatToString(n);
    assert (s + rest)[..|s|] == s;
    DigitRunLength(s + rest, |s|);
  }

  lemma {:induction false} DigitRunLength(s: string, k: nat)
    requires k <= |s| && AllDigits(s[..k]) && (k == |s| || !IsDigit(s[k]))
    ensures DigitRun(s) == k
  {
    if k > 0 {
      assert s[..k][0] == s[0];
      assert s[1..][..k - 1] == s[..k][1..];
      DigitRunLength(s[1..], k - 1);
    }
  }

  /** A number printed by a template string and followed by a suffix that
      does not start with a digit (such as " seconds ago") is read back by
      `parseInt`. */
  lemma ParseIntOfIntSuffix(n: int, suffix: string)
    requires suffix == [] || !IsDigit(suffix[0])
    ensures ParseInt(IntToString(n) + suffix) == Some(n)
  {
    if n < 0 {
      var digits := NatToString(-n) + suffix;
      assert ParseInt("-" + digits) == Some(n) by {
        ParseDigitsOfNatSuffix(-n, suffix);
        ParseIntOfMinus(digits, -n);
      }
      assert IntToString(n) == "-" + NatToString(-n);
      ConcatAssoc("-", NatToString(-n), suffix);
    } else {
      var digits := NatToString(n) + suffix;
      assert ParseInt(digits) == Some(n) by {
        ParseDigitsOfNatSuffix(n, suffix);
        ParseIntOfDigitStart(digits);
      }
      assert IntToString(n) == NatToString(n);
    }
  }

  /** `parseInt` of a string that starts with a minus sign. */
  lemma ParseIntOfMinus(digits: string, v: int)
    requires ParseDigits(digits) == Some(v)
    ensures ParseInt("-" + digits) == Some(-v)
  {
    var s := "-" + digits;
    assert s[0] == '-' && !IsJsSpace(s[0]);
    assert TrimStart(s) == s;
    assert s[1..] == digits;
  }

  /** `parseInt` of a string that starts with a digit. */
  lemma ParseIntOfDigitStart(s: string)
    requires s != [] && IsDigit(s[0])
    ensures ParseInt(s) == ParseDigits(s)
  {
    assert !IsJsSpace(s[0]);
    assert TrimStart(s) == s;
  }

  lemma ParseDigitsOfNatSuffix(n: nat, suffix: string)
    requires suffix == [] || !IsDigit(suffix[0])
    ensures ParseDigits(NatToString(n) + suffix) == Some(n)
  {
    DigitRunOfNatToString(n, suffix);
    DigitsValueOfNatToString(n);
  }

  predicate EndsWith(s: string, suffix: string) {
    |suffix| <= |s| && s[|s| - |suffix|..] == suffix
  }

  /** A signed number printed with a leading `+` and followed by a non-digit
      suffix (such as `%` or ` min`) is read back by `parseInt`. */
  lemma ParseIntOfPlus(n: nat, suffix: string)
    requires suffix == [] || !IsDigit(suffix[0])
    ensures ParseInt("+" + IntToString(n) + suffix) == Some(n)
  {
    var digits := NatToString(n) + suffix;
    assert ParseInt("+" + digits) == Some(n) by {
      ParseDigitsOfNatSuffix(n, suffix);
      ParseIntOfPlusSign(digits);
    }
    assert IntToString(n) == NatToString(n);
    ConcatAssoc("+", NatToString(n), suffix);
  }

  lemma ConcatAssoc(a: string, b: string, c: string)
    ensures (a + b) + c == a + (b + c)
  {
  }

  /** `parseInt` of a string that starts with a plus sign. */
  lemma ParseIntOfPlusSign(digits: string)
    ensures ParseInt("+" + digits) == ParseDigits(digits)
  {
    var s := "+" + digits;
    assert s[0] == '+' && !IsJsSpace(s[0]);
    assert TrimStart(s) == s;
    assert s[1..] == digits;
  }

  /** Distinct integers print as distinct strings. */
  lemma IntToStringInjective(m: int, n: int)
    ensures IntToString(m) == IntToString(n) <==> m == n
  {
    ParseIntOfIntToString(m);
    ParseIntOfIntToString(n);
  }

  // ---------------------------------------------------------------------------
  // `parts.join(sep)` and `s.split(c)` for a one-character separator.

  function Join(parts: seq<string>, sep: string): string {
    if |parts| == 0 then ""
    else if |parts| == 1 then parts[0]
    else parts[0] + sep + Join(parts[1..], sep)
  }

  /** The index of the first `c` in `s`, or `|s|`. */
  function IndexOf(s: string, c: char): (i: nat)
    ensures i <= |s|
    ensures i < |s| ==> s[i] == c
    ensures c !in s[..i]
  {
    if s == [] then 0
    else if s[0] == c then 0
    else
      var i := 1 + IndexOf(s[1..], c);
      assert s[..i] == [s[0]] + s[1..][..i - 1];
      i
  }

  function Split(s: string, c: char): (parts: seq<string>)
    ensures |parts| >= 1
    ensures forall k :: 0 <= k < |parts| ==> c !in parts[k]
    decreases |s|
  {
    var i := IndexOf(s, c);
    if i == |s| then
      assert s[..i] == s;
      [s]
    else
      [s[..i]] + Split(s[i + 1..], c)
  }

  lemma JoinCons(a: string, rest: seq<string>, sep: string)
    requires |rest| >= 1
    ensures Join([a] + rest, sep) == a + sep + Join(rest, sep)
  {
    assert ([a] + rest)[1..] == rest;
  }

  /** Joining the pieces of a split with the separator gives the string back. */
  lemma {:induction false} JoinOfSplit(s: string, c: char)
    ensures Join(Split(s, c), [c]) == s
    decreases |s|
  {
    var i := IndexOf(s, c);
    if i == |s| {
      assert s[..i] == s;
    } else {
      JoinOfSplit(s[i + 1..], c);
      var rest := Split(s[i + 1..], c);
      JoinCons(s[..i], rest, [c]);
      assert s == s[..i] + [c] + s[i + 1..];
    }
  }

  /** Splitting a join whose parts do not contain the separator gives the parts back. */
  lemma {:induction false} SplitOfJoin(parts: seq<string>, c: char)
    requires |parts| >= 1
    requires forall k :: 0 <= k < |parts| ==> c !in parts[k]
    ensures Split(Join(parts, [c]), c) == parts
  {
    var s := Join(parts, [c]);
    var p := parts[0];
    if |parts| == 1 {
      assert s == p;
    } else {
      var tail := Join(parts[1..], [c]);
      assert s == p + [c] + tail;
      assert IndexOf(s, c) == |p| by {
        assert s[|p|] == c;
        assert s[..|p|] == p;
      }
      assert s[..|p|] == p;
      assert s[|p| + 1..] == tail;
      SplitOfJoin(parts[1..], c);
    }
  }
}
