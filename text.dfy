/** The two string helpers of the plugin: the countdown clock shown in
    announcements (`formatTime`) and the display name of the currency item
    (`getItemName`). Both are pure. */
module Text {

  datatype Option<T> = None | Some(value: T)

  // ---------------------------------------------------------------------
  // Decimal digits
  // ---------------------------------------------------------------------

  predicate IsDigit(c: char) { '0' <= c <= '9' }

  predicate AllDigits(s: string) { forall i :: 0 <= i < |s| ==> IsDigit(s[i]) }

  function DigitChar(d: nat): (c: char)
    requires d < 10
    ensures IsDigit(c)
  {
    ('0' as int + d) as char
  }

  /** The decimal numeral of `n`, as Java prints a non-negative long:
      no sign, no leading zero. */
  function Decimal(n: nat): (s: string)
    ensures 1 <= |s| && AllDigits(s)
    ensures s[0] == '0' <==> n == 0
    ensures |s| == 1 <==> n < 10
    ensures n < 100 ==> |s| <= 2
    decreases n
  {
    if n < 10 then [DigitChar(n)] else Decimal(n / 10) + [DigitChar(n % 10)]
  }

  /** The number a string of decimal digits denotes; the partner of `Decimal`. */
  function ValueOf(s: string): nat
    requires AllDigits(s)
  {
    if s == [] then 0 else ValueOf(s[..|s| - 1]) * 10 + (s[|s| - 1] as int - '0' as int)
  }

  lemma {:induction false} DecimalRoundTrip(n: nat)
    ensures ValueOf(Decimal(n)) == n
  {
    if n >= 10 {
      DecimalRoundTrip(n / 10);
      var s := Decimal(n);
      assert s[..|s| - 1] == Decimal(n / 10);
    }
  }

  /** A leading zero does not change the value of a numeral. */
  lemma {:induction false} LeadingZero(s: string)
    requires AllDigits(s)
    ensures AllDigits("0" + s) && ValueOf("0" + s) == ValueOf(s)
  {
    if s != [] {
      var t := "0" + s;
      assert t[..|t| - 1] == "0" + s[..|s| - 1];
      LeadingZero(s[..|s| - 1]);
    }
  }

  // ---------------------------------------------------------------------
  // formatTime
  // ---------------------------------------------------------------------

  /** Java's `/` on a positive divisor: the quotient is truncated toward zero. */
  function JavaDiv(a: int, b: int): (q: int)
    requires b > 0
    ensures a >= 0 ==> 0 <= q && b * q <= a < b * (q + 1)
    ensures a < 0 ==> q <= 0 && b * (q - 1) < a <= b * q
  {
    if a >= 0 then a / b else -((-a) / b)
  }

  /** Java's `%` on a positive divisor: the remainder takes the sign of `a`. */
  function JavaRem(a: int, b: int): (r: int)
    requires b > 0
    ensures a == b * JavaDiv(a, b) + r
    ensures a >= 0 ==> 0 <= r < b
    ensures a < 0 ==> -b < r <= 0
  {
    if a >= 0 then a % b else -((-a) % b)
  }

  /** `String.format("%02d", n)`: zero-padded to two characters; a negative
      number is its sign followed by its digits, already two wide. */
  function Pad2(n: int): (s: string)
    ensures n >= 0 ==> AllDigits(s) && 2 <= |s| && (|s| == 2 <==> n < 100)
    ensures n < 0 ==> 2 <= |s| && s[0] == '-' && AllDigits(s[1..])
  {
    if n < 0 then "-" + Decimal(-n)
    else if n < 10 then "0" + Decimal(n)
    else Decimal(n)
  }

  /** The digits printed for a non-negative number denote that number. */
  lemma Pad2Unsigned(n: nat)
    ensures ValueOf(Pad2(n)) == n
  {
    DecimalRoundTrip(n);
    if n < 10 {
      LeadingZero(Decimal(n));
    }
  }

  /** `formatTime(seconds)`: minutes and seconds, each `%02d`, joined by ':'.
      For a non-negative duration that is digits, ':' and exactly two digits,
      five characters in all under 100 minutes; a negative one shows a '-'. */
  function FormatTime(seconds: int): (t: string)
    ensures seconds >= 0 ==>
              && |t| >= 5 && t[|t| - 3] == ':'
              && AllDigits(t[..|t| - 3]) && AllDigits(t[|t| - 2..])
    ensures 0 <= seconds < 6000 ==> |t| == 5
    ensures seconds < 0 ==> '-' in t
  {
    Pad2(JavaDiv(seconds, 60)) + ":" + Pad2(JavaRem(seconds, 60))
  }

  /** Reads an "m...m:ss" clock back into seconds: the partner of `FormatTime`. */
  function ParseTime(t: string): Option<nat>
  {
    if |t| >= 5 && t[|t| - 3] == ':' && AllDigits(t[..|t| - 3]) && AllDigits(t[|t| - 2..])
       && ValueOf(t[|t| - 2..]) < 60
    then Some(ValueOf(t[..|t| - 3]) * 60 + ValueOf(t[|t| - 2..]))
    else None
  }

  /** Every non-negative duration is shown as a clock that reads back as it. */
  lemma FormatTimeRoundTrip(seconds: nat)
    ensures ParseTime(FormatTime(seconds)) == Some(seconds)
  {
    var m, s := JavaDiv(seconds, 60), JavaRem(seconds, 60);
    Pad2Unsigned(m);
    Pad2Unsigned(s);
    var t := FormatTime(seconds);
    assert t[..|t| - 3] == Pad2(m);
    assert t[|t| - 2..] == Pad2(s);
  }

  // ---------------------------------------------------------------------
  // getItemName
  // ---------------------------------------------------------------------

  /** `Character.toLowerCase` on the ASCII letters a Material name is made of:
      an upper-case letter becomes the lower-case letter at the same place in
      the alphabet, and every other character is kept. */
  function Lower(c: char): (r: char)
    ensures 'A' <= c <= 'Z' ==> 'a' <= r <= 'z' && r as int - 'a' as int == c as int - 'A' as int
    ensures !('A' <= c <= 'Z') ==> r == c
    ensures !('A' <= r <= 'Z')
  {
    if 'A' <= c <= 'Z' then (c as int + 32) as char else c
  }

  /** `Character.toUpperCase` on ASCII letters: a lower-case letter becomes
      its upper-case form, and every other character is kept. */
  function Upper(c: char): (r: char)
    ensures 'a' <= c <= 'z' ==> 'A' <= r <= 'Z' && r as int - 'A' as int == c as int - 'a' as int
    ensures !('a' <= c <= 'z') ==> r == c
    ensures !('a' <= r <= 'z') && Lower(r) == Lower(c)
  {
    if 'a' <= c <= 'z' then (c as int - 32) as char else c
  }

  /** `String.toLowerCase()`, letter by letter. */
  function LowerAll(s: string): (r: string)
    ensures |r| == |s|
    ensures forall i :: 0 <= i < |s| ==> r[i] == Lower(s[i])
  {
    if s == [] then [] else [Lower(s[0])] + LowerAll(s[1..])
  }

  /** `String.replace` of one character by another, everywhere. */
  function Replace(s: string, target: char, replacement: char): (r: string)
    ensures |r| == |s|
    ensures forall i :: 0 <= i < |s| ==> r[i] == (if s[i] == target then replacement else s[i])
  {
    if s == [] then []
    else [if s[0] == target then replacement else s[0]] + Replace(s[1..], target, replacement)
  }

  /** How one character of the constant name appears in the display name. */
  function Shown(c: char): char
  {
    if c == '_' then ' ' else Lower(c)
  }

  /** `getItemName()`: the Material constant name in lower case with '_' read
      as a space, and its first character in upper case ("GOLD_INGOT" gives
      "Gold ingot"). `substring(0, 1)` fails on an empty name, which no
      Material constant has. */
  function ItemName(materialName: string): (r: string)
    requires |materialName| >= 1
    ensures |r| == |materialName|
    ensures r[0] == Upper(Shown(materialName[0]))
    ensures forall i :: 1 <= i < |r| ==> r[i] == Shown(materialName[i])
  {
    var name := Replace(LowerAll(materialName), '_', ' ');
    [Upper(name[0])] + name[1..]
  }

  /** A Material constant name: upper-case letters, digits and '_'. */
  predicate IsMaterialName(s: string)
  {
    |s| >= 1 && forall i :: 0 <= i < |s| ==> 'A' <= s[i] <= 'Z' || IsDigit(s[i]) || s[i] == '_'
  }

  /** Recovers the constant name from a display name: the partner of `ItemName`. */
  function ConstantName(s: string): (r: string)
    ensures |r| == |s|
    ensures forall i :: 0 <= i < |s| ==> r[i] == (if s[i] == ' ' then '_' else Upper(s[i]))
  {
    if s == [] then [] else [if s[0] == ' ' then '_' else Upper(s[0])] + ConstantName(s[1..])
  }

  /** The display name loses nothing: the constant name can be read back from it. */
  lemma ItemNameRoundTrip(materialName: string)
    requires IsMaterialName(materialName)
    ensures ConstantName(ItemName(materialName)) == materialName
  {
  }

  /** The display name has no '_' and no upper-case letter after the first. */
  lemma ItemNameShape(materialName: string)
    requires |materialName| >= 1
    ensures forall i :: 0 <= i < |materialName| ==> ItemName(materialName)[i] != '_'
    ensures forall i :: 1 <= i < |materialName| ==> !('A' <= ItemName(materialName)[i] <= 'Z')
  {
  }

  /** The default currency, `minecraft:diamond`, is announced as "Diamond". */
  lemma DiamondName()
    ensures ItemName("DIAMOND") == "Diamond"
  {
  }
}
