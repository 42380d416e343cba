/**
 * The .NET string operations the core relies on, stated over `seq<char>`:
 * `char.IsWhiteSpace` / `string.IsNullOrWhiteSpace`, `String.Split(char)`
 * (empty pieces kept), `string.Join(char, ...)`, `StringValues.ToString()`
 * and `{n:D}` decimal formatting.
 */
module Text {

  /** `char.IsWhiteSpace`: the Unicode White_Space characters of the Basic Multilingual Plane. */
  predicate IsWhiteSpace(c: char)
  {
    ('\U{0009}' <= c <= '\U{000D}') || c == ' ' || c == '\U{0085}' || c == '\U{00A0}'
    || c == '\U{1680}' || ('\U{2000}' <= c <= '\U{200A}') || c == '\U{2028}' || c == '\U{2029}'
    || c == '\U{202F}' || c == '\U{205F}' || c == '\U{3000}'
  }

  /** `string.IsNullOrWhiteSpace` (a null string is not representable, so: empty or all white space). */
  predicate IsNullOrWhiteSpace(s: string)
  {
    |s| == 0 || (IsWhiteSpace(s[0]) && IsNullOrWhiteSpace(s[1..]))
  }

  /** A character outside the Basic Multilingual Plane, which UTF-16 stores as a surrogate pair. */
  predicate IsSupplementary(c: char)
  {
    c >= '\U{10000}'
  }

  /**
   * `string.Length`: the number of UTF-16 code units, one per character of
   * the Basic Multilingual Plane and two per supplementary character.
   */
  function Utf16Length(s: string): (n: nat)
    ensures |s| <= n <= 2 * |s|
  {
    if |s| == 0 then 0 else (if IsSupplementary(s[0]) then 2 else 1) + Utf16Length(s[1..])
  }

  /**
   * The code units are the characters exactly when no character is
   * supplementary, and twice as many exactly when every character is.
   */
  lemma {:induction false} Utf16LengthCounts(s: string)
    ensures Utf16Length(s) == |s| <==> forall i | 0 <= i < |s| :: !IsSupplementary(s[i])
    ensures Utf16Length(s) == 2 * |s| <==> forall i | 0 <= i < |s| :: IsSupplementary(s[i])
    decreases |s|
  {
    if |s| > 0 {
      Utf16LengthCounts(s[1..]);
      assert forall i | 1 <= i < |s| :: s[i] == s[1..][i - 1];
    }
  }

  /** Code units add up over a concatenation. */
  lemma {:induction false} Utf16LengthConcat(a: string, b: string)
    ensures Utf16Length(a + b) == Utf16Length(a) + Utf16Length(b)
    decreases |a|
  {
    if |a| > 0 {
      assert (a + b)[0] == a[0] && (a + b)[1..] == a[1..] + b;
      Utf16LengthConcat(a[1..], b);
    } else {
      assert a + b == b;
    }
  }

  /** Strings the framework's guard clauses accept where they reject null or white space. */
  type NonBlank = s: string | !IsNullOrWhiteSpace(s) witness "x"

  /** A string is blank exactly when every one of its characters is white space. */
  lemma {:induction false} BlankMeansAllWhiteSpace(s: string)
    ensures IsNullOrWhiteSpace(s) <==> forall i | 0 <= i < |s| :: IsWhiteSpace(s[i])
    decreases |s|
  {
    if |s| > 0 {
      BlankMeansAllWhiteSpace(s[1..]);
      assert forall i | 1 <= i < |s| :: s[i] == s[1..][i - 1];
    }
  }

  /** A string with one character that is not white space is never blank. */
  lemma NonBlankWitness(s: string, i: nat)
    requires i < |s| && !IsWhiteSpace(s[i])
    ensures !IsNullOrWhiteSpace(s)
  {
    BlankMeansAllWhiteSpace(s);
  }

  /** Index of the first occurrence of `c` in `s`. */
  function IndexOf(s: string, c: char): (k: nat)
    requires c in s
    ensures k < |s| && s[k] == c && c !in s[..k]
  {
    if s[0] == c then 0 else 1 + IndexOf(s[1..], c)
  }

  /** `s.Split(sep)`: the pieces between separators, empty pieces included; never an empty list. */
  function Split(s: string, sep: char): (pieces: seq<string>)
    ensures |pieces| >= 1
    ensures forall i | 0 <= i < |pieces| :: sep !in pieces[i]
    decreases |s|
  {
    if sep !in s then [s]
    else
      var k := IndexOf(s, sep);
      [s[..k]] + Split(s[k + 1..], sep)
  }

  /** `string.Join(sep, parts)`. */
  function Join(parts: seq<string>, sep: char): string
  {
    if |parts| == 0 then ""
    else if |parts| == 1 then parts[0]
    else parts[0] + [sep] + Join(parts[1..], sep)
  }

  /** Joining the pieces of a split restores the original string. */
  lemma {:induction false} JoinSplit(s: string, sep: char)
    ensures Join(Split(s, sep), sep) == s
    decreases |s|
  {
    if sep in s {
      var k := IndexOf(s, sep);
      var head, tail := s[..k], s[k + 1..];
      var rest := Split(tail, sep);
      assert Split(s, sep) == [head] + rest;
      JoinSplit(tail, sep);
      assert ([head] + rest)[1..] == rest;
      assert Join([head] + rest, sep) == head + [sep] + Join(rest, sep);
      assert s == head + [sep] + tail;
    }
  }

  /** Splitting a join restores the parts when no part contains the separator. */
  lemma {:induction false} SplitJoin(parts: seq<string>, sep: char)
    requires |parts| >= 1
    requires forall i | 0 <= i < |parts| :: sep !in parts[i]
    ensures Split(Join(parts, sep), sep) == parts
    decreases |parts|
  {
    if |parts| > 1 {
      var tail := Join(parts[1..], sep);
      var s := parts[0] + [sep] + tail;
      assert s[|parts[0]|] == sep;
      assert IndexOf(s, sep) == |parts[0]|;
      assert s[..|parts[0]|] == parts[0];
      assert s[|parts[0]| + 1..] == tail;
      SplitJoin(parts[1..], sep);
    }
  }

  /** The values that are not empty, in order. */
  function NonEmptyValues(values: seq<string>): (kept: seq<string>)
    ensures forall v :: v in kept <==> v in values && v != ""
  {
    if |values| == 0 then []
    else
      var rest := NonEmptyValues(values[1..]);
      assert forall v :: v in values <==> v == values[0] || v in values[1..] by {
        assert values == [values[0]] + values[1..];
      }
      (if values[0] == "" then [] else [values[0]]) + rest
  }

  /**
   * `StringValues.ToString()`: the single value, or else the values that are
   * not empty joined with commas (null and empty values are skipped).
   */
  function StringValuesToString(values: seq<string>): string
  {
    if |values| == 1 then values[0] else Join(NonEmptyValues(values), ',')
  }

  /** A join of non-empty parts is empty exactly when there are no parts. */
  lemma JoinOfNonEmptyParts(parts: seq<string>, sep: char)
    requires forall i | 0 <= i < |parts| :: parts[i] != ""
    ensures Join(parts, sep) == "" <==> |parts| == 0
  {
    if |parts| == 1 {
      assert parts[0] != "";
    } else if |parts| > 1 {
      assert |parts[0] + [sep] + Join(parts[1..], sep)| >= 1;
    }
  }

  /** Two or more values read as the empty string exactly when every one of them is empty. */
  lemma SeveralValuesEmptyIffAllEmpty(values: seq<string>)
    requires |values| >= 2
    ensures StringValuesToString(values) == "" <==> forall i | 0 <= i < |values| :: values[i] == ""
  {
    var kept := NonEmptyValues(values);
    assert forall i | 0 <= i < |kept| :: kept[i] != "" by {
      forall i | 0 <= i < |kept| ensures kept[i] != "" { assert kept[i] in kept; }
    }
    JoinOfNonEmptyParts(kept, ',');
    if |kept| == 0 {
      forall i | 0 <= i < |values| ensures values[i] == "" {
        assert values[i] in values;
      }
    } else {
      assert kept[0] in kept;
    }
  }

  /** A single value reads as itself. */
  lemma SingleValueUnchanged(values: seq<string>)
    requires |values| == 1
    ensures StringValuesToString(values) == values[0]
  {
  }

  function DigitChar(d: nat): char
    requires d < 10
  {
    ('0' as int + d) as char
  }

  /** `{n:D}` for a non-negative integer: its decimal digits, no sign, no leading zero. */
  function DecimalString(n: nat): (r: string)
    ensures |r| >= 1
    ensures forall i | 0 <= i < |r| :: '0' <= r[i] <= '9'
    ensures n > 0 ==> r[0] != '0'
  {
    if n < 10 then [DigitChar(n)] else DecimalString(n / 10) + [DigitChar(n % 10)]
  }

  /** The value of a string of decimal digits. */
  function ParseDecimal(s: string): nat
    requires forall i | 0 <= i < |s| :: '0' <= s[i] <= '9'
  {
    if |s| == 0 then 0 else 10 * ParseDecimal(s[..|s| - 1]) + (s[|s| - 1] as int - '0' as int)
  }

  /** Reading back a formatted number gives the number. */
  lemma {:induction false} DecimalRoundTrip(n: nat)
    ensures ParseDecimal(DecimalString(n)) == n
  {
    if n >= 10 {
      var r := DecimalString(n);
      assert r[..|r| - 1] == DecimalString(n / 10);
      DecimalRoundTrip(n / 10);
    }
  }
}
