/** The JavaScript string operations the dashboard relies on, restricted to what the
    screens use: ASCII `toUpperCase`/`toLowerCase`, `includes`, `replace` of the first
    occurrence of a character, `split`/`join` on one separator character, `padStart`,
    and the decimal rendering of integers in template strings. */
module Text {

  predicate IsLowerAscii(c: char) { 'a' <= c <= 'z' }
  predicate IsUpperAscii(c: char) { 'A' <= c <= 'Z' }
  predicate IsDigit(c: char) { '0' <= c <= '9' }

  function UpperChar(c: char): (u: char)
    ensures !IsLowerAscii(u)
    ensures !IsLowerAscii(c) ==> u == c
    ensures IsLowerAscii(c) ==> IsUpperAscii(u) && u as int == c as int - 32
  {
    if IsLowerAscii(c) then (c as int - 32) as char else c
  }

  function LowerChar(c: char): (l: char)
    ensures !IsUpperAscii(l)
    ensures !IsUpperAscii(c) ==> l == c
    ensures IsUpperAscii(c) ==> IsLowerAscii(l) && l as int == c as int + 32
  {
    if IsUpperAscii(c) then (c as int + 32) as char else c
  }

  /** `s.toUpperCase()` on ASCII letters: the length is kept, no lower-case letter
      survives, and every other character is left alone. */
  function ToUpper(s: string): (r: string)
    ensures |r| == |s|
    ensures forall i :: 0 <= i < |r| ==> !IsLowerAscii(r[i])
    ensures forall i :: 0 <= i < |s| && !IsLowerAscii(s[i]) ==> r[i] == s[i]
    ensures forall i :: 0 <= i < |s| ==> r[i] == UpperChar(s[i])
  {
    seq(|s|, i requires 0 <= i < |s| => UpperChar(s[i]))
  }

  /** `s.toLowerCase()` on ASCII letters. */
  function ToLower(s: string): (r: string)
    ensures |r| == |s|
    ensures forall i :: 0 <= i < |r| ==> !IsUpperAscii(r[i])
    ensures forall i :: 0 <= i < |s| && !IsUpperAscii(s[i]) ==> r[i] == s[i]
    ensures forall i :: 0 <= i < |s| ==> r[i] == LowerChar(s[i])
  {
    seq(|s|, i requires 0 <= i < |s| => LowerChar(s[i]))
  }

  /** Upper-casing twice is upper-casing once. */
  lemma ToUpperIdempotent(s: string)
    ensures ToUpper(ToUpper(s)) == ToUpper(s)
  {
  }

  /** `hay.includes(needle)`. */
  function Contains(hay: string, needle: string): bool
    decreases |hay|
  {
    if needle <= hay then true
    else if hay == [] then false
    else Contains(hay[1..], needle)
  }

  /** `needle` occurs in `hay` starting at index `i`. */
  ghost predicate OccursAt(hay: string, needle: string, i: int)
  {
    0 <= i && i + |needle| <= |hay| && hay[i..i + |needle|] == needle
  }

  /** `Contains` holds exactly when the needle occurs at some position of the haystack. */
  lemma ContainsIff(hay: string, needle: string)
    ensures Contains(hay, needle) <==> exists i :: OccursAt(hay, needle, i)
  {
    if Contains(hay, needle) {
      ContainsSound(hay, needle);
    }
    forall i | OccursAt(hay, needle, i) ensures Contains(hay, needle) {
      ContainsComplete(hay, needle, i);
    }
  }

  lemma {:induction false} ContainsSound(hay: string, needle: string)
    requires Contains(hay, needle)
    ensures exists i :: OccursAt(hay, needle, i)
    decreases |hay|
  {
    if needle <= hay {
      assert OccursAt(hay, needle, 0);
    } else {
      ContainsSound(hay[1..], needle);
      var i :| OccursAt(hay[1..], needle, i);
      assert hay[1..][i..i + |needle|] == hay[i + 1..i + 1 + |needle|];
      assert OccursAt(hay, needle, i + 1);
    }
  }

  lemma {:induction false} ContainsComplete(hay: string, needle: string, i: int)
    requires OccursAt(hay, needle, i)
    ensures Contains(hay, needle)
    decreases i
  {
    if i == 0 {
      assert needle <= hay;
    } else if !(needle <= hay) {
      assert hay[1..][i - 1..i - 1 + |needle|] == hay[i..i + |needle|];
      ContainsComplete(hay[1..], needle, i - 1);
    }
  }

  /** Every string includes the empty string, so an empty search term matches anything. */
  lemma ContainsEmpty(hay: string)
    ensures Contains(hay, "")
  {
  }

  /** The case-insensitive search used by the screen filters:
      `field.toLowerCase().includes(term.toLowerCase())`. */
  function MatchesIgnoringCase(field: string, term: string): bool
  {
    Contains(ToLower(field), ToLower(term))
  }

  /** A term typed in upper case matches whatever the term matches, and a field always
      matches its own text. */
  lemma MatchesIgnoringCaseOfUpper(field: string, term: string)
    ensures MatchesIgnoringCase(field, ToUpper(term)) == MatchesIgnoringCase(field, term)
    ensures MatchesIgnoringCase(field, field)
  {
    assert ToLower(ToUpper(term)) == ToLower(term);
  }

  /** Index of the first occurrence of `c` in `s`. */
  function IndexOf(s: string, c: char): (i: nat)
    requires c in s
    ensures i < |s| && s[i] == c && c !in s[..i]
  {
    if s[0] == c then 0 else 1 + IndexOf(s[1..], c)
  }

  /** `s.replace(from, to)` with a one-character pattern: only the first occurrence changes. */
  function ReplaceFirst(s: string, from: char, to: char): (r: string)
    ensures |r| == |s|
    ensures from !in s ==> r == s
  {
    if s == [] then []
    else if s[0] == from then [to] + s[1..]
    else [s[0]] + ReplaceFirst(s[1..], from, to)
  }

  /** When `from` occurs, exactly the character at its first index is replaced. */
  lemma {:induction false} ReplaceFirstAt(s: string, from: char, to: char)
    requires from in s
    ensures ReplaceFirst(s, from, to) == s[..IndexOf(s, from)] + [to] + s[IndexOf(s, from) + 1..]
  {
    if s[0] != from {
      assert from in s[1..];
      ReplaceFirstAt(s[1..], from, to);
      var k := IndexOf(s[1..], from);
      assert s[..k + 1] == [s[0]] + s[1..][..k];
      assert s[k + 2..] == s[1..][k + 1..];
    }
  }

  /** Number of occurrences of `c` in `s`. */
  function Occurrences(s: string, c: char): nat
  {
    if s == [] then 0 else (if s[0] == c then 1 else 0) + Occurrences(s[1..], c)
  }

  lemma {:induction false} OccurrencesSplit(a: string, b: string, c: char)
    ensures Occurrences(a + b, c) == Occurrences(a, c) + Occurrences(b, c)
  {
    if a == [] {
      assert a + b == b;
    } else {
      assert (a + b)[1..] == a[1..] + b;
      OccurrencesSplit(a[1..], b, c);
    }
  }

  lemma {:induction false} OccurrencesZero(s: string, c: char)
    ensures Occurrences(s, c) == 0 <==> c !in s
  {
    if s != [] {
      OccurrencesZero(s[1..], c);
      assert s == [s[0]] + s[1..];
    }
  }

  /** A string made of two separator-free parts around one separator holds it once. */
  lemma OccursOnce(a: string, b: string, c: char)
    requires c !in a && c !in b
    ensures Occurrences(a + [c] + b, c) == 1
  {
    OccurrencesZero(a, c);
    OccurrencesZero(b, c);
    OccurrencesSplit(a + [c], b, c);
    OccurrencesSplit(a, [c], c);
  }

  /** Replacing the first occurrence of `from` by a different character removes exactly one
      occurrence of it. */
  lemma ReplaceFirstRemovesOne(s: string, from: char, to: char)
    requires from != to && from in s
    ensures Occurrences(ReplaceFirst(s, from, to), from) == Occurrences(s, from) - 1
  {
    var i := IndexOf(s, from);
    ReplaceFirstAt(s, from, to);
    OccurrencesSplit(s[..i] + [to], s[i + 1..], from);
    OccurrencesSplit(s[..i], [to], from);
    assert s == s[..i] + [from] + s[i + 1..];
    OccurrencesSplit(s[..i] + [from], s[i + 1..], from);
    OccurrencesSplit(s[..i], [from], from);
  }

  /** The badge label shared by several screens: `s.replace('_', ' ').toUpperCase()`. The
      first '_' becomes a space and every other character is upper-cased in place. */
  function Label(s: string): (r: string)
    ensures |r| == |s|
    ensures forall i :: 0 <= i < |s| ==>
              r[i] == (if '_' in s && i == IndexOf(s, '_') then ' ' else UpperChar(s[i]))
  {
    var t := ReplaceFirst(s, '_', ' ');
    assert '_' in s ==> t == s[..IndexOf(s, '_')] + [' '] + s[IndexOf(s, '_') + 1..] by {
      if '_' in s {
        ReplaceFirstAt(s, '_', ' ');
      }
    }
    ToUpper(t)
  }

  /** A string with at most one underscore has none left in its label; one with more
      keeps all but the first. */
  lemma LabelUnderscores(s: string)
    ensures Occurrences(Label(s), '_') == if '_' in s then Occurrences(s, '_') - 1 else 0
  {
    var t := ReplaceFirst(s, '_', ' ');
    if '_' in s {
      ReplaceFirstRemovesOne(s, '_', ' ');
    } else {
      OccurrencesZero(s, '_');
    }
    UpperKeepsUnderscores(t);
  }

  lemma {:induction false} UpperKeepsUnderscores(s: string)
    ensures Occurrences(ToUpper(s), '_') == Occurrences(s, '_')
  {
    if s != [] {
      UpperKeepsUnderscores(s[1..]);
      assert ToUpper(s)[1..] == ToUpper(s[1..]);
    }
  }

  /** `s.split(sep)`: the pieces between separators; a string with no separator is one piece. */
  function Split(s: string, sep: char): (parts: seq<string>)
    ensures |parts| >= 1
    ensures forall p :: p in parts ==> sep !in p
  {
    if s == [] then [""]
    else
      var rest := Split(s[1..], sep);
      if s[0] == sep then [""] + rest
      else [[s[0]] + rest[0]] + rest[1..]
  }

  /** `parts.join(sep)`. */
  function Join(parts: seq<string>, sep: char): string
  {
    if parts == [] then ""
    else if |parts| == 1 then parts[0]
    else parts[0] + [sep] + Join(parts[1..], sep)
  }

  /** Joining the pieces of a split gives back the original string. */
  lemma {:induction false} JoinSplit(s: string, sep: char)
    ensures Join(Split(s, sep), sep) == s
  {
    if s != [] {
      JoinSplit(s[1..], sep);
      var rest := Split(s[1..], sep);
      if s[0] == sep {
        assert Split(s, sep) == [""] + rest;
        assert ([""] + rest)[1..] == rest;
      } else {
        var parts := [[s[0]] + rest[0]] + rest[1..];
        assert parts[1..] == rest[1..];
        if |rest| == 1 {
          assert rest == [rest[0]];
        } else {
          assert Join(rest, sep) == rest[0] + [sep] + Join(rest[1..], sep);
        }
      }
    }
  }

  /** A string without separator is a single piece. */
  lemma {:induction false} SplitNoSeparator(s: string, sep: char)
    requires sep !in s
    ensures Split(s, sep) == [s]
  {
    if s != [] {
      SplitNoSeparator(s[1..], sep);
      assert [s[0]] + s[1..] == s;
    }
  }

  /** A separator after a separator-free prefix ends the first piece there. */
  lemma {:induction false} SplitAfter(a: string, b: string, sep: char)
    requires sep !in a
    ensures Split(a + [sep] + b, sep) == [a] + Split(b, sep)
  {
    if a == [] {
      assert a + [sep] + b == [sep] + b;
      assert ([sep] + b)[1..] == b;
    } else {
      assert (a + [sep] + b)[1..] == a[1..] + [sep] + b;
      SplitAfter(a[1..], b, sep);
      assert [a[0]] + a[1..] == a;
    }
  }

  /** Splitting a join of separator-free pieces gives back the pieces. */
  lemma {:induction false} SplitJoin(parts: seq<string>, sep: char)
    requires |parts| >= 1
    requires forall p :: p in parts ==> sep !in p
    ensures Split(Join(parts, sep), sep) == parts
  {
    if |parts| == 1 {
      SplitNoSeparator(parts[0], sep);
    } else {
      SplitJoin(parts[1..], sep);
      SplitAfter(parts[0], Join(parts[1..], sep), sep);
      assert [parts[0]] + parts[1..] == parts;
    }
  }

  /** The last piece follows the last separator. */
  lemma {:induction false} JoinLast(parts: seq<string>, sep: char)
    requires |parts| >= 2
    ensures Join(parts, sep) == Join(parts[..|parts| - 1], sep) + [sep] + parts[|parts| - 1]
  {
    if |parts| > 2 {
      JoinLast(parts[1..], sep);
      assert parts[1..][..|parts| - 2] == parts[..|parts| - 1][1..];
    }
  }

  function DigitChar(d: nat): (c: char)
    requires d < 10
    ensures IsDigit(c) && c as int - '0' as int == d
  {
    ('0' as int + d) as char
  }

  /** `String(n)` for a non-negative integer: its decimal digits, no leading zero. */
  function NatToString(n: nat): (s: string)
    ensures |s| >= 1
    ensures forall i :: 0 <= i < |s| ==> IsDigit(s[i])
    ensures |s| > 1 ==> s[0] != '0'
    decreases n
  {
    if n < 10 then [DigitChar(n)] else NatToString(n / 10) + [DigitChar(n % 10)]
  }

  /** Numbers below 1000 have at most three digits. */
  lemma AtMostThreeDigits(n: nat)
    ensures n <= 999 ==> |NatToString(n)| <= 3
  {
    if 10 <= n <= 999 {
      assert NatToString(n) == NatToString(n / 10) + [DigitChar(n % 10)];
      if n / 10 >= 10 {
        assert NatToString(n / 10) == NatToString(n / 10 / 10) + [DigitChar(n / 10 % 10)];
        assert n / 10 / 10 < 10;
      }
    }
  }

  /** The value of a string of decimal digits (the inverse of `NatToString`). */
  function ParseNat(s: string): nat
    requires forall i :: 0 <= i < |s| ==> IsDigit(s[i])
  {
    if s == [] then 0
    else
      assert IsDigit(s[|s| - 1]);
      ParseNat(s[..|s| - 1]) * 10 + (s[|s| - 1] as int - '0' as int)
  }

  /** Rendering then reading a number gives the number back. */
  lemma {:induction false} ParseNatToString(n: nat)
    ensures ParseNat(NatToString(n)) == n
    decreases n
  {
    if n >= 10 {
      ParseNatToString(n / 10);
      var s := NatToString(n);
      assert s[..|s| - 1] == NatToString(n / 10);
    }
  }

  /** Two different numbers never render the same. */
  lemma NatToStringInjective(m: nat, n: nat)
    requires NatToString(m) == NatToString(n)
    ensures m == n
  {
    ParseNatToString(m);
    ParseNatToString(n);
  }

  /** `k` copies of `c`. */
  function Repeat(c: char, k: nat): (r: string)
    ensures |r| == k
    ensures forall i :: 0 <= i < k ==> r[i] == c
  {
    if k == 0 then [] else [c] + Repeat(c, k - 1)
  }

  /** `s.padStart(width, c)`: `s` itself when it is already that long, else `c`s in front.
      (Only lengths are stated here: the padding is `Repeat`, which callers unfold.) */
  function PadStart(s: string, width: nat, c: char): (r: string)
    ensures |s| >= width ==> r == s
    ensures |s| < width ==> |r| == width
  {
    if |s| >= width then s else Repeat(c, width - |s|) + s
  }

  /** Leading zeros do not change the value of a digit string. */
  lemma {:induction false} ParseNatLeadingZeros(z: string, s: string)
    requires forall i :: 0 <= i < |z| ==> z[i] == '0'
    requires forall i :: 0 <= i < |s| ==> IsDigit(s[i])
    ensures forall i :: 0 <= i < |z + s| ==> IsDigit((z + s)[i])
    ensures ParseNat(z + s) == ParseNat(s)
    decreases |z| + |s|
  {
    if s == [] {
      assert z + s == z;
      ParseNatZeros(z);
    } else {
      var last := |z + s| - 1;
      assert (z + s)[..last] == z + s[..|s| - 1];
      ParseNatLeadingZeros(z, s[..|s| - 1]);
    }
  }

  lemma {:induction false} ParseNatZeros(z: string)
    requires forall i :: 0 <= i < |z| ==> z[i] == '0'
    ensures forall i :: 0 <= i < |z| ==> IsDigit(z[i])
    ensures ParseNat(z) == 0
  {
    if z != [] {
      ParseNatZeros(z[..|z| - 1]);
    }
  }

  /** Zero-padding a rendered number still reads back as that number. */
  lemma PaddedNumberValue(n: nat, width: nat)
    ensures forall i :: 0 <= i < |PadStart(NatToString(n), width, '0')| ==>
              IsDigit(PadStart(NatToString(n), width, '0')[i])
    ensures ParseNat(PadStart(NatToString(n), width, '0')) == n
  {
    var s := NatToString(n);
    var z := if |s| >= width then [] else Repeat('0', width - |s|);
    assert PadStart(s, width, '0') == z + s;
    ParseNatLeadingZeros(z, s);
    ParseNatToString(n);
  }

  /** `String(i)` for any integer: a minus sign before the digits of a negative number. */
  function IntToString(i: int): (s: string)
    ensures |s| >= 1
    ensures (s[0] == '-') <==> i < 0
  {
    if i < 0 then "-" + NatToString(-i) else NatToString(i)
  }
}
