/**
 * The parts of java.lang.String that the modelled code relies on:
 * `String.join`, `split` on a one-character separator (limit 0) and
 * `toLowerCase` restricted to ASCII letters.
 */
module JavaStrings {

  /** `String.join(sep, parts)`: the parts with `sep` between consecutive ones. */
  function Join(parts: seq<string>, sep: string): (r: string)
    ensures parts == [] ==> r == ""
    ensures |parts| == 1 ==> r == parts[0]
  {
    if |parts| == 0 then ""
    else if |parts| == 1 then parts[0]
    else parts[0] + sep + Join(parts[1..], sep)
  }

  /** Joining one more part at the end adds the separator and that part. */
  lemma {:induction false} JoinSnoc(parts: seq<string>, last: string, sep: string)
    requires parts != []
    ensures Join(parts + [last], sep) == Join(parts, sep) + sep + last
  {
    if |parts| == 1 {
      assert parts + [last] == [parts[0], last];
    } else {
      assert (parts + [last])[1..] == parts[1..] + [last];
      JoinSnoc(parts[1..], last, sep);
    }
  }

  /** The length of a join: the parts plus one separator between each pair. */
  lemma {:induction false} JoinLength(parts: seq<string>, sep: string)
    requires parts != []
    ensures |Join(parts, sep)| == SumLengths(parts) + (|parts| - 1) * |sep|
  {
    if |parts| > 1 {
      JoinLength(parts[1..], sep);
    }
  }

  /** Each part preceded by the separator, concatenated. */
  function Prefixed(parts: seq<string>, sep: string): string
  {
    if parts == [] then "" else sep + parts[0] + Prefixed(parts[1..], sep)
  }

  /** A join of `[x] + rest` is `x` followed by every part of `rest` with its separator. */
  lemma {:induction false} JoinCons(x: string, rest: seq<string>, sep: string)
    ensures Join([x] + rest, sep) == x + Prefixed(rest, sep)
    decreases |rest|
  {
    if rest != [] {
      JoinCons(rest[0], rest[1..], sep);
      assert ([x] + rest)[1..] == [rest[0]] + rest[1..];
    }
  }

  /** Joining a concatenation: the first list joined, then every later part with its separator. */
  lemma {:induction false} JoinAppend(a: seq<string>, b: seq<string>, sep: string)
    requires a != []
    ensures Join(a + b, sep) == Join(a, sep) + Prefixed(b, sep)
  {
    if |a| == 1 {
      JoinCons(a[0], b, sep);
      assert a + b == [a[0]] + b;
    } else {
      JoinAppend(a[1..], b, sep);
      assert (a + b)[1..] == a[1..] + b;
    }
  }

  function SumLengths(parts: seq<string>): nat
  {
    if parts == [] then 0 else |parts[0]| + SumLengths(parts[1..])
  }

  /**
   * Every field of `s` between occurrences of `c`, empty ones included:
   * what a split without removal of trailing empty strings gives.
   */
  function Fields(s: string, c: char): (r: seq<string>)
    ensures |r| >= 1
  {
    if |s| == 0 then [""]
    else if s[0] == c then [""] + Fields(s[1..], c)
    else
      var rest := Fields(s[1..], c);
      [[s[0]] + rest[0]] + rest[1..]
  }

  /** No field contains the separator. */
  lemma {:induction false} FieldsFree(s: string, c: char)
    ensures forall i :: 0 <= i < |Fields(s, c)| ==> c !in Fields(s, c)[i]
  {
    if |s| > 0 {
      FieldsFree(s[1..], c);
    }
  }

  /** Joining the fields back with the separator gives the string again. */
  lemma {:induction false} FieldsJoin(s: string, c: char)
    ensures Join(Fields(s, c), [c]) == s
  {
    if |s| > 0 {
      var rest := Fields(s[1..], c);
      FieldsJoin(s[1..], c);
      if s[0] == c {
        assert Fields(s, c) == [""] + rest;
        assert s == [c] + s[1..];
      } else if |rest| == 1 {
        assert Fields(s, c) == [[s[0]] + rest[0]];
        assert s == [s[0]] + s[1..];
      } else {
        var first := [s[0]] + rest[0];
        assert Fields(s, c) == [first] + rest[1..];
        assert Join(rest, [c]) == rest[0] + [c] + Join(rest[1..], [c]);
        assert s == [s[0]] + s[1..];
      }
    }
  }

  /** A string without the separator is a single field. */
  lemma {:induction false} FieldsNoSeparator(s: string, c: char)
    requires c !in s
    ensures Fields(s, c) == [s]
  {
    if |s| > 0 {
      assert c !in s[1..];
      FieldsNoSeparator(s[1..], c);
      assert s[0] != c;
      assert [s[0]] + s[1..] == s;
    }
  }

  /** A separator-free field followed by the separator is the first field of the string. */
  lemma {:induction false} FieldsCons(x: string, rest: string, c: char)
    requires c !in x
    ensures Fields(x + [c] + rest, c) == [x] + Fields(rest, c)
  {
    if x == [] {
      assert x + [c] + rest == [c] + rest;
      assert ([c] + rest)[1..] == rest;
    } else {
      FieldsCons(x[1..], rest, c);
      assert (x + [c] + rest)[1..] == x[1..] + [c] + rest;
      assert [x[0]] + x[1..] == x;
    }
  }

  /** The fields of a join of separator-free parts are those parts. */
  lemma {:induction false} JoinFields(parts: seq<string>, c: char)
    requires parts != [] && forall i :: 0 <= i < |parts| ==> c !in parts[i]
    ensures Fields(Join(parts, [c]), c) == parts
  {
    if |parts| == 1 {
      FieldsNoSeparator(parts[0], c);
    } else {
      JoinFields(parts[1..], c);
      FieldsCons(parts[0], Join(parts[1..], [c]), c);
      assert [parts[0]] + parts[1..] == parts;
    }
  }

  /** The list without its trailing empty strings. */
  function DropTrailingEmpty(xs: seq<string>): (r: seq<string>)
  {
    if |xs| == 0 then []
    else if xs[|xs| - 1] == "" then DropTrailingEmpty(xs[..|xs| - 1])
    else xs
  }

  /** Dropping trailing empty strings keeps a prefix and leaves no empty string at the end. */
  lemma {:induction false} DropTrailingEmptyPrefix(xs: seq<string>)
    ensures |DropTrailingEmpty(xs)| <= |xs|
    ensures DropTrailingEmpty(xs) == xs[..|DropTrailingEmpty(xs)|]
    ensures DropTrailingEmpty(xs) != [] ==> DropTrailingEmpty(xs)[|DropTrailingEmpty(xs)| - 1] != ""
    ensures forall i :: |DropTrailingEmpty(xs)| <= i < |xs| ==> xs[i] == ""
  {
    if |xs| > 0 && xs[|xs| - 1] == "" {
      DropTrailingEmptyPrefix(xs[..|xs| - 1]);
    }
  }

  /**
   * `s.split(c)` for a separator that is not a regular-expression
   * metacharacter (a space or a colon): when `c` does not occur the result
   * is `[s]` itself (so `""` gives `[""]`); otherwise every field between
   * separators, interior and leading empty ones kept, trailing empty ones
   * removed.
   */
  function Split(s: string, c: char): (r: seq<string>)
  {
    if c !in s then [s] else DropTrailingEmpty(Fields(s, c))
  }

  /**
   * What `split` keeps: a prefix of the fields of `s`, none containing the
   * separator, and everything after it is empty.
   */
  lemma SplitFields(s: string, c: char)
    ensures |Split(s, c)| <= |Fields(s, c)|
    ensures Split(s, c) == Fields(s, c)[..|Split(s, c)|]
    ensures forall i :: |Split(s, c)| <= i < |Fields(s, c)| ==> Fields(s, c)[i] == ""
    ensures forall i :: 0 <= i < |Split(s, c)| ==> c !in Split(s, c)[i]
  {
    FieldsFree(s, c);
    if c in s {
      DropTrailingEmptyPrefix(Fields(s, c));
    } else {
      FieldsNoSeparator(s, c);
    }
  }

  /** When the separator occurs, `split` never ends with an empty string. */
  lemma SplitNoTrailingEmpty(s: string, c: char)
    requires c in s
    ensures Split(s, c) != [] ==> Split(s, c)[|Split(s, c)| - 1] != ""
  {
    DropTrailingEmptyPrefix(Fields(s, c));
  }

  /**
   * `split` undoes a join of separator-free parts, provided the last part
   * is not empty (a lone part may be empty: it is returned as it is).
   */
  lemma SplitJoin(parts: seq<string>, c: char)
    requires parts != [] && forall i :: 0 <= i < |parts| ==> c !in parts[i]
    requires |parts| == 1 || parts[|parts| - 1] != ""
    ensures Split(Join(parts, [c]), c) == parts
  {
    if |parts| == 1 {
    } else {
      var s := Join(parts, [c]);
      assert s[|parts[0]|] == c;
      JoinFields(parts, c);
    }
  }

  /** A string made of separators only splits into nothing at all. */
  lemma {:induction false} SplitOnlySeparators(s: string, c: char)
    requires s != [] && forall i :: 0 <= i < |s| ==> s[i] == c
    ensures Split(s, c) == []
  {
    OnlySeparatorsFields(s, c);
    AllEmptyDropped(Fields(s, c));
  }

  lemma {:induction false} OnlySeparatorsFields(s: string, c: char)
    requires forall i :: 0 <= i < |s| ==> s[i] == c
    ensures forall i :: 0 <= i < |Fields(s, c)| ==> Fields(s, c)[i] == ""
  {
    if |s| > 0 {
      OnlySeparatorsFields(s[1..], c);
    }
  }

  lemma {:induction false} AllEmptyDropped(xs: seq<string>)
    requires forall i :: 0 <= i < |xs| ==> xs[i] == ""
    ensures DropTrailingEmpty(xs) == []
  {
    if |xs| > 0 {
      AllEmptyDropped(xs[..|xs| - 1]);
    }
  }

  /** How many times `c` occurs in `s`. */
  function Occurrences(s: string, c: char): (n: nat)
    ensures n <= |s|
    ensures n == 0 <==> c !in s
  {
    if s == [] then 0
    else (if s[0] == c then 1 else 0) + Occurrences(s[1..], c)
  }

  /** Occurrences add up over a concatenation. */
  lemma {:induction false} OccurrencesAppend(a: string, b: string, c: char)
    ensures Occurrences(a + b, c) == Occurrences(a, c) + Occurrences(b, c)
  {
    if a == [] {
      assert a + b == b;
    } else {
      OccurrencesAppend(a[1..], b, c);
      assert (a + b)[0] == a[0];
      assert (a + b)[1..] == a[1..] + b;
    }
  }

  /** The occurrences of `c` in all the parts together. */
  function SumOccurrences(parts: seq<string>, c: char): nat
  {
    if parts == [] then 0 else Occurrences(parts[0], c) + SumOccurrences(parts[1..], c)
  }

  lemma {:induction false} SumOccurrencesAppend(a: seq<string>, b: seq<string>, c: char)
    ensures SumOccurrences(a + b, c) == SumOccurrences(a, c) + SumOccurrences(b, c)
  {
    if a == [] {
      assert a + b == b;
    } else {
      SumOccurrencesAppend(a[1..], b, c);
      assert (a + b)[1..] == a[1..] + b;
    }
  }

  /** Parts none of which contains `c` hold no occurrence of it. */
  lemma {:induction false} SumOccurrencesNone(parts: seq<string>, c: char)
    requires forall i :: 0 <= i < |parts| ==> c !in parts[i]
    ensures SumOccurrences(parts, c) == 0
  {
    if parts != [] {
      SumOccurrencesNone(parts[1..], c);
    }
  }

  /** Joined with a separator free of `c`, the parts keep exactly their own occurrences of `c`. */
  lemma {:induction false} OccurrencesJoin(parts: seq<string>, sep: string, c: char)
    requires c !in sep
    ensures Occurrences(Join(parts, sep), c) == SumOccurrences(parts, c)
  {
    if |parts| > 1 {
      var rest := Join(parts[1..], sep);
      OccurrencesJoin(parts[1..], sep, c);
      OccurrencesAppend(parts[0], sep, c);
      OccurrencesAppend(parts[0] + sep, rest, c);
    } else if |parts| == 1 {
      assert SumOccurrences(parts, c) == Occurrences(parts[0], c) + SumOccurrences([], c);
    }
  }

  /** Joining parts free of `c` with a separator free of `c` gives a string free of `c`. */
  lemma JoinFree(parts: seq<string>, sep: string, c: char)
    requires c !in sep && forall i :: 0 <= i < |parts| ==> c !in parts[i]
    ensures c !in Join(parts, sep)
  {
    OccurrencesJoin(parts, sep, c);
    SumOccurrencesNone(parts, c);
  }

  /** The decimal digit of a number below ten. */
  function Digit(d: nat): (r: char)
    requires d < 10
    ensures '0' <= r <= '9'
  {
    ('0' as int + d) as char
  }

  /** `Integer.toString` on a non-negative number: its decimal digits, most significant first. */
  function NatToString(n: nat): (r: string)
    ensures r != []
    ensures forall i :: 0 <= i < |r| ==> '0' <= r[i] <= '9'
  {
    if n < 10 then [Digit(n)] else NatToString(n / 10) + [Digit(n % 10)]
  }

  /** `Integer.toString`: a minus sign before the digits of a negative number. */
  function IntToString(i: int): (r: string)
    ensures r != []
    ensures forall k :: 0 <= k < |r| ==> r[k] == '-' || '0' <= r[k] <= '9'
  {
    if i < 0 then "-" + NatToString(-i) else NatToString(i)
  }

  /** The number a string of decimal digits denotes. */
  function DecimalValue(s: string): nat
    requires forall i :: 0 <= i < |s| ==> '0' <= s[i] <= '9'
  {
    if s == [] then 0 else DecimalValue(s[..|s| - 1]) * 10 + (s[|s| - 1] as int - '0' as int)
  }

  /** Reading the digits back gives the number. */
  lemma {:induction false} NatToStringValue(n: nat)
    ensures DecimalValue(NatToString(n)) == n
  {
    if n >= 10 {
      NatToStringValue(n / 10);
      var s := NatToString(n);
      assert s[..|s| - 1] == NatToString(n / 10);
    }
  }

  /** The text of an int reads back as that int: a sign for a negative one, then its digits. */
  lemma IntToStringValue(i: int)
    ensures i >= 0 ==> DecimalValue(IntToString(i)) == i
    ensures i < 0 ==> IntToString(i)[0] == '-' && DecimalValue(IntToString(i)[1..]) == -i
  {
    if i < 0 {
      assert IntToString(i)[1..] == NatToString(-i);
      NatToStringValue(-i);
    } else {
      NatToStringValue(i);
    }
  }

  /** `Character.toLowerCase` on ASCII upper-case letters; every other character is kept. */
  function LowerChar(ch: char): (r: char)
  {
    if 'A' <= ch <= 'Z' then (ch as int + 32) as char else ch
  }

  /** `toLowerCase` restricted to ASCII letters. */
  function ToLower(s: string): (r: string)
    ensures |r| == |s|
    ensures forall i :: 0 <= i < |s| ==> r[i] == LowerChar(s[i])
  {
    seq(|s|, i requires 0 <= i < |s| => LowerChar(s[i]))
  }

  /** Lowering is idempotent, so a lowered verb matches its own lowering. */
  lemma ToLowerIdempotent(s: string)
    ensures ToLower(ToLower(s)) == ToLower(s)
  {
  }
}
