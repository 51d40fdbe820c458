/** String helpers standing for the JavaScript built-ins the core uses: `Array.join`,
    number-to-string conversion inside template literals, `replace(/[^0-9]/g, '')`,
    `trim()` and the `/^[0-9]{10}$/` test. */
module Text {

  /** `parts.join(sep)`. */
  function Join(parts: seq<string>, sep: string): string
  {
    if |parts| == 0 then ""
    else if |parts| == 1 then parts[0]
    else parts[0] + sep + Join(parts[1..], sep)
  }

  /** A joined list starts with its first part and ends with its last. */
  lemma {:induction false} JoinFrame(parts: seq<string>, sep: string)
    requires |parts| > 0
    ensures |parts[0]| <= |Join(parts, sep)| && Join(parts, sep)[..|parts[0]|] == parts[0]
    ensures |parts[|parts| - 1]| <= |Join(parts, sep)|
    ensures Join(parts, sep)[|Join(parts, sep)| - |parts[|parts| - 1]|..] == parts[|parts| - 1]
  {
    if |parts| > 1 {
      JoinFrame(parts[1..], sep);
      var rest := Join(parts[1..], sep);
      assert Join(parts, sep) == parts[0] + sep + rest;
      assert parts[1..][|parts[1..]| - 1] == parts[|parts| - 1];
      assert (parts[0] + sep + rest)[..|parts[0]|] == parts[0];
      assert (parts[0] + sep + rest)[|parts[0] + sep + rest| - |parts[|parts| - 1]|..]
          == rest[|rest| - |parts[|parts| - 1]|..];
    }
  }

  /** Parts that are not empty and do not contain the separator character `c`. */
  predicate Separable(parts: seq<string>, c: char)
  {
    forall p :: p in parts ==> p != [] && c !in p
  }

  /** The length of the longest prefix of `s` without the character `c`. */
  function PrefixLen(s: string, c: char): (n: nat)
    ensures n <= |s|
  {
    if s == [] || s[0] == c then 0 else 1 + PrefixLen(s[1..], c)
  }

  /** Text without `c` followed by nothing or by `c` is cut exactly at its end. */
  lemma {:induction false} PrefixLenOf(x: string, rest: string, c: char)
    requires c !in x && (rest == [] || rest[0] == c)
    ensures PrefixLen(x + rest, c) == |x|
  {
    if x != [] {
      assert x[0] in x && (x + rest)[1..] == x[1..] + rest;
      PrefixLenOf(x[1..], rest, c);
    } else {
      assert x + rest == rest;
    }
  }

  /** Separable parts join to the empty text only when there are none. */
  lemma JoinEmpty(parts: seq<string>, c: char)
    requires Separable(parts, c)
    ensures Join(parts, [c]) == [] <==> parts == []
  {
    if parts != [] {
      assert parts[0] in parts;
      JoinFrame(parts, [c]);
    }
  }

  /** Joining separable parts with a one-character separator loses nothing: the parts can
      be read back by cutting at each separator. */
  lemma {:induction false} JoinInjective(a: seq<string>, b: seq<string>, c: char)
    requires Separable(a, c) && Separable(b, c)
    requires Join(a, [c]) == Join(b, [c])
    ensures a == b
  {
    if |a| == 0 || |b| == 0 {
      JoinEmpty(a, c);
      JoinEmpty(b, c);
    } else {
      var x, y := a[0], b[0];
      assert x in a && y in b;
      var ja := Join(a, [c]);
      var ra := if |a| == 1 then [] else [c] + Join(a[1..], [c]);
      var rb := if |b| == 1 then [] else [c] + Join(b[1..], [c]);
      assert ja == x + ra && ja == y + rb;
      PrefixLenOf(x, ra, c);
      PrefixLenOf(y, rb, c);
      assert x == ja[..|x|] == y;
      assert ra == ja[|x|..] == rb;
      assert (|a| == 1) == (ra == []) == (rb == []) == (|b| == 1);
      if |a| > 1 {
        assert Join(a[1..], [c]) == ra[1..] == Join(b[1..], [c]);
        forall p | p in a[1..] ensures p != [] && c !in p { assert p in a; }
        forall p | p in b[1..] ensures p != [] && c !in p { assert p in b; }
        JoinInjective(a[1..], b[1..], c);
        assert a == [x] + a[1..] && b == [y] + b[1..];
      }
    }
  }

  function DigitChar(d: nat): char
    requires d < 10
  {
    "0123456789"[d]
  }

  /** The decimal digits of `n`, as a template literal prints a non-negative integer. */
  function NatToString(n: nat): (s: string)
    ensures |s| > 0 && forall c :: c in s ==> IsDigit(c)
  {
    if n < 10 then [DigitChar(n)] else NatToString(n / 10) + [DigitChar(n % 10)]
  }

  /** `${i}` for an integer `i`. */
  function IntToString(i: int): string
  {
    if i < 0 then "-" + NatToString(-i) else NatToString(i)
  }

  predicate IsDigit(c: char)
  {
    '0' <= c <= '9'
  }

  /** `value.replace(/[^0-9]/g, '')`: the ASCII digits of `value`, in order: the
      result holds exactly the input's digits. */
  function DigitsOnly(value: string): (r: string)
    ensures forall c :: c in r ==> IsDigit(c)
    ensures |r| <= |value|
    ensures forall c :: c in value && IsDigit(c) ==> c in r
  {
    if value == [] then []
    else
      assert forall c :: c in value ==> c == value[0] || c in value[1..];
      (if IsDigit(value[0]) then [value[0]] else []) + DigitsOnly(value[1..])
  }

  /** Every digit of the input is kept as often as it occurs; every other character is
      dropped. */
  lemma {:induction false} DigitsOnlyCounts(value: string, c: char)
    ensures multiset(DigitsOnly(value))[c] == if IsDigit(c) then multiset(value)[c] else 0
  {
    if value != [] {
      DigitsOnlyCounts(value[1..], c);
      assert value == [value[0]] + value[1..];
    }
  }

  /** Filtering a concatenation concatenates the filtered parts: the digits keep the order
      they have in the input. */
  lemma {:induction false} DigitsOnlyAppend(a: string, b: string)
    ensures DigitsOnly(a + b) == DigitsOnly(a) + DigitsOnly(b)
  {
    if a == [] {
      assert a + b == b;
    } else {
      var h := if IsDigit(a[0]) then [a[0]] else [];
      assert (a + b)[0] == a[0] && (a + b)[1..] == a[1..] + b;
      assert DigitsOnly(a + b) == h + DigitsOnly(a[1..] + b);
      DigitsOnlyAppend(a[1..], b);
      assert DigitsOnly(a) == h + DigitsOnly(a[1..]);
    }
  }

  /** A single character is kept exactly when it is a digit. */
  lemma DigitsOnlyChar(c: char)
    ensures DigitsOnly([c]) == if IsDigit(c) then [c] else []
  {
    assert [c][1..] == [];
  }

  /** A string with no non-digit characters loses nothing to the digit filter. */
  lemma {:induction false} DigitsOnlyKeepsDigits(value: string)
    requires forall c :: c in value ==> IsDigit(c)
    ensures DigitsOnly(value) == value
  {
    if value != [] {
      assert value[0] in value;
      assert forall c :: c in value[1..] ==> c in value;
      DigitsOnlyKeepsDigits(value[1..]);
      assert value == [value[0]] + value[1..];
    }
  }

  /** The characters `String.prototype.trim` removes: ECMAScript white space and line
      terminators. */
  predicate IsTrimmable(c: char)
  {
    c == '\t' || c == '\n' || c == '\U{000B}' || c == '\U{000C}' || c == '\r' || c == ' '
    || c == '\U{00A0}' || c == '\U{1680}' || ('\U{2000}' <= c <= '\U{200A}')
    || c == '\U{2028}' || c == '\U{2029}' || c == '\U{202F}' || c == '\U{205F}'
    || c == '\U{3000}' || c == '\U{FEFF}'
  }

  /** `!s.trim()`: nothing is left once surrounding white space is trimmed. */
  predicate IsBlank(s: string)
  {
    forall c :: c in s ==> IsTrimmable(c)
  }

  /** `/^[0-9]{10}$/.test(s)`. */
  predicate IsTenDigits(s: string)
  {
    |s| == 10 && forall c :: c in s ==> IsDigit(c)
  }
}
