/** The JavaScript built-ins the core relies on, stated on `string` (a
    sequence of Unicode scalar values): number formatting in template
    literals, `slice`/`substring`/`includes`, `findIndex` on arrays, the `||`
    default idiom, `parseInt`, and the string quoting of `JSON.stringify`. */
module Js {
  import opened Types

  /** One reading of the clock: `Date.now()` and its `toISOString()` text. */
  datatype Clock = Clock(millis: nat, iso: string)

  // --- Number to string (`${n}` for an integer) ---

  function Digit(d: nat): (c: char)
    requires d < 10
    ensures '0' <= c <= '9' && c as int - '0' as int == d
  {
    ('0' as int + d) as char
  }

  /** Decimal digits of `n`, no leading zeros. */
  function NatToString(n: nat): (s: string)
    ensures |s| >= 1 && (n >= 10 ==> |s| >= 2)
    ensures forall i :: 0 <= i < |s| ==> '0' <= s[i] <= '9'
    decreases n
  {
    if n < 10 then [Digit(n)] else NatToString(n / 10) + [Digit(n % 10)]
  }

  /** Distinct numbers print differently. */
  lemma {:induction false} NatToStringInjective(m: nat, n: nat)
    requires NatToString(m) == NatToString(n)
    ensures m == n
    decreases m
  {
    var s, t := NatToString(m), NatToString(n);
    assert (|s| == 1) == (m < 10) && (|t| == 1) == (n < 10);
    if m < 10 {
      assert Digit(m) == s[0] == t[0] == Digit(n);
    } else {
      var hm, hn := NatToString(m / 10), NatToString(n / 10);
      assert s == hm + [Digit(m % 10)] && t == hn + [Digit(n % 10)];
      assert hm == s[..|s| - 1] == t[..|t| - 1] == hn;
      NatToStringInjective(m / 10, n / 10);
      assert Digit(m % 10) == s[|s| - 1] == t[|t| - 1] == Digit(n % 10);
      assert m == 10 * (m / 10) + m % 10 && n == 10 * (n / 10) + n % 10;
    }
  }

  function IntToString(i: int): (s: string)
    ensures |s| >= 1 && ':' !in s
  {
    if i < 0 then "-" + NatToString(-i) else NatToString(i)
  }

  lemma IntToStringInjective(i: int, j: int)
    requires IntToString(i) == IntToString(j)
    ensures i == j
  {
    var s, t := IntToString(i), IntToString(j);
    assert (s[0] == '-') == (i < 0) && (t[0] == '-') == (j < 0);
    if i < 0 {
      assert s[1..] == NatToString(-i) && t[1..] == NatToString(-j);
      NatToStringInjective(-i, -j);
    } else {
      NatToStringInjective(i, j);
    }
  }

  // --- String methods ---

  /** `s.slice(-n)` for `n > 0`: the last `n` characters, or all of `s` when
      shorter. (For `n == 0` JavaScript's `slice(-0)` is the whole string; the
      source only uses `n == 6`.) */
  function SliceLast(s: string, n: nat): (r: string)
    ensures |r| == if |s| < n then |s| else n
    ensures r == s[|s| - |r|..]
  {
    if |s| < n then s else s[|s| - n..]
  }

  /** `s.substring(0, n)`: the first `n` characters, or all of `s`. */
  function Prefix(s: string, n: nat): (r: string)
    ensures |r| == if |s| < n then |s| else n
    ensures r == s[..|r|]
  {
    if |s| < n then s else s[..n]
  }

  /** `s.includes(sub)`. */
  predicate Includes(s: string, sub: string) {
    exists i | 0 <= i <= |s| - |sub| :: OccursAt(s, sub, i)
  }

  predicate OccursAt(s: string, sub: string, i: int)
    requires 0 <= i <= |s| - |sub|
  {
    s[i..i + |sub|] == sub
  }

  // --- Array search ---

  /** `findIndex` with an equality test on a key: the first position of `k`. */
  function IndexOf<K(==)>(s: seq<K>, k: K): (r: Option<nat>)
    ensures r.None? <==> k !in s
    ensures r.Some? ==> r.value < |s| && s[r.value] == k && k !in s[..r.value]
  {
    IndexFrom(s, k, 0)
  }

  /** The scan `findIndex` performs, from position `from` on. */
  function IndexFrom<K(==)>(s: seq<K>, k: K, from: nat): (r: Option<nat>)
    requires from <= |s|
    ensures r.None? ==> forall m :: from <= m < |s| ==> s[m] != k
    ensures r.Some? ==> from <= r.value < |s| && s[r.value] == k && forall m :: from <= m < r.value ==> s[m] != k
    decreases |s| - from
  {
    if from == |s| then None else if s[from] == k then Some(from) else IndexFrom(s, k, from + 1)
  }

  /** No value occurs twice. */
  predicate Distinct<T(==)>(s: seq<T>) {
    forall i, j :: 0 <= i < j < |s| ==> s[i] != s[j]
  }

  lemma DistinctAppend<T>(s: seq<T>, x: T)
    requires Distinct(s) && x !in s
    ensures Distinct(s + [x])
  {
    var t := s + [x];
    forall i, j | 0 <= i < j < |t| ensures t[i] != t[j] {
      if j == |s| { assert t[i] == s[i]; }
    }
  }

  /** `s.splice(i, 1)`. */
  function RemoveAt<T>(s: seq<T>, i: nat): (r: seq<T>)
    requires i < |s|
    ensures |r| == |s| - 1
  {
    s[..i] + s[i + 1..]
  }

  lemma RemoveAtIndex<T>(s: seq<T>, i: nat, m: nat)
    requires i < |s| && m < |s| - 1
    ensures RemoveAt(s, i)[m] == s[if m < i then m else m + 1]
  {
  }

  /** Overwriting the removed position first makes no difference. */
  lemma RemoveAtUpdate<T>(s: seq<T>, i: nat, x: T)
    requires i < |s|
    ensures RemoveAt(s[i := x], i) == RemoveAt(s, i)
  {
    assert s[i := x][..i] == s[..i] && s[i := x][i + 1..] == s[i + 1..];
  }

  lemma DistinctRemoveAt<T>(s: seq<T>, i: nat)
    requires i < |s| && Distinct(s)
    ensures Distinct(RemoveAt(s, i)) && s[i] !in RemoveAt(s, i)
  {
    var t := RemoveAt(s, i);
    forall m | 0 <= m < |t| ensures t[m] == s[if m < i then m else m + 1] {
      RemoveAtIndex(s, i, m);
    }
  }

  /** The first position of `k` is the one its contract describes. */
  lemma {:induction false} IndexOfIs<K>(s: seq<K>, k: K, j: nat)
    requires j < |s| && s[j] == k && k !in s[..j]
    ensures IndexOf(s, k) == Some(j)
    decreases j
  {
    if j > 0 {
      assert s[0] == s[..j][0];
      assert s[1..][..j - 1] == s[1..j];
      assert s[..j] == [s[0]] + s[1..j];
      IndexOfIs(s[1..], k, j - 1);
    }
  }

  /** `push` does not move the first occurrence of a key already present. */
  lemma IndexOfAppend<K>(s: seq<K>, x: K, k: K)
    ensures IndexOf(s + [x], k) == if k in s then IndexOf(s, k) else if k == x then Some(|s|) else None
  {
    var t := s + [x];
    assert t[..|s|] == s;
    if k in s {
      var j := IndexOf(s, k).value;
      assert t[..j] == s[..j];
      IndexOfIs(t, k, j);
    } else if k == x {
      IndexOfIs(t, k, |s|);
    }
  }

  /** Overwriting another position does not move the first occurrence of `k`. */
  lemma IndexOfUpdate<K>(s: seq<K>, i: nat, x: K, k: K)
    requires i < |s| && k != s[i] && k != x
    ensures IndexOf(s[i := x], k) == IndexOf(s, k)
  {
    var t := s[i := x];
    match IndexOf(s, k)
    case None =>
      assert k !in t by {
        forall j | 0 <= j < |t| ensures t[j] != k {
          if j != i { assert t[j] == s[j]; }
        }
      }
    case Some(j) =>
      assert j != i;
      assert k !in t[..j] by {
        forall m | 0 <= m < j ensures t[m] != k {
          if m != i { assert t[m] == s[..j][m]; }
        }
      }
      IndexOfIs(t, k, j);
  }

  /** `splice(i, 1)` shifts the first occurrence of another key down past `i`. */
  lemma IndexOfRemoveAt<K>(s: seq<K>, i: nat, k: K)
    requires i < |s| && k != s[i]
    ensures IndexOf(RemoveAt(s, i), k) ==
      match IndexOf(s, k)
      case None => None
      case Some(j) => Some(if j < i then j else j - 1)
  {
    var t := RemoveAt(s, i);
    match IndexOf(s, k)
    case None =>
      assert k !in s[..i] && k !in s[i + 1..];
    case Some(j) =>
      if j < i {
        assert t[..j] == s[..j] && t[j] == k;
        IndexOfIs(t, k, j);
      } else {
        assert s[..j] == s[..i] + [s[i]] + s[i + 1..j];
        assert t[..j - 1] == s[..i] + s[i + 1..j] && t[j - 1] == k;
        IndexOfIs(t, k, j - 1);
      }
  }

  // --- `x || d` on optional values: undefined, '' and 0 fall back to `d` ---

  /** `if (x)` on a string that may be undefined: present and non-empty. */
  predicate Truthy(o: Option<string>) {
    o.Some? && o.value != ""
  }

  function OrString(o: Option<string>, d: string): (r: string)
    ensures r == d || (o.Some? && r == o.value != "")
    ensures o.Some? && o.value != "" ==> r == o.value
  {
    if o.Some? && o.value != "" then o.value else d
  }

  function OrNumber(o: Option<int>, d: int): (r: int)
    ensures r == d || (o.Some? && r == o.value != 0)
    ensures o.Some? && o.value != 0 ==> r == o.value
  {
    if o.Some? && o.value != 0 then o.value else d
  }

  /** `${x}` of a string that may be undefined. */
  function OptionalText(o: Option<string>): string {
    if o.Some? then o.value else "undefined"
  }

  // --- parseInt(s) ---

  function DigitValue(c: char): (d: nat)
    ensures '0' <= c <= '9' ==> d < 10 && Digit(d) == c
  {
    if '0' <= c <= '9' then (c as int - '0' as int) else 0
  }

  /** The number of leading decimal digits of `s`. */
  function DigitRun(s: string): (k: nat)
    ensures k <= |s|
  {
    if s != [] && '0' <= s[0] <= '9' then 1 + DigitRun(s[1..]) else 0
  }

  /** The run is the longest all-digit prefix. */
  lemma {:induction false} DigitRunMaximal(s: string)
    ensures forall i :: 0 <= i < DigitRun(s) ==> '0' <= s[i] <= '9'
    ensures DigitRun(s) < |s| ==> !('0' <= s[DigitRun(s)] <= '9')
  {
    if s != [] && '0' <= s[0] <= '9' {
      DigitRunMaximal(s[1..]);
      forall i | 0 < i < DigitRun(s)
        ensures '0' <= s[i] <= '9'
      {
        assert s[i] == s[1..][i - 1];
      }
    }
  }

  function DigitsValue(s: string): nat {
    if s == [] then 0 else 10 * DigitsValue(s[..|s| - 1]) + DigitValue(s[|s| - 1])
  }

  /** The value of the leading digits of `s`; `None` (NaN) when there are none. */
  function ParseDigits(s: string): (r: Option<nat>)
    ensures r.Some? <==> DigitRun(s) > 0
  {
    var k := DigitRun(s);
    if k == 0 then None else Some(DigitsValue(s[..k]))
  }

  /** `parseInt(s)`: an optional sign followed by the leading digits; `None` (NaN)
      when there are none. */
  function ParseInt(s: string): (r: Option<int>)
    ensures r.Some? <==> ParseDigits(if s != [] && (s[0] == '-' || s[0] == '+') then s[1..] else s).Some?
    ensures r.Some? ==> (s != [] &&
      var t := if s[0] == '-' || s[0] == '+' then s[1..] else s;
      (r.value < 0 ==> s[0] == '-') && (s[0] == '-' ==> r.value <= 0) &&
      (if r.value < 0 then -r.value else r.value) == DigitsValue(t[..DigitRun(t)]))
  {
    if s != [] && s[0] == '-' then
      match ParseDigits(s[1..])
      case None => None
      case Some(v) => Some(-(v as int))
    else if s != [] && s[0] == '+' then
      match ParseDigits(s[1..])
      case None => None
      case Some(v) => Some(v as int)
    else
      match ParseDigits(s)
      case None => None
      case Some(v) => Some(v as int)
  }

  lemma {:induction false} DigitsValueOfNatToString(n: nat)
    ensures DigitsValue(NatToString(n)) == n
    decreases n
  {
    var s := NatToString(n);
    if n >= 10 {
      assert s[..|s| - 1] == NatToString(n / 10);
      DigitsValueOfNatToString(n / 10);
      assert DigitValue(s[|s| - 1]) == n % 10;
      assert DigitsValue(s) == 10 * (n / 10) + n % 10;
    } else {
      assert s[..0] == [];
      assert DigitsValue(s) == 10 * DigitsValue([]) + DigitValue(s[0]);
    }
  }

  /** A string that is all digits parses to its value. */
  lemma ParseDigitsAll(body: string)
    requires DigitRun(body) == |body| > 0
    ensures ParseDigits(body) == Some(DigitsValue(body))
  {
    assert body[..|body|] == body;
  }

  /** The digits `${n}` prints read back as `n`. */
  lemma ParseDigitsOfNatToString(n: nat)
    ensures ParseDigits(NatToString(n)) == Some(n) && '0' <= NatToString(n)[0] <= '9'
  {
    var s := NatToString(n);
    assert '0' <= s[0] <= '9';
    DigitRunAll(s);
    ParseDigitsAll(s);
    DigitsValueOfNatToString(n);
  }

  /** `parseInt` reads back what `${n}` printed for a natural number. */
  lemma ParseIntOfNatToString(n: nat)
    ensures ParseInt(NatToString(n)) == Some(n)
  {
    ParseDigitsOfNatToString(n);
  }

  lemma ParseIntMinus(t: string, v: nat)
    requires ParseDigits(t) == Some(v)
    ensures ParseInt("-" + t) == Some(-(v as int))
  {
    var s := "-" + t;
    assert s[0] == '-' && s[1..] == t;
  }

  /** `parseInt` reads back every integer printed by a template literal,
      negative ones included. */
  lemma ParseIntOfIntToString(i: int)
    ensures ParseInt(IntToString(i)) == Some(i)
  {
    if i < 0 {
      ParseDigitsOfNatToString(-i);
      ParseIntMinus(NatToString(-i), -i);
    } else {
      ParseIntOfNatToString(i);
    }
  }

  lemma {:induction false} DigitRunAll(s: string)
    requires forall i :: 0 <= i < |s| ==> '0' <= s[i] <= '9'
    ensures DigitRun(s) == |s|
  {
    if s != [] {
      DigitRunAll(s[1..]);
    }
  }

  // --- JSON.stringify of a string ---

  /** A lower-case hexadecimal digit, as `\u00XX` escapes are written. */
  function HexDigit(d: nat): char
    requires d < 16
  {
    if d < 10 then ('0' as int + d) as char else ('a' as int + d - 10) as char
  }

  /** The value of a lower-case hexadecimal digit. */
  function HexValue(h: char): (v: nat)
    ensures v < 16
  {
    if '0' <= h <= '9' then h as int - '0' as int
    else if 'a' <= h <= 'f' then h as int - 'a' as int + 10
    else 0
  }

  /** The escape JSON.stringify writes for one character. */
  function EscapeChar(c: char): (r: string)
    ensures |r| >= 1 && r[0] != '"'
    ensures r[0] == '\\' ==> |r| >= 2
  {
    var n := c as int;
    if c == '"' then ['\\', '"']
    else if c == '\\' then ['\\', '\\']
    else if n == 8 then ['\\', 'b']
    else if n == 9 then ['\\', 't']
    else if n == 10 then ['\\', 'n']
    else if n == 12 then ['\\', 'f']
    else if n == 13 then ['\\', 'r']
    else if n < 0x20 then ['\\', 'u', '0', '0', HexDigit(n / 16), HexDigit(n % 16)]
    else [c]
  }

  /** The escaped text of `s` (the characters JSON.stringify writes between
      the quotes) written in front of `rest`. */
  function EscapeOnto(s: string, rest: string): string
    decreases |s|
  {
    if s == [] then rest else EscapeChar(s[0]) + EscapeOnto(s[1..], rest)
  }

  /** Reads one escaped character at the head of `s`: the character and the
      number of code units its escape takes. */
  function UnescapeHead(s: string): (char, nat)
    requires s != []
  {
    if s[0] != '\\' || |s| < 2 then (s[0], 1)
    else if s[1] == '"' then ('"', 2)
    else if s[1] == '\\' then ('\\', 2)
    else if s[1] == 'b' then (8 as char, 2)
    else if s[1] == 't' then (9 as char, 2)
    else if s[1] == 'n' then (10 as char, 2)
    else if s[1] == 'f' then (12 as char, 2)
    else if s[1] == 'r' then (13 as char, 2)
    else if s[1] == 'u' && |s| >= 6 then ((HexValue(s[4]) * 16 + HexValue(s[5])) as char, 6)
    else (s[0], 1)
  }

  /** Reading back an escape, whatever follows it, gives the character and the escape's length. */
  lemma UnescapeEscapeChar(c: char, r: string)
    ensures UnescapeHead(EscapeChar(c) + r) == (c, |EscapeChar(c)|)
  {
    var x := EscapeChar(c);
    assert (x + r)[0] == x[0];
    if |x| >= 2 {
      assert (x + r)[1] == x[1];
    }
    if |x| == 6 {
      var n := c as int;
      assert (x + r)[4] == HexDigit(n / 16) && (x + r)[5] == HexDigit(n % 16);
      assert HexValue(HexDigit(n / 16)) * 16 + HexValue(HexDigit(n % 16)) == n;
    }
  }

  /** The escapes form a prefix-free code: the escape of a character is
      recognised at the head of any string that starts with it. */
  lemma EscapeCharPrefixFree(a: char, b: char, r1: string, r2: string)
    requires EscapeChar(a) + r1 == EscapeChar(b) + r2
    ensures a == b && r1 == r2
  {
    var x, y := EscapeChar(a), EscapeChar(b);
    UnescapeEscapeChar(a, r1);
    UnescapeEscapeChar(b, r2);
    assert r1 == (x + r1)[|x|..] == (y + r2)[|y|..] == r2;
  }

  /** An escaped string is recognised up to its closing quote. */
  lemma {:induction false} EscapeThenQuote(a: string, b: string, r1: string, r2: string)
    requires EscapeOnto(a, "\"" + r1) == EscapeOnto(b, "\"" + r2)
    ensures a == b && r1 == r2
    decreases |a|
  {
    EscapeHead(a, r1);
    EscapeHead(b, r2);
    if a == [] && b == [] {
      assert ("\"" + r1)[1..] == r1 && ("\"" + r2)[1..] == r2;
    } else if a != [] && b != [] {
      EscapeCharPrefixFree(a[0], b[0], EscapeOnto(a[1..], "\"" + r1), EscapeOnto(b[1..], "\"" + r2));
      EscapeThenQuote(a[1..], b[1..], r1, r2);
      assert a == [a[0]] + a[1..] && b == [b[0]] + b[1..];
    }
  }

  /** The closing quote comes first exactly when nothing was escaped. */
  lemma EscapeHead(a: string, r: string)
    ensures EscapeOnto(a, "\"" + r)[0] == '"' <==> a == []
  {
    if a != [] {
      assert EscapeOnto(a, "\"" + r)[0] == EscapeChar(a[0])[0];
    }
  }

  /** A JSON object member `key` + quoted `v`, followed by the rest of the text. */
  function Member(key: string, v: string, rest: string): string {
    key + EscapeOnto(v, "\"" + rest)
  }

  /** A member is recognised, value and rest, behind a common key. */
  lemma MemberInjective(key: string, a: string, b: string, r1: string, r2: string)
    requires Member(key, a, r1) == Member(key, b, r2)
    ensures a == b && r1 == r2
  {
    var x, y := EscapeOnto(a, "\"" + r1), EscapeOnto(b, "\"" + r2);
    assert x == Member(key, a, r1)[|key|..] == Member(key, b, r2)[|key|..] == y;
    EscapeThenQuote(a, b, r1, r2);
  }
}
