/** Values and string operations shared by the services: JavaScript's optional
    values and truthiness, the few `String.prototype` operations the services
    use, number rendering as `Number.prototype.toString(base)` does it, JSON
    values, and the random draws that `Math.random()` supplies. */
module Common {

  datatype Option<+T> = None | Some(value: T)

  /** A call that either returns a value or throws an error (the error message). */
  datatype Result<+T, +E> = Ok(value: T) | Err(error: E)

  /** JavaScript truthiness of a value that is a string or undefined/null:
      present and not the empty string. */
  predicate Truthy(s: Option<string>)
  {
    s.Some? && s.value != ""
  }

  /** `s || fallback` for a string-or-undefined `s`. */
  function OrElse(s: Option<string>, fallback: string): string
  {
    if Truthy(s) then s.value else fallback
  }

  /** A value of `Math.random()`: a real number in [0, 1). */
  type Draw = r: real | 0.0 <= r < 1.0

  /** The stream of values successive `Math.random()` calls return. */
  type Random = nat -> Draw

  /** `Math.floor(r * n)` for a draw `r` and a positive bound `n`. */
  function Scale(r: Draw, n: nat): (k: nat)
    requires n > 0
    ensures k < n
  {
    var x := r * (n as real);
    assert 0.0 <= x < n as real;
    x.Floor
  }

  // ---------------------------------------------------------------------
  // Substrings: `String.prototype.includes` and `startsWith`.
  // ---------------------------------------------------------------------

  /** `sub` occurs in `s` starting at index `i`. */
  ghost predicate OccursAt(s: string, sub: string, i: int)
  {
    0 <= i && i + |sub| <= |s| && s[i..i + |sub|] == sub
  }

  /** `s.includes(sub)`, by scanning `s` from the left. */
  function Contains(s: string, sub: string): (b: bool)
    ensures b <==> exists i :: OccursAt(s, sub, i)
    decreases |s|
  {
    if sub <= s then
      assert OccursAt(s, sub, 0);
      true
    else if s == [] then
      false
    else
      var b := Contains(s[1..], sub);
      assert !OccursAt(s, sub, 0);
      assert forall i :: OccursAt(s[1..], sub, i) <==> OccursAt(s, sub, i + 1) by {
        forall i ensures OccursAt(s[1..], sub, i) <==> OccursAt(s, sub, i + 1) {
          if 0 <= i && i + |sub| <= |s| - 1 {
            assert s[1..][i..i + |sub|] == s[i + 1..i + 1 + |sub|];
          }
        }
      }
      assert (exists i :: OccursAt(s, sub, i)) ==> exists i :: OccursAt(s[1..], sub, i) by {
        if exists i :: OccursAt(s, sub, i) {
          var i :| OccursAt(s, sub, i);
          assert i >= 1;
          assert OccursAt(s[1..], sub, i - 1);
        }
      }
      b
  }

  /** `s.startsWith(prefix)`. */
  predicate StartsWith(s: string, prefix: string)
  {
    prefix <= s
  }

  lemma {:induction false} PrefixIsContained(s: string, t: string, sub: string)
    requires StartsWith(t, sub)
    ensures Contains(s + t, sub)
  {
    assert (s + t)[|s|..|s| + |sub|] == sub;
    assert OccursAt(s + t, sub, |s|);
  }

  // ---------------------------------------------------------------------
  // `String.prototype.toLowerCase`, restricted to ASCII letters.
  // ---------------------------------------------------------------------

  function LowerChar(c: char): char
  {
    if 'A' <= c <= 'Z' then (c as int + 32) as char else c
  }

  function ToLower(s: string): (r: string)
    ensures |r| == |s|
    ensures forall i :: 0 <= i < |s| ==> r[i] == LowerChar(s[i])
  {
    seq(|s|, i requires 0 <= i < |s| => LowerChar(s[i]))
  }

  /** Lower-casing twice is lower-casing once. */
  lemma ToLowerIdempotent(s: string)
    ensures ToLower(ToLower(s)) == ToLower(s)
  {
    var once := ToLower(s);
    assert forall i :: 0 <= i < |s| ==> LowerChar(once[i]) == once[i];
  }

  // ---------------------------------------------------------------------
  // `Number.prototype.toString(base)` on non-negative integers, and
  // `String.prototype.padStart`.
  // ---------------------------------------------------------------------

  type Base = b: nat | 2 <= b <= 36 witness 10

  /** The digit character for `d` (`0`-`9`, then `a`-`z`). */
  function DigitChar(d: nat): (c: char)
    requires d < 36
  {
    if d < 10 then ('0' as int + d) as char else ('a' as int + d - 10) as char
  }

  predicate IsDigitOf(c: char, base: Base)
  {
    ('0' <= c <= '9' && (c as int - '0' as int) < base) ||
    ('a' <= c <= 'z' && (c as int - 'a' as int) + 10 < base)
  }

  /** The value of a digit character, 0 for anything else. */
  function DigitValue(c: char): nat
  {
    if '0' <= c <= '9' then c as int - '0' as int
    else if 'a' <= c <= 'z' then c as int - 'a' as int + 10
    else 0
  }

  /** `n.toString(base)`: the digits of `n`, most significant first, no
      leading zero. */
  function NatToString(n: nat, base: Base): (r: string)
    ensures |r| >= 1
    ensures forall i :: 0 <= i < |r| ==> IsDigitOf(r[i], base)
    ensures |r| > 1 ==> r[0] != '0'
    decreases n
  {
    if n < base then
      DigitCharIsDigit(n, base);
      [DigitChar(n)]
    else
      DivMod(n, base);
      DigitCharIsDigit(n % base, base);
      NatToString(n / base, base) + [DigitChar(n % base)]
  }

  /** The number a digit string denotes; the reading that `parseInt(s, base)`
      gives for a string made of digits only. */
  function StringToNat(s: string, base: Base): nat
  {
    if s == [] then 0
    else StringToNat(s[..|s| - 1], base) * base + DigitValue(s[|s| - 1])
  }

  lemma DigitRoundTrip(d: nat)
    requires d < 36
    ensures DigitValue(DigitChar(d)) == d
  {
  }

  lemma DigitCharIsDigit(d: nat, base: Base)
    requires d < base
    ensures IsDigitOf(DigitChar(d), base)
  {
  }

  lemma StringToNatSnoc(s: string, c: char, base: Base)
    ensures StringToNat(s + [c], base) == StringToNat(s, base) * base + DigitValue(c)
  {
    assert (s + [c])[..|s + [c]| - 1] == s;
  }

  lemma DivMod(n: nat, base: Base)
    ensures (n / base) * base + n % base == n
    ensures n >= base ==> 1 <= n / base < n
    ensures n % base < base
  {
  }

  /** Reading back a rendered number gives the number. */
  lemma {:induction false} NatToStringRoundTrip(n: nat, base: Base)
    ensures StringToNat(NatToString(n, base), base) == n
    decreases n
  {
    if n < base {
      DigitRoundTrip(n);
      StringToNatSnoc([], DigitChar(n), base);
      assert [] + [DigitChar(n)] == NatToString(n, base);
    } else {
      var q, d := n / base, n % base;
      DivMod(n, base);
      var prefix := NatToString(q, base);
      assert NatToString(n, base) == prefix + [DigitChar(d)];
      NatToStringRoundTrip(q, base);
      DigitRoundTrip(d);
      StringToNatSnoc(prefix, DigitChar(d), base);
    }
  }

  /** Rendering is injective: different times give different strings. */
  lemma NatToStringInjective(m: nat, n: nat, base: Base)
    requires NatToString(m, base) == NatToString(n, base)
    ensures m == n
  {
    NatToStringRoundTrip(m, base);
    NatToStringRoundTrip(n, base);
  }

  /** `s.padStart(width, [pad])`. */
  function PadStart(s: string, width: nat, pad: char): (r: string)
    ensures |r| == if |s| >= width then |s| else width
    ensures r[|r| - |s|..] == s
    ensures forall i :: 0 <= i < |r| - |s| ==> r[i] == pad
  {
    if |s| >= width then s else seq(width - |s|, _ => pad) + s
  }

  /** Leading zeros do not change the number a digit string denotes. */
  lemma {:induction false} LeadingZerosIgnored(zeros: string, s: string, base: Base)
    requires forall i :: 0 <= i < |zeros| ==> zeros[i] == '0'
    ensures StringToNat(zeros + s, base) == StringToNat(s, base)
    decreases |s|
  {
    if s == [] {
      assert zeros + s == zeros;
      AllZerosIsZero(zeros, base);
    } else {
      var t := zeros + s;
      assert t[..|t| - 1] == zeros + s[..|s| - 1];
      LeadingZerosIgnored(zeros, s[..|s| - 1], base);
    }
  }

  lemma {:induction false} AllZerosIsZero(zeros: string, base: Base)
    requires forall i :: 0 <= i < |zeros| ==> zeros[i] == '0'
    ensures StringToNat(zeros, base) == 0
    decreases |zeros|
  {
    if zeros != [] {
      AllZerosIsZero(zeros[..|zeros| - 1], base);
    }
  }

  // ---------------------------------------------------------------------
  // JSON values. `JSON.parse` and `JSON.stringify` are supplied by the
  // caller: this model does not fix a concrete text syntax.
  // ---------------------------------------------------------------------

  datatype Json =
    | JNull
    | JBool(b: bool)
    | JNumber(n: real)
    | JString(s: string)
    | JArray(items: seq<Json>)
    | JObject(fields: map<string, Json>)

  /** `JSON.parse` (None when it throws) and `JSON.stringify`. */
  datatype JsonCodec = JsonCodec(parse: string -> Option<Json>, stringify: Json -> string)

  // ---------------------------------------------------------------------
  // Decimal rendering of signed integers (template literals of numbers)
  // and hexadecimal digit strings drawn from `Math.random()`.
  // ---------------------------------------------------------------------

  /** `String(i)` for an integer `i`. */
  function IntToString(i: int): (r: string)
    ensures |r| >= 1
    ensures i >= 0 ==> r == NatToString(i, 10)
    ensures i < 0 ==> r == "-" + NatToString(-i, 10)
  {
    if i < 0 then "-" + NatToString(-i, 10) else NatToString(i, 10)
  }

  /** `Array.from({length: n}, () => Math.floor(Math.random() * 16).toString(16)).join('')`
      with the draws `rand(start)`, ..., `rand(start + n - 1)`. */
  function HexDigits(rand: Random, start: nat, n: nat): (r: string)
    ensures |r| == n
    ensures forall i :: 0 <= i < n ==> IsDigitOf(r[i], 16)
    ensures forall i :: 0 <= i < n ==> DigitValue(r[i]) == Scale(rand(start + i), 16)
  {
    var digits := seq(n, i requires 0 <= i < n => DigitChar(Scale(rand(start + i), 16)));
    assert forall i :: 0 <= i < n ==> DigitValue(digits[i]) == Scale(rand(start + i), 16) by {
      forall i | 0 <= i < n ensures DigitValue(digits[i]) == Scale(rand(start + i), 16) {
        DigitRoundTrip(Scale(rand(start + i), 16));
      }
    }
    assert forall i :: 0 <= i < n ==> IsDigitOf(digits[i], 16) by {
      forall i | 0 <= i < n ensures IsDigitOf(digits[i], 16) {
        DigitCharIsDigit(Scale(rand(start + i), 16), 16);
      }
    }
    digits
  }

  // ---------------------------------------------------------------------
  // Amounts as the services check them.
  // ---------------------------------------------------------------------

  /** An amount argument: its text and what `parseFloat` reads from it
      (None for NaN). */
  datatype Amount = Amount(text: string, parsed: Option<real>)

  /** `!amount || parseFloat(amount) <= 0` fails: the amount is present and
      non-empty, and its parsed value is not a number <= 0. A text that
      does not parse (NaN) passes, since NaN <= 0 is false. */
  predicate AmountAccepted(amount: Option<Amount>)
  {
    amount.Some? && amount.value.text != "" &&
    !(amount.value.parsed.Some? && amount.value.parsed.value <= 0.0)
  }

  /** A configuration entry of `{ key: config.key || fallback, ...config }`:
      the spread copies every key the caller passed, so a passed key wins
      over the fallback even when it is falsy. None is a key not passed. */
  function Setting(given: Option<string>, fallback: string): (r: string)
    ensures given.None? ==> r == fallback
    ensures given.Some? ==> r == given.value
  {
    match given
    case None => fallback
    case Some(v) => v
  }

  /** `f` applied to each element, in order. */
  function Map<T, U>(xs: seq<T>, f: T -> U): (ys: seq<U>)
    ensures |ys| == |xs|
    ensures forall i :: 0 <= i < |xs| ==> ys[i] == f(xs[i])
  {
    seq(|xs|, i requires 0 <= i < |xs| => f(xs[i]))
  }

  /** The kinds of a mock-history catalogue that a filter value selects, in
      catalogue order: each entry pairs a kind with the filter value that
      selects it besides `'all'`. */
  function SelectKinds(catalog: seq<(string, string)>, filter: string): (kinds: seq<string>)
    ensures |kinds| <= |catalog|
    ensures filter == "all" ==> |kinds| == |catalog|
  {
    if catalog == [] then []
    else (if filter == "all" || catalog[0].1 == filter then [catalog[0].0] else []) + SelectKinds(catalog[1..], filter)
  }
}
