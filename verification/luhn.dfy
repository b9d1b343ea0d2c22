/** Payment card detection: the check digit of ISO/IEC 7812-1, Annex B, and its use on a token. */
module Luhn {
  type Digit = n: nat | n < 10

  /** A doubled digit above 9 loses 9. */
  function Weight(d: Digit, doubled: bool): Digit {
    if !doubled then d else if 2 * d > 9 then 2 * d - 9 else 2 * d
  }

  /** The sum from the right, every second digit doubled; `doubled` says how the last one counts. */
  function Sum(digits: seq<Digit>, doubled: bool): nat {
    if digits == [] then 0
    else Weight(digits[|digits| - 1], doubled) + Sum(digits[..|digits| - 1], !doubled)
  }

  predicate LuhnValid(digits: seq<Digit>) { Sum(digits, false) % 10 == 0 }

  /** A digit, or the digit sum of its double. */
  function Counted(d: Digit, doubled: bool): nat {
    if doubled then (2 * d) / 10 + (2 * d) % 10 else d
  }

  /** Left to right: doubled are the second digit from the right, the fourth, and so on. */
  function SumByPosition(digits: seq<Digit>, i: nat): nat
    requires i <= |digits|
    decreases |digits| - i
  {
    if i == |digits| then 0
    else Counted(digits[i], (|digits| - 1 - i) % 2 == 1) + SumByPosition(digits, i + 1)
  }

  lemma WeightCounts(d: Digit, doubled: bool)
    ensures Weight(d, doubled) == Counted(d, doubled)
  {
  }

  lemma {:induction false} SumPrefix(digits: seq<Digit>, doubled: bool, i: nat)
    requires i <= |digits|
    ensures Sum(digits, doubled) == Sum(digits[..i], doubled == ((|digits| - i) % 2 == 0)) + SumFrom(digits, doubled, i)
    decreases |digits| - i
  {
    if i == |digits| {
      assert digits[..i] == digits;
    } else {
      SumPrefix(digits, doubled, i + 1);
      assert digits[..i + 1][..i] == digits[..i] && digits[..i + 1][i] == digits[i];
    }
  }

  function SumFrom(digits: seq<Digit>, doubled: bool, i: nat): nat
    requires i <= |digits|
    decreases |digits| - i
  {
    if i == |digits| then 0
    else Weight(digits[i], doubled == ((|digits| - 1 - i) % 2 == 0)) + SumFrom(digits, doubled, i + 1)
  }

  lemma {:induction false} SumFromByPosition(digits: seq<Digit>, i: nat)
    requires i <= |digits|
    ensures SumFrom(digits, false, i) == SumByPosition(digits, i)
    decreases |digits| - i
  {
    if i < |digits| {
      SumFromByPosition(digits, i + 1);
      WeightCounts(digits[i], (|digits| - 1 - i) % 2 == 1);
      hide Weight, Counted;
    }
  }

  /** Valid exactly if the digits, every second from the right replaced by the digit sum of its double, add
      up to a multiple of ten. */
  lemma ValidByPosition(digits: seq<Digit>)
    ensures LuhnValid(digits) <==> SumByPosition(digits, 0) % 10 == 0
  {
    SumPrefix(digits, false, 0);
    SumFromByPosition(digits, 0);
    assert digits[..0] == [];
  }

  /** How the digit at `i` counts. */
  function DoubledAt(digits: seq<Digit>, i: nat, doubled: bool): bool
    requires i < |digits|
  {
    if (|digits| - 1 - i) % 2 == 0 then doubled else !doubled
  }

  lemma {:induction false} SumOfUpdate(digits: seq<Digit>, i: nat, d: Digit, doubled: bool)
    requires i < |digits|
    ensures Sum(digits[i := d], doubled) + Weight(digits[i], DoubledAt(digits, i, doubled)) ==
            Sum(digits, doubled) + Weight(d, DoubledAt(digits, i, doubled))
  {
    hide Weight;
    var n := |digits| - 1;
    if i == n {
      assert digits[i := d][..n] == digits[..n];
    } else {
      assert digits[i := d][..n] == digits[..n][i := d];
      SumOfUpdate(digits[..n], i, d, !doubled);
    }
  }

  lemma WeightsDiffer(a: Digit, b: Digit, doubled: bool)
    ensures Weight(a, doubled) == Weight(b, doubled) <==> a == b
  {
  }

  /** Changing one digit of a valid string, anywhere, makes it invalid. */
  lemma OneDigitErrorIsCaught(digits: seq<Digit>, i: nat, d: Digit)
    requires i < |digits| && LuhnValid(digits)
    ensures LuhnValid(digits[i := d]) <==> d == digits[i]
  {
    hide Sum, Weight, DoubledAt;
    SumOfUpdate(digits, i, d, false);
    WeightsDiffer(digits[i], d, DoubledAt(digits, i, false));
    assert digits[i := digits[i]] == digits;
  }

  function Swapped(digits: seq<Digit>, i: nat): seq<Digit>
    requires i + 1 < |digits|
  {
    digits[i := digits[i + 1]][i + 1 := digits[i]]
  }

  /** Swapping two neighbours of a valid string goes unnoticed only for equal digits and for 0 and 9. */
  lemma SwapIsCaughtIff(digits: seq<Digit>, i: nat)
    requires i + 1 < |digits| && LuhnValid(digits)
    ensures LuhnValid(Swapped(digits, i)) <==>
            digits[i] == digits[i + 1] || {digits[i], digits[i + 1]} == {0, 9}
  {
    hide Sum, Weight;
    var a, b := digits[i], digits[i + 1];
    var once := digits[i := b];
    var first := DoubledAt(digits, i, false);
    SumOfUpdate(digits, i, b, false);
    SumOfUpdate(once, i + 1, a, false);
    assert DoubledAt(once, i + 1, false) == !first;
    SwapArithmetic(a, b, first);
    PairIsZeroNine(a, b);
  }

  lemma SwapArithmetic(a: Digit, b: Digit, first: bool)
    ensures (Weight(a, first) + Weight(b, !first)) % 10 == (Weight(b, first) + Weight(a, !first)) % 10 <==>
            a == b || (a == 0 && b == 9) || (a == 9 && b == 0)
  {
    var x, y := Weight(a, true) - a, Weight(b, true) - b;
    assert (x == if a < 5 then a else a - 9) && (y == if b < 5 then b else b - 9);
    assert -8 <= x - y <= 8;
    var here, there := Weight(a, first) + Weight(b, !first), Weight(b, first) + Weight(a, !first);
    assert here - there == if first then x - y else y - x;
    hide Weight;
    SameLastDigit(here, there);
  }

  lemma SameLastDigit(m: nat, n: nat)
    requires -8 <= m - n <= 8
    ensures m % 10 == n % 10 <==> m == n
  {
  }

  lemma PairIsZeroNine(a: Digit, b: Digit)
    ensures {a, b} == {0, 9} <==> (a == 0 && b == 9) || (a == 9 && b == 0)
  {
    assert a in {a, b} && b in {a, b};
    if {a, b} == {0, 9} {
      assert 0 in {a, b} && 9 in {a, b};
    }
  }

  predicate Fits(digits: seq<Digit>, i: nat, d: Digit)
    requires i < |digits|
  {
    LuhnValid(digits[i := d])
  }

  /** Whatever the other digits are, exactly one digit in any one place makes the string valid. */
  lemma ExactlyOneDigitFits(digits: seq<Digit>, i: nat)
    requires i < |digits|
    ensures exists d: Digit :: Fits(digits, i, d) && forall e: Digit :: Fits(digits, i, e) ==> e == d
  {
    hide Sum, Weight, Unweighted;
    var doubled := DoubledAt(digits, i, false);
    var others := Sum(digits, false) - Weight(digits[i], doubled);
    var w := (-others) % 10;
    var d := Unweighted(w, doubled);
    SumOfUpdate(digits, i, d, false);
    assert Sum(digits[i := d], false) == others + w;
    assert Fits(digits, i, d);
    forall e: Digit | Fits(digits, i, e)
      ensures e == d
    {
      OneDigitErrorIsCaught(digits[i := d], i, e);
      assert digits[i := d][i := e] == digits[i := e];
    }
  }

  /** The digit that counts as `w`. */
  function Unweighted(w: Digit, doubled: bool): (d: Digit)
    ensures Weight(d, doubled) == w
  {
    if !doubled then w else if w % 2 == 0 then w / 2 else (w + 9) / 2
  }

  // ----- Tokens

  predicate IsDigit(c: char) { '0' <= c <= '9' }

  function Digits(token: string): seq<Digit> {
    if token == [] then []
    else DigitsOf(token[0]) + Digits(token[1..])
  }

  function DigitsOf(c: char): seq<Digit> {
    if IsDigit(c) then [(c - '0') as int] else []
  }

  /** A token is flagged exactly if it holds 13 to 19 digits that pass the check. */
  lemma FlaggedIff(token: string)
    ensures PaymentCard(token) <==> 13 <= |Digits(token)| <= 19 && SumByPosition(Digits(token), 0) % 10 == 0
  {
    ValidByPosition(Digits(token));
    hide Sum, SumByPosition, Digits;
  }

  predicate PaymentCard(token: string) { 13 <= |Digits(token)| <= 19 && LuhnValid(Digits(token)) }

  lemma {:induction false} DigitsOfConcat(a: string, b: string)
    ensures Digits(a + b) == Digits(a) + Digits(b)
  {
    hide DigitsOf;
    if a == [] {
      assert a + b == b;
    } else {
      assert (a + b)[1..] == a[1..] + b;
      DigitsOfConcat(a[1..], b);
    }
  }

  /** Grouping does not matter: inserting a character that is no digit, anywhere, keeps the verdict. */
  lemma SeparatorsAreIgnored(token: string, i: nat, c: char)
    requires i <= |token| && !IsDigit(c)
    ensures PaymentCard(token[..i] + [c] + token[i..]) <==> PaymentCard(token)
  {
    hide Sum, IsDigit;
    DigitsOfConcat(token[..i] + [c], token[i..]);
    DigitsOfConcat(token[..i], [c]);
    DigitsOfConcat(token[..i], token[i..]);
    assert token[..i] + token[i..] == token;
    NoDigit(c);
    assert Digits(token[..i]) + [] == Digits(token[..i]);
    assert Digits(token[..i] + [c] + token[i..]) == Digits(token);
  }

  lemma NoDigit(c: char)
    requires !IsDigit(c)
    ensures Digits([c]) == []
  {
    var x := [c];
    assert x[1..] == [];
  }

  lemma DigitsOfUpdate(token: string, i: nat, c: char)
    requires i < |token| && IsDigit(token[i]) && IsDigit(c)
    ensures var k := |Digits(token[..i])|;
            k < |Digits(token)| && Digits(token)[k] == (token[i] - '0') as int &&
            Digits(token[i := c]) == Digits(token)[k := (c - '0') as int]
  {
    var k := |Digits(token[..i])|;
    DigitsAround(token, i);
    DigitsAround(token[i := c], i);
    assert token[i := c][..i] == token[..i] && token[i := c][i + 1..] == token[i + 1..];
  }

  lemma DigitsAround(token: string, i: nat)
    requires i < |token| && IsDigit(token[i])
    ensures Digits(token) == Digits(token[..i]) + [(token[i] - '0') as int] + Digits(token[i + 1..])
  {
    var x := [token[i]];
    DigitsOfConcat(token[..i] + x, token[i + 1..]);
    DigitsOfConcat(token[..i], x);
    assert token == token[..i] + x + token[i + 1..];
    assert Digits(x) == [(token[i] - '0') as int] by {
      assert x[1..] == [];
    }
  }

  /** One mistyped digit hides a card number from the detector. */
  lemma MistypedCardIsNotFlagged(token: string, i: nat, c: char)
    requires PaymentCard(token) && i < |token| && IsDigit(token[i]) && IsDigit(c) && c != token[i]
    ensures !PaymentCard(token[i := c])
  {
    DigitsOfUpdate(token, i, c);
    hide Sum;
    OneDigitErrorIsCaught(Digits(token), |Digits(token[..i])|, (c - '0') as int);
  }
}
