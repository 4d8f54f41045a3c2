/** The 26-character tokens of identities: 130 bits in base 32, and the time in their first ten characters. */
module Crockford {
  import opened Wrappers

  const ALPHABET := "0123456789ABCDEFGHJKMNPQRSTVWXYZ"
  const TOKEN_LENGTH := 26
  const TIME_LENGTH := 10

  // 9999-12-31T23:59:59.999Z in milliseconds, the last time the calendar of the runtime can hold.
  const LAST_TIME := 253402300799999

  function Pow32(n: nat): (p: nat)
    ensures p > 0
  {
    if n == 0 then 1 else 32 * Pow32(n - 1)
  }

  function Position(c: char, from: nat): (i: nat)
    requires from <= |ALPHABET| && c in ALPHABET[from..]
    ensures from <= i < |ALPHABET| && ALPHABET[i] == c
    decreases |ALPHABET| - from
  {
    if ALPHABET[from] == c then from
    else
      assert ALPHABET[from..] == [ALPHABET[from]] + ALPHABET[from + 1..];
      Position(c, from + 1)
  }

  predicate IsDigit(c: char) {
    c in ALPHABET
  }

  // The digit a character stands for.
  function Digit(c: char): (d: nat)
    requires IsDigit(c)
    ensures d < 32 && ALPHABET[d] == c
  {
    assert ALPHABET[0..] == ALPHABET;
    Position(c, 0)
  }

  predicate Digits(s: string) {
    forall i :: 0 <= i < |s| ==> IsDigit(s[i])
  }

  // The number a text of digits stands for.
  function Value(s: string): nat
    requires Digits(s)
  {
    if |s| == 0 then 0 else Value(s[..|s| - 1]) * 32 + Digit(s[|s| - 1])
  }

  // The last n digits of a number.
  function Token(v: nat, n: nat): string {
    if n == 0 then "" else Token(v / 32, n - 1) + [ALPHABET[v % 32]]
  }

  lemma {:induction false} AlphabetAscends(i: nat, j: nat)
    requires i < j < 32
    ensures ALPHABET[i] < ALPHABET[j]
  {
    AscendsOnce();
    if i + 1 < j { AlphabetAscends(i, j - 1); }
  }

  lemma {:induction false} AscendsOnce()
    ensures forall i :: 0 <= i < 31 ==> ALPHABET[i] < ALPHABET[i + 1]
  {
  }

  // A character is its digit: distinct digits have distinct characters, in the same order.
  lemma {:induction false} DigitOrder(a: char, b: char)
    requires IsDigit(a) && IsDigit(b)
    ensures Digit(a) < Digit(b) <==> a < b
    ensures Digit(a) == Digit(b) <==> a == b
  {
    if Digit(a) < Digit(b) { AlphabetAscends(Digit(a), Digit(b)); }
    if Digit(b) < Digit(a) { AlphabetAscends(Digit(b), Digit(a)); }
  }

  // Encoding then decoding returns the number.
  lemma {:induction false} DecodeEncode(v: nat, n: nat)
    requires v < Pow32(n)
    ensures |Token(v, n)| == n && Digits(Token(v, n)) && Value(Token(v, n)) == v
  {
    if n > 0 {
      DecodeEncode(v / 32, n - 1);
      var front, c := Token(v / 32, n - 1), ALPHABET[v % 32];
      assert (front + [c])[..n - 1] == front;
      assert IsDigit(c);
      SameDigit(v % 32);
    }
  }

  lemma {:induction false} SameDigit(d: nat)
    requires d < 32
    ensures IsDigit(ALPHABET[d]) && Digit(ALPHABET[d]) == d
  {
    var e := Digit(ALPHABET[d]);
    if d < e { AlphabetAscends(d, e); }
    if e < d { AlphabetAscends(e, d); }
  }

  // Decoding then encoding returns the text.
  lemma {:induction false} EncodeDecode(s: string)
    requires Digits(s)
    ensures Value(s) < Pow32(|s|) && Token(Value(s), |s|) == s
  {
    if |s| > 0 {
      var front, d := s[..|s| - 1], Digit(s[|s| - 1]);
      EncodeDecode(front);
      assert Value(s) == Value(front) * 32 + d;
      assert Value(s) / 32 == Value(front) && Value(s) % 32 == d;
      assert s == front + [s[|s| - 1]];
    }
  }

  // Text order: the first character that differs decides.
  predicate Before(a: string, b: string)
    requires |a| == |b|
  {
    |a| > 0 && (Before(a[..|a| - 1], b[..|b| - 1]) || (a[..|a| - 1] == b[..|b| - 1] && a[|a| - 1] < b[|b| - 1]))
  }

  // Texts of one length are ordered as the numbers they stand for.
  lemma {:induction false} OrderIsNumeric(a: string, b: string)
    requires |a| == |b| && Digits(a) && Digits(b)
    ensures Value(a) < Value(b) <==> Before(a, b)
    ensures Value(a) == Value(b) <==> a == b
  {
    hide IsDigit, Digit, Digits, Value;
    if |a| == 0 {
      assert a == b;
    } else {
      hide Before;
      var x, y := a[..|a| - 1], b[..|b| - 1];
      ValueByLast(a);
      ValueByLast(b);
      OrderIsNumeric(x, y);
      DigitOrder(a[|a| - 1], b[|b| - 1]);
      LastDigitDecides(Value(x), Digit(a[|a| - 1]), Value(y), Digit(b[|b| - 1]));
      assert a == x + [a[|a| - 1]] && b == y + [b[|b| - 1]];
      BeforeByLast(a, b);
    }
  }

  lemma {:induction false} ValueByLast(s: string)
    requires |s| > 0 && Digits(s)
    ensures Digits(s[..|s| - 1]) && IsDigit(s[|s| - 1])
    ensures Value(s) == Value(s[..|s| - 1]) * 32 + Digit(s[|s| - 1])
  {
    hide IsDigit;
  }

  lemma {:induction false} BeforeByLast(a: string, b: string)
    requires |a| == |b| > 0
    ensures var x, y := a[..|a| - 1], b[..|b| - 1];
      Before(a, b) <==> Before(x, y) || (x == y && a[|a| - 1] < b[|b| - 1])
  {
  }

  lemma {:induction false} LastDigitDecides(v: nat, d: nat, w: nat, e: nat)
    requires d < 32 && e < 32
    ensures v * 32 + d < w * 32 + e <==> v < w || (v == w && d < e)
    ensures v * 32 + d == w * 32 + e <==> v == w && d == e
  {
  }

  // The loop that writes a token from its last digit to its first.
  method DerivedToken(bits: nat) returns (token: string)
    requires bits < Pow32(TOKEN_LENGTH)
    ensures |token| == TOKEN_LENGTH && Digits(token) && Value(token) == bits
  {
    token := "";
    var value := bits;
    for n := 0 to TOKEN_LENGTH
      invariant Token(value, TOKEN_LENGTH - n) + token == Token(bits, TOKEN_LENGTH)
    {
      assert Token(value, TOKEN_LENGTH - n) + token
          == Token(value / 32, TOKEN_LENGTH - n - 1) + ([ALPHABET[value % 32]] + token);
      token := [ALPHABET[value % 32]] + token;
      value := value / 32;
    }
    assert Token(value, 0) + token == token;
    DecodeEncode(bits, TOKEN_LENGTH);
  }

  predicate IsToken(s: string) {
    |s| == TOKEN_LENGTH && Digits(s)
  }

  // The milliseconds the first ten characters of a token encode, as far as the calendar reaches.
  function TimeOf(token: string): Option<nat>
    requires IsToken(token)
  {
    if Value(token[..TIME_LENGTH]) <= LAST_TIME then Some(Value(token[..TIME_LENGTH])) else None
  }

  // The loop that reads the time of a request; a time past the calendar raises.
  method RequestTime(token: string) returns (time: Option<nat>)
    requires IsToken(token)
    ensures time == TimeOf(token)
  {
    var timestamp := 0;
    for n := 0 to TIME_LENGTH
      invariant timestamp == Value(token[..n])
    {
      assert token[..n + 1][..n] == token[..n];
      timestamp := timestamp * 32 + Digit(token[n]);
    }
    if timestamp > LAST_TIME { return None; }
    time := Some(timestamp);
  }

  const LAST_TOKEN := "76EZ91ZPZZ"

  lemma {:induction false} OneMoreDigit(s: string, d: nat)
    requires Digits(s) && d < 32
    ensures Digits(s + [ALPHABET[d]]) && Value(s + [ALPHABET[d]]) == Value(s) * 32 + d
  {
    SameDigit(d);
    assert (s + [ALPHABET[d]])[..|s|] == s;
  }

  lemma {:induction false} LastTokenValue()
    ensures Digits(LAST_TOKEN) && |LAST_TOKEN| == TIME_LENGTH && Value(LAST_TOKEN) == LAST_TIME
  {
    hide Digits, Value;
    LastTokenHalf();
    OneMoreDigit("76EZ9", 1);
    assert "76EZ9" + ['1'] == "76EZ91";
    OneMoreDigit("76EZ91", 31);
    assert "76EZ91" + ['Z'] == "76EZ91Z";
    OneMoreDigit("76EZ91Z", 22);
    assert "76EZ91Z" + ['P'] == "76EZ91ZP";
    OneMoreDigit("76EZ91ZP", 31);
    assert "76EZ91ZP" + ['Z'] == "76EZ91ZPZ";
    OneMoreDigit("76EZ91ZPZ", 31);
    assert "76EZ91ZPZ" + ['Z'] == "76EZ91ZPZZ";
  }

  lemma {:induction false} LastTokenHalf()
    ensures Digits("76EZ9") && Value("76EZ9") == 7551977
  {
    EmptyValue();
    hide Digits, Value;
    OneMoreDigit("", 7);
    assert "" + ['7'] == "7";
    OneMoreDigit("7", 6);
    assert "7" + ['6'] == "76";
    OneMoreDigit("76", 14);
    assert "76" + ['E'] == "76E";
    OneMoreDigit("76E", 31);
    assert "76E" + ['Z'] == "76EZ";
    OneMoreDigit("76EZ", 9);
    assert "76EZ" + ['9'] == "76EZ9";
  }

  lemma {:induction false} EmptyValue()
    ensures Digits("") && Value("") == 0
  {
  }

  // A request has a time exactly when the first ten characters of its token do not come after "76EZ91ZPZZ",
  // although its format admits any digits there.
  lemma {:induction false} TimeIsDefinedExactly(token: string)
    requires IsToken(token)
    ensures TimeOf(token).Some? <==> !Before(LAST_TOKEN, token[..TIME_LENGTH])
  {
    LastTokenValue();
    OrderIsNumeric(LAST_TOKEN, token[..TIME_LENGTH]);
  }

  lemma {:induction false} SomeTimeIsTooLate()
    ensures exists token: string :: IsToken(token) && TimeOf(token).None?
  {
    var token := seq(TOKEN_LENGTH, i => 'Z');
    assert ALPHABET[31] == 'Z';
    assert Digits(token);
    LastTokenValue();
    assert Before("7", "Z");
    OrderIsNumeric(LAST_TOKEN, token[..TIME_LENGTH]);
    FirstDecides(LAST_TOKEN, token[..TIME_LENGTH]);
    assert IsToken(token) && TimeOf(token).None?;
  }

  lemma {:induction false} FirstDecides(a: string, b: string)
    requires |a| == |b| > 0 && a[0] < b[0]
    ensures Before(a, b)
  {
    if |a| > 1 { FirstDecides(a[..|a| - 1], b[..|b| - 1]); }
  }
}
