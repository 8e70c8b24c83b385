/**
 * `generateBarcodeNumbers`: the first 12 hexadecimal characters of an input's MD5 digest,
 * with every letter `a`-`f` replaced by its value written in decimal (`a` -> `"10"`, ...,
 * `f` -> `"15"`). The digest itself is a parameter.
 */
module Barcode {

  predicate IsDigit(c: char) {
    '0' <= c <= '9'
  }

  predicate IsHexLetter(c: char) {
    'a' <= c <= 'f'
  }

  predicate IsLowerHex(s: string) {
    forall i :: 0 <= i < |s| ==> IsDigit(s[i]) || IsHexLetter(s[i])
  }

  predicate IsDigits(s: string) {
    forall i :: 0 <= i < |s| ==> IsDigit(s[i])
  }

  /** An MD5 digest as `digest('hex')` renders it: 32 lowercase hexadecimal characters. */
  type HexDigest = s: string | |s| == 32 && IsLowerHex(s)
    witness "00000000000000000000000000000000"

  function Digit(d: nat): (c: char)
    requires d < 10
    ensures IsDigit(c)
  {
    ('0' as int + d) as char
  }

  /** The number a string of decimal digits spells, most significant digit first. */
  function DigitsValue(s: string): nat
    requires IsDigits(s)
  {
    if s == [] then 0 else DigitsValue(s[..|s| - 1]) * 10 + (s[|s| - 1] as int - '0' as int)
  }

  /** `n.toString()` for a non-negative integer: the digits spelling `n`, with no leading zero. */
  function NatToDecimal(n: nat): (s: string)
    ensures 1 <= |s|
    ensures IsDigits(s)
    ensures DigitsValue(s) == n
    ensures |s| > 1 ==> s[0] != '0'
  {
    if n < 10 then [Digit(n)] else NatToDecimal(n / 10) + [Digit(n % 10)]
  }

  /** `n.toString()` for an integer. */
  function IntToDecimal(n: int): string {
    if n < 0 then "-" + NatToDecimal(-n) else NatToDecimal(n)
  }

  function CountHexLetters(s: string): (n: nat)
    ensures n <= |s|
  {
    if s == [] then 0 else (if IsHexLetter(s[0]) then 1 else 0) + CountHexLetters(s[1..])
  }

  /** `s.replace(/[a-f]/g, letter => (letter.charCodeAt(0) - 87).toString())`. */
  function ReplaceHexLetters(s: string): string {
    if s == [] then []
    else
      (if IsHexLetter(s[0]) then NatToDecimal(s[0] as int - 87) else [s[0]])
      + ReplaceHexLetters(s[1..])
  }

  /** `generateBarcodeNumbers(input)`, with `md5` standing for
      `crypto.createHash('md5').update(input).digest('hex')`. */
  function GenerateBarcodeNumbers(md5: string -> HexDigest, input: string): (payload: string)
    ensures IsDigits(payload)
    ensures |payload| == 12 + CountHexLetters(md5(input)[..12])
    ensures 12 <= |payload| <= 24
  {
    var md5Hash := md5(input)[..12];
    ReplaceLength(md5Hash);
    ReplaceDigitsOnly(md5Hash);
    ReplaceHexLetters(md5Hash)
  }

  /** A letter becomes `"1"` followed by the digit of its offset from `a`. */
  lemma LetterCode(c: char)
    requires IsHexLetter(c)
    ensures NatToDecimal(c as int - 87) == ['1', Digit(c as int - 97)]
    ensures '0' <= Digit(c as int - 97) <= '5'
  {
    var n := c as int - 87;
    assert n / 10 == 1 && n % 10 == c as int - 97;
    assert NatToDecimal(1) == ['1'];
  }

  /** Each letter adds one character: the output is as long as the input plus its letters. */
  lemma {:induction false} ReplaceLength(s: string)
    ensures |ReplaceHexLetters(s)| == |s| + CountHexLetters(s)
  {
    if s != [] {
      ReplaceLength(s[1..]);
      if IsHexLetter(s[0]) {
        LetterCode(s[0]);
      }
    }
  }

  lemma DigitsConcat(a: string, b: string)
    ensures IsDigits(a + b) <==> IsDigits(a) && IsDigits(b)
  {
    if IsDigits(a + b) {
      forall i | 0 <= i < |a| ensures IsDigit(a[i]) {
        assert a[i] == (a + b)[i];
      }
      forall i | 0 <= i < |b| ensures IsDigit(b[i]) {
        assert b[i] == (a + b)[|a| + i];
      }
    }
  }

  lemma LowerHexCons(s: string)
    requires s != []
    ensures IsLowerHex(s) <==> (IsDigit(s[0]) || IsHexLetter(s[0])) && IsLowerHex(s[1..])
  {
    if (IsDigit(s[0]) || IsHexLetter(s[0])) && IsLowerHex(s[1..]) {
      forall i | 0 <= i < |s| ensures IsDigit(s[i]) || IsHexLetter(s[i]) {
        if i > 0 {
          assert s[i] == s[1..][i - 1];
        }
      }
    }
  }

  /** The output is all decimal digits exactly when the input is lowercase hexadecimal:
      other characters are copied through unchanged. */
  lemma {:induction false} ReplaceDigitsOnly(s: string)
    ensures IsDigits(ReplaceHexLetters(s)) <==> IsLowerHex(s)
  {
    if s != [] {
      ReplaceDigitsOnly(s[1..]);
      var head := if IsHexLetter(s[0]) then NatToDecimal(s[0] as int - 87) else [s[0]];
      assert ReplaceHexLetters(s) == head + ReplaceHexLetters(s[1..]);
      DigitsConcat(head, ReplaceHexLetters(s[1..]));
      LowerHexCons(s);
      assert IsDigits(head) <==> IsDigit(s[0]) || IsHexLetter(s[0]) by {
        if !IsHexLetter(s[0]) {
          assert head[0] == s[0];
        }
      }
    }
  }

  /** Digits pass through unchanged: on an all-digit string the substitution is the identity. */
  lemma {:induction false} ReplaceKeepsDigits(s: string)
    requires IsDigits(s)
    ensures ReplaceHexLetters(s) == s
  {
    if s != [] {
      assert IsDigits(s[1..]) by {
        forall i | 0 <= i < |s[1..]| ensures IsDigit(s[1..][i]) {
          assert s[1..][i] == s[i + 1];
        }
      }
      ReplaceKeepsDigits(s[1..]);
      assert s == [s[0]] + s[1..];
    }
  }

  lemma {:induction false} ReplaceConcat(a: string, b: string)
    ensures ReplaceHexLetters(a + b) == ReplaceHexLetters(a) + ReplaceHexLetters(b)
  {
    if a != [] {
      assert (a + b)[1..] == a[1..] + b;
      ReplaceConcat(a[1..], b);
    } else {
      assert a + b == b;
    }
  }

  /** The substitution works in place: the character at position `i` of the input lands
      at position `i` plus the number of letters before it; a digit (or any other
      non-letter) is copied there, a letter becomes `"1"` and the digit of its offset from `a`. */
  lemma ReplaceAt(s: string, i: nat)
    requires i < |s|
    ensures var j := i + CountHexLetters(s[..i]);
      && j < |ReplaceHexLetters(s)|
      && (!IsHexLetter(s[i]) ==> ReplaceHexLetters(s)[j] == s[i])
      && (IsHexLetter(s[i]) ==>
            j + 1 < |ReplaceHexLetters(s)|
            && ReplaceHexLetters(s)[j] == '1'
            && ReplaceHexLetters(s)[j + 1] == Digit(s[i] as int - 97))
  {
    var pre, post := s[..i], s[i..];
    assert s == pre + post;
    ReplaceConcat(pre, post);
    ReplaceLength(pre);
    assert post == [s[i]] + post[1..];
    if IsHexLetter(s[i]) {
      LetterCode(s[i]);
    }
  }

  /** Different prefixes can give the same payload: `"a"` and `"10"` both become `"10"`. */
  lemma ReplaceNotInjective()
    ensures ReplaceHexLetters("a") == ReplaceHexLetters("10")
  {
    LetterCode('a');
    assert ReplaceHexLetters("1") == "1";
  }
}
