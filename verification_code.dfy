/** The confirmation-code input filter that the forgot-password page
    (app/auth/forgot-password/page.tsx:65) and the confirm-email page
    (app/auth/confirm-email/page.tsx:57) both apply to every keystroke:
    `value.replace(/[^0-9]/g, '').slice(0, 6)`. */
module VerificationCode {

  /** The length of a complete code. */
  const CodeLength := 6

  /** The regular-expression class `[0-9]` (also what `\d` matches). */
  predicate IsDigit(c: char)
  {
    '0' <= c <= '9'
  }

  predicate AllDigits(s: string)
  {
    forall i :: 0 <= i < |s| ==> IsDigit(s[i])
  }

  /** `s.replace(/[^0-9]/g, '')`: the digits of `s`, in order. */
  function Digits(s: string): (r: string)
    ensures AllDigits(r)
    ensures |r| <= |s|
    ensures AllDigits(s) ==> r == s
  {
    if s == [] then []
    else (if IsDigit(s[0]) then [s[0]] else []) + Digits(s[1..])
  }

  /** Filtering distributes over concatenation: together with the one-character
      case this pins `Digits` down as "keep each digit, in place order". */
  lemma {:induction false} DigitsAppend(a: string, b: string)
    ensures Digits(a + b) == Digits(a) + Digits(b)
  {
    if a == [] {
      assert a + b == b;
    } else {
      assert (a + b)[0] == a[0];
      assert (a + b)[1..] == a[1..] + b;
      DigitsAppend(a[1..], b);
    }
  }

  lemma DigitsOne(c: char)
    ensures Digits([c]) == if IsDigit(c) then [c] else []
  {
    assert [c][1..] == [];
  }

  /** The sanitised value stored as the code. */
  function Sanitize(s: string): (r: string)
    ensures AllDigits(r)
    ensures |r| <= CodeLength
    ensures r <= Digits(s)
    ensures |r| == if |Digits(s)| < CodeLength then |Digits(s)| else CodeLength
  {
    var d := Digits(s);
    if |d| <= CodeLength then d else d[..CodeLength]
  }

  /** Sanitising a sanitised value changes nothing. */
  lemma SanitizeIdempotent(s: string)
    ensures Sanitize(Sanitize(s)) == Sanitize(s)
  {
  }

  /** A value that is already a (partial) code passes through unchanged. */
  lemma SanitizeKeepsCode(s: string)
    requires AllDigits(s) && |s| <= CodeLength
    ensures Sanitize(s) == s
  {
  }

  /** Typing a character after a partial code appends it exactly when it is
      a digit and the code is not yet complete. */
  lemma SanitizeKeystroke(code: string, c: char)
    requires AllDigits(code) && |code| <= CodeLength
    ensures Sanitize(code + [c]) ==
      if IsDigit(c) && |code| < CodeLength then code + [c] else code
  {
    DigitsAppend(code, [c]);
    DigitsOne(c);
  }
}
