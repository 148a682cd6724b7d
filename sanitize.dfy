/** The input normalisers: `normalizeEmail` (lower-case, then trim) and
    `normalizePhoneNumber` (keep ASCII digits and '+'). */
module Sanitize {
  import opened Text

  function NormalizeEmail(email: string): string {
    Trim(Lower(email))
  }

  /** A normalised email has no surrounding whitespace and no upper-case
      ASCII letter. */
  lemma NormalizedEmailShape(email: string)
    ensures IsTrimmed(NormalizeEmail(email))
    ensures forall i :: 0 <= i < |NormalizeEmail(email)| ==> !IsUpper(NormalizeEmail(email)[i])
  {
    TrimIsTrimmed(Lower(email));
    TrimLowerCommute(email);
    LowerHasNoUpper(Trim(email));
  }

  /** Normalising an email twice is normalising it once. */
  lemma NormalizeEmailIdempotent(email: string)
    ensures NormalizeEmail(NormalizeEmail(email)) == NormalizeEmail(email)
  {
    TrimLowerCommute(email);
    LowerIdempotent(Trim(email));
    assert Lower(NormalizeEmail(email)) == NormalizeEmail(email);
    TrimIdempotent(Lower(email));
  }

  predicate IsPhoneChar(c: char) { '0' <= c <= '9' || c == '+' }

  /** `phone.replace(/[^\d+]/g, '')`. */
  function NormalizePhoneNumber(phone: string): (r: string)
    ensures |r| <= |phone|
    ensures forall i :: 0 <= i < |r| ==> IsPhoneChar(r[i])
  {
    if phone == [] then ""
    else (if IsPhoneChar(phone[0]) then [phone[0]] else "") + NormalizePhoneNumber(phone[1..])
  }

  /** `a` can be obtained from `b` by deleting characters. */
  predicate IsSubsequence(a: string, b: string)
    decreases |b|
  {
    if a == [] then true
    else if b == [] then false
    else if a[0] == b[0] then IsSubsequence(a[1..], b[1..])
    else IsSubsequence(a, b[1..])
  }

  lemma {:induction false} NormalizePhoneIsSubsequence(phone: string)
    ensures IsSubsequence(NormalizePhoneNumber(phone), phone)
    decreases |phone|
  {
    if phone != [] {
      NormalizePhoneIsSubsequence(phone[1..]);
      var rest := NormalizePhoneNumber(phone[1..]);
      if IsPhoneChar(phone[0]) {
        assert NormalizePhoneNumber(phone) == [phone[0]] + rest;
        assert ([phone[0]] + rest)[1..] == rest;
      } else {
        assert NormalizePhoneNumber(phone) == rest;
        SkipKeepsSubsequence(rest, phone);
      }
    }
  }

  /** Allowing one more leading character in `b` keeps a subsequence one. */
  lemma {:induction false} SkipKeepsSubsequence(a: string, b: string)
    requires b != [] && IsSubsequence(a, b[1..])
    ensures IsSubsequence(a, b)
    decreases |b|, 0
  {
    if a != [] && a[0] == b[0] {
      DropHeadKeepsSubsequence(a, b[1..]);
    }
  }

  /** Dropping the first character of a subsequence leaves a subsequence. */
  lemma {:induction false} DropHeadKeepsSubsequence(a: string, c: string)
    requires a != [] && IsSubsequence(a, c)
    ensures IsSubsequence(a[1..], c)
    decreases |c|, 1
  {
    if a[1..] != [] {
      if a[0] == c[0] {
        SkipKeepsSubsequence(a[1..], c);
      } else {
        DropHeadKeepsSubsequence(a, c[1..]);
        SkipKeepsSubsequence(a[1..], c);
      }
    }
  }

  /** Every digit and '+' of the input survives, as often as it occurs;
      with the subsequence lemma above, the result is exactly the input's
      digits and '+' signs in their order. */
  lemma {:induction false} NormalizePhoneKeepsPhoneChars(phone: string)
    ensures forall c :: IsPhoneChar(c) ==> multiset(NormalizePhoneNumber(phone))[c] == multiset(phone)[c]
    decreases |phone|
  {
    if phone != [] {
      NormalizePhoneKeepsPhoneChars(phone[1..]);
      assert phone == [phone[0]] + phone[1..];
      assert multiset(phone) == multiset{phone[0]} + multiset(phone[1..]);
      var rest := NormalizePhoneNumber(phone[1..]);
      if IsPhoneChar(phone[0]) {
        assert multiset(NormalizePhoneNumber(phone)) == multiset{phone[0]} + multiset(rest);
      } else {
        assert NormalizePhoneNumber(phone) == rest;
      }
    }
  }

  /** A string of digits and '+' is left as it is; in particular normalising
      twice is normalising once. */
  lemma {:induction false} NormalizePhoneFixpoint(phone: string)
    requires forall i :: 0 <= i < |phone| ==> IsPhoneChar(phone[i])
    ensures NormalizePhoneNumber(phone) == phone
    decreases |phone|
  {
    if phone != [] {
      NormalizePhoneFixpoint(phone[1..]);
      assert [phone[0]] + phone[1..] == phone;
    }
  }

  lemma NormalizePhoneIdempotent(phone: string)
    ensures NormalizePhoneNumber(NormalizePhoneNumber(phone)) == NormalizePhoneNumber(phone)
  {
    NormalizePhoneFixpoint(NormalizePhoneNumber(phone));
  }
}
