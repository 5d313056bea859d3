/** Normalisation of a customer's phone number into the gateway's target
    format: keep the decimal digits, and turn a leading trunk `0` into the
    Indonesian country code `62`. Applied at send time only; the stored
    number is never rewritten. */
module Phone {

  predicate IsDigit(c: char)
  {
    '0' <= c <= '9'
  }

  predicate AllDigits(s: string)
  {
    forall i :: 0 <= i < |s| ==> IsDigit(s[i])
  }

  /** Removes every character outside `0`-`9`, keeping the rest in order. */
  function StripNonDigits(s: string): (r: string)
    ensures AllDigits(r)
    ensures |r| <= |s|
  {
    if s == [] then []
    else (if IsDigit(s[0]) then [s[0]] else []) + StripNonDigits(s[1..])
  }

  function FormatPhoneNumber(phone: string): (r: string)
    ensures AllDigits(r)
    ensures r == [] || r[0] != '0'
  {
    var digits := StripNonDigits(phone);
    if |digits| > 0 && digits[0] == '0' then "62" + digits[1..] else digits
  }

  /** Stripping distributes over concatenation. */
  lemma {:induction false} StripConcat(a: string, b: string)
    ensures StripNonDigits(a + b) == StripNonDigits(a) + StripNonDigits(b)
  {
    if a == [] {
      assert a + b == b;
    } else {
      assert (a + b)[1..] == a[1..] + b;
      StripConcat(a[1..], b);
    }
  }

  /** A string of digits only is left as it is. */
  lemma {:induction false} StripDigitsIsIdentity(s: string)
    requires AllDigits(s)
    ensures StripNonDigits(s) == s
  {
    if s != [] {
      StripDigitsIsIdentity(s[1..]);
    }
  }

  /** A character survives stripping exactly when it is a digit. */
  lemma {:induction false} StripKeepsExactlyDigits(s: string, c: char)
    ensures c in StripNonDigits(s) <==> c in s && IsDigit(c)
  {
    if s != [] {
      StripKeepsExactlyDigits(s[1..], c);
      assert s == [s[0]] + s[1..];
    }
  }

  /** The prefix rule: a digit string that starts with `0` gets `62` in place
      of that `0`; any other digit string is passed through. */
  lemma FormatPrefixRule(phone: string)
    ensures var d := StripNonDigits(phone);
            if |d| > 0 && d[0] == '0' then FormatPhoneNumber(phone) == "62" + d[1..]
            else FormatPhoneNumber(phone) == d
    ensures AllDigits(phone) && |phone| > 0 && phone[0] == '0' ==>
              FormatPhoneNumber(phone) == "62" + phone[1..]
    ensures AllDigits(phone) && (phone == [] || phone[0] != '0') ==>
              FormatPhoneNumber(phone) == phone
  {
    if AllDigits(phone) {
      StripDigitsIsIdentity(phone);
    }
  }

  /** Normalising twice is normalising once. */
  lemma FormatIdempotent(phone: string)
    ensures FormatPhoneNumber(FormatPhoneNumber(phone)) == FormatPhoneNumber(phone)
  {
    var once := FormatPhoneNumber(phone);
    StripDigitsIsIdentity(once);
  }

  /** A digit string behind a trunk `0` is sent as `62` followed by it. */
  lemma TrunkPrefixReplaced(rest: string)
    requires AllDigits(rest)
    ensures FormatPhoneNumber("0" + rest) == "62" + rest
  {
    StripDigitsIsIdentity("0" + rest);
    assert ("0" + rest)[1..] == rest;
  }

  /** Separators and a leading `+` are dropped without touching the digits. */
  lemma PunctuationDropped(junk: string, digits: string)
    requires forall i :: 0 <= i < |junk| ==> !IsDigit(junk[i])
    requires AllDigits(digits) && (digits == [] || digits[0] != '0')
    ensures FormatPhoneNumber(junk + digits) == digits
  {
    StripConcat(junk, digits);
    StripDigitsIsIdentity(digits);
    StripNoDigitsIsEmpty(junk);
    assert StripNonDigits(junk + digits) == digits;
  }

  lemma {:induction false} StripNoDigitsIsEmpty(junk: string)
    requires forall i :: 0 <= i < |junk| ==> !IsDigit(junk[i])
    ensures StripNonDigits(junk) == []
  {
    if junk != [] {
      StripNoDigitsIsEmpty(junk[1..]);
    }
  }

  lemma DigitsConcat(a: string, b: string)
    requires AllDigits(a) && AllDigits(b)
    ensures AllDigits(a + b)
  {
    forall i | 0 <= i < |a + b| ensures IsDigit((a + b)[i]) {
      if i >= |a| {
        assert (a + b)[i] == b[i - |a|];
      }
    }
  }

  /** The digit strings of the samples, assembled from short pieces. */
  lemma SampleDigits()
    ensures AllDigits("81234567890") && AllDigits("6281234567890")
  {
    assert AllDigits("812") && AllDigits("3456") && AllDigits("7890") && AllDigits("62");
    DigitsConcat("3456", "7890");
    assert "3456" + "7890" == "34567890";
    DigitsConcat("812", "34567890");
    assert "812" + "34567890" == "81234567890";
    DigitsConcat("62", "81234567890");
    assert "62" + "81234567890" == "6281234567890";
  }

  /** Three sample numbers: a trunk-prefixed number, an
      international number written with `+`, and one already normalised. */
  lemma SampleTrunkNumber()
    ensures FormatPhoneNumber("081234567890") == "6281234567890"
  {
    var rest := "81234567890";
    SampleDigits();
    TrunkPrefixReplaced(rest);
    assert "0" + rest == "081234567890";
    assert "62" + rest == "6281234567890";
  }

  lemma SampleInternationalNumber()
    ensures FormatPhoneNumber("+6281234567890") == "6281234567890"
  {
    var d := "6281234567890";
    SampleDigits();
    PunctuationDropped("+", d);
    assert "+" + d == "+6281234567890";
  }

  lemma SampleNormalisedNumber()
    ensures FormatPhoneNumber("6281234567890") == "6281234567890"
  {
    var d := "6281234567890";
    SampleDigits();
    PunctuationDropped("", d);
    assert "" + d == d;
  }
}
