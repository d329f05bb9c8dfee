/** frontend/src/utils/formatters.js: the two string formatters the dashboard
    applies to stored text, `formatPhone` and `truncate`. A missing value
    (`null` or `undefined`) is `None`; the empty string is falsy as well. */
module Formatters {
  import opened Common
  import opened Text
  import Helpers

  /** `formatPhone(phone)`: a ten-character phone is shown as
      "+91 XXXXX XXXXX", a falsy one as "-", anything else as it is. */
  function FormatPhone(phone: Option<string>): string {
    if phone.None? || phone.value == "" then "-"
    else if |phone.value| == 10 then "+91 " + phone.value[..5] + " " + phone.value[5..]
    else phone.value
  }

  /** The ten-character case adds the country code and splits the number
      five and five: taking the two halves back out gives the number. */
  lemma FormatPhoneTen(s: string)
    requires |s| == 10
    ensures var r := FormatPhone(Some(s));
            && |r| == 15 && r[..4] == "+91 " && r[9] == ' '
            && r[4..9] + r[10..] == s
  {
    var r := FormatPhone(Some(s));
    assert r[4..9] == s[..5] && r[10..] == s[5..];
    assert s[..5] + s[5..] == s;
  }

  /** Any other non-empty string is shown unchanged, and a falsy one as "-". */
  lemma FormatPhoneOtherwise(phone: Option<string>)
    ensures phone.None? || phone == Some("") ==> FormatPhone(phone) == "-"
    ensures phone.Some? && phone.value != "" && |phone.value| != 10 ==> FormatPhone(phone) == phone.value
  {
  }

  /** Formatting an already formatted phone changes nothing: neither "-" nor
      the 15-character form has ten characters. */
  lemma FormatPhoneIdempotent(phone: Option<string>)
    ensures FormatPhone(Some(FormatPhone(phone))) == FormatPhone(phone)
  {
    if phone.Some? && |phone.value| == 10 {
      FormatPhoneTen(phone.value);
    }
  }

  lemma {:induction false} DigitsAppend(a: string, b: string)
    ensures Helpers.Digits(a + b) == Helpers.Digits(a) + Helpers.Digits(b)
  {
    if a != [] {
      assert (a + b)[1..] == a[1..] + b;
      DigitsAppend(a[1..], b);
    } else {
      assert a + b == b;
    }
  }

  /** The display form of a stored phone number goes back through the
      backend's `formatPhoneNumber` to the same number: its digits are "91"
      followed by the number, and that prefix is stripped. */
  lemma DisplayedPhoneNormalisesBack(s: string)
    requires IsPhone10(s)
    ensures Helpers.FormatPhoneNumber(FormatPhone(Some(s))) == s
  {
    DisplayedPhoneDigits(s);
    assert ("91" + s)[..2] == "91" && ("91" + s)[2..] == s;
  }

  lemma DisplayedPhoneDigits(s: string)
    requires IsPhone10(s)
    ensures Helpers.Digits(FormatPhone(Some(s))) == "91" + s
  {
    var a, b := s[..5], s[5..];
    assert Helpers.Digits(a) == a by {
      Helpers.DigitsOfDigits(a);
    }
    assert Helpers.Digits(b) == b by {
      Helpers.DigitsOfDigits(b);
    }
    assert Helpers.Digits("+91 " + a + " " + b) == "91" + a + b by {
      DigitsAppend("+91 " + a + " ", b);
      DigitsAppend("+91 " + a, " ");
      DigitsAppend("+91 ", a);
      assert Helpers.Digits("+91 ") == "91" by {
        assert "+91 "[1..] == "91 " && "91 "[1..] == "1 " && "1 "[1..] == " " && " "[1..] == "";
      }
      assert Helpers.Digits(" ") == "" by {
        assert " "[1..] == "";
      }
    }
    assert "91" + a + b == "91" + s by {
      assert a + b == s;
    }
  }

  /** `substring(0, length)` treats a negative end as 0. */
  function SubstringEnd(length: int, n: nat): (e: nat)
    requires length < n
    ensures e <= n
  {
    if length < 0 then 0 else length
  }

  /** `truncate(str, length = 50)` */
  function Truncate(str: Option<string>, length: int := 50): string {
    if str.None? || str.value == "" then ""
    else if |str.value| <= length then str.value
    else str.value[..SubstringEnd(length, |str.value|)] + "..."
  }

  /** A string that fits is returned as it is; a longer one is cut to its
      first `length` characters followed by "...", so the result has
      `length + 3` characters. */
  lemma TruncateShape(s: string, length: int)
    ensures |s| <= length ==> Truncate(Some(s), length) == s
    ensures |s| > length >= 0 ==>
              Truncate(Some(s), length) == s[..length] + "..." && |Truncate(Some(s), length)| == length + 3
    ensures Truncate(None, length) == ""
  {
  }

  /** The default length is 50. */
  lemma TruncateDefault(str: Option<string>)
    ensures Truncate(str) == Truncate(str, 50)
  {
  }

  /** Truncating twice to the same non-negative length is truncating once:
      the cut text is the same prefix again. */
  lemma TruncateIdempotent(str: Option<string>, length: int)
    requires length >= 0
    ensures Truncate(Some(Truncate(str, length)), length) == Truncate(str, length)
  {
    if str.Some? && str.value != "" && |str.value| > length {
      var r := str.value[..length] + "...";
      assert r[..length] == str.value[..length];
    }
  }
}
