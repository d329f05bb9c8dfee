/** The pure helpers of backend/utils/helpers.js other than the slug chain:
    pagination, `cleanObject`, the zero branch of `calculatePercentageChange`
    and `formatPhoneNumber`. */
module Helpers {
  import opened Common
  import opened Text

  // ---------------------------------------------------------------- parseInt

  /** The longest run of decimal digits at the front of `s`. */
  function DigitPrefix(s: string): (d: string)
    ensures AllDigits(d) && |d| <= |s| && d == s[..|d|]
    ensures |d| < |s| ==> !IsDigit(s[|d|])
  {
    if s != [] && IsDigit(s[0]) then [s[0]] + DigitPrefix(s[1..]) else []
  }

  /** The decimal forms of `parseInt(x)` without a radix: leading whitespace
      is skipped, one sign is read, then as many digits as follow; no digit
      at all gives NaN (`None`).
      A missing query parameter (`undefined`) also gives NaN. */
  function ParseInt(x: Option<string>): Option<int>
  {
    match x
    case None => None
    case Some(s) => ParseSigned(TrimStart(s))
  }

  /** The part of `parseInt` after the leading whitespace: an optional sign,
      then the digits. */
  function ParseSigned(t: string): Option<int>
  {
    var signed := t != [] && (t[0] == '-' || t[0] == '+');
    var d := DigitPrefix(if signed then t[1..] else t);
    if d == [] then None
    else if signed && t[0] == '-' then Some(-(DigitsValue(d) as int))
    else Some(DigitsValue(d))
  }

  lemma {:induction false} DigitPrefixOfDigits(s: string, rest: string)
    requires AllDigits(s)
    requires rest == [] || !IsDigit(rest[0])
    ensures DigitPrefix(s + rest) == s
  {
    if s != [] {
      assert (s + rest)[1..] == s[1..] + rest;
      DigitPrefixOfDigits(s[1..], rest);
    } else {
      assert s + rest == rest;
    }
  }

  /** A run of digits reads as the number it denotes. */
  lemma ParseIntOfDigits(s: string)
    requires s != [] && AllDigits(s)
    ensures ParseInt(Some(s)) == Some(DigitsValue(s))
  {
    assert TrimStart(s) == s;
    DigitPrefixOfAll(s);
  }

  /** A minus sign followed by a run of digits reads as the negated number. */
  lemma ParseIntOfNegatedDigits(s: string)
    requires s != [] && AllDigits(s)
    ensures ParseInt(Some("-" + s)) == Some(-(DigitsValue(s) as int))
  {
    var m := "-" + s;
    assert TrimStart(m) == m;
    DigitPrefixOfAll(s);
    ParseSignedMinus(m, s);
  }

  lemma ParseSignedMinus(m: string, s: string)
    requires m != [] && m[0] == '-' && m[1..] == s
    requires AllDigits(s) && s != [] && DigitPrefix(s) == s
    ensures ParseSigned(m) == Some(-(DigitsValue(s) as int))
  {
  }

  lemma DigitPrefixOfAll(s: string)
    requires AllDigits(s)
    ensures DigitPrefix(s) == s
  {
    DigitPrefixOfDigits(s, []);
    assert s + [] == s;
  }

  /** `parseInt(String(n)) == n`. */
  lemma ParseIntOfNumeral(n: nat)
    ensures ParseInt(Some(NatToString(n))) == Some(n as int)
  {
    ParseIntOfDigits(NatToString(n));
    NatToStringValue(n);
  }

  /** Text that starts with neither whitespace, a sign nor a digit reads as NaN. */
  lemma ParseIntOfNonNumeral(s: string)
    requires s != [] && !IsSpace(s[0]) && !IsDigit(s[0]) && s[0] != '-' && s[0] != '+'
    ensures ParseInt(Some(s)) == None
  {
    assert TrimStart(s) == s;
    assert DigitPrefix(s) == [];
  }

  // ---------------------------------------------------------------- getPagination

  datatype Pagination = Pagination(page: int, limit: int, skip: int)

  /** `parseInt(v) || d`: NaN and 0 are falsy, every other number (negative
      ones included) is kept. */
  function OrDefault(parsed: Option<int>, d: int): (v: int)
    ensures parsed.Some? && parsed.value != 0 ==> v == parsed.value
    ensures parsed.None? || parsed.value == 0 ==> v == d
  {
    if parsed.Some? && parsed.value != 0 then parsed.value else d
  }

  /** `getPagination(query)`, given `query.page` and `query.limit`. */
  function GetPagination(page: Option<string>, limit: Option<string>): (r: Pagination)
    ensures r.page != 0 && r.limit != 0
    ensures r.skip == (r.page - 1) * r.limit
    ensures page.None? ==> r.page == 1
    ensures limit.None? ==> r.limit == 20
  {
    var p := OrDefault(ParseInt(page), 1);
    var l := OrDefault(ParseInt(limit), 20);
    Pagination(p, l, (p - 1) * l)
  }

  /** A numeral page and limit are taken as they are. */
  lemma GetPaginationOfNumerals(p: nat, l: nat)
    requires p >= 1 && l >= 1
    ensures GetPagination(Some(NatToString(p)), Some(NatToString(l))) == Pagination(p, l, (p - 1) * l)
  {
    ParseIntOfNumeral(p);
    ParseIntOfNumeral(l);
  }

  /** Page 0 and an unreadable value fall back to the defaults. */
  lemma GetPaginationZeroIsDefault(l: Option<string>)
    ensures GetPagination(Some("0"), l).page == 1
    ensures GetPagination(Some("abc"), l).page == 1
    ensures GetPagination(l, Some("0")).limit == 20
  {
    ParseZero();
    ParseLetters();
  }

  lemma ParseZero()
    ensures ParseInt(Some("0")) == Some(0)
  {
    ParseIntOfNumeral(0);
    assert NatToString(0) == "0";
  }

  lemma ParseLetters()
    ensures ParseInt(Some("abc")) == None
  {
    ParseIntOfNonNumeral("abc");
  }

  /** Consecutive pages are adjacent windows: page p + 1 starts where page p ends. */
  lemma PagesAreAdjacent(p: nat, l: nat)
    requires p >= 1 && l >= 1
    ensures GetPagination(Some(NatToString(p + 1)), Some(NatToString(l))).skip
            == GetPagination(Some(NatToString(p)), Some(NatToString(l))).skip + l
  {
    GetPaginationOfNumerals(p, l);
    GetPaginationOfNumerals(p + 1, l);
    assert (p + 1 - 1) * l == (p - 1) * l + l;
  }

  // ---------------------------------------------------------------- buildPaginationResponse

  /** `Math.ceil(a / b)` for integers. */
  function CeilDiv(a: int, b: int): (c: int)
    requires b != 0
    ensures b > 0 ==> (c - 1) * b < a <= c * b
    ensures b < 0 ==> c * b <= a < (c - 1) * b
  {
    if b > 0 then -((-a) / b) else -(a / -b)
  }

  datatype PageInfo = PageInfo(total: int, page: int, limit: int, pages: int, hasNext: bool, hasPrev: bool)

  datatype PageResponse<T> = PageResponse(data: T, pagination: PageInfo)

  /** `buildPaginationResponse(data, total, page, limit)`. Its callers take
      `limit` from `getPagination`, which never yields 0. */
  function BuildPaginationResponse<T>(data: T, total: int, page: int, limit: int): (r: PageResponse<T>)
    requires limit != 0
    ensures r.data == data
    ensures r.pagination.total == total && r.pagination.page == page && r.pagination.limit == limit
    ensures limit > 0 ==> (r.pagination.pages - 1) * limit < total <= r.pagination.pages * limit
    ensures r.pagination.hasNext <==> page < r.pagination.pages
    ensures r.pagination.hasPrev <==> page > 1
  {
    var pages := CeilDiv(total, limit);
    PageResponse(data, PageInfo(total, page, limit, pages, page < pages, page > 1))
  }

  /** For a page computed by `getPagination` with a positive limit, "has next"
      means that documents exist beyond this window, and "has previous" that
      the window does not start at the first document. */
  lemma HasNextIffMoreDocuments<T>(data: T, total: int, q: Pagination)
    requires q.page >= 1 && q.limit >= 1 && q.skip == (q.page - 1) * q.limit
    ensures BuildPaginationResponse(data, total, q.page, q.limit).pagination.hasNext
            <==> q.skip + q.limit < total
    ensures BuildPaginationResponse(data, total, q.page, q.limit).pagination.hasPrev
            <==> q.skip > 0
  {
    var c := CeilDiv(total, q.limit);
    assert q.skip + q.limit == q.page * q.limit;
    if q.page < c {
      MulMono(q.page, c - 1, q.limit);
    } else {
      MulMono(c, q.page, q.limit);
    }
    if q.page > 1 {
      MulMono(1, q.page - 1, q.limit);
    }
  }

  lemma MulMono(x: int, y: int, k: int)
    requires x <= y && k >= 0
    ensures x * k <= y * k
  {
  }

  // ---------------------------------------------------------------- cleanObject

  /** The values a request body field can hold, as far as `cleanObject` tells them apart. */
  datatype JsValue = Undefined | Null | Str(s: string) | Num(n: real) | Bool(b: bool) | Composite

  predicate IsPresent(v: JsValue) {
    v != Undefined && v != Null && v != Str("")
  }

  /** `cleanObject(obj)`: the `reduce` over `Object.keys(obj)` copies into the
      accumulator exactly the entries whose value is not undefined, null or ''. */
  method CleanObject(obj: map<string, JsValue>) returns (acc: map<string, JsValue>)
    ensures forall k :: k in acc <==> k in obj && IsPresent(obj[k])
    ensures forall k :: k in acc ==> acc[k] == obj[k]
    ensures acc == Cleaned(obj)
  {
    acc := map[];
    var keys := obj.Keys;
    while keys != {}
      invariant keys <= obj.Keys
      invariant forall k :: k in acc <==> k in obj && k !in keys && IsPresent(obj[k])
      invariant forall k :: k in acc ==> acc[k] == obj[k]
      decreases keys
    {
      var key :| key in keys;
      if IsPresent(obj[key]) {
        acc := acc[key := obj[key]];
      }
      keys := keys - {key};
    }
  }

  /** The map `cleanObject` returns. */
  function Cleaned(obj: map<string, JsValue>): map<string, JsValue>
  {
    map k | k in obj && IsPresent(obj[k]) :: obj[k]
  }

  /** Zero and false are kept; cleaning twice is cleaning once. */
  lemma CleanedKeepsZeroAndFalse(obj: map<string, JsValue>, k: string)
    requires k in obj && (obj[k] == Num(0.0) || obj[k] == Bool(false))
    ensures k in Cleaned(obj) && Cleaned(obj)[k] == obj[k]
    ensures Cleaned(Cleaned(obj)) == Cleaned(obj)
  {
  }

  // ---------------------------------------------------------------- calculatePercentageChange

  /** The result of `calculatePercentageChange`: a plain number when the
      previous value is 0, otherwise the ratio that `.toFixed(1)` renders. */
  datatype Change = Whole(n: int) | Fixed1(ratio: real)

  function PercentageChange(current: real, previous: real): (r: Change)
    ensures previous == 0.0 ==> r.Whole? && (r.n == 100 <==> current > 0.0) && (r.n == 0 <==> current <= 0.0)
    ensures previous != 0.0 ==> r.Fixed1?
  {
    if previous == 0.0 then Whole(if current > 0.0 then 100 else 0)
    else Fixed1((current - previous) / previous * 100.0)
  }

  /** Against a positive previous value the change is positive exactly when
      the current value grew, and zero exactly when it stayed. */
  lemma PercentageChangeSign(current: real, previous: real)
    requires previous > 0.0
    ensures PercentageChange(current, previous).ratio > 0.0 <==> current > previous
    ensures PercentageChange(current, previous).ratio == 0.0 <==> current == previous
  {
    var q := (current - previous) / previous;
    assert q * previous == current - previous;
    if current > previous {
      assert q > 0.0;
    } else if current < previous {
      assert q < 0.0;
    }
  }

  // ---------------------------------------------------------------- formatPhoneNumber

  /** `phone.replace(/\D/g, '')` */
  function Digits(s: string): (d: string)
    ensures AllDigits(d) && |d| <= |s|
  {
    if s == [] then []
    else if IsDigit(s[0]) then [s[0]] + Digits(s[1..])
    else Digits(s[1..])
  }

  lemma {:induction false} DigitsOfDigits(s: string)
    requires AllDigits(s)
    ensures Digits(s) == s
  {
    if s != [] {
      DigitsOfDigits(s[1..]);
      assert s == [s[0]] + s[1..];
    }
  }

  /** `s.slice(-10)` */
  function Last10(s: string): (r: string)
    ensures |r| == if |s| < 10 then |s| else 10
    ensures r == s[|s| - |r|..]
  {
    if |s| <= 10 then s else s[|s| - 10..]
  }

  /** `formatPhoneNumber(phone)` */
  function FormatPhoneNumber(phone: string): (r: string)
    ensures AllDigits(r) && |r| <= 10
  {
    var cleaned := Digits(phone);
    if |cleaned| == 12 && cleaned[..2] == "91" then cleaned[2..] else Last10(cleaned)
  }

  /** The `91` branch agrees with the general one: the result is always the
      last ten digits (or all of them, when there are fewer). */
  lemma FormatPhoneNumberIsLastDigits(phone: string)
    ensures FormatPhoneNumber(phone) == Last10(Digits(phone))
  {
  }

  /** A ten-digit phone number is left as it is, and so formatting is idempotent. */
  lemma FormatPhoneNumberIdempotent(phone: string)
    ensures IsPhone10(phone) ==> FormatPhoneNumber(phone) == phone
    ensures FormatPhoneNumber(FormatPhoneNumber(phone)) == FormatPhoneNumber(phone)
  {
    var r := FormatPhoneNumber(phone);
    DigitsOfDigits(r);
    if IsPhone10(phone) {
      DigitsOfDigits(phone);
    }
  }
}
