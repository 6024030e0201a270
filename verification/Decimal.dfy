/** Chain amounts travel as decimal strings: parseUhidAmount, BigInt.toString and the `<amount>uhid` coin syntax. */
module Decimal {
  import opened Prelude

  predicate IsDigit(c: char) {
    '0' <= c <= '9'
  }

  function Digit(d: nat): (c: char)
    requires d < 10
    ensures IsDigit(c) && c as int - '0' as int == d
  {
    ('0' as int + d) as char
  }

  predicate AllDigits(s: string) {
    forall i :: 0 <= i < |s| ==> IsDigit(s[i])
  }

  // The pattern ^(0|[1-9]\d*)$ .
  predicate Canonical(s: string) {
    s != "" && AllDigits(s) && (s[0] == '0' ==> s == "0")
  }

  function Value(s: string): nat
    requires AllDigits(s)
  {
    if s == "" then 0 else 10 * Value(s[..|s| - 1]) + (s[|s| - 1] as int - '0' as int)
  }

  function ParseUhidAmount(s: string): Option<nat> {
    if Canonical(s) then Some(Value(s)) else None
  }

  function ToString(n: nat): (s: string)
    ensures Canonical(s)
    ensures s[0] == '0' ==> n == 0
  {
    if n < 10 then [Digit(n)] else ToString(n / 10) + [Digit(n % 10)]
  }

  lemma {:induction false} ParseInvertsToString(n: nat)
    ensures ParseUhidAmount(ToString(n)) == Some(n)
  {
    if n >= 10 {
      ParseInvertsToString(n / 10);
      var s := ToString(n);
      assert s[..|s| - 1] == ToString(n / 10);
    } else {
      var s := ToString(n);
      assert s == [Digit(n)] && s[..|s| - 1] == "" && Value(s[..|s| - 1]) == 0;
    }
  }

  lemma {:induction false} CanonicalHasValue(s: string)
    requires Canonical(s) && s != "0"
    ensures Value(s) > 0
    decreases |s|
  {
    var init := s[..|s| - 1];
    if init != "" {
      CanonicalHasValue(init);
    }
  }

  // Only strings that toString produces are accepted, so no amount has two spellings.
  lemma {:induction false} ToStringInvertsParse(s: string)
    requires ParseUhidAmount(s).Some?
    ensures ToString(ParseUhidAmount(s).value) == s
    decreases |s|
  {
    var init, last := s[..|s| - 1], s[|s| - 1];
    assert s == init + [last];
    if init == "" {
      assert Value(init) == 0;
    } else {
      assert Canonical(init) && init != "0";
      CanonicalHasValue(init);
      ToStringInvertsParse(init);
      assert Value(s) / 10 == Value(init) && Value(s) % 10 == last as int - '0' as int;
    }
  }

  // split('u')[0] and 'u' + split('u')[1].
  function UpToU(s: string): (r: string)
    ensures |r| <= |s|
  {
    if s == "" || s[0] == 'u' then "" else [s[0]] + UpToU(s[1..])
  }

  function ParseUhidCoin(s: string): Option<string> {
    var amount := UpToU(s);
    if |amount| == |s| then None
    else
      var denom := "u" + UpToU(s[|amount| + 1..]);
      if denom == "uhid" then Some(amount) else None
  }

  lemma {:induction false} UpToUOfDigits(digits: string, tail: string)
    requires AllDigits(digits) && tail != "" && tail[0] == 'u'
    ensures UpToU(digits + tail) == digits
  {
    if digits == "" {
      assert digits + tail == tail;
    } else {
      assert (digits + tail)[1..] == digits[1..] + tail;
      UpToUOfDigits(digits[1..], tail);
    }
  }

  lemma CoinRoundTrip(n: nat)
    ensures ParseUhidCoin(ToString(n) + "uhid") == Some(ToString(n))
  {
    var s := ToString(n) + "uhid";
    UpToUOfDigits(ToString(n), "uhid");
    assert s[|ToString(n)| + 1..] == "hid";
    assert UpToU("hid") == "hid" by {
      assert UpToU("d") == "d" && "id"[1..] == "d" && "hid"[1..] == "id";
    }
  }
}
