/** The mock payment form of `screens/PaymentScreen.tsx`: the `handlePayment`
    chain of checks, each regular expression written out as character tests,
    and the `maskCardNumber` preview. */
module Payment {
  import opened Text
  import opened Notices

  datatype PaymentError = MissingDetails | InvalidCardNumber | InvalidExpiry | InvalidCvv

  datatype Verdict = Accepted | Rejected(error: PaymentError)

  /** `s.replace(/\s+/g, "")`. */
  function StripWhitespace(s: string): (r: string)
    ensures |r| <= |s|
  {
    if s == [] then []
    else (if IsSpace(s[0]) then [] else [s[0]]) + StripWhitespace(s[1..])
  }

  /** `/^\d{16}$/.test(cardNumber.replace(/\s+/g, ""))`. */
  predicate IsCardNumber(cardNumber: string) {
    var t := StripWhitespace(cardNumber);
    |t| == 16 && AllDigits(t)
  }

  /** `/^(0[1-9]|1[0-2])\/\d{2}$/.test(expiry)`. */
  predicate IsExpiry(expiry: string) {
    |expiry| == 5
    && ((expiry[0] == '0' && '1' <= expiry[1] <= '9') || (expiry[0] == '1' && '0' <= expiry[1] <= '2'))
    && expiry[2] == '/' && IsDigit(expiry[3]) && IsDigit(expiry[4])
  }

  /** `/^\d{3}$/.test(cvv)`. */
  predicate IsCvv(cvv: string) {
    |cvv| == 3 && AllDigits(cvv)
  }

  /** `handlePayment`: the first failing check, in the order missing field,
      card number, expiry, CVV, decides the error; the cardholder name is only
      checked for being non-empty. */
  function HandlePayment(cardName: string, cardNumber: string, expiry: string, cvv: string): (v: Verdict)
    ensures v == Rejected(MissingDetails) <==> cardName == "" || cardNumber == "" || expiry == "" || cvv == ""
    ensures v == Rejected(InvalidCardNumber) <==>
              cardName != "" && cardNumber != "" && expiry != "" && cvv != "" && !IsCardNumber(cardNumber)
    ensures v == Rejected(InvalidExpiry) <==>
              cardName != "" && cardNumber != "" && expiry != "" && cvv != "" && IsCardNumber(cardNumber)
              && !IsExpiry(expiry)
    ensures v == Rejected(InvalidCvv) <==>
              cardName != "" && cvv != "" && IsCardNumber(cardNumber) && IsExpiry(expiry) && !IsCvv(cvv)
    ensures v == Accepted <==> cardName != "" && IsCardNumber(cardNumber) && IsExpiry(expiry) && IsCvv(cvv)
  {
    if cardName == "" || cardNumber == "" || expiry == "" || cvv == "" then Rejected(MissingDetails)
    else if !IsCardNumber(cardNumber) then Rejected(InvalidCardNumber)
    else if !IsExpiry(expiry) then Rejected(InvalidExpiry)
    else if !IsCvv(cvv) then Rejected(InvalidCvv)
    else Accepted
  }

  /** The alert `handlePayment` shows for each verdict. */
  function PaymentAlert(v: Verdict): Alert {
    match v
    case Rejected(MissingDetails) => Alert("Missing Details", Some("Please fill in all payment fields."), [])
    case Rejected(InvalidCardNumber) => Alert("Invalid Card Number", Some("Card number must be 16 digits."), [])
    case Rejected(InvalidExpiry) => Alert("Invalid Expiry Date", Some("Use MM/YY format."), [])
    case Rejected(InvalidCvv) => Alert("Invalid CVV", Some("CVV must be 3 digits."), [])
    case Accepted =>
      Alert("Payment Successful 💳", Some("Thank you! Your booking and payment have been confirmed."),
            [Button("Return to Home", Home)])
  }

  /** Only the accepted payment offers a way on, and it leads Home. */
  lemma OnlyAcceptedNavigates(v: Verdict)
    ensures PaymentAlert(v).buttons != [] <==> v == Accepted
    ensures v == Accepted ==> PaymentAlert(v).buttons == [Button("Return to Home", Home)]
  {
  }

  /** The two-digit numeral of a number below 100, with a leading zero. */
  function TwoDigits(n: nat): string
    requires n < 100
  {
    [DigitChar(n / 10), DigitChar(n % 10)]
  }

  function ExpiryMonth(expiry: string): nat
    requires IsExpiry(expiry)
  {
    10 * DigitValue(expiry[0]) + DigitValue(expiry[1])
  }

  function ExpiryYear(expiry: string): nat
    requires IsExpiry(expiry)
  {
    10 * DigitValue(expiry[3]) + DigitValue(expiry[4])
  }

  /** An accepted expiry is a month 1..12 and a year 0..99, each written
      with two digits, around a slash. */
  lemma ExpiryParses(expiry: string)
    requires IsExpiry(expiry)
    ensures 1 <= ExpiryMonth(expiry) <= 12 && ExpiryYear(expiry) < 100
    ensures expiry == TwoDigits(ExpiryMonth(expiry)) + "/" + TwoDigits(ExpiryYear(expiry))
  {
    var m, y := ExpiryMonth(expiry), ExpiryYear(expiry);
    assert m / 10 == DigitValue(expiry[0]) && m % 10 == DigitValue(expiry[1]);
    assert y / 10 == DigitValue(expiry[3]) && y % 10 == DigitValue(expiry[4]);
  }

  /** Conversely, every month 1..12 with every two-digit year is accepted, and
      no other month is: so "00/29" and "13/29" fail. */
  lemma ExpiryOfMonthYear(month: nat, year: nat)
    requires month < 100 && year < 100
    ensures IsExpiry(TwoDigits(month) + "/" + TwoDigits(year)) <==> 1 <= month <= 12
  {
    var e := TwoDigits(month) + "/" + TwoDigits(year);
    assert e[0] == DigitChar(month / 10) && e[1] == DigitChar(month % 10);
    assert DigitValue(e[0]) == month / 10 && DigitValue(e[1]) == month % 10;
  }

  /** Deleting whitespace works character by character, keeping the order. */
  lemma {:induction false} StripConcat(s: string, t: string)
    ensures StripWhitespace(s + t) == StripWhitespace(s) + StripWhitespace(t)
    decreases |s|
  {
    if s != [] {
      assert (s + t)[0] == s[0] && (s + t)[1..] == s[1..] + t;
      StripConcat(s[1..], t);
      var h := if IsSpace(s[0]) then [] else [s[0]];
      assert StripWhitespace(s + t) == h + StripWhitespace(s[1..] + t);
      assert StripWhitespace(s) == h + StripWhitespace(s[1..]);
    } else {
      assert s + t == t;
    }
  }

  lemma {:induction false} StripKeepsDigits(d: string)
    requires AllDigits(d)
    ensures StripWhitespace(d) == d
    decreases |d|
  {
    if d != [] {
      assert !IsSpace(d[0]);
      StripKeepsDigits(d[1..]);
    }
  }

  lemma StripAroundSeparator(a: string, sep: char, b: string)
    requires IsSpace(sep)
    ensures StripWhitespace(a + [sep] + b) == StripWhitespace(a) + StripWhitespace(b)
  {
    StripConcat(a + [sep], b);
    StripConcat(a, [sep]);
    assert StripWhitespace([sep]) == [];
  }

  /** Four blocks of four digits pass however they are separated by single
      whitespace characters; sixteen digits written together pass too. */
  lemma {:induction false} SpacedCardNumber(a: string, b: string, c: string, d: string, s1: char, s2: char, s3: char)
    requires AllDigits(a) && AllDigits(b) && AllDigits(c) && AllDigits(d)
    requires |a| == 4 && |b| == 4 && |c| == 4 && |d| == 4
    requires IsSpace(s1) && IsSpace(s2) && IsSpace(s3)
    ensures IsCardNumber(a + [s1] + b + [s2] + c + [s3] + d)
    ensures IsCardNumber(a + b + c + d)
  {
    StripAroundSeparator(a + [s1] + b + [s2] + c, s3, d);
    StripAroundSeparator(a + [s1] + b, s2, c);
    StripAroundSeparator(a, s1, b);
    StripKeepsDigits(a);
    StripKeepsDigits(b);
    StripKeepsDigits(c);
    StripKeepsDigits(d);
    assert AllDigits(a + b + c + d);
    StripKeepsDigits(a + b + c + d);
  }

  /** Deleting whitespace keeps every other character and nothing else. */
  lemma {:induction false} StripKeepsNonSpace(s: string, c: char)
    ensures c in StripWhitespace(s) <==> c in s && !IsSpace(c)
    decreases |s|
  {
    if s != [] {
      StripKeepsNonSpace(s[1..], c);
      assert s == [s[0]] + s[1..];
    }
  }

  /** On text made only of digits and whitespace, deleting the whitespace
      and keeping the digits agree. */
  lemma {:induction false} StripIsDigitsOnly(s: string)
    requires forall i :: 0 <= i < |s| ==> IsDigit(s[i]) || IsSpace(s[i])
    ensures StripWhitespace(s) == DigitsOnly(s)
    decreases |s|
  {
    if s != [] {
      StripIsDigitsOnly(s[1..]);
    }
  }

  /** Character-level reading of the card-number check: it passes exactly when
      every character is a digit or whitespace and there are sixteen digits. */
  lemma CardNumberByCharacters(s: string)
    ensures IsCardNumber(s) <==>
              (forall i :: 0 <= i < |s| ==> IsDigit(s[i]) || IsSpace(s[i])) && |DigitsOnly(s)| == 16
  {
    var t := StripWhitespace(s);
    if IsCardNumber(s) {
      forall i | 0 <= i < |s| ensures IsDigit(s[i]) || IsSpace(s[i]) {
        if !IsSpace(s[i]) {
          StripKeepsNonSpace(s, s[i]);
          assert s[i] in t;
        }
      }
      StripIsDigitsOnly(s);
    }
    if (forall i :: 0 <= i < |s| ==> IsDigit(s[i]) || IsSpace(s[i])) && |DigitsOnly(s)| == 16 {
      StripIsDigitsOnly(s);
    }
  }

  // The card preview

  /** `num.replace(/\D/g, "")`. */
  function DigitsOnly(s: string): (r: string)
    ensures AllDigits(r) && |r| <= |s|
  {
    if s == [] then []
    else (if IsDigit(s[0]) then [s[0]] else []) + DigitsOnly(s[1..])
  }

  /** Deleting non-digits keeps every digit and nothing else. */
  lemma {:induction false} DigitsOnlyKeepsDigitChars(s: string, c: char)
    ensures c in DigitsOnly(s) <==> c in s && IsDigit(c)
    decreases |s|
  {
    if s != [] {
      DigitsOnlyKeepsDigitChars(s[1..], c);
      assert s == [s[0]] + s[1..];
    }
  }

  /** Deleting non-digits works character by character: every digit of the
      input is kept, as often as it occurs and in its order. */
  lemma {:induction false} DigitsOnlyConcat(s: string, t: string)
    ensures DigitsOnly(s + t) == DigitsOnly(s) + DigitsOnly(t)
    decreases |s|
  {
    if s != [] {
      assert (s + t)[0] == s[0] && (s + t)[1..] == s[1..] + t;
      DigitsOnlyConcat(s[1..], t);
    } else {
      assert s + t == t;
    }
  }

  /** `s.padEnd(n, c)`: `c` appended up to length `n`; a longer `s` is kept whole. */
  function PadEnd(s: string, n: nat, c: char): string {
    if |s| >= n then s else s + seq(n - |s|, _ => c)
  }

  /** Does `/(\d{4})(?=\d)/` match at the start of `s`? */
  predicate GroupMatchesAt(s: string) {
    |s| >= 5 && IsDigit(s[0]) && IsDigit(s[1]) && IsDigit(s[2]) && IsDigit(s[3]) && IsDigit(s[4])
  }

  /** `s.replace(/(\d{4})(?=\d)/g, "$1 ")`: a left-to-right scan that, where
      the pattern matches, copies the four digits and a space and resumes after
      them, and elsewhere copies one character. */
  function GroupScan(s: string): string
    decreases |s|
  {
    if s == [] then []
    else if GroupMatchesAt(s) then s[..4] + " " + GroupScan(s[4..])
    else [s[0]] + GroupScan(s[1..])
  }

  function MaskCardNumber(num: string): string {
    GroupScan(PadEnd(DigitsOnly(num), 16, '*'))
  }

  /** Reference grouping of a digit string: a space after each block of four
      that another digit follows. */
  function Grouped(d: string): (g: string)
    decreases |d|
  {
    if |d| > 4 then d[..4] + " " + Grouped(d[4..]) else d
  }

  /** Grouping a whole number of blocks followed by more text: the two
      groupings joined by one space. */
  lemma {:induction false} GroupedAppend(x: string, y: string)
    requires |x| > 0 && |x| % 4 == 0 && y != []
    ensures Grouped(x + y) == Grouped(x) + " " + Grouped(y)
    decreases |x|
  {
    var xy := x + y;
    assert xy[..4] == x[..4] && xy[4..] == x[4..] + y;
    if |x| > 4 {
      GroupedAppend(x[4..], y);
      assert Grouped(x) == x[..4] + " " + Grouped(x[4..]);
    } else {
      assert x[4..] + y == y && Grouped(x) == x == x[..4];
    }
  }

  predicate NoDigit(s: string) {
    forall i :: 0 <= i < |s| ==> !IsDigit(s[i])
  }

  lemma {:induction false} ScanCopiesNonDigits(a: string)
    requires NoDigit(a)
    ensures GroupScan(a) == a
    decreases |a|
  {
    if a != [] {
      ScanCopiesNonDigits(a[1..]);
    }
  }

  lemma {:induction false} ScanShortRun(d: string, a: string)
    requires AllDigits(d) && |d| <= 4 && NoDigit(a)
    ensures GroupScan(d + a) == d + a
    decreases |d|
  {
    if d == [] {
      assert d + a == a;
      ScanCopiesNonDigits(a);
    } else {
      var s := d + a;
      assert !GroupMatchesAt(s) by {
        if |s| >= 5 {
          assert s[|d|] == a[0];
        }
      }
      assert s[1..] == d[1..] + a;
      ScanShortRun(d[1..], a);
    }
  }

  /** On digits followed by non-digits, the regular-expression scan is the
      reference grouping of the digits, the rest copied unchanged. */
  lemma {:induction false} ScanIsGrouping(d: string, a: string)
    requires AllDigits(d) && NoDigit(a)
    ensures GroupScan(d + a) == Grouped(d) + a
    decreases |d|
  {
    if |d| > 4 {
      var s := d + a;
      assert GroupMatchesAt(s);
      assert s[..4] == d[..4] && s[4..] == d[4..] + a;
      ScanIsGrouping(d[4..], a);
    } else {
      ScanShortRun(d, a);
    }
  }

  function Stars(n: nat): string {
    seq(n, _ => '*')
  }

  lemma StarsHaveNoDigit(n: nat)
    ensures NoDigit(Stars(n))
  {
  }

  /** Padding with `*` appends exactly the missing number of asterisks. */
  lemma PadEndStars(d: string, n: nat)
    ensures PadEnd(d, n, '*') == d + Stars(if |d| < n then n - |d| else 0)
  {
    if |d| >= n {
      assert Stars(0) == [];
    }
  }

  /** Scanning padded digits: the grouped digits, then the asterisks untouched. */
  lemma ScanPadded(d: string)
    requires AllDigits(d)
    ensures GroupScan(PadEnd(d, 16, '*')) == Grouped(d) + Stars(if |d| < 16 then 16 - |d| else 0)
  {
    var k := if |d| < 16 then 16 - |d| else 0;
    var padded := PadEnd(d, 16, '*');
    PadEndStars(d, 16);
    StarsHaveNoDigit(k);
    ScanIsGrouping(d, Stars(k));
    assert padded == d + Stars(k);
  }

  /** The preview is the card's digits grouped in fours, then as many `*` as
      bring the digits to 16; the asterisks are never split by spaces. */
  lemma MaskShape(num: string)
    ensures var d := DigitsOnly(num);
            MaskCardNumber(num) == Grouped(d) + Stars(if |d| < 16 then 16 - |d| else 0)
  {
    var d := DigitsOnly(num);
    ScanPadded(d);
    assert MaskCardNumber(num) == GroupScan(PadEnd(d, 16, '*'));
  }

  /** The text with its spaces deleted. */
  function WithoutSpaces(s: string): string {
    if s == [] then [] else (if s[0] == ' ' then [] else [s[0]]) + WithoutSpaces(s[1..])
  }

  lemma {:induction false} WithoutSpacesConcat(s: string, t: string)
    ensures WithoutSpaces(s + t) == WithoutSpaces(s) + WithoutSpaces(t)
    decreases |s|
  {
    if s != [] {
      assert (s + t)[0] == s[0] && (s + t)[1..] == s[1..] + t;
      WithoutSpacesConcat(s[1..], t);
      var h := if s[0] == ' ' then [] else [s[0]];
      assert WithoutSpaces(s + t) == h + WithoutSpaces(s[1..] + t);
      assert WithoutSpaces(s) == h + WithoutSpaces(s[1..]);
    } else {
      assert s + t == t;
    }
  }

  lemma {:induction false} WithoutSpacesKeepsDigits(d: string)
    requires AllDigits(d)
    ensures WithoutSpaces(d) == d
    decreases |d|
  {
    if d != [] {
      WithoutSpacesKeepsDigits(d[1..]);
    }
  }

  lemma {:induction false} UngroupedDigits(d: string)
    requires AllDigits(d)
    ensures WithoutSpaces(Grouped(d)) == d
    decreases |d|
  {
    if |d| > 4 {
      WithoutSpacesConcat(d[..4] + " ", Grouped(d[4..]));
      WithoutSpacesConcat(d[..4], " ");
      WithoutSpacesKeepsDigits(d[..4]);
      UngroupedDigits(d[4..]);
      assert d[..4] + d[4..] == d;
    } else {
      WithoutSpacesKeepsDigits(d);
    }
  }

  lemma {:induction false} WithoutSpacesStars(n: nat)
    ensures WithoutSpaces(Stars(n)) == Stars(n)
    decreases n
  {
    if n > 0 {
      assert Stars(n)[1..] == Stars(n - 1);
      WithoutSpacesStars(n - 1);
    }
  }

  /** Deleting the inserted spaces gives back the card's digits padded with `*`
      to 16 characters: no digit is lost, and more than 16 are kept. */
  lemma MaskWithoutSpaces(num: string)
    ensures WithoutSpaces(MaskCardNumber(num)) == PadEnd(DigitsOnly(num), 16, '*')
  {
    var d := DigitsOnly(num);
    var k := if |d| < 16 then 16 - |d| else 0;
    MaskShape(num);
    WithoutSpacesConcat(Grouped(d), Stars(k));
    UngroupedDigits(d);
    WithoutSpacesStars(k);
    assert PadEnd(d, 16, '*') == d + Stars(k);
  }

  /** Every space of a grouped run of digits stands between a block of four
      digits and a further digit. */
  lemma {:induction false} GroupedSpaces(d: string, i: nat)
    requires AllDigits(d) && i < |Grouped(d)|
    ensures var g := Grouped(d);
            g[i] == ' ' ==> 4 <= i && i + 1 < |g| && AllDigits(g[i - 4..i]) && IsDigit(g[i + 1])
    decreases |d|
  {
    var g := Grouped(d);
    if |d| > 4 {
      var g' := Grouped(d[4..]);
      assert g == d[..4] + " " + g';
      GroupedStartsWithDigit(d[4..]);
      if i < 4 {
        assert g[i] == d[i];
        assert IsDigit(d[i]);
      } else if i == 4 {
        assert g[..4] == d[..4];
        assert g[5] == g'[0];
      } else {
        GroupedSpaces(d[4..], i - 5);
        assert g[i] == g'[i - 5];
        if g'[i - 5] == ' ' {
          assert g[i - 4..i] == g'[i - 9..i - 5];
          assert g[i + 1] == g'[i - 4];
        }
      }
    } else {
      assert g == d && IsDigit(d[i]);
    }
  }

  lemma GroupedStartsWithDigit(e: string)
    requires AllDigits(e) && e != []
    ensures Grouped(e) != [] && Grouped(e)[0] == e[0]
  {
    if |e| > 4 {
      assert Grouped(e) == e[..4] + " " + Grouped(e[4..]);
    }
  }

  lemma {:induction false} DigitsOnlyKeepsDigits(d: string)
    requires AllDigits(d)
    ensures DigitsOnly(d) == d
    decreases |d|
  {
    if d != [] {
      DigitsOnlyKeepsDigits(d[1..]);
    }
  }


  /** In grouped digits followed by asterisks, every space follows four
      digits and comes before a further digit. */
  lemma GroupedThenStarsSpaces(d: string, k: nat, i: nat)
    requires AllDigits(d) && i < |Grouped(d) + Stars(k)|
    ensures var m := Grouped(d) + Stars(k);
            m[i] == ' ' ==> 4 <= i && i + 1 < |m| && AllDigits(m[i - 4..i]) && IsDigit(m[i + 1])
  {
    var g := Grouped(d);
    var m := g + Stars(k);
    if i < |g| {
      GroupedSpaces(d, i);
      if g[i] == ' ' {
        assert m[i - 4..i] == g[i - 4..i];
        assert m[i + 1] == g[i + 1];
      }
    } else {
      assert m[i] == Stars(k)[i - |g|];
    }
  }

  /** Every space of the preview follows four digits and comes before a
      further digit; in particular none falls among the asterisks. */
  lemma MaskSpaces(num: string, i: nat)
    requires i < |MaskCardNumber(num)|
    ensures var m := MaskCardNumber(num);
            m[i] == ' ' ==> 4 <= i && i + 1 < |m| && AllDigits(m[i - 4..i]) && IsDigit(m[i + 1])
  {
    var d := DigitsOnly(num);
    var k := if |d| < 16 then 16 - |d| else 0;
    MaskShape(num);
    assert MaskCardNumber(num) == Grouped(d) + Stars(k);
    GroupedThenStarsSpaces(d, k, i);
  }
}
