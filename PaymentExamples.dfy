/** The payment screen's behaviour on concrete inputs. */
module PaymentExamples {
  import opened Text
  import opened Payment

  /** A valid payment, with the card number written together or in spaced blocks. */
  lemma AcceptedExamples(a: string, b: string, c: string, d: string)
    requires AllDigits(a) && AllDigits(b) && AllDigits(c) && AllDigits(d)
    requires |a| == 4 && |b| == 4 && |c| == 4 && |d| == 4
    ensures HandlePayment("Jane", a + b + c + d, "12/29", "123") == Accepted
    ensures HandlePayment("Jane", a + " " + b + " " + c + " " + d, "12/29", "123") == Accepted
  {
    SpacedCardNumber(a, b, c, d, ' ', ' ', ' ');
    assert a + " " + b + " " + c + " " + d == a + [' '] + b + [' '] + c + [' '] + d;
    assert IsExpiry("12/29") && IsCvv("123");
  }

  /** With a good card number, each bad expiry or CVV picks its own error. */
  lemma RejectedExamples(card: string)
    requires AllDigits(card) && |card| == 16
    ensures HandlePayment("Jane", card, "13/29", "123") == Rejected(InvalidExpiry)
    ensures HandlePayment("Jane", card, "00/29", "123") == Rejected(InvalidExpiry)
    ensures HandlePayment("Jane", card, "1/29", "123") == Rejected(InvalidExpiry)
    ensures HandlePayment("Jane", card, "12/29", "12") == Rejected(InvalidCvv)
  {
    StripKeepsDigits(card);
    assert IsExpiry("12/29") && !IsExpiry("13/29") && !IsExpiry("00/29") && !IsExpiry("1/29");
    assert IsCvv("123") && !IsCvv("12");
  }

  /** A short card number is rejected as such, and an empty field before any format check. */
  lemma ShortAndMissingExamples()
    ensures HandlePayment("Jane", "411", "12/29", "123") == Rejected(InvalidCardNumber)
    ensures HandlePayment("", "411", "13/29", "12") == Rejected(MissingDetails)
  {
    StripKeepsDigits("411");
  }

  lemma GroupedStep(x: string, y: string, gy: string)
    requires |x| == 4 && y != [] && Grouped(y) == gy
    ensures Grouped(x + y) == x + " " + gy
  {
    assert (x + y)[..4] == x && (x + y)[4..] == y;
  }

  /** The grouping of sixteen digits: four blocks of four. */
  lemma GroupedSixteen(a: string, b: string, c: string, d: string)
    requires |a| == 4 && |b| == 4 && |c| == 4 && |d| == 4
    ensures Grouped(a + b + c + d) == a + " " + b + " " + c + " " + d
  {
    var ab := a + b;
    var abc := ab + c;
    assert Grouped(ab) == a + " " + b by {
      assert Grouped(a) == a && Grouped(b) == b;
      GroupedAppend(a, b);
    }
    assert Grouped(abc) == a + " " + b + " " + c by {
      assert Grouped(c) == c;
      GroupedAppend(ab, c);
    }
    assert Grouped(d) == d;
    GroupedAppend(abc, d);
  }

  /** The preview of a full card number: four blocks. */
  lemma MaskFullExample(a: string, b: string, c: string, d: string)
    requires AllDigits(a) && AllDigits(b) && AllDigits(c) && AllDigits(d)
    requires |a| == 4 && |b| == 4 && |c| == 4 && |d| == 4
    ensures MaskCardNumber(a + b + c + d) == a + " " + b + " " + c + " " + d
  {
    assert AllDigits(a + b + c + d);
    DigitsOnlyKeepsDigits(a + b + c + d);
    MaskShape(a + b + c + d);
    GroupedSixteen(a, b, c, d);
    assert Stars(0) == [];
  }

  /** Five digits preview as a block of four, a space, the fifth digit and
      eleven asterisks. */
  lemma MaskFive(x: string, y: char)
    requires AllDigits(x) && |x| == 4 && IsDigit(y)
    ensures MaskCardNumber(x + [y]) == x + " " + [y] + Stars(11)
  {
    assert AllDigits(x + [y]);
    DigitsOnlyKeepsDigits(x + [y]);
    MaskShape(x + [y]);
    GroupedStep(x, [y], [y]);
  }

  /** The preview of "41111": a space after the first four, none among the asterisks. */
  lemma MaskFiveExample(num: string)
    requires num == "41111"
    ensures MaskCardNumber(num) == "4111 1***********"
  {
    MaskFive("4111", '1');
    assert num == "4111" + ['1'];
    assert Stars(11) == "***********";
  }

  /** At most four digits preview with no space at all. */
  lemma MaskShort(x: string)
    requires AllDigits(x) && |x| <= 4
    ensures MaskCardNumber(x) == x + Stars(16 - |x|)
  {
    DigitsOnlyKeepsDigits(x);
    MaskShape(x);
  }

  /** The preview of "41" has no space at all. */
  lemma MaskTwoExample(num: string)
    requires num == "41"
    ensures MaskCardNumber(num) == "41**************"
  {
    MaskShort(num);
    assert Stars(14) == "**************";
  }

  /** The preview of an empty card number is sixteen asterisks. */
  lemma MaskEmptyExample()
    ensures MaskCardNumber("") == "****************"
  {
    MaskShort("");
    assert Stars(16) == "****************";
  }
}
