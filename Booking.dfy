/** The booking workflow of `screens/BookingScreen.tsx`: the selected-dishes
    filter, the picker option lists, the booking-date and confirmation
    templates, and the two-stage form (date and time, then contact details). */
module Booking {
  import opened Text
  import opened Notices
  import opened Menu

  /** `dishes.filter((dish) => selectedIds.includes(dish.id))`. */
  function SelectedDishes(dishes: seq<Dish>, selectedIds: seq<string>): (r: seq<Dish>)
    ensures |r| <= |dishes|
  {
    if dishes == [] then []
    else (if dishes[0].id in selectedIds then [dishes[0]] else []) + SelectedDishes(dishes[1..], selectedIds)
  }

  /** A dish is selected exactly when it is in the store and its id was chosen:
      ids naming no dish are ignored. */
  lemma {:induction false} SelectionMembers(dishes: seq<Dish>, selectedIds: seq<string>, d: Dish)
    ensures d in SelectedDishes(dishes, selectedIds) <==> d in dishes && d.id in selectedIds
  {
    if dishes != [] {
      SelectionMembers(dishes[1..], selectedIds, d);
      assert dishes == [dishes[0]] + dishes[1..];
    }
  }

  /** `r` is `s` with some elements left out, the rest in their order in `s`. */
  predicate IsSubsequence<T(==)>(r: seq<T>, s: seq<T>)
    decreases |s|
  {
    r == [] || (s != [] && ((r[0] == s[0] && IsSubsequence(r[1..], s[1..])) || IsSubsequence(r, s[1..])))
  }

  /** The selection keeps the store's order, not the order of `selectedIds`. */
  lemma {:induction false} SelectionKeepsStoreOrder(dishes: seq<Dish>, selectedIds: seq<string>)
    ensures IsSubsequence(SelectedDishes(dishes, selectedIds), dishes)
  {
    if dishes != [] {
      SelectionKeepsStoreOrder(dishes[1..], selectedIds);
      var rest := SelectedDishes(dishes[1..], selectedIds);
      if dishes[0].id in selectedIds {
        assert SelectedDishes(dishes, selectedIds) == [dishes[0]] + rest;
        assert ([dishes[0]] + rest)[1..] == rest;
      } else {
        assert SelectedDishes(dishes, selectedIds) == rest;
      }
    }
  }

  /** Each dish record occurs in the selection as often as in the store when
      its id is selected, and not at all otherwise: with the subsequence
      property this fixes the selection even for stores holding equal records. */
  lemma {:induction false} SelectionMultiplicity(dishes: seq<Dish>, selectedIds: seq<string>, d: Dish)
    ensures multiset(SelectedDishes(dishes, selectedIds))[d]
            == if d.id in selectedIds then multiset(dishes)[d] else 0
  {
    if dishes != [] {
      SelectionMultiplicity(dishes[1..], selectedIds, d);
      assert dishes == [dishes[0]] + dishes[1..];
    }
  }

  /** The filter works dish by dish: selecting from two lists joined is
      joining their selections. */
  lemma {:induction false} SelectionOfConcat(a: seq<Dish>, b: seq<Dish>, selectedIds: seq<string>)
    ensures SelectedDishes(a + b, selectedIds) == SelectedDishes(a, selectedIds) + SelectedDishes(b, selectedIds)
    decreases |a|
  {
    if a != [] {
      assert (a + b)[0] == a[0] && (a + b)[1..] == a[1..] + b;
      SelectionOfConcat(a[1..], b, selectedIds);
    } else {
      assert a + b == b;
    }
  }

  /** Only the ids that name a dish in the store matter: unknown ids and
      repeated ids change nothing, and their order is irrelevant. */
  lemma {:induction false} SelectionDependsOnKnownIds(dishes: seq<Dish>, a: seq<string>, b: seq<string>)
    requires forall k :: 0 <= k < |dishes| ==> (dishes[k].id in a <==> dishes[k].id in b)
    ensures SelectedDishes(dishes, a) == SelectedDishes(dishes, b)
  {
    if dishes != [] {
      assert dishes[0].id in a <==> dishes[0].id in b;
      forall k | 0 <= k < |dishes[1..]| ensures dishes[1..][k].id in a <==> dishes[1..][k].id in b {
        assert dishes[1..][k] == dishes[k + 1];
      }
      SelectionDependsOnKnownIds(dishes[1..], a, b);
    }
  }

  /** No ids selected, no dishes. */
  lemma EmptySelection(dishes: seq<Dish>)
    ensures SelectedDishes(dishes, []) == []
  {
  }

  /** Selecting the third and first seed dishes, in that order, lists them in
      store order; an unknown id is ignored. */
  lemma SeedSelectionExample(ds: seq<Dish>, ids: seq<string>)
    requires ds == SeedDishes() && ids == ["3", "1", "42"]
    ensures SelectedDishes(ds, ids) == [ds[0], ds[2]]
  {
    assert ds[0].id == ids[1] && ds[2].id == ids[0];
    assert ds[1].id !in ids;
    assert SelectedDishes(ds[3..], ids) == [];
    assert SelectedDishes(ds[2..], ids) == [ds[2]];
    assert SelectedDishes(ds[1..], ids) == [ds[2]];
  }

  // Picker options

  /** `Array.from({ length: count }, (_, i) => (first + i).toString())`. */
  function Options(first: nat, count: nat): seq<string> {
    seq(count, i requires 0 <= i < count => DecimalString(first + i))
  }

  function Days(): seq<string> { Options(1, 31) }
  function Months(): seq<string> { Options(1, 12) }
  function Years(): seq<string> { Options(2025, 5) }

  /** Each option is the numeral, without leading zeros, of its value. */
  lemma OptionIsNumeral(first: nat, count: nat, k: nat)
    requires first > 0 && k < count
    ensures Options(first, count)[k] == DecimalString(first + k)
    ensures DecimalValue(Options(first, count)[k]) == first + k && Options(first, count)[k][0] != '0'
  {
    DecimalRoundTrip(first + k);
  }

  lemma YearOptions()
    ensures Years() == ["2025", "2026", "2027", "2028", "2029"]
  {
    assert DecimalString(20) == "20";
    assert DecimalString(202) == "202";
    var ys := Years();
    forall k | 0 <= k < 5 ensures ys[k] == "202" + [DigitChar(5 + k)] {
      assert (2025 + k) / 10 == 202 && (2025 + k) % 10 == 5 + k;
    }
    assert ys[0] == "2025" && ys[1] == "2026" && ys[2] == "2027" && ys[3] == "2028" && ys[4] == "2029";
  }

  /** The pickers offer 1..31, 1..12 and 2025..2029 as numerals with no leading
      zeros, each option a non-empty digit string. */
  lemma PickerOptions()
    ensures |Days()| == 31 && |Months()| == 12 && Years() == ["2025", "2026", "2027", "2028", "2029"]
    ensures forall k :: 0 <= k < 31 ==> DecimalValue(Days()[k]) == k + 1 && Days()[k][0] != '0'
    ensures forall k :: 0 <= k < 12 ==> DecimalValue(Months()[k]) == k + 1 && Months()[k][0] != '0'
    ensures "01" !in Days() && "01" !in Months()
  {
    forall k | 0 <= k < 31 ensures DecimalValue(Days()[k]) == k + 1 && Days()[k][0] != '0' {
      OptionIsNumeral(1, 31, k);
    }
    forall k | 0 <= k < 12 ensures DecimalValue(Months()[k]) == k + 1 && Months()[k][0] != '0' {
      OptionIsNumeral(1, 12, k);
    }
    YearOptions();
  }

  // Templates

  /** `${day}/${month}/${year} at ${time}`. */
  function BookingDate(day: string, month: string, year: string, time: string): string {
    day + "/" + month + "/" + year + " at " + time
  }

  /** The body of the "Booking Confirmed!" alert. */
  function ConfirmationMessage(name: string, people: string, meals: nat, bookingDate: string,
                               phone: string, email: string): string
  {
    "Thank you " + name + "! Your booking for " + people + " person(s) and " + DecimalString(meals)
    + " meal(s) is confirmed on " + bookingDate + ". We will contact you at " + phone + " or " + email + "."
  }

  /** `t` occurs in `s` starting at index `at`. */
  predicate OccursAt(t: string, s: string, at: nat) {
    at + |t| <= |s| && forall i :: 0 <= i < |t| ==> s[at + i] == t[i]
  }

  /** `p` is a prefix of `s`. */
  predicate PrefixOf(p: string, s: string) {
    |p| <= |s| && forall i :: 0 <= i < |p| ==> s[i] == p[i]
  }

  lemma OccursAtEnd(p: string, t: string)
    ensures OccursAt(t, p + t, |p|)
  {
  }

  lemma OccursInLonger(t: string, p: string, s: string, at: nat)
    requires OccursAt(t, p, at) && PrefixOf(p, s)
    ensures OccursAt(t, s, at)
  {
  }

  lemma PrefixOfExtended(p: string, x: string, s: string)
    requires PrefixOf(p + x, s)
    ensures PrefixOf(p, s)
  {
  }

  /** The confirmation embeds each of its inputs verbatim, in this order:
      name, party size, meal count, booking date, phone, email. */
  lemma MessageEmbedsFields(name: string, people: string, meals: nat, bookingDate: string,
                                 phone: string, email: string)
    ensures var msg := ConfirmationMessage(name, people, meals, bookingDate, phone, email);
            var m := DecimalString(meals);
            var pName := |"Thank you "|;
            var pPeople := pName + |name| + |"! Your booking for "|;
            var pMeals := pPeople + |people| + |" person(s) and "|;
            var pDate := pMeals + |m| + |" meal(s) is confirmed on "|;
            var pPhone := pDate + |bookingDate| + |". We will contact you at "|;
            var pEmail := pPhone + |phone| + |" or "|;
            OccursAt(name, msg, pName) && OccursAt(people, msg, pPeople) && OccursAt(m, msg, pMeals)
            && OccursAt(bookingDate, msg, pDate) && OccursAt(phone, msg, pPhone) && OccursAt(email, msg, pEmail)
            && |msg| == pEmail + |email| + 1
  {
    var msg := ConfirmationMessage(name, people, meals, bookingDate, phone, email);
    var m := DecimalString(meals);
    var s1, s2, s3 := "Thank you ", "! Your booking for ", " person(s) and ";
    var s4, s5, s6 := " meal(s) is confirmed on ", ". We will contact you at ", " or ";
    // the message's growing prefixes, each ending with one field
    var qName := s1 + name;
    var qPeople := qName + s2 + people;
    var qMeals := qPeople + s3 + m;
    var qDate := qMeals + s4 + bookingDate;
    var qPhone := qDate + s5 + phone;
    var qEmail := qPhone + s6 + email;
    assert msg == qEmail + ".";
    assert PrefixOf(qEmail, msg);
    PrefixOfExtended(qPhone + s6, email, msg);
    PrefixOfExtended(qPhone, s6, msg);
    PrefixOfExtended(qDate + s5, phone, msg);
    PrefixOfExtended(qDate, s5, msg);
    PrefixOfExtended(qMeals + s4, bookingDate, msg);
    PrefixOfExtended(qMeals, s4, msg);
    PrefixOfExtended(qPeople + s3, m, msg);
    PrefixOfExtended(qPeople, s3, msg);
    PrefixOfExtended(qName + s2, people, msg);
    PrefixOfExtended(qName, s2, msg);
    OccursAtEnd(s1, name);
    OccursInLonger(name, qName, msg, |s1|);
    OccursAtEnd(qName + s2, people);
    OccursInLonger(people, qPeople, msg, |qName + s2|);
    OccursAtEnd(qPeople + s3, m);
    OccursInLonger(m, qMeals, msg, |qPeople + s3|);
    OccursAtEnd(qMeals + s4, bookingDate);
    OccursInLonger(bookingDate, qDate, msg, |qMeals + s4|);
    OccursAtEnd(qDate + s5, phone);
    OccursInLonger(phone, qPhone, msg, |qDate + s5|);
    OccursAtEnd(qPhone + s6, email);
    OccursInLonger(email, qEmail, msg, |qPhone + s6|);
  }

  /** In `a + [sep] + b` with no `sep` in `a`, the first `sep` is at index `|a|`. */
  lemma FirstSeparator(a: string, b: string, sep: char)
    requires sep !in a
    ensures (a + [sep] + b)[|a|] == sep
    ensures forall i :: 0 <= i < |a| ==> (a + [sep] + b)[i] != sep
  {
    forall i | 0 <= i < |a| ensures (a + [sep] + b)[i] != sep {
      assert (a + [sep] + b)[i] == a[i];
    }
  }

  /** Splitting at the first occurrence of a separator the left parts lack. */
  lemma SplitAtSeparator(a: string, b: string, a': string, b': string, sep: char)
    requires sep !in a && sep !in a'
    requires a + [sep] + b == a' + [sep] + b'
    ensures a == a' && b == b'
  {
    var s := a + [sep] + b;
    FirstSeparator(a, b, sep);
    FirstSeparator(a', b', sep);
    assert |a| == |a'|;
    assert a == s[..|a|] == a';
    assert b == s[|a| + 1..] == b';
  }

  lemma NoSeparatorInDigits(s: string)
    requires AllDigits(s)
    ensures '/' !in s && ' ' !in s
  {
  }

  /** A booking date built from picker values (digit strings) determines its
      day, month, year and time: distinct choices never print alike. */
  lemma {:induction false} BookingDateInjective(day: string, month: string, year: string, time: string,
                                                day': string, month': string, year': string, time': string)
    requires AllDigits(day) && AllDigits(month) && AllDigits(year)
    requires AllDigits(day') && AllDigits(month') && AllDigits(year')
    requires BookingDate(day, month, year, time) == BookingDate(day', month', year', time')
    ensures day == day' && month == month' && year == year' && time == time'
  {
    NoSeparatorInDigits(day);
    NoSeparatorInDigits(day');
    NoSeparatorInDigits(month);
    NoSeparatorInDigits(month');
    NoSeparatorInDigits(year);
    NoSeparatorInDigits(year');
    var rest := month + "/" + year + " at " + time;
    var rest' := month' + "/" + year' + " at " + time';
    assert BookingDate(day, month, year, time) == day + ['/'] + rest;
    assert BookingDate(day', month', year', time') == day' + ['/'] + rest';
    SplitAtSeparator(day, rest, day', rest', '/');
    var tail := year + " at " + time;
    var tail' := year' + " at " + time';
    assert rest == month + ['/'] + tail && rest' == month' + ['/'] + tail';
    SplitAtSeparator(month, tail, month', tail', '/');
    assert tail == year + [' '] + ("at " + time) && tail' == year' + [' '] + ("at " + time');
    SplitAtSeparator(year, "at " + time, year', "at " + time', ' ');
    assert time == ("at " + time)[3..] && time' == ("at " + time')[3..];
  }

  /** The example booking: two meals for "4" people, booked by "Jane" on
      05/06/2025 at 18:30; whatever the phone and email, the message carries
      "4", "2" and "05/06/2025 at 18:30" verbatim. */
  lemma ExampleConfirmation(name: string, people: string, day: string, month: string, year: string,
                            time: string, phone: string, email: string)
    requires name == "Jane" && people == "4"
    requires day == "05" && month == "06" && year == "2025" && time == "18:30"
    ensures var msg := ConfirmationMessage(name, people, 2, BookingDate(day, month, year, time), phone, email);
            OccursAt("4", msg, 33) && OccursAt("2", msg, 49) && OccursAt("05/06/2025 at 18:30", msg, 75)
  {
    var date := BookingDate(day, month, year, time);
    assert date == "05/06/2025 at 18:30";
    assert DecimalString(2) == "2";
    MessageEmbedsFields(name, people, 2, date, phone, email);
  }

  /** The date-and-time guard of `handleProceedToContact`. */
  predicate DateTimeFilled(day: string, month: string, year: string, time: string) {
    day != "" && month != "" && year != "" && time != ""
  }

  /** The contact guard of `handleConfirmBooking`. */
  predicate ContactFilled(name: string, phone: string, email: string, people: string) {
    name != "" && phone != "" && email != "" && people != ""
  }

  /** There is no calendar check: 31 February passes the date-and-time guard. */
  lemma NoCalendarCheck()
    ensures "31" in Days() && "2" in Months() && "2025" in Years()
    ensures DateTimeFilled("31", "2", "2025", "18:30")
  {
    assert Days()[30] == "31";
    assert Months()[1] == "2";
    PickerOptions();
  }

  const DateTimeNotice: Alert := TitleOnly("Please select day, month, year, and time.")
  const ContactNotice: Alert := TitleOnly("Please fill in all contact fields.")

  /** The alert `handleConfirmBooking` shows once the contact fields are filled. */
  function ConfirmedAlert(message: string): Alert {
    Alert("Booking Confirmed!", Some(message), [Button("Proceed to Payment", Payment)])
  }

  /** A picker value, the empty placeholder or one of the options, is a digit string. */
  lemma PickedIsDigits(v: string, options: seq<string>)
    requires options == Days() || options == Months() || options == Years()
    requires v == "" || v in options
    ensures AllDigits(v)
  {
    if v != "" {
      var k :| 0 <= k < |options| && options[k] == v;
      if options == Days() {
        OptionIsNumeral(1, 31, k);
      } else if options == Months() {
        OptionIsNumeral(1, 12, k);
      } else {
        OptionIsNumeral(2025, 5, k);
      }
    }
  }

  /** The booking screen's state: the store and route parameters it reads,
      its eight form cells, and which sub-form is shown. The date pickers,
      the time field and the Proceed button are on screen only before the
      contact stage; the contact fields and the Confirm button only during it. */
  class BookingScreen {
    const menu: MenuStore
    const selectedIds: seq<string>
    var day: string
    var month: string
    var year: string
    var time: string
    var name: string
    var phone: string
    var email: string
    var people: string
    var showContactForm: bool

    /** The date pickers only ever hold the placeholder or an option, so
        digit strings; the contact stage is reached only through a successful
        Proceed, and the date fields cannot be edited afterwards. */
    ghost predicate Valid()
      reads this
    {
      && AllDigits(day) && AllDigits(month) && AllDigits(year)
      && (showContactForm ==> DateTimeFilled(day, month, year, time))
    }

    constructor(menu: MenuStore, selectedIds: seq<string>)
      ensures this.menu == menu && this.selectedIds == selectedIds
      ensures day == "" && month == "" && year == "" && time == ""
      ensures name == "" && phone == "" && email == "" && people == ""
      ensures !showContactForm && Valid()
    {
      this.menu := menu;
      this.selectedIds := selectedIds;
      day, month, year, time := "", "", "", "";
      name, phone, email, people := "", "", "", "";
      showContactForm := false;
    }

    /** The meals listed on the screen, recomputed from the store on each render. */
    function SelectedMeals(): (r: seq<Dish>)
      reads this, menu
      ensures forall d :: d in r <==> d in menu.dishes && d.id in selectedIds
    {
      var r := SelectedDishes(menu.dishes, selectedIds);
      assert forall d :: d in r <==> d in menu.dishes && d.id in selectedIds by {
        forall d ensures d in r <==> d in menu.dishes && d.id in selectedIds {
          SelectionMembers(menu.dishes, selectedIds, d);
        }
      }
      r
    }

    // The date-and-time stage: the pickers and the time field.
    method SetDay(v: string)
      requires !showContactForm && Valid()
      requires v == "" || v in Days()
      modifies this`day
      ensures day == v && Valid()
    {
      PickedIsDigits(v, Days());
      day := v;
    }

    method SetMonth(v: string)
      requires !showContactForm && Valid()
      requires v == "" || v in Months()
      modifies this`month
      ensures month == v && Valid()
    {
      PickedIsDigits(v, Months());
      month := v;
    }

    method SetYear(v: string)
      requires !showContactForm && Valid()
      requires v == "" || v in Years()
      modifies this`year
      ensures year == v && Valid()
    {
      PickedIsDigits(v, Years());
      year := v;
    }

    method SetTime(v: string)
      requires !showContactForm && Valid()
      modifies this`time
      ensures time == v && Valid()
    {
      time := v;
    }

    // The contact stage: the four text fields.
    method SetName(v: string)
      requires showContactForm && Valid()
      modifies this`name
      ensures name == v && Valid()
    {
      name := v;
    }

    method SetPhone(v: string)
      requires showContactForm && Valid()
      modifies this`phone
      ensures phone == v && Valid()
    {
      phone := v;
    }

    method SetEmail(v: string)
      requires showContactForm && Valid()
      modifies this`email
      ensures email == v && Valid()
    {
      email := v;
    }

    method SetPeople(v: string)
      requires showContactForm && Valid()
      modifies this`people
      ensures people == v && Valid()
    {
      people := v;
    }

    /** `handleProceedToContact`, pressed on the date-and-time stage: with day,
        month, year and time all given the contact form is shown; otherwise
        the notice, and the stage stays. */
    method ProceedToContact() returns (notice: Option<Alert>)
      requires !showContactForm && Valid()
      modifies this`showContactForm
      ensures showContactForm <==> DateTimeFilled(day, month, year, time)
      ensures notice == if showContactForm then None else Some(DateTimeNotice)
      ensures Valid()
    {
      if !DateTimeFilled(day, month, year, time) {
        notice := Some(DateTimeNotice);
        return;
      }
      showContactForm := true;
      notice := None;
    }

    /** `handleConfirmBooking`, pressed on the contact stage: a confirmation,
        offering the way to Payment, exactly when all contact fields are
        given; its message embeds the contact name, party size, meal count,
        booking date, phone and email, and the date's four parts are never
        empty. Nothing is stored. */
    method ConfirmBooking() returns (shown: Alert)
      requires showContactForm && Valid()
      ensures DateTimeFilled(day, month, year, time)
      ensures AllDigits(day) && AllDigits(month) && AllDigits(year)
      ensures shown.title == "Booking Confirmed!" <==> ContactFilled(name, phone, email, people)
      ensures !ContactFilled(name, phone, email, people) ==> shown == ContactNotice
      ensures ContactFilled(name, phone, email, people) ==>
                shown == ConfirmedAlert(ConfirmationMessage(name, people, |SelectedMeals()|,
                                                            BookingDate(day, month, year, time), phone, email))
    {
      if !ContactFilled(name, phone, email, people) {
        shown := ContactNotice;
        return;
      }
      var bookingDate := BookingDate(day, month, year, time);
      var meals := SelectedDishes(menu.dishes, selectedIds);
      shown := ConfirmedAlert(ConfirmationMessage(name, people, |meals|, bookingDate, phone, email));
    }
  }

  /** A whole booking as the screen allows it: pick the date and time,
      proceed, fill in the contact fields, confirm. The confirmation carries
      the booking date built from the picked values. */
  method BookThrough(menu: MenuStore, selectedIds: seq<string>, day: string, month: string, year: string,
                     time: string, name: string, phone: string, email: string, people: string)
    returns (proceeded: Option<Alert>, shown: Option<Alert>)
    requires day == "" || day in Days()
    requires month == "" || month in Months()
    requires year == "" || year in Years()
    ensures proceeded == None <==> DateTimeFilled(day, month, year, time)
    ensures proceeded != None ==> proceeded == Some(DateTimeNotice) && shown == None
    ensures proceeded == None && ContactFilled(name, phone, email, people) ==>
              shown == Some(ConfirmedAlert(ConfirmationMessage(name, people,
                                |SelectedDishes(menu.dishes, selectedIds)|,
                                BookingDate(day, month, year, time), phone, email)))
    ensures proceeded == None && !ContactFilled(name, phone, email, people) ==> shown == Some(ContactNotice)
  {
    var screen := new BookingScreen(menu, selectedIds);
    screen.SetDay(day);
    screen.SetMonth(month);
    screen.SetYear(year);
    screen.SetTime(time);
    proceeded := screen.ProceedToContact();
    if proceeded != None {
      shown := None;
      return;
    }
    screen.SetName(name);
    screen.SetPhone(phone);
    screen.SetEmail(email);
    screen.SetPeople(people);
    var a := screen.ConfirmBooking();
    shown := Some(a);
  }
}
