# Chef menu: the menu store and the booking and payment checks

A model of the logic under a small React Native restaurant app. The app keeps a menu of
dishes in memory, lets the chef add dishes, and takes a guest through a booking and a
mock payment. Four pieces are modelled. The JSX, styling and navigation wiring are not.

- **Menu store** (`context/MenuContext.tsx`). The `Dish` record and the three seed dishes.
  The provider's `dishes` state cell is the class `Menu.MenuStore`, and its one write,
  `addDish`, is `MenuStore.AddDish`. That method appends the dish with its id replaced by
  `Date.now().toString()`. The clock is a parameter `now: nat`, and the id is its decimal
  numeral (`Text.DecimalString`). The context's default value, seen outside any provider,
  is the `MenuStore.Default` constructor. It has no dishes, and its `AddDish` does nothing.
- **Dish-creation guard** (`screens/AddDishScreen.tsx`). The form is the class
  `AddDish.AddDishScreen`. Its text cells start empty and its course starts at Starters.
  `HandleAdd` either shows the "Please fill in all fields" notice and changes nothing, or
  calls the store's `AddDish` with id `""` and navigates Home.
- **Booking workflow** (`screens/BookingScreen.tsx`). `SelectedDishes` is the
  `dishes.filter(...)` selection. `Days`, `Months` and `Years` are the picker option
  lists. `BookingDate` and `ConfirmationMessage` are the two templates. The class
  `BookingScreen` holds the form cells and the `showContactForm` stage, with the
  `ProceedToContact` and `ConfirmBooking` handlers. Each setter and handler requires
  the stage in which the screen renders its widget, so the date fields can change only
  before Proceed succeeds, and Confirm can be pressed only after it.
- **Payment checks and card preview** (`screens/PaymentScreen.tsx`). `HandlePayment`
  is the ordered chain of checks, and it returns a `Verdict`. `PaymentAlert` gives the
  alert shown for each verdict. `MaskCardNumber` is the card preview.

Each regular expression is written out as character tests. `\d` is the ASCII digits
`'0'..'9'` (`Text.IsDigit`). `\s` is ECMAScript's WhiteSpace and LineTerminator set:
tab, line feed, vertical tab, form feed, carriage return, the Unicode Zs space
separators, U+2028, U+2029 and U+FEFF (`Text.IsSpace`). The global replace
`/(\d{4})(?=\d)/g` is the left-to-right scan `GroupScan`. It is proved equal to the
reference grouping `Grouped` of the digits, followed by the asterisks.

An `Alert.alert` call becomes an `Alert` value: a title, an optional message, and
buttons, each with the screen its action navigates to. A handler returns the alert it
would show.

Points where the code does less than one might expect, modelled as the code does it:
- The preview of `"41"` is `"41**************"`, not `"41** **** **** ****"`. Both
  the `\d{4}` group and the `(?=\d)` look-ahead need digits, so no space is inserted
  among or before the asterisks.
- `addDish` does not return the stored dish.
- Nothing guarantees that the generated id is fresh.
- The course is never validated. It comes from a three-value picker.

## Model

| member | source | states |
|---|---|---|
| Text.IsDigit | screens/PaymentScreen.tsx:33 | no contract; the `\d` class, the ASCII digits only; its meaning is stated by `Payment.CardNumberByCharacters` and `Payment.DigitsOnlyKeepsDigitChars` |
| Text.IsSpace | screens/PaymentScreen.tsx:33 | no contract; the `\s` class, ECMAScript WhiteSpace and LineTerminator; its meaning is stated by `Payment.StripKeepsNonSpace` and `Payment.SpacedCardNumber` |
| Text.DecimalString | context/MenuContext.tsx:52 | `Date.now().toString()` is a non-empty digit string with no leading zero unless it is "0" |
| Text.DecimalRoundTrip | context/MenuContext.tsx:52 | reading the generated id back as a number gives the clock reading it came from |
| Text.DecimalStringInjective | context/MenuContext.tsx:52 | two clock readings give the same id exactly when they are equal |
| Menu.SeedDishes | context/MenuContext.tsx:27-49 | no contract; the three preloaded dishes, field for field; their ids are stated by `Menu.SeedIsDistinct` |
| Menu.Stamped | context/MenuContext.tsx:52 | no contract; `{ ...dish, id: Date.now().toString() }`; its effect on ids is stated by `Menu.SeedAppendDistinct` and `Menu.MenuStore.AddDish` |
| Menu.SeedIsDistinct | context/MenuContext.tsx:27-49 | the seed dishes carry ids "1", "2", "3", in that order, pairwise distinct |
| Menu.AppendDistinct | context/MenuContext.tsx:52 | after an append, ids stay pairwise distinct iff they were distinct before and the new id is not already used |
| Menu.SeedAppendDistinct | context/MenuContext.tsx:27-52 | a dish added to the seed store has a fresh id iff the clock does not read 1, 2 or 3 |
| Menu.AddAll | context/MenuContext.tsx:51-53 | no contract; a run of provider appends; tied to `MenuStore.AddDish` by `Menu.AddInTurn`, its result stated by `Menu.AddAllAppends` |
| Menu.AddAllSnoc | context/MenuContext.tsx:51-53 | one more addition at the end of a run appends one more stamped dish |
| Menu.AddAllAppends | context/MenuContext.tsx:51-53 | after any run of additions, the store is the old dishes followed by the stamped candidates in call order; nothing is removed or edited |
| Menu.AddAllDistinct | context/MenuContext.tsx:51-53 | ids stay pairwise distinct over a run of additions whose clock readings are pairwise distinct and not already ids in the store |
| Menu.AddInTurn | context/MenuContext.tsx:51-53 | a run of `addDish` calls on a store: a provider ends as `AddAll` of its old dishes, with distinct ids when the clock readings are pairwise distinct and new; the default value is unchanged |
| Menu.MenuStore.Provider | context/MenuContext.tsx:25-49 | the provider's state starts as exactly the three seed dishes, with distinct ids |
| Menu.MenuStore.Default | context/MenuContext.tsx:16-19 | the default context value has an empty dish list |
| Menu.MenuStore.AddDish | context/MenuContext.tsx:51-53 | in a provider: the length grows by one, the old list is a prefix, and the last dish copies name, description, course and price with id `now.toString()` in place of the caller's id; ids stay distinct iff the new id was not present; in the default value nothing changes |
| AddDish.AllFilled | screens/AddDishScreen.tsx:30 | no contract; the guard `!name \|\| !description \|\| !price` negated; its meaning is stated by `AddDish.GuardAcceptsBlankAndNonNumeric` |
| AddDish.GuardAcceptsBlankAndNonNumeric | screens/AddDishScreen.tsx:30 | only emptiness is checked: whitespace-only text and a non-numeric price pass, and each empty field fails |
| AddDish.AddDishScreen.constructor | screens/AddDishScreen.tsx:24-27 | a new form has empty name, description and price, and course Starters |
| AddDish.AddDishScreen.SetName | screens/AddDishScreen.tsx:47 | editing the name cell sets it |
| AddDish.AddDishScreen.SetDescription | screens/AddDishScreen.tsx:55 | editing the description cell sets it |
| AddDish.AddDishScreen.SetCourse | screens/AddDishScreen.tsx:60 | choosing a course sets it to that value |
| AddDish.AddDishScreen.SetPrice | screens/AddDishScreen.tsx:73 | editing the price cell sets it |
| AddDish.AddDishScreen.HandleAdd | screens/AddDishScreen.tsx:29-37 | with a field empty: the notice, no store change, no navigation; otherwise one append carrying the form's fields and the current course, then navigation Home |
| AddDish.AddFirstDish | screens/AddDishScreen.tsx:29-37 | from the seeded store, an accepted dish becomes the fourth and last dish, carrying the submitted fields, and the form navigates Home; ids stay distinct iff the clock does not read 1, 2 or 3 |
| Booking.SelectedDishes | screens/BookingScreen.tsx:28 | the selection is never longer than the store |
| Booking.SelectionMembers | screens/BookingScreen.tsx:28 | a dish is selected iff it is in the store and its id is among the selected ids |
| Booking.SelectionKeepsStoreOrder | screens/BookingScreen.tsx:28 | the selection is a subsequence of the store, so it is in store order |
| Booking.SelectionMultiplicity | screens/BookingScreen.tsx:28 | each dish record occurs in the selection as often as in the store when its id is selected, and not at all otherwise; with the subsequence property this fixes the result even when the store holds equal records |
| Booking.SelectionOfConcat | screens/BookingScreen.tsx:28 | the filter works dish by dish: the selection from two lists joined is the two selections joined |
| Booking.SelectionDependsOnKnownIds | screens/BookingScreen.tsx:28 | two id lists that agree on the store's ids select the same dishes: unknown ids, repetitions and id order do not matter |
| Booking.EmptySelection | screens/BookingScreen.tsx:28 | no selected ids give no dishes |
| Booking.SeedSelectionExample | screens/BookingScreen.tsx:28 | selecting "3", "1" and an unknown id on the seed store gives the first and third seed dishes, in store order |
| Booking.Options | screens/BookingScreen.tsx:73-75 | no contract; `Array.from({ length }, (_, i) => (first + i).toString())`; its meaning is stated by `Booking.OptionIsNumeral` |
| Booking.Days | screens/BookingScreen.tsx:73 | no contract; the day options; stated by `Booking.PickerOptions` |
| Booking.Months | screens/BookingScreen.tsx:74 | no contract; the month options; stated by `Booking.PickerOptions` |
| Booking.Years | screens/BookingScreen.tsx:75 | no contract; the year options; stated by `Booking.YearOptions` |
| Booking.OptionIsNumeral | screens/BookingScreen.tsx:73-75 | each picker option is the numeral of its value, with no leading zero |
| Booking.YearOptions | screens/BookingScreen.tsx:75 | the year picker offers exactly "2025", "2026", "2027", "2028", "2029" |
| Booking.PickerOptions | screens/BookingScreen.tsx:73-75 | the pickers offer days 1..31 and months 1..12 without leading zeros, and years "2025".."2029" |
| Booking.NoCalendarCheck | screens/BookingScreen.tsx:73-75 | 31 February 2025 can be picked and passes the date-and-time guard |
| Booking.BookingDate | screens/BookingScreen.tsx:58 | no contract; the `${day}/${month}/${year} at ${time}` template; its meaning is stated by `Booking.BookingDateInjective` |
| Booking.ConfirmationMessage | screens/BookingScreen.tsx:62 | no contract; the confirmation template; its meaning is stated by `Booking.MessageEmbedsFields` |
| Booking.DateTimeFilled | screens/BookingScreen.tsx:45 | no contract; the negated date-and-time guard; used by `Booking.BookingScreen.ProceedToContact` |
| Booking.ContactFilled | screens/BookingScreen.tsx:53 | no contract; the negated contact guard; used by `Booking.BookingScreen.ConfirmBooking` |
| Booking.ConfirmedAlert | screens/BookingScreen.tsx:60-69 | no contract; the "Booking Confirmed!" alert with its one button to Payment; used by `Booking.BookingScreen.ConfirmBooking` |
| Booking.BookingDateInjective | screens/BookingScreen.tsx:58 | `day/month/year at time` built from digit strings determines day, month, year and time |
| Booking.MessageEmbedsFields | screens/BookingScreen.tsx:62 | the confirmation embeds name, party size, meal count, booking date, phone and email verbatim, at fixed places, in that order |
| Booking.ExampleConfirmation | screens/BookingScreen.tsx:58-62 | for "Jane", "4" people, two meals, 05/06/2025 at 18:30, and any phone and email, the message carries "4", "2" and "05/06/2025 at 18:30" at fixed places |
| Booking.BookingScreen.constructor | screens/BookingScreen.tsx:31-42 | all eight form cells start empty, the date-and-time stage is shown, and the stage invariant holds |
| Booking.BookingScreen.SelectedMeals | screens/BookingScreen.tsx:28 | the meals on screen are exactly the store's dishes whose id is among the route's selected ids |
| Booking.PickedIsDigits | screens/BookingScreen.tsx:98-115 | a value the day, month or year picker can set, the placeholder or an option, is a digit string |
| Booking.BookingScreen.SetDay | screens/BookingScreen.tsx:94-129 | picking a day sets the day cell to the placeholder "" or one of the picker options; available only on the date-and-time stage; the invariant, which includes that the picked date fields are digit strings, is kept |
| Booking.BookingScreen.SetMonth | screens/BookingScreen.tsx:94-129 | picking a month sets the month cell to the placeholder "" or one of the picker options; available only on the date-and-time stage; the invariant, which includes that the picked date fields are digit strings, is kept |
| Booking.BookingScreen.SetYear | screens/BookingScreen.tsx:94-129 | picking a year sets the year cell to the placeholder "" or one of the picker options; available only on the date-and-time stage; the invariant, which includes that the picked date fields are digit strings, is kept |
| Booking.BookingScreen.SetTime | screens/BookingScreen.tsx:94-129 | editing the time sets the time cell; available only on the date-and-time stage; the stage invariant is kept |
| Booking.BookingScreen.SetName | screens/BookingScreen.tsx:131-166 | editing the name sets the name cell; available only on the contact stage; the stage invariant is kept |
| Booking.BookingScreen.SetPhone | screens/BookingScreen.tsx:131-166 | editing the phone sets the phone cell; available only on the contact stage; the stage invariant is kept |
| Booking.BookingScreen.SetEmail | screens/BookingScreen.tsx:131-166 | editing the email sets the email cell; available only on the contact stage; the stage invariant is kept |
| Booking.BookingScreen.SetPeople | screens/BookingScreen.tsx:131-166 | editing the party size sets the people cell; available only on the contact stage; the stage invariant is kept |
| Booking.BookingScreen.ProceedToContact | screens/BookingScreen.tsx:44-50 | pressed on the date-and-time stage: the contact stage is shown iff day, month, year and time are all non-empty, with no notice; otherwise the notice, and the stage stays |
| Booking.BookingScreen.ConfirmBooking | screens/BookingScreen.tsx:52-71 | pressed on the contact stage, so day, month, year and time are non-empty and day, month and year are digit strings (so `Booking.BookingDateInjective` applies): the confirmation, offering Payment, is shown iff name, phone, email and people are all non-empty; its message is built from the selected meals' count and the booking date; otherwise the contact notice |
| Booking.BookThrough | screens/BookingScreen.tsx:44-166 | a booking through both stages with picker values for the date: Proceed fails with the notice iff a date field is empty, and then nothing is confirmed; otherwise the confirmation or the contact notice, as the contact fields decide |
| Payment.StripWhitespace | screens/PaymentScreen.tsx:33 | deleting whitespace never lengthens the card number; what it keeps, and in which order, is stated by `Payment.StripConcat` and `Payment.StripKeepsNonSpace` |
| Payment.StripConcat | screens/PaymentScreen.tsx:33 | deleting whitespace works character by character: stripping two texts joined is joining their stripped forms, so the kept characters stay in order |
| Payment.StripKeepsNonSpace | screens/PaymentScreen.tsx:33 | deleting whitespace keeps exactly the non-whitespace characters |
| Payment.CardNumberByCharacters | screens/PaymentScreen.tsx:33 | the card number passes iff every character is a digit or whitespace and there are exactly sixteen digits |
| Payment.SpacedCardNumber | screens/PaymentScreen.tsx:33 | sixteen digits pass whether written together or as four blocks of four split by any whitespace characters |
| Payment.ExpiryParses | screens/PaymentScreen.tsx:38 | an accepted expiry is a two-digit month 1..12, a slash, and a two-digit year |
| Payment.ExpiryOfMonthYear | screens/PaymentScreen.tsx:38 | `MM/YY` written with two digits each passes iff the month is 1..12 |
| Payment.IsCardNumber | screens/PaymentScreen.tsx:33 | no contract; `/^\d{16}$/` on the text without whitespace; its meaning is stated by `Payment.CardNumberByCharacters` and `Payment.SpacedCardNumber` |
| Payment.IsExpiry | screens/PaymentScreen.tsx:38 | no contract; `/^(0[1-9]\|1[0-2])\/\d{2}$/`; its meaning is stated by `Payment.ExpiryParses` and `Payment.ExpiryOfMonthYear` |
| Payment.IsCvv | screens/PaymentScreen.tsx:43 | no contract; `/^\d{3}$/`; three ASCII digits, as used by `Payment.HandlePayment` |
| Payment.HandlePayment | screens/PaymentScreen.tsx:26-58 | the first failing check decides the error: missing field, then card number, then expiry, then CVV; the payment is accepted iff all four pass, and the name is only checked for being non-empty |
| Payment.PaymentAlert | screens/PaymentScreen.tsx:27-57 | no contract; the title, message and buttons of each alert; its buttons are stated by `Payment.OnlyAcceptedNavigates` |
| Payment.OnlyAcceptedNavigates | screens/PaymentScreen.tsx:27-57 | only the success alert has a button, and it returns Home |
| Payment.DigitsOnly | screens/PaymentScreen.tsx:61 | deleting non-digits leaves only digits and never lengthens the text; which digits are kept, and in which order, is stated by `Payment.DigitsOnlyConcat` |
| Payment.DigitsOnlyConcat | screens/PaymentScreen.tsx:61 | deleting non-digits works character by character: the result for two texts joined is the two results joined, so every digit occurrence is kept, in order |
| Payment.DigitsOnlyKeepsDigitChars | screens/PaymentScreen.tsx:61 | a character occurs in the result iff it is a digit occurring in the input |
| Payment.PadEnd | screens/PaymentScreen.tsx:63 | no contract; `padEnd`; its meaning is stated by `Payment.PadEndStars` |
| Payment.GroupScan | screens/PaymentScreen.tsx:64 | no contract; the global replace as a left-to-right scan; its meaning is stated by `Payment.ScanIsGrouping` |
| Payment.PadEndStars | screens/PaymentScreen.tsx:63 | padding to 16 appends exactly 16 minus the length asterisks, and nothing when the input is already long enough |
| Payment.GroupedAppend | screens/PaymentScreen.tsx:64 | grouping a whole number of four-character blocks followed by more text joins the two groupings with one space |
| Payment.ScanPadded | screens/PaymentScreen.tsx:62-64 | the global replace over padded digits is their grouping, followed by the asterisks unchanged |
| Payment.ScanIsGrouping | screens/PaymentScreen.tsx:64 | the global replace over digits followed by non-digits inserts a space after each block of four digits that another digit follows, and copies the rest |
| Payment.MaskCardNumber | screens/PaymentScreen.tsx:60-65 | no contract; `maskCardNumber`; its meaning is stated by `Payment.MaskShape`, `Payment.MaskWithoutSpaces` and `Payment.MaskSpaces` |
| Payment.MaskShape | screens/PaymentScreen.tsx:60-65 | the preview is the input's digits grouped in fours, then enough asterisks to bring the digit count to 16 |
| Payment.MaskWithoutSpaces | screens/PaymentScreen.tsx:61-63 | deleting the preview's spaces gives the input's digits right-padded with `*` to 16; more than 16 digits are kept |
| Payment.GroupedSpaces | screens/PaymentScreen.tsx:64 | in a grouped digit run, every space follows four digits and comes before a digit |
| Payment.MaskSpaces | screens/PaymentScreen.tsx:64 | every space in the preview follows four digits and comes before a digit, so none appears among the asterisks |
| PaymentExamples.AcceptedExamples | screens/PaymentScreen.tsx:26-57 | "Jane", sixteen digits together or spaced, "12/29", "123" is accepted |
| PaymentExamples.RejectedExamples | screens/PaymentScreen.tsx:38-45 | with a good card, "13/29", "00/29" and "1/29" fail as an invalid expiry, and CVV "12" fails as an invalid CVV |
| PaymentExamples.ShortAndMissingExamples | screens/PaymentScreen.tsx:27-36 | card "411" fails as an invalid card number; an empty name fails as missing details before any format check |
| PaymentExamples.MaskFullExample | screens/PaymentScreen.tsx:60-65 | sixteen digits preview as four space-separated blocks |
| PaymentExamples.MaskFive | screens/PaymentScreen.tsx:60-65 | any five digits preview as four digits, a space, the fifth digit and eleven asterisks |
| PaymentExamples.MaskShort | screens/PaymentScreen.tsx:60-65 | at most four digits preview as those digits padded with asterisks, with no space |
| PaymentExamples.MaskFiveExample | screens/PaymentScreen.tsx:60-65 | "41111" previews as "4111 1***********" |
| PaymentExamples.MaskTwoExample | screens/PaymentScreen.tsx:60-65 | "41" previews as "41**************" |
| PaymentExamples.MaskEmptyExample | screens/PaymentScreen.tsx:60-65 | the empty card number previews as sixteen asterisks |

## Left out

- Rendering, styling, `HomeScreen.tsx` and the navigation stack in `App.tsx` are view code. A navigation is a returned `Screen` value or an alert button's target. As wired, `App.tsx` registers only Home and AddDish. The booking and payment logic is modelled as standalone code anyway.
- React mechanics (`useState`, `useContext`, the provider, re-rendering) are not modelled. The state cells are class fields. `BookingScreen.SelectedMeals` recomputes the selection from the store, as each render does.
- `Date.now()` is a parameter `now: nat`. The model does not claim that successive readings differ. Id freshness is stated as a condition: `MenuStore.AddDish` keeps ids distinct exactly when the new id is fresh.
- Alert display and dismissal are not modelled. Only the alert's content and its buttons' targets are.
- The `TextInput` `maxLength` and `keyboardType` settings are widget behaviour, so they are not modelled. Every text cell takes any string. The day, month and year pickers, by contrast, are modelled: their setters accept only the placeholder `""` or one of the options.
- The booking back button (`navigation.goBack`) and the payment back button are pure navigation, so they are not modelled.
