/** The dish-creation form of `screens/AddDishScreen.tsx`: three text cells,
    a course picker defaulting to Starters, and the `handleAdd` guard that
    either rejects with a notice or hands the candidate to the menu store and
    returns to Home. */
module AddDish {
  import opened Text
  import opened Notices
  import opened Menu

  /** `!name || !description || !price` fails: only emptiness is checked
      (no trimming, price not parsed; the course needs no check, being one of three values). */
  predicate AllFilled(name: string, description: string, price: string) {
    name != "" && description != "" && price != ""
  }

  /** The notice shown when a field is empty. */
  const MissingFieldsNotice: Alert := TitleOnly("Please fill in all fields")

  /** Whitespace-only text and a non-numeric price pass the guard. */
  lemma GuardAcceptsBlankAndNonNumeric()
    ensures AllFilled(" ", "\t", "abc")
    ensures !AllFilled("", "Soup", "60") && !AllFilled("Soup", "", "60") && !AllFilled("Soup", "Hot", "")
  {
  }

  class AddDishScreen {
    const menu: MenuStore
    var name: string
    var description: string
    var course: Course
    var price: string

    /** A fresh form: empty text cells and the course picker on Starters. */
    constructor(menu: MenuStore)
      ensures this.menu == menu
      ensures name == "" && description == "" && price == "" && course == Starters
    {
      this.menu := menu;
      name, description, price := "", "", "";
      course := Starters;
    }

    method SetName(v: string)
      modifies this`name
      ensures name == v
    {
      name := v;
    }

    method SetDescription(v: string)
      modifies this`description
      ensures description == v
    {
      description := v;
    }

    method SetCourse(v: Course)
      modifies this`course
      ensures course == v
    {
      course := v;
    }

    method SetPrice(v: string)
      modifies this`price
      ensures price == v
    {
      price := v;
    }

    /** `handleAdd` with `Date.now()` reading `now`. With a field empty: the
        notice, no store change, no navigation. Otherwise: one `addDish` call
        with id "" and the form's fields, then navigation to Home; in a
        provider the store's new last dish carries exactly those fields and the
        clock's id. */
    method HandleAdd(now: nat) returns (notice: Option<Alert>, navigateTo: Option<Screen>)
      modifies menu`dishes
      ensures !AllFilled(name, description, price) ==>
                notice == Some(MissingFieldsNotice) && navigateTo == None && menu.dishes == old(menu.dishes)
      ensures AllFilled(name, description, price) ==> notice == None && navigateTo == Some(Home)
      ensures AllFilled(name, description, price) && menu.isProvider ==>
                menu.dishes == old(menu.dishes) + [Dish(DecimalString(now), name, description, course, price)]
      ensures AllFilled(name, description, price) && !menu.isProvider ==> menu.dishes == old(menu.dishes)
    {
      if !AllFilled(name, description, price) {
        notice, navigateTo := Some(MissingFieldsNotice), None;
        return;
      }
      menu.AddDish(Dish("", name, description, course, price), now);
      notice, navigateTo := None, Some(Home);
    }
  }

  /** From the seeded store, a first accepted dish becomes the fourth and last
      dish, with the submitted fields, and the form returns Home; its id is
      distinct from the seed ids exactly when the clock does not read 1, 2 or 3. */
  method AddFirstDish(name: string, description: string, course: Course, price: string, now: nat)
    returns (store: MenuStore, shown: Option<Alert>, navigateTo: Option<Screen>)
    requires AllFilled(name, description, price)
    ensures fresh(store) && shown == None && navigateTo == Some(Home)
    ensures store.Valid() <==> now != 1 && now != 2 && now != 3
    ensures |store.dishes| == 4 && store.dishes[..3] == SeedDishes()
    ensures store.dishes[3] == Dish(DecimalString(now), name, description, course, price)
  {
    store := new MenuStore.Provider();
    var screen := new AddDishScreen(store);
    screen.SetName(name);
    screen.SetDescription(description);
    screen.SetCourse(course);
    screen.SetPrice(price);
    shown, navigateTo := screen.HandleAdd(now);
    SeedAppendDistinct(Dish("", name, description, course, price), now);
  }
}
