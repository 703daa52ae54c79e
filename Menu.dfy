/** The menu store of `context/MenuContext.tsx`: the `Dish` record, the
    three preloaded dishes, and the provider's `dishes` state cell whose only
    write is the append done by `addDish`. */
module Menu {
  import opened Text

  datatype Course = Starters | Mains | Desserts

  datatype Dish = Dish(id: string, name: string, description: string, course: Course, price: string)

  /** The dishes the provider is seeded with. */
  function SeedDishes(): seq<Dish> {
    [ Dish("1", "Roasted Tomato Soup",
           "Creamy soup made with slow-roasted tomatoes and basil.", Starters, "60"),
      Dish("2", "Grilled Ribeye Steak",
           "Juicy ribeye served with garlic butter and roasted potatoes.", Mains, "180"),
      Dish("3", "Chocolate Lava Cake",
           "Warm molten chocolate cake with vanilla ice cream.", Desserts, "85") ]
  }

  function Ids(ds: seq<Dish>): seq<string> {
    seq(|ds|, i requires 0 <= i < |ds| => ds[i].id)
  }

  /** No two dishes share an id (the home list uses ids as keys). */
  predicate DistinctIds(ds: seq<Dish>) {
    forall i, j :: 0 <= i < j < |ds| ==> ds[i].id != ds[j].id
  }

  /** `{ ...dish, id: Date.now().toString() }` for the clock reading `now`. */
  function Stamped(dish: Dish, now: nat): Dish {
    dish.(id := DecimalString(now))
  }

  lemma SeedIsDistinct()
    ensures Ids(SeedDishes()) == ["1", "2", "3"]
    ensures DistinctIds(SeedDishes())
  {
  }

  /** Appending keeps ids distinct exactly when the new id is not already taken. */
  lemma {:induction false} AppendDistinct(ds: seq<Dish>, d: Dish)
    ensures DistinctIds(ds + [d]) <==> DistinctIds(ds) && d.id !in Ids(ds)
  {
    var t := ds + [d];
    if DistinctIds(t) {
      forall k | 0 <= k < |ds| ensures Ids(ds)[k] != d.id {
        assert t[k] == ds[k] && t[|ds|] == d;
      }
      forall i, j | 0 <= i < j < |ds| ensures ds[i].id != ds[j].id {
        assert t[i] == ds[i] && t[j] == ds[j];
      }
    }
    if DistinctIds(ds) && d.id !in Ids(ds) {
      forall i, j | 0 <= i < j < |t| ensures t[i].id != t[j].id {
        if j == |ds| {
          assert Ids(ds)[i] == ds[i].id;
        } else {
          assert t[i] == ds[i] && t[j] == ds[j];
        }
      }
    }
  }

  /** A dish added to the seed store at clock reading 1, 2 or 3 takes an id
      already used by a preloaded dish; any other reading keeps ids distinct. */
  lemma SeedAppendDistinct(dish: Dish, now: nat)
    ensures DistinctIds(SeedDishes() + [Stamped(dish, now)]) <==> now != 1 && now != 2 && now != 3
  {
    SeedIsDistinct();
    AppendDistinct(SeedDishes(), Stamped(dish, now));
    DecimalStringInjective(now, 1);
    DecimalStringInjective(now, 2);
    DecimalStringInjective(now, 3);
    assert DecimalString(1) == "1" && DecimalString(2) == "2" && DecimalString(3) == "3";
  }

  /** The store after `addDish(cands[k])` at clock reading `times[k]`, for k in order. */
  function AddAll(ds: seq<Dish>, cands: seq<Dish>, times: seq<nat>): seq<Dish>
    requires |cands| == |times|
    decreases |cands|
  {
    if cands == [] then ds
    else AddAll(ds + [Stamped(cands[0], times[0])], cands[1..], times[1..])
  }

  /** Successive additions: the old dishes, then the added ones in call order. */
  lemma {:induction false} AddAllAppends(ds: seq<Dish>, cands: seq<Dish>, times: seq<nat>)
    requires |cands| == |times|
    ensures AddAll(ds, cands, times)
            == ds + seq(|cands|, k requires 0 <= k < |cands| => Stamped(cands[k], times[k]))
    decreases |cands|
  {
    if cands != [] {
      var d := Stamped(cands[0], times[0]);
      AddAllAppends(ds + [d], cands[1..], times[1..]);
      var rest := seq(|cands| - 1, k requires 0 <= k < |cands| - 1 => Stamped(cands[1..][k], times[1..][k]));
      var all := seq(|cands|, k requires 0 <= k < |cands| => Stamped(cands[k], times[k]));
      assert all == [d] + rest;
    }
  }

  /** One more addition at the end of a run appends one more stamped dish. */
  lemma {:induction false} AddAllSnoc(ds: seq<Dish>, cands: seq<Dish>, times: seq<nat>, c: Dish, t: nat)
    requires |cands| == |times|
    ensures AddAll(ds, cands + [c], times + [t]) == AddAll(ds, cands, times) + [Stamped(c, t)]
    decreases |cands|
  {
    if cands == [] {
      assert cands + [c] == [c] && times + [t] == [t];
    } else {
      assert (cands + [c])[1..] == cands[1..] + [c] && (times + [t])[1..] == times[1..] + [t];
      AddAllSnoc(ds + [Stamped(cands[0], times[0])], cands[1..], times[1..], c, t);
    }
  }

  /** Ids stay distinct over any run of additions whose clock readings are
      pairwise distinct and never an id already in the store. */
  lemma {:induction false} AddAllDistinct(ds: seq<Dish>, cands: seq<Dish>, times: seq<nat>)
    requires |cands| == |times|
    requires DistinctIds(ds)
    requires forall i, j :: 0 <= i < j < |times| ==> times[i] != times[j]
    requires forall k :: 0 <= k < |times| ==> DecimalString(times[k]) !in Ids(ds)
    ensures DistinctIds(AddAll(ds, cands, times))
    decreases |cands|
  {
    if cands != [] {
      var d := Stamped(cands[0], times[0]);
      AppendDistinct(ds, d);
      var ds' := ds + [d];
      forall k | 0 <= k < |times[1..]| ensures DecimalString(times[1..][k]) !in Ids(ds') {
        assert times[1..][k] == times[k + 1];
        DecimalStringInjective(times[k + 1], times[0]);
        assert Ids(ds') == Ids(ds) + [d.id];
      }
      AddAllDistinct(ds', cands[1..], times[1..]);
    }
  }

  /** The app's `dishes` state cell, living in the provider (`isProvider`), or
      the context's default value seen outside any provider. */
  class MenuStore {
    const isProvider: bool
    var dishes: seq<Dish>

    ghost predicate Valid()
      reads this
    {
      DistinctIds(dishes)
    }

    /** The provider's state cell, preloaded with the seed dishes. */
    constructor Provider()
      ensures isProvider && dishes == SeedDishes() && Valid()
    {
      isProvider := true;
      dishes := SeedDishes();
      SeedIsDistinct();
    }

    /** The default context value: no dishes, and an `addDish` that does nothing. */
    constructor Default()
      ensures !isProvider && dishes == [] && Valid()
    {
      isProvider := false;
      dishes := [];
    }

    /** `addDish(dish)` with `Date.now()` reading `now`: the provider appends the
        dish with the caller's id replaced by the clock's numeral; the default
        value ignores the call. Ids stay distinct exactly when the numeral is new. */
    method AddDish(dish: Dish, now: nat)
      modifies this`dishes
      ensures isProvider ==> |dishes| == |old(dishes)| + 1
      ensures isProvider ==> dishes[..|old(dishes)|] == old(dishes)
      ensures isProvider ==> dishes[|old(dishes)|]
                             == Dish(DecimalString(now), dish.name, dish.description, dish.course, dish.price)
      ensures isProvider ==> (Valid() <==> old(Valid()) && DecimalString(now) !in Ids(old(dishes)))
      ensures !isProvider ==> dishes == old(dishes)
    {
      if isProvider {
        AppendDistinct(dishes, Stamped(dish, now));
        dishes := dishes + [Stamped(dish, now)];
      }
    }
  }

  /** A run of `addDish` calls, `cands[k]` submitted when the clock reads
      `times[k]`, in order, as successive form submissions make them: a
      provider ends with `AddAll` of its old dishes, and keeps ids distinct when
      the readings are pairwise distinct and new; the default value is left as it was. */
  method AddInTurn(store: MenuStore, cands: seq<Dish>, times: seq<nat>)
    requires |cands| == |times|
    modifies store`dishes
    ensures store.isProvider ==> store.dishes == AddAll(old(store.dishes), cands, times)
    ensures !store.isProvider ==> store.dishes == old(store.dishes)
    ensures store.isProvider && old(store.Valid())
            && (forall i, j :: 0 <= i < j < |times| ==> times[i] != times[j])
            && (forall k :: 0 <= k < |times| ==> DecimalString(times[k]) !in Ids(old(store.dishes)))
            ==> store.Valid()
  {
    var i := 0;
    while i < |cands|
      invariant 0 <= i <= |cands|
      invariant store.isProvider ==> store.dishes == AddAll(old(store.dishes), cands[..i], times[..i])
      invariant !store.isProvider ==> store.dishes == old(store.dishes)
    {
      ghost var before := store.dishes;
      store.AddDish(cands[i], times[i]);
      if store.isProvider {
        assert store.dishes == before + [Stamped(cands[i], times[i])];
        assert cands[..i + 1] == cands[..i] + [cands[i]] && times[..i + 1] == times[..i] + [times[i]];
        AddAllSnoc(old(store.dishes), cands[..i], times[..i], cands[i], times[i]);
      }
      i := i + 1;
    }
    assert cands[..i] == cands && times[..i] == times;
    if store.isProvider && old(store.Valid())
       && (forall i, j :: 0 <= i < j < |times| ==> times[i] != times[j])
       && (forall k :: 0 <= k < |times| ==> DecimalString(times[k]) !in Ids(old(store.dishes)))
    {
      AddAllDistinct(old(store.dishes), cands, times);
    }
  }
}
