/** The ingredient import command (backend/recipes/management/commands/import_json.py):
    the rows of the already-parsed fixture are checked against the ingredient table
    as it stood before the import, and the ones not yet stored are bulk-inserted in
    file order. */
module ImportJson {
  import opened Base
  import opened RecipesModels
  import opened Database

  /** One object of the fixture's JSON array. */
  type Item = map<string, string>

  datatype NameUnit = NameUnit(name: string, unit: string)

  /** `item['name']` and `item['measurement_unit']`, with the KeyError of a missing key. */
  function ReadItem(item: Item): (r: Result<NameUnit>)
    ensures r.Ok? <==> "name" in item && "measurement_unit" in item
    ensures r.Ok? ==> r.value == NameUnit(item["name"], item["measurement_unit"])
    ensures "name" !in item ==> r == Err(KeyError("name"))
    ensures "name" in item && "measurement_unit" !in item ==> r == Err(KeyError("measurement_unit"))
  {
    if "name" !in item then Err(KeyError("name"))
    else if "measurement_unit" !in item then Err(KeyError("measurement_unit"))
    else Ok(NameUnit(item["name"], item["measurement_unit"]))
  }

  /** Reading every item in order; the first missing key stops the command. */
  function ReadItems(data: seq<Item>): (r: Result<seq<NameUnit>>)
    ensures r.Ok? <==> forall k :: 0 <= k < |data| ==> ReadItem(data[k]).Ok?
    ensures r.Ok? ==> |r.value| == |data| && forall k :: 0 <= k < |data| ==> r.value[k] == ReadItem(data[k]).value
  {
    if data == [] then Ok([])
    else
      match ReadItems(data[..|data| - 1])
      case Err(e) => Err(e)
      case Ok(xs) =>
        match ReadItem(data[|data| - 1])
        case Err(e) => Err(e)
        case Ok(x) => Ok(xs + [x])
  }

  /** Once a prefix of the data fails to read, the whole data fails the same way. */
  lemma {:induction false} ReadItemsPrefixError(data: seq<Item>, i: nat)
    requires i <= |data| && ReadItems(data[..i]).Err?
    ensures ReadItems(data) == ReadItems(data[..i])
    decreases |data| - i
  {
    if i < |data| {
      assert data[..i + 1][..i] == data[..i];
      ReadItemsPrefixError(data, i + 1);
    } else {
      assert data[..i] == data;
    }
  }

  /** `Ingredient.objects.filter(name=..., measurement_unit=...).exists()`. */
  predicate HasPair(rows: seq<IngredientRow>, x: NameUnit)
  {
    exists k :: 0 <= k < |rows| && rows[k].name == x.name && rows[k].measurementUnit == x.unit
  }

  /** The items the loop appends to `ingredients_to_create`: those whose pair is not
      in the table `rows`, in input order. */
  function Survivors(rows: seq<IngredientRow>, xs: seq<NameUnit>): (r: seq<NameUnit>)
    ensures |r| <= |xs|
  {
    if xs == [] then []
    else
      var last := xs[|xs| - 1];
      Survivors(rows, xs[..|xs| - 1]) + (if HasPair(rows, last) then [] else [last])
  }

  /** `bulk_create`: the new rows, with primary keys drawn in order from `start`. */
  function Materialize(xs: seq<NameUnit>, start: nat): (r: seq<IngredientRow>)
    ensures |r| == |xs|
    ensures forall k :: 0 <= k < |xs| ==>
      r[k] == IngredientRow(start + k, xs[k].name, xs[k].unit)
  {
    seq(|xs|, k requires 0 <= k < |xs| => IngredientRow(start + k, xs[k].name, xs[k].unit))
  }

  /** An item survives exactly when it occurs in the input and its pair is not stored. */
  lemma {:induction false} SurvivorsMembership(rows: seq<IngredientRow>, xs: seq<NameUnit>, x: NameUnit)
    ensures x in Survivors(rows, xs) <==> x in xs && !HasPair(rows, x)
  {
    if xs != [] {
      var init := xs[..|xs| - 1];
      SurvivorsMembership(rows, init, x);
      assert xs == init + [xs[|xs| - 1]];
    }
  }

  /** Filtering keeps input order: the survivors of a concatenation are the
      survivors of each part, one after the other. */
  lemma {:induction false} SurvivorsAppend(rows: seq<IngredientRow>, a: seq<NameUnit>, b: seq<NameUnit>)
    ensures Survivors(rows, a + b) == Survivors(rows, a) + Survivors(rows, b)
    decreases |b|
  {
    if b == [] {
      assert a + b == a;
    } else {
      var b' := b[..|b| - 1];
      assert (a + b)[..|a + b| - 1] == a + b';
      SurvivorsAppend(rows, a, b');
    }
  }

  /** The check runs against the table before `bulk_create`, so a new pair that
      occurs several times in the input is created as many times. */
  lemma {:induction false} SurvivorsKeepDuplicates(rows: seq<IngredientRow>, xs: seq<NameUnit>, x: NameUnit)
    requires !HasPair(rows, x)
    ensures multiset(Survivors(rows, xs))[x] == multiset(xs)[x]
  {
    if xs != [] {
      var init, last := xs[..|xs| - 1], xs[|xs| - 1];
      SurvivorsKeepDuplicates(rows, init, x);
      assert xs == init + [last];
      assert multiset(xs) == multiset(init) + multiset{last};
      var tail := if HasPair(rows, last) then [] else [last];
      assert multiset(Survivors(rows, xs)) == multiset(Survivors(rows, init)) + multiset(tail);
      assert last == x ==> tail == [last];
    }
  }

  /** When every item's pair is stored, nothing survives. */
  lemma {:induction false} NoSurvivorsWhenAllPresent(rows: seq<IngredientRow>, xs: seq<NameUnit>)
    requires forall k :: 0 <= k < |xs| ==> HasPair(rows, xs[k])
    ensures Survivors(rows, xs) == []
  {
    if xs != [] {
      NoSurvivorsWhenAllPresent(rows, xs[..|xs| - 1]);
      assert HasPair(rows, xs[|xs| - 1]);
    }
  }

  /** Importing the same file a second time adds nothing: after the first import
      every pair of the input is stored. */
  lemma SecondImportAddsNothing(rows: seq<IngredientRow>, xs: seq<NameUnit>, start: nat)
    ensures Survivors(rows + Materialize(Survivors(rows, xs), start), xs) == []
  {
    var created := Survivors(rows, xs);
    var table := rows + Materialize(created, start);
    forall k | 0 <= k < |xs| ensures HasPair(table, xs[k]) {
      if HasPair(rows, xs[k]) {
        var j :| 0 <= j < |rows| && rows[j].name == xs[k].name && rows[j].measurementUnit == xs[k].unit;
        assert table[j] == rows[j];
      } else {
        SurvivorsMembership(rows, xs, xs[k]);
        var j :| 0 <= j < |created| && created[j] == xs[k];
        assert table[|rows| + j] == IngredientRow(start + j, xs[k].name, xs[k].unit);
      }
    }
    NoSurvivorsWhenAllPresent(table, xs);
  }

  /** One turn of the command's loop: reading item i extends what was read, and its
      pair is appended to the rows to create exactly when it is not stored. */
  lemma ReadStep(rows: seq<IngredientRow>, data: seq<Item>, i: nat)
    requires i < |data| && ReadItems(data[..i]).Ok? && ReadItem(data[i]).Ok?
    ensures ReadItems(data[..i + 1]).Ok?
    ensures var x := ReadItem(data[i]).value;
      Survivors(rows, ReadItems(data[..i + 1]).value) ==
      Survivors(rows, ReadItems(data[..i]).value) + (if HasPair(rows, x) then [] else [x])
  {
    var before, x := ReadItems(data[..i]).value, ReadItem(data[i]).value;
    assert data[..i + 1][..i] == data[..i];
    assert ReadItems(data[..i + 1]).value == before + [x];
    assert (before + [x])[..|before|] == before;
  }

  /** The first item without a key decides the command's error. */
  lemma ReadFails(data: seq<Item>, i: nat)
    requires i < |data| && ReadItems(data[..i]).Ok? && ReadItem(data[i]).Err?
    ensures ReadItems(data) == Err(ReadItem(data[i]).error)
  {
    assert data[..i + 1][..i] == data[..i];
    ReadItemsPrefixError(data, i + 1);
  }

  lemma IngredientIdsGrow(a: seq<IngredientRow>, b: seq<IngredientRow>)
    ensures IngredientIds(a) <= IngredientIds(a + b)
  {
    forall id | id in IngredientIds(a) ensures id in IngredientIds(a + b) {
      var k :| 0 <= k < |a| && a[k].id == id;
      assert (a + b)[k] == a[k];
    }
  }

  /** Rows drawn from the counter keep the primary keys distinct, and the join rows
      keep their ingredients. */
  lemma BulkCreateKeepsValid(rows: seq<IngredientRow>, nextId: nat, entries: seq<IngredientInRecipe>,
                             recipes: map<RecipeId, RecipeRow>, xs: seq<NameUnit>)
    requires IngredientsValid(rows, nextId) && EntriesValid(entries, rows, recipes)
    ensures IngredientsValid(rows + Materialize(xs, nextId), nextId + |xs|)
    ensures EntriesValid(entries, rows + Materialize(xs, nextId), recipes)
  {
    var table := rows + Materialize(xs, nextId);
    IngredientIdsGrow(rows, Materialize(xs, nextId));
    forall k | 0 <= k < |table| ensures table[k].id < nextId + |xs| {
      if k >= |rows| {
        assert table[k] == Materialize(xs, nextId)[k - |rows|];
      }
    }
  }

  /** `Command.handle` after the file is parsed: the table afterwards is the old
      table followed by the new rows, one per input item whose pair was absent,
      in input order; an item without a key aborts before anything is inserted. */
  method Handle(db: Db, data: seq<Item>) returns (r: Result<()>)
    requires db.Valid()
    modifies db`ingredients, db`nextIngredientId
    ensures db.Valid()
    ensures ReadItems(data).Err? ==>
      r == Err(ReadItems(data).error) && db.ingredients == old(db.ingredients)
    ensures ReadItems(data).Ok? ==>
      && r == Ok(())
      && db.ingredients ==
           old(db.ingredients) + Materialize(Survivors(old(db.ingredients), ReadItems(data).value), old(db.nextIngredientId))
  {
    var toCreate: seq<NameUnit> := [];
    var i := 0;
    assert data[..0] == [];
    while i < |data|
      invariant 0 <= i <= |data|
      invariant unchanged(db)
      invariant ReadItems(data[..i]).Ok?
      invariant toCreate == Survivors(db.ingredients, ReadItems(data[..i]).value)
    {
      var item := ReadItem(data[i]);
      if item.Err? {
        ReadFails(data, i);
        r := Err(item.error);
        return;
      }
      ReadStep(db.ingredients, data, i);
      if !HasPair(db.ingredients, item.value) {
        toCreate := toCreate + [item.value];
      }
      i := i + 1;
    }
    assert data[..i] == data;
    var created := Materialize(toCreate, db.nextIngredientId);
    BulkCreateKeepsValid(db.ingredients, db.nextIngredientId, db.entries, db.recipes, toCreate);
    db.ingredients := db.ingredients + created;
    db.nextIngredientId := db.nextIngredientId + |toCreate|;
    r := Ok(());
  }
}
