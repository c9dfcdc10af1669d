// Workshop recipes for consumables (constants/craftingRecipes.ts).

module CraftingRecipes {
  import opened GameTypes

  /** A workshop recipe: input entries in their listed order, one output. */
  datatype CraftingRecipe = CraftingRecipe(
    id: string,
    requiredFacility: string,
    input: seq<(string, real)>,
    output: (string, real))

  /** `CRAFTING_RECIPES`, in catalogue order. */
  const Recipes: seq<CraftingRecipe> := [
    CraftingRecipe("craft_repair_kit", "workshop_facility", [("iron", 50.0), ("scrap", 100.0)], ("repairKit", 1.0)),
    CraftingRecipe("craft_coolant_paste", "advanced_workshop", [("ice", 100.0), ("scrap", 200.0)], ("coolantPaste", 1.0)),
    CraftingRecipe("craft_advanced_coolant", "advanced_workshop",
                   [("ice", 200.0), ("titanium", 50.0), ("scrap", 500.0)], ("advancedCoolant", 1.0))
  ]

  /** Every recipe makes exactly one unit from positive input amounts; ids are distinct. */
  lemma CatalogueWellFormed()
    ensures forall i, j :: 0 <= i < j < |Recipes| ==> Recipes[i].id != Recipes[j].id
    ensures forall i :: 0 <= i < |Recipes| ==>
              Recipes[i].output.1 == 1.0 && |Recipes[i].input| > 0 &&
              forall k :: 0 <= k < |Recipes[i].input| ==> Recipes[i].input[k].1 > 0.0
  {
  }

  /** `getCraftingRecipeById`: the recipe with that id, if any. */
  function GetCraftingRecipeById(id: string): (r: Option<CraftingRecipe>)
    ensures r.None? <==> forall i :: 0 <= i < |Recipes| ==> Recipes[i].id != id
    ensures r.Some? ==> r.value.id == id && r.value in Recipes
  {
    if id == Recipes[0].id then Some(Recipes[0])
    else if id == Recipes[1].id then Some(Recipes[1])
    else if id == Recipes[2].id then Some(Recipes[2])
    else None
  }

  /** Every input amount is held (a missing resource counts as 0). */
  predicate InputsHeld(input: seq<(string, real)>, resources: Resources)
  {
    forall j :: 0 <= j < |input| ==> Amount(resources, input[j].0) >= input[j].1
  }

  /**
   * `canCraftRecipe` for a workshop recipe: the input loop, stopping at the
   * first short input. The required facility is not consulted.
   */
  method CanCraftRecipe(recipe: CraftingRecipe, resources: Resources) returns (ok: bool)
    ensures ok <==> InputsHeld(recipe.input, resources)
  {
    ok := EntriesCovered(recipe.input, resources);
  }

  /** Crafting ability depends on the inputs alone: two recipes with the same inputs agree. */
  lemma FacilityIgnored(a: CraftingRecipe, b: CraftingRecipe, resources: Resources)
    requires a.input == b.input
    ensures InputsHeld(a.input, resources) == InputsHeld(b.input, resources)
  {
  }

  /** A repair kit needs 50 iron and 100 scrap, nothing else. */
  lemma RepairKitNeeds(resources: Resources)
    ensures InputsHeld(Recipes[0].input, resources) <==>
            Amount(resources, "iron") >= 50.0 && Amount(resources, "scrap") >= 100.0
  {
    var input := Recipes[0].input;
    assert input == [("iron", 50.0), ("scrap", 100.0)];
    if Amount(resources, "iron") >= 50.0 && Amount(resources, "scrap") >= 100.0 {
      forall j | 0 <= j < |input|
        ensures Amount(resources, input[j].0) >= input[j].1
      {
        if j == 1 { assert input[j] == ("scrap", 100.0); }
      }
    }
    if InputsHeld(input, resources) {
      assert Amount(resources, input[0].0) >= input[0].1;
      assert Amount(resources, input[1].0) >= input[1].1;
    }
  }
}
