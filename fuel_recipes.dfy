// Refinery recipes that turn raw resources into fuel (constants/fuelRecipes.ts).

module FuelRecipes {
  import opened GameTypes

  /** A resource and an amount of it. */
  datatype Portion = Portion(resource: string, amount: real)

  /** A refinery recipe; `requiredFacility` None means always available. */
  datatype FuelRecipe = FuelRecipe(id: string, input: Portion, output: Portion, requiredFacility: Option<string>)

  /** `FUEL_RECIPES`, in catalogue order. */
  const Recipes: seq<FuelRecipe> := [
    FuelRecipe("clay_to_oil", Portion("clay", 100.0), Portion("oil", 10.0), Some("basic_refinery")),
    FuelRecipe("stone_to_gas", Portion("stone", 50.0), Portion("gas", 10.0), Some("basic_refinery")),
    FuelRecipe("coal_to_oil", Portion("coal", 20.0), Portion("oil", 15.0), Some("advanced_refinery"))
  ]

  /** Recipe ids are distinct and every amount is positive. */
  lemma CatalogueWellFormed()
    ensures forall i, j :: 0 <= i < j < |Recipes| ==> Recipes[i].id != Recipes[j].id
    ensures forall i :: 0 <= i < |Recipes| ==> Recipes[i].input.amount > 0.0 && Recipes[i].output.amount > 0.0
  {
  }

  /** `getRecipeById`: the recipe with that id, if any. */
  function GetRecipeById(id: string): (r: Option<FuelRecipe>)
    ensures r.None? <==> forall i :: 0 <= i < |Recipes| ==> Recipes[i].id != id
    ensures r.Some? ==> r.value.id == id && r.value in Recipes
  {
    if id == Recipes[0].id then Some(Recipes[0])
    else if id == Recipes[1].id then Some(Recipes[1])
    else if id == Recipes[2].id then Some(Recipes[2])
    else None
  }

  /** The facility check: a required facility (a non-empty id) must be among `facilities`. */
  predicate HasFacility(recipe: FuelRecipe, facilities: seq<string>)
  {
    !(recipe.requiredFacility.Some? && recipe.requiredFacility.value != "" && recipe.requiredFacility.value !in facilities)
  }

  /** `canCraftRecipe` for a refinery recipe. */
  function CanCraftRecipe(recipe: FuelRecipe, resources: Resources, facilities: seq<string>): (ok: bool)
    ensures ok <==> HasFacility(recipe, facilities) && Amount(resources, recipe.input.resource) >= recipe.input.amount
  {
    if recipe.requiredFacility.Some? && recipe.requiredFacility.value != "" && recipe.requiredFacility.value !in facilities then false
    else
      var available := Amount(resources, recipe.input.resource);
      available >= recipe.input.amount
  }

  /** More stock of the input and more facilities never make a recipe uncraftable. */
  lemma CraftableStaysCraftable(recipe: FuelRecipe, r1: Resources, r2: Resources, f1: seq<string>, f2: seq<string>)
    requires Amount(r1, recipe.input.resource) <= Amount(r2, recipe.input.resource)
    requires forall f :: f in f1 ==> f in f2
    requires CanCraftRecipe(recipe, r1, f1)
    ensures CanCraftRecipe(recipe, r2, f2)
  {
  }

  /** No catalogue recipe can be run without a refinery. */
  lemma EveryRecipeNeedsARefinery(resources: Resources, i: nat)
    requires i < |Recipes|
    ensures !CanCraftRecipe(Recipes[i], resources, [])
  {
  }
}
