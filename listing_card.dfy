/** The listing card's food icon, chosen from the food type. */
module ListingCard {
  import opened Text

  datatype FoodIconKind = Pizza | Salad | CakeSlice | Soup | Utensils

  /** `FoodIcon`: the first keyword group the lower-cased food type contains decides the icon. */
  function FoodIcon(foodType: string): FoodIconKind {
    var t := Lower(foodType);
    if Contains(t, "pizza") then Pizza
    else if Contains(t, "salad") || Contains(t, "vegetable") then Salad
    else if Contains(t, "bakery") || Contains(t, "bread") || Contains(t, "cake") then CakeSlice
    else if Contains(t, "soup") || Contains(t, "stew") then Soup
    else Utensils
  }

  /** The keyword occurs somewhere in the lower-cased food type. */
  ghost predicate Has(foodType: string, keyword: string) {
    IsSubstring(keyword, Lower(foodType))
  }

  /** Each icon is chosen exactly when its keywords occur and no earlier group's keywords do. */
  lemma FoodIconIff(foodType: string)
    ensures FoodIcon(foodType) == Pizza <==> Has(foodType, "pizza")
    ensures FoodIcon(foodType) == Salad <==>
      !Has(foodType, "pizza") && (Has(foodType, "salad") || Has(foodType, "vegetable"))
    ensures FoodIcon(foodType) == CakeSlice <==>
      && !Has(foodType, "pizza") && !Has(foodType, "salad") && !Has(foodType, "vegetable")
      && (Has(foodType, "bakery") || Has(foodType, "bread") || Has(foodType, "cake"))
    ensures FoodIcon(foodType) == Soup <==>
      && !Has(foodType, "pizza") && !Has(foodType, "salad") && !Has(foodType, "vegetable")
      && !Has(foodType, "bakery") && !Has(foodType, "bread") && !Has(foodType, "cake")
      && (Has(foodType, "soup") || Has(foodType, "stew"))
    ensures FoodIcon(foodType) == Utensils <==>
      && !Has(foodType, "pizza") && !Has(foodType, "salad") && !Has(foodType, "vegetable")
      && !Has(foodType, "bakery") && !Has(foodType, "bread") && !Has(foodType, "cake")
      && !Has(foodType, "soup") && !Has(foodType, "stew")
  {
    var t := Lower(foodType);
    ContainsIff(t, "pizza");
    ContainsIff(t, "salad");
    ContainsIff(t, "vegetable");
    ContainsIff(t, "bakery");
    ContainsIff(t, "bread");
    ContainsIff(t, "cake");
    ContainsIff(t, "soup");
    ContainsIff(t, "stew");
  }

  /** The icon depends only on the lower-cased food type: lower-casing first changes nothing. */
  lemma FoodIconCaseInsensitive(a: string, b: string)
    ensures FoodIcon(Lower(a)) == FoodIcon(a)
    ensures Lower(a) == Lower(b) ==> FoodIcon(a) == FoodIcon(b)
  {
    LowerIdempotent(a);
  }
}
