/** Concrete outcomes, each stated as a method that builds the objects
    involved and promises the outcome. Three are the cases the repository's
    examples check on ratings and recipes; IntegerAgainstFloat and
    AgainstNonRating follow from the rating's comparisons themselves. */
module EqualityScenarios {
  import opened Values
  import opened RecipeRatings

  /** Two ratings built separately from the same fields: `==` and `eql?` to one
      another, `equal?` only to themselves. */
  method SameFieldsTwice(value: Num, reviewer: string) returns (a: RecipeRating, b: RecipeRating)
    ensures a.value == value && a.reviewer == reviewer
    ensures b.value == value && b.reviewer == reviewer
    ensures a.Eq(Rating(b)) && a.Eql(Rating(b))
    ensures !a.Equal(Rating(b)) && a.Equal(Rating(a))
  {
    a := new RecipeRating(value, reviewer);
    b := new RecipeRating(value, reviewer);
  }

  /** Ratings (5, "Alice") and (5, "Bob"): `==` but not `eql?`. */
  method SameValueOtherReviewer() returns (a: RecipeRating, c: RecipeRating)
    ensures a.value == IntV(5) && a.reviewer == "Alice"
    ensures c.value == IntV(5) && c.reviewer == "Bob"
    ensures a.Eq(Rating(c)) && !a.Eql(Rating(c))
  {
    a := new RecipeRating(IntV(5), "Alice");
    c := new RecipeRating(IntV(5), "Bob");
  }

  /** Ratings (5, "Alice") and (5.0, "Alice"): `==`, and `<=>` gives 0, but they
      are not `eql?` because an Integer is not `eql?` to a Float. */
  method IntegerAgainstFloat() returns (a: RecipeRating, f: RecipeRating)
    ensures a.value == IntV(5) && a.reviewer == "Alice"
    ensures f.value == FloatV(5.0) && f.reviewer == "Alice"
    ensures a.Eq(Rating(f)) && a.Compare(Rating(f)) == 0
    ensures !a.Eql(Rating(f)) && !f.Eql(Rating(a))
  {
    a := new RecipeRating(IntV(5), "Alice");
    f := new RecipeRating(FloatV(5.0), "Alice");
  }

  /** Any rating against something that is not a rating: `==`, `eql?` and
      `equal?` all answer false. */
  method AgainstNonRating(value: Num, reviewer: string) returns (a: RecipeRating)
    ensures a.value == value && a.reviewer == reviewer
    ensures !a.Eq(NotRating) && !a.Eql(NotRating) && !a.Equal(NotRating)
  {
    a := new RecipeRating(value, reviewer);
  }

  /** Pancakes rated (5, "Alice") and Waffles rated (4, "Bob"): the first
      value is larger, and `<=>` says so from both sides. */
  method PancakesAndWaffles() returns (pancakes: Recipe, waffles: Recipe)
    ensures pancakes.name == "Pancakes" && pancakes.rating.value == IntV(5)
    ensures pancakes.rating.reviewer == "Alice"
    ensures waffles.name == "Waffles" && waffles.rating.value == IntV(4)
    ensures waffles.rating.reviewer == "Bob"
    ensures Compare(pancakes.rating.value, waffles.rating.value) == 1
    ensures Compare(waffles.rating.value, pancakes.rating.value) == -1
    ensures pancakes.rating.Compare(Rating(waffles.rating)) == 1
    ensures waffles.rating.Compare(Rating(pancakes.rating)) == -1
  {
    var five := new RecipeRating(IntV(5), "Alice");
    var four := new RecipeRating(IntV(4), "Bob");
    pancakes := new Recipe("Pancakes", five);
    waffles := new Recipe("Waffles", four);
  }
}
