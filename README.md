# Recipe ratings: equality, identity and ordering

A model of `lib/recipe_rating.rb`, a teaching example of Ruby's comparison
protocol. It has two immutable classes:

- `Recipe`, a name paired with a `RecipeRating`;
- `RecipeRating`, a numeric `value` paired with a `reviewer`, with three
  equalities and one ordering:
  - `==` compares the values numerically and ignores the reviewer;
  - `eql?` also requires the same reviewer, and compares the values
    class-sensitively, so 5 is not `eql?` to 5.0;
  - `equal?` is object identity;
  - `<=>` is the three-way comparison of the values.

The model has three modules:

- `Values` (`values.dfy`) holds the numbers a value can be. A value is
  `IntV(int)` or `FloatV(real)`. Ruby's `==`, `eql?` and `<=>` on those
  numbers are functions here, each tied to the quantity the number denotes.
- `RecipeRatings` (`recipe_rating.dfy`) holds the two classes. Their fields
  are `const`, so nothing changes after construction. Both are classes rather
  than datatypes, so Dafny's reference equality gives `equal?`. The argument
  `other` of a comparison is `Other = Rating(r) | NotRating`. This lets the
  model say what happens when a comparison is handed something that is not a
  rating.
- `EqualityScenarios` (`equality_spec.dfy`) holds concrete outcomes. Each is a
  method that builds the objects and promises the outcome. Three are the cases
  the repository's examples check. `IntegerAgainstFloat` and
  `AgainstNonRating` follow from the rating's comparisons; the examples check
  the 5 against 5.0 fact only on bare numbers.

## Model

| member | source | states |
|---|---|---|
| Values.LooseEq | lib/recipe_rating.rb:23 | Ruby `==` on two numbers holds exactly when they denote the same quantity, across Integer and Float |
| Values.StrictEq | lib/recipe_rating.rb:27 | Ruby `eql?` on two numbers holds exactly when class and quantity both match, and it implies `==` |
| Values.Compare | lib/recipe_rating.rb:35 | Ruby `<=>` on two numbers returns -1, 0 or 1; -1 exactly when the first is smaller, 1 exactly when larger, 0 exactly when `==` holds |
| Values.CompareIsTotalPreorder | lib/recipe_rating.rb:35 | `<=>` on numbers is antisymmetric, and both "at most" and "tied" are transitive |
| Values.LooseEqIsNotStrict | spec/equality_spec.rb:23-26 | some pair of numbers (5 and 5.0) is `==` but not `eql?` |
| Values.IntegerIsNeverStrictlyFloat | spec/equality_spec.rb:24-25 | an Integer is never `eql?` to a Float in either order, and is `==` to it exactly when their quantities agree |
| RecipeRatings.RecipeRating.constructor | lib/recipe_rating.rb:15-20 | the new rating's value and reviewer are exactly the arguments |
| RecipeRatings.RecipeRating.Eq | lib/recipe_rating.rb:22-24 | `==` holds exactly when `other` is a rating whose value is numerically equal; the reviewer plays no part; a non-rating gives false |
| RecipeRatings.RecipeRating.Eql | lib/recipe_rating.rb:26-28 | `eql?` holds exactly when `other` is a rating with the identical tagged value and the same reviewer; it implies `==`; a non-rating gives false |
| RecipeRatings.RecipeRating.Equal | lib/recipe_rating.rb:30-32 | `equal?` holds exactly when `other` is this very object, and it implies `eql?` and `==` |
| RecipeRatings.RecipeRating.Compare | lib/recipe_rating.rb:34-36 | `<=>` against a rating (see "Left out" for other arguments) returns -1, 0 or 1 following the numeric order of the values; it is 0 exactly when `==` holds |
| RecipeRatings.Recipe.constructor | lib/recipe_rating.rb:4-10 | the new recipe's name and rating are exactly the arguments; the rating is shared, not copied |
| RecipeRatings.EqualitiesAreEquivalences | lib/recipe_rating.rb:22-32 | `==` and `eql?` are reflexive, symmetric and transitive on ratings; `equal?` is reflexive |
| RecipeRatings.EqlStrictlyFinerThanEq | lib/recipe_rating.rb:22-28 | the converse of "`eql?` implies `==`" fails: the same value with a different reviewer is `==` but not `eql?` |
| RecipeRatings.ReviewerIgnored | lib/recipe_rating.rb:22-24 | changing the reviewer on either side never changes the result of `==` or `<=>` |
| RecipeRatings.CompareIsTotalPreorder | lib/recipe_rating.rb:34-36 | `<=>` on ratings is antisymmetric and transitive |
| EqualityScenarios.SameFieldsTwice | spec/equality_spec.rb:7-8 | two ratings built separately from the same fields are `==` and `eql?` but not `equal?`, while each is `equal?` to itself |
| EqualityScenarios.SameValueOtherReviewer | spec/equality_spec.rb:28-31 | ratings (5, "Alice") and (5, "Bob") are `==` but not `eql?` |
| EqualityScenarios.IntegerAgainstFloat | lib/recipe_rating.rb:22-36 | ratings (5, "Alice") and (5.0, "Alice") are `==` with `<=>` giving 0, but neither is `eql?` to the other |
| EqualityScenarios.AgainstNonRating | lib/recipe_rating.rb:23-27 | `==`, `eql?` and `equal?` against something that is not a rating give false |
| EqualityScenarios.PancakesAndWaffles | spec/equality_spec.rb:5-6 | Pancakes rated 5 and Waffles rated 4: `<=>` gives 1 one way and -1 the other, on the values and on the ratings |

## Left out

- Ruby's wider numeric tower is not modelled: Rational, Complex, BigDecimal and the coercion protocol. A value is an Integer or a Float.
- IEEE float behaviour is not modelled: rounding, infinities and NaN. A Float is its exact real. With a NaN value, Ruby's `r == r` and `r.eql?(r)` are both false while `r.equal?(r)` is true. So the reflexivity of `==` and `eql?`, and the promise that `equal?` implies `eql?` and `==`, hold only because NaN is left out.
- The `nil` that `<=>` returns for incomparable values is not modelled. Within Integer and Float every pair is comparable.
- RecipeRating.Compare: the source does not check the type of `other`. It raises `NoMethodError` when `other` has no `value` method, and it answers for any non-rating object that has one. The model requires `other` to be a rating, so it covers neither of those cases.
- A reviewer can be any Ruby object in the source. Here it is a string of characters, and `eql?` on it is equality of those characters. Ruby's `String#eql?` compares bytes and also requires compatible encodings, so the same text in UTF-8 and in ISO-8859-1 is `eql?` in the model but not in Ruby.
- Subclasses of `RecipeRating`, which `is_a?` would also accept, are not modelled. The repository defines none.
- `hash` is not overridden in the source, so `eql?` ratings may hash differently. Hash-based collections are not part of this model.
- `Recipe` defines no comparison of its own. It keeps Ruby's default identity, and the model adds none. The two pending examples at spec/equality_spec.rb:66-76 define no behaviour.
- The test runner and its matchers are not modelled. The string-identity example at spec/equality_spec.rb:40-45 exercises Ruby's `String`, not repository code.
