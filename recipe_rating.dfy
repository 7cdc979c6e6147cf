/** A recipe and its rating. Both are immutable after construction; a
    rating answers three equalities of growing strictness (`==`, `eql?`,
    `equal?`) and orders itself against another rating with `<=>`. */
module RecipeRatings {
  import opened Values

  /** What a comparison is handed as `other`: a rating, or any object that is
      not one (Ruby's `other.is_a?(RecipeRating)` tells the two apart). */
  datatype Other = Rating(r: RecipeRating) | NotRating

  /** A rating: a numeric `value` and the `reviewer` who gave it. Fields are
      `const`, mirroring the reader-only attributes; references give `equal?`
      its identity semantics. */
  class RecipeRating {
    const value: Num
    const reviewer: string

    /** `RecipeRating.new(value, reviewer)` stores both arguments unchanged. */
    constructor (value: Num, reviewer: string)
      ensures this.value == value && this.reviewer == reviewer
    {
      this.value := value;
      this.reviewer := reviewer;
    }

    /** Ruby `==`: a rating whose value is numerically equal; the reviewer
        plays no part, and anything that is not a rating is unequal. */
    function Eq(other: Other): (b: bool)
      ensures b <==> other.Rating? && Magnitude(other.r.value) == Magnitude(value)
    {
      other.Rating? && LooseEq(value, other.r.value)
    }

    /** Ruby `eql?`: a rating with the same value of the same numeric class and
        the same reviewer; anything that is not a rating is unequal. */
    function Eql(other: Other): (b: bool)
      ensures b <==> other.Rating? && other.r.value == value && other.r.reviewer == reviewer
      ensures b ==> Eq(other)
    {
      other.Rating? && StrictEq(value, other.r.value) && reviewer == other.r.reviewer
    }

    /** Ruby `equal?`, inherited through `super`: the very same object. */
    function Equal(other: Other): (b: bool)
      ensures b <==> other == Rating(this)
      ensures b ==> Eql(other) && Eq(other)
    {
      other.Rating? && other.r == this
    }

    /** Ruby `<=>`: the values' three-way comparison. The source does not check
        the type of `other`: it raises `NoMethodError` when `other` has no
        `value` method, and answers for any object that has one. Here `other`
        must be a rating, which also excludes those non-rating objects. */
    function Compare(other: Other): (c: int)
      requires other.Rating?
      ensures c == -1 || c == 0 || c == 1
      ensures c == 0 <==> Eq(other)
      ensures c == -1 <==> Magnitude(value) < Magnitude(other.r.value)
      ensures c == 1 <==> Magnitude(value) > Magnitude(other.r.value)
    {
      Values.Compare(value, other.r.value)
    }
  }

  /** A recipe: a name and the rating it was given, both fixed at construction. */
  class Recipe {
    const name: string
    const rating: RecipeRating

    /** `Recipe.new(name, rating)` stores both arguments unchanged; the rating
        is held by reference, not copied. */
    constructor (name: string, rating: RecipeRating)
      ensures this.name == name && this.rating == rating
    {
      this.name := name;
      this.rating := rating;
    }
  }

  /** `==` and `eql?` are equivalence relations on ratings, and `equal?` is
      reflexive. */
  lemma EqualitiesAreEquivalences(a: RecipeRating, b: RecipeRating, c: RecipeRating)
    ensures a.Equal(Rating(a)) && a.Eql(Rating(a)) && a.Eq(Rating(a))
    ensures a.Eq(Rating(b)) <==> b.Eq(Rating(a))
    ensures a.Eql(Rating(b)) <==> b.Eql(Rating(a))
    ensures a.Eq(Rating(b)) && b.Eq(Rating(c)) ==> a.Eq(Rating(c))
    ensures a.Eql(Rating(b)) && b.Eql(Rating(c)) ==> a.Eql(Rating(c))
  {
  }

  /** `eql?` is strictly finer than `==`: `Eql` already promises that it implies
      `Eq`, and the converse fails for every pair of ratings with the same
      value and different reviewers. */
  lemma EqlStrictlyFinerThanEq(a: RecipeRating, b: RecipeRating)
    ensures a.value == b.value && a.reviewer != b.reviewer ==> a.Eq(Rating(b)) && !a.Eql(Rating(b))
  {
  }

  /** The reviewer never changes the outcome of `==` or `<=>`, on either side:
      ratings with the same value are interchangeable for both. */
  lemma ReviewerIgnored(a: RecipeRating, a': RecipeRating, b: RecipeRating, b': RecipeRating)
    requires a.value == a'.value && b.value == b'.value
    ensures a.Eq(Rating(b)) == a'.Eq(Rating(b'))
    ensures a.Compare(Rating(b)) == a'.Compare(Rating(b'))
  {
  }

  /** `<=>` on ratings is antisymmetric and transitive (that it returns 0
      exactly when the ratings are `==` is part of `Compare`'s contract). */
  lemma CompareIsTotalPreorder(a: RecipeRating, b: RecipeRating, c: RecipeRating)
    ensures a.Compare(Rating(b)) == -b.Compare(Rating(a))
    ensures a.Compare(Rating(b)) <= 0 && b.Compare(Rating(c)) <= 0 ==> a.Compare(Rating(c)) <= 0
  {
  }
}
