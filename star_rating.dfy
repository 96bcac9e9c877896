/** The five-star rating control. Ratings arrive as `number | null`. */
module StarRating {
  import opened Types

  /** `hoverRating ?? rating ?? 0`: only a missing value falls through. */
  function CurrentRating(hover: Option<int>, rating: Option<int>): (r: int)
    ensures hover.Some? ==> r == hover.value
    ensures hover.None? && rating.Some? ==> r == rating.value
    ensures hover.None? && rating.None? ==> r == 0
  {
    if hover.Some? then hover.value else if rating.Some? then rating.value else 0
  }

  /** Star `star` (1 to 5) is drawn filled when it is at most the current
      rating. */
  predicate Filled(star: int, current: int) {
    star <= current
  }

  /** The five stars, first to last. */
  function Stars(current: int): (r: seq<bool>)
    ensures |r| == 5
  {
    seq(5, i requires 0 <= i < 5 => Filled(i + 1, current))
  }

  /** The filled stars form a prefix whose length is the current rating held
      between 0 and 5. */
  lemma FilledPrefix(current: int)
    ensures var n := if current < 0 then 0 else if current > 5 then 5 else current;
      forall i :: 0 <= i < 5 ==> (Stars(current)[i] <==> i < n)
  {
  }

  /** getRatingColor. */
  function RatingColor(r: int): string {
    if r >= 5 then "text-green-500"
    else if r >= 4 then "text-green-400"
    else if r >= 3 then "text-yellow-400"
    else if r >= 2 then "text-orange-400"
    else "text-orange-500"
  }

  /** The band of a rating: below 2, then 2, 3, 4, and 5 or more. */
  function Band(r: int): (b: int)
    ensures 0 <= b <= 4
  {
    if r <= 1 then 0 else if r >= 5 then 4 else r - 1
  }

  /** One colour per band: two ratings share a colour exactly when they share
      a band. */
  lemma RatingColorPerBand(a: int, b: int)
    ensures RatingColor(a) == RatingColor(b) <==> Band(a) == Band(b)
  {
    var colors := ["text-orange-500", "text-orange-400", "text-yellow-400", "text-green-400", "text-green-500"];
    assert RatingColor(a) == colors[Band(a)] && RatingColor(b) == colors[Band(b)];
    assert forall i, j :: 0 <= i < j < 5 ==>
      (colors[i][|colors[i]| - 3] != colors[j][|colors[j]| - 3] || colors[i][5] != colors[j][5]);
  }

  /** getRatingLabel: '' for a missing or zero rating, then one word per
      star count, with 'Okay' for everything else. */
  function RatingLabel(r: Option<int>): (s: string)
    ensures s == "" <==> r.None? || r.value == 0
  {
    if r.None? || r.value == 0 then ""
    else if r.value == 5 then "Excellent"
    else if r.value == 4 then "Very Good"
    else if r.value == 3 then "Good"
    else if r.value == 2 then "Fair"
    else "Okay"
  }

  /** On the five valid ratings the label tells them apart. */
  lemma RatingLabelInjective(a: Rating, b: Rating)
    requires a != b
    ensures RatingLabel(Some(a)) != RatingLabel(Some(b))
  {
    var labels := ["Okay", "Fair", "Good", "Very Good", "Excellent"];
    assert RatingLabel(Some(a)) == labels[a - 1] && RatingLabel(Some(b)) == labels[b - 1];
    assert forall i, j :: 0 <= i < j < 5 ==> labels[i] != labels[j] by {
      assert labels[0][0] == 'O' && labels[1][0] == 'F' && labels[2][0] == 'G';
      assert labels[3][0] == 'V' && labels[4][0] == 'E';
    }
  }

  /** A star's click: the star's own value, unless the control is read-only. */
  function StarClicked(star: int, readonly: bool): (r: Option<Rating>)
    requires 1 <= star <= 5
    ensures r.Some? <==> !readonly
    ensures r.Some? ==> r.value == star
  {
    if readonly then None else Some(star)
  }

  /** Hovering: entering a star previews it, leaving clears the preview; a
      read-only control never previews. */
  function Hovered(star: Option<int>, readonly: bool, hover: Option<int>): (r: Option<int>)
    ensures readonly ==> r == hover
    ensures !readonly ==> r == star
  {
    if readonly then hover else star
  }

  /** A read-only control shows the stored rating, or 0 without one. */
  lemma ReadonlyShowsRating(star: Option<int>, rating: Option<int>)
    ensures CurrentRating(Hovered(star, true, None), rating) == if rating.Some? then rating.value else 0
  {
  }
}
