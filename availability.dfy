/**
 * `getAvailabilityStatus` (src/components/MapView.tsx): the share of free places, in three bands.
 * The contract states the source's real-valued ratio test; the body decides each band by integer
 * cross-multiplication, and `Thresholds` restates the bands as those integer tests. A zero
 * total is not excluded: it follows JavaScript's division
 * (`x / 0` is `Infinity` for `x > 0`, `NaN` for `x == 0`, `-Infinity` for `x < 0`).
 */
module Availability {

  /** The status colour name: `'green' | 'yellow' | 'red'`. */
  datatype Band = Green | Yellow | Red

  /** The object the classifier returns: `{color, label}` (its `label` is `text` here: `label` is a Dafny keyword). */
  datatype Status = Status(color: Band, text: string)

  function Label(b: Band): string {
    match b
    case Green => "Plenty of parking left"
    case Yellow => "Moderate parking"
    case Red => "Limited parking"
  }

  /** Red is the worst band, Green the best. */
  function Rank(b: Band): nat {
    match b
    case Red => 0
    case Yellow => 1
    case Green => 2
  }

  /** For a nonzero total, `a / t > k` is the same as the cross-multiplied comparison. */
  lemma RatioAbove(a: int, t: int, num: int, den: int)
    requires t != 0 && den > 0
    ensures (a as real / t as real > num as real / den as real) <==>
            (if t > 0 then den * a > num * t else den * a < num * t)
  {
    var r := a as real / t as real;
    var k := num as real / den as real;
    assert r * t as real == a as real;
    assert k * den as real == num as real;
    if t > 0 {
      assert r > k <==> r * t as real * den as real > k * den as real * t as real;
    } else {
      assert r > k <==> r * t as real * den as real < k * den as real * t as real;
    }
  }

  /** The source's comparison `available / total > k` for a nonzero total, on exact reals. */
  predicate RatioExceeds(available: int, total: int, k: real)
    requires total != 0
  {
    available as real / total as real > k
  }

  /**
   * The band of `getAvailabilityStatus`. The body decides by integer cross-multiplication; the
   * contract states that this is the source's ratio test: above one half is Green, above one
   * fifth Yellow, otherwise Red.
   */
  function Classify(available: int, total: int): (b: Band)
    ensures total != 0 ==> (b == Green <==> RatioExceeds(available, total, 0.5))
    ensures total != 0 ==> (b == Yellow <==> !RatioExceeds(available, total, 0.5) && RatioExceeds(available, total, 0.2))
    ensures total != 0 ==> (b == Red <==> !RatioExceeds(available, total, 0.2))
    ensures total == 0 ==> (b == Green <==> available > 0) && b != Yellow
  {
    if total == 0 then
      // Infinity > 0.5 holds; NaN and -Infinity compare false against both thresholds.
      if available > 0 then Green else Red
    else
      RatioAbove(available, total, 1, 2);
      RatioAbove(available, total, 1, 5);
      var aboveHalf := if total > 0 then 2 * available > total else 2 * available < total;
      var aboveFifth := if total > 0 then 5 * available > total else 5 * available < total;
      if aboveHalf then Green else if aboveFifth then Yellow else Red
  }

  /**
   * `getAvailabilityStatus(available, total)`: each band comes with its own label, chosen by
   * the ratio's thresholds.
   */
  function GetAvailabilityStatus(available: int, total: int): (s: Status)
    ensures total != 0 ==>
              (s == Status(Green, "Plenty of parking left") <==> RatioExceeds(available, total, 0.5))
    ensures total != 0 ==>
              (s == Status(Yellow, "Moderate parking") <==>
                 !RatioExceeds(available, total, 0.5) && RatioExceeds(available, total, 0.2))
    ensures total != 0 ==>
              (s == Status(Red, "Limited parking") <==> !RatioExceeds(available, total, 0.2))
    ensures total == 0 ==>
              s == (if available > 0 then Status(Green, "Plenty of parking left") else Status(Red, "Limited parking"))
  {
    var band := Classify(available, total);
    Status(band, Label(band))
  }

  /** For a positive total the bands are the integer thresholds `2a > t` and `5a > t`. */
  lemma Thresholds(available: int, total: int)
    requires total > 0
    ensures Classify(available, total) == Green <==> 2 * available > total
    ensures Classify(available, total) == Red <==> 5 * available <= total
  {
  }

  /** With the total fixed, more free places never give a worse band. */
  lemma Monotone(a1: int, a2: int, total: int)
    requires total > 0 && a1 <= a2
    ensures Rank(Classify(a1, total)) <= Rank(Classify(a2, total))
  {
  }

  /** The boundaries: a ratio of exactly one half is Moderate and exactly one fifth is Limited. */
  lemma Boundaries()
    ensures GetAvailabilityStatus(51, 100).color == Green
    ensures GetAvailabilityStatus(1, 2).color == Yellow
    ensures GetAvailabilityStatus(21, 100).color == Yellow
    ensures GetAvailabilityStatus(1, 5) == Status(Red, "Limited parking")
    ensures GetAvailabilityStatus(0, 7) == Status(Red, "Limited parking")
  {
  }
}
