/**
 * The rating line of a customer testimonial: as many filled-star HTML
 * entities as the rating, then empty-star entities up to five.
 */
module Temoignages {

  /** HTML entity of the filled star. */
  const EtoilePleine: string := "&#9733;"
  /** HTML entity of the empty star. */
  const EtoileVide: string := "&#9734;"
  /** Both entities have the same width, in characters. */
  const Largeur: nat := 7

  /** Python's `s * n`: `n` copies of `s` end to end, the empty string when `n <= 0`. */
  function Repeat(s: string, n: int): (r: string)
    ensures |r| == if n <= 0 then 0 else n * |s|
    decreases n
  {
    if n <= 0 then "" else s + Repeat(s, n - 1)
  }

  /** Copy `k` of `s` sits at offset `k * |s|` of the repetition. */
  lemma {:induction false} RepeatBlock(s: string, n: int, k: int)
    requires 0 <= k < n
    ensures (k + 1) * |s| <= |Repeat(s, n)|
    ensures Repeat(s, n)[k * |s| .. (k + 1) * |s|] == s
    decreases n
  {
    var w := |s|;
    if k > 0 {
      RepeatBlock(s, n - 1, k - 1);
      assert k * w == (k - 1) * w + w && (k + 1) * w == k * w + w;
      assert Repeat(s, n) == s + Repeat(s, n - 1);
    }
  }

  /** The `i`-th star entity of a rating line. */
  function Block(r: string, i: nat): string
    requires Largeur * (i + 1) <= |r|
  {
    r[Largeur * i .. Largeur * (i + 1)]
  }

  /** The number of filled stars the line shows for a rating. */
  function Pleines(stars: int): nat {
    if stars < 0 then 0 else stars
  }

  /** The number of empty stars the line shows for a rating. */
  function Vides(stars: int): nat {
    if stars > 5 then 0 else 5 - stars
  }

  /** The rating line of one testimonial (`stars_full`). */
  function StarsFull(stars: int): (r: string)
    ensures |r| == Largeur * (Pleines(stars) + Vides(stars))
    ensures forall i :: 0 <= i < Pleines(stars) ==> Block(r, i) == EtoilePleine
    ensures forall i :: Pleines(stars) <= i < Pleines(stars) + Vides(stars) ==> Block(r, i) == EtoileVide
  {
    StarBlocks(stars);
    Repeat(EtoilePleine, stars) + Repeat(EtoileVide, 5 - stars)
  }

  /** Where each entity of the two repetitions lands once they are put end to end. */
  lemma StarBlocks(stars: int)
    ensures var r := Repeat(EtoilePleine, stars) + Repeat(EtoileVide, 5 - stars);
      && |r| == Largeur * (Pleines(stars) + Vides(stars))
      && (forall i :: 0 <= i < Pleines(stars) ==> Block(r, i) == EtoilePleine)
      && (forall i :: Pleines(stars) <= i < Pleines(stars) + Vides(stars) ==> Block(r, i) == EtoileVide)
  {
    var full, empty := Repeat(EtoilePleine, stars), Repeat(EtoileVide, 5 - stars);
    var r := full + empty;
    var p := Pleines(stars);
    forall i | 0 <= i < p ensures Block(r, i) == EtoilePleine {
      RepeatBlock(EtoilePleine, stars, i);
      assert Block(r, i) == full[Largeur * i .. Largeur * (i + 1)];
    }
    forall i | p <= i < p + Vides(stars) ensures Block(r, i) == EtoileVide {
      RepeatBlock(EtoileVide, 5 - stars, i - p);
      assert Block(r, i) == empty[Largeur * (i - p) .. Largeur * (i - p + 1)];
    }
  }

  /** For a rating from 0 to 5 the line holds exactly five stars, the first `stars` of them filled. */
  lemma FiveStarsInRange(stars: int)
    requires 0 <= stars <= 5
    ensures |StarsFull(stars)| == 5 * Largeur
    ensures forall i :: 0 <= i < 5 ==> (Block(StarsFull(stars), i) == EtoilePleine <==> i < stars)
  {
    var r := StarsFull(stars);
    forall i | 0 <= i < 5 ensures Block(r, i) == EtoilePleine <==> i < stars {
      if i >= stars {
        assert Block(r, i) == EtoileVide;
      }
    }
  }
}
