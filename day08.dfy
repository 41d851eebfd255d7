/**
 * Day 8: the Space Image Format.  An image is a run of pixel values split
 * into layers of `w * h` pixels; part 1 checks the layer with the fewest
 * zeros, part 2 composites the layers front to back, 2 being transparent.
 */
module Day08 {
  import opened Text

  /** `Sif<W, H>`: the layer size `w * h` and the pixel values. */
  datatype Sif = Sif(w: nat, h: nat, pixels: seq<int>)
  {
    function Size(): nat
    {
      w * h
    }

    /** The number of whole layers. */
    function Layers(): nat
      requires Size() > 0
    {
      |pixels| / Size()
    }

    /** Layer `k`, as `chunks(w * h)` yields it. */
    function Layer(k: nat): (l: seq<int>)
      requires Size() > 0 && |pixels| % Size() == 0 && k < Layers()
      ensures |l| == Size()
    {
      LayerFits(|pixels|, Size(), k);
      pixels[k * Size()..(k + 1) * Size()]
    }
  }

  /** The `k`-th chunk of a length divisible by `size` lies inside it. */
  lemma LayerFits(len: nat, size: nat, k: nat)
    requires size > 0 && len % size == 0 && k < len / size
    ensures (k + 1) * size <= len
  {
    var q := len / size;
    assert len == q * size + len % size;
    var rest: nat := q - (k + 1);
    assert rest * size >= 0;
    assert q * size == (k + 1) * size + rest * size;
  }

  /** `Sif::from_str`: one value per character; `None` for a count that is no multiple of `w * h` (or a panicking character). */
  function Parse(s: string, w: nat, h: nat): (r: Option<Sif>)
    ensures r.Some? ==> r.value.w == w && r.value.h == h && |r.value.pixels| == |s|
    ensures r.Some? ==> w * h > 0 && |s| % (w * h) == 0
    ensures r.Some? ==> forall i :: 0 <= i < |s| ==> DigitOf(s[i]).Some? && r.value.pixels[i] == DigitOf(s[i]).value
    ensures w * h > 0 && |s| % (w * h) == 0 && (forall i :: 0 <= i < |s| ==> IsDigit(s[i])) ==> r.Some?
  {
    if exists i :: 0 <= i < |s| && DigitOf(s[i]).None? then None
    else if w * h == 0 || |s| % (w * h) != 0 then None
    else Some(Sif(w, h, seq(|s|, i requires 0 <= i < |s| => DigitOf(s[i]).value)))
  }

  /** The number of entries of `l` equal to `v`. */
  function Count(l: seq<int>, v: int): (n: nat)
    ensures n <= |l|
    ensures n == multiset(l)[v]
  {
    if |l| == 0 then 0
    else
      assert l == l[..|l| - 1] + [l[|l| - 1]];
      Count(l[..|l| - 1], v) + (if l[|l| - 1] == v then 1 else 0)
  }

  /** A well-formed image: a positive layer size that divides the pixel count. */
  predicate Valid(img: Sif)
  {
    img.Size() > 0 && |img.pixels| % img.Size() == 0
  }

  function Zeros(img: Sif, k: nat): nat
    requires Valid(img) && k < img.Layers()
  {
    Count(img.Layer(k), 0)
  }

  /** `min_by_key` over the first `n` layers: the first layer with the fewest zeros. */
  function FewestZeros(img: Sif, n: nat): (k: nat)
    requires Valid(img) && 0 < n <= img.Layers()
    ensures k < n
    ensures forall j :: 0 <= j < n ==> Zeros(img, k) <= Zeros(img, j)
    ensures forall j :: 0 <= j < k ==> Zeros(img, j) > Zeros(img, k)
  {
    if n == 1 then 0
    else
      var best := FewestZeros(img, n - 1);
      if Zeros(img, n - 1) < Zeros(img, best) then n - 1 else best
  }

  /** `Sif::part1`: ones times twos in the layer with the fewest zeros; `None` where `unwrap` meets no layer at all. */
  function Part1(img: Sif): (r: Option<nat>)
    requires Valid(img)
    ensures r.None? <==> |img.pixels| == 0
    ensures r.Some? ==> exists k :: (0 <= k < img.Layers() &&
      (forall j :: 0 <= j < k ==> Zeros(img, j) > Zeros(img, k)) &&
      (forall j :: 0 <= j < img.Layers() ==> Zeros(img, k) <= Zeros(img, j)) &&
      r.value == Count(img.Layer(k), 1) * Count(img.Layer(k), 2))
  {
    NoLayers(img);
    if img.Layers() == 0 then None
    else
      var k := FewestZeros(img, img.Layers());
      Some(Times(Count(img.Layer(k), 1), Count(img.Layer(k), 2)))
  }

  function Times(a: nat, b: nat): nat
  {
    a * b
  }

  /** An image has no layers exactly when it has no pixels. */
  lemma NoLayers(img: Sif)
    requires Valid(img)
    ensures img.Layers() == 0 <==> |img.pixels| == 0
  {
    var q := img.Layers();
    assert |img.pixels| == q * img.Size();
  }

  /** The frontmost value that is not 2 at position `i`, among layers `from` to the last; 2 when all are transparent. */
  function Front(img: Sif, i: nat, from: nat): int
    requires Valid(img) && i < img.Size() && from <= img.Layers()
    decreases img.Layers() - from
  {
    if from == img.Layers() then 2
    else if img.Layer(from)[i] != 2 then img.Layer(from)[i]
    else Front(img, i, from + 1)
  }

  /** A pixel shows 2 exactly when every layer from `from` on is transparent there, and otherwise the frontmost other value. */
  lemma {:induction false} FrontMeaning(img: Sif, i: nat, from: nat)
    requires Valid(img) && i < img.Size() && from <= img.Layers()
    ensures Front(img, i, from) == 2 <==> forall k :: from <= k < img.Layers() ==> img.Layer(k)[i] == 2
    ensures Front(img, i, from) != 2 ==>
      exists k :: (from <= k < img.Layers() && img.Layer(k)[i] == Front(img, i, from) &&
                   forall j :: from <= j < k ==> img.Layer(j)[i] == 2)
    decreases img.Layers() - from
  {
    if from < img.Layers() && img.Layer(from)[i] == 2 {
      FrontMeaning(img, i, from + 1);
    }
  }

  /** The composited picture. */
  function Composite(img: Sif): (c: seq<int>)
    requires Valid(img)
    ensures |c| == img.Size()
  {
    seq(img.Size(), i requires 0 <= i < img.Size() => Front(img, i, 0))
  }

  /**
   * `Sif::part2`: start from a transparent picture and lay every layer over
   * it from the back to the front, in place.
   */
  method Part2(img: Sif) returns (r: seq<int>)
    requires Valid(img)
    ensures r == Composite(img)
  {
    var size := img.w * img.h;
    var v := new int[size](_ => 2);
    var k := img.Layers();
    while k > 0
      invariant 0 <= k <= img.Layers()
      invariant forall i :: 0 <= i < size ==> v[i] == Front(img, i, k)
    {
      k := k - 1;
      var layer := img.Layer(k);
      Overlay(v, layer);
      forall i | 0 <= i < size
        ensures v[i] == Front(img, i, k)
      {
        assert Front(img, i, k) == if layer[i] != 2 then layer[i] else Front(img, i, k + 1);
      }
    }
    r := v[..];
  }

  /** The `iter_mut().zip(layer)` pass: every pixel of `layer` that is not transparent replaces the one below. */
  method Overlay(v: array<int>, layer: seq<int>)
    requires v.Length == |layer|
    modifies v
    ensures forall i :: 0 <= i < v.Length ==> v[i] == if layer[i] != 2 then layer[i] else old(v[i])
  {
    for i := 0 to v.Length
      invariant forall j :: 0 <= j < i ==> v[j] == if layer[j] != 2 then layer[j] else old(v[j])
      invariant forall j :: i <= j < v.Length ==> v[j] == old(v[j])
    {
      if layer[i] != 2 {
        v[i] := layer[i];
      }
    }
  }

  /** A single layer composites to itself. */
  lemma SingleLayer(img: Sif)
    requires Valid(img) && img.Layers() == 1
    ensures Composite(img) == img.pixels
  {
    forall i | 0 <= i < img.Size()
      ensures Composite(img)[i] == img.pixels[i]
    {
      assert img.Layer(0)[i] == img.pixels[i];
      assert Front(img, i, 1) == 2;
    }
  }

  /** The first sample parses to the pixel values of its digits. */
  lemma ParseExample1(s: string)
    requires s == "123456789012"
    ensures Parse(s, 3, 2) == Some(Sif(3, 2, [1, 2, 3, 4, 5, 6, 7, 8, 9, 0, 1, 2]))
  {
    assert forall i :: 0 <= i < |s| ==> IsDigit(s[i]);
    var p := Parse(s, 3, 2).value.pixels;
    assert p == [1, 2, 3, 4, 5, 6, 7, 8, 9, 0, 1, 2];
  }

  lemma FirstLayerCounts(l: seq<int>)
    requires l == [1, 2, 3, 4, 5, 6]
    ensures Count(l, 0) == 0 && Count(l, 1) == 1 && Count(l, 2) == 1
  {
    assert l[..5] == [1, 2, 3, 4, 5];
    assert l[..5][..4] == [1, 2, 3, 4];
    assert l[..5][..4][..3] == [1, 2, 3];
    assert l[..5][..4][..3][..2] == [1, 2];
    assert l[..5][..4][..3][..2][..1] == [1];
  }

  /** The sample image of three by two pixels has a product of 1 in its first layer. */
  lemma Part1Example(img: Sif)
    requires img == Sif(3, 2, [1, 2, 3, 4, 5, 6, 7, 8, 9, 0, 1, 2])
    ensures Part1(img) == Some(1)
  {
    assert img.Layers() == 2;
    var l0 := img.Layer(0);
    assert l0 == img.pixels[0..6] == [1, 2, 3, 4, 5, 6];
    FirstLayerCounts(l0);
    var k := FewestZeros(img, img.Layers());
    assert k == 0;
    assert Part1(img) == Some(Times(Count(l0, 1), Count(l0, 2)));
    assert Count(l0, 1) == 1 && Count(l0, 2) == 1;
  }

  /** The second sample parses to the pixel values of its digits. */
  lemma ParseExample2(s: string)
    requires s == "0222112222120000"
    ensures Parse(s, 2, 2) == Some(Sif(2, 2, [0, 2, 2, 2, 1, 1, 2, 2, 2, 2, 1, 2, 0, 0, 0, 0]))
  {
    assert forall i :: 0 <= i < |s| ==> IsDigit(s[i]);
    var p := Parse(s, 2, 2).value.pixels;
    assert p == [0, 2, 2, 2, 1, 1, 2, 2, 2, 2, 1, 2, 0, 0, 0, 0];
  }

  /** The layers of the two-by-two sample. */
  lemma SampleLayers(img: Sif)
    requires img == Sif(2, 2, [0, 2, 2, 2, 1, 1, 2, 2, 2, 2, 1, 2, 0, 0, 0, 0])
    ensures Valid(img) && img.Size() == 4 && img.Layers() == 4
    ensures img.Layer(0) == [0, 2, 2, 2] && img.Layer(1) == [1, 1, 2, 2]
    ensures img.Layer(2) == [2, 2, 1, 2] && img.Layer(3) == [0, 0, 0, 0]
  {
  }

  /** What shows through at each pixel, given only the layers of the sample. */
  lemma SampleFronts(img: Sif)
    requires Valid(img) && img.Size() == 4 && img.Layers() == 4
    requires img.Layer(0) == [0, 2, 2, 2] && img.Layer(1) == [1, 1, 2, 2]
    requires img.Layer(2) == [2, 2, 1, 2] && img.Layer(3) == [0, 0, 0, 0]
    ensures Front(img, 0, 0) == 0 && Front(img, 1, 0) == 1 && Front(img, 2, 0) == 1 && Front(img, 3, 0) == 0
  {
    assert Front(img, 1, 0) == Front(img, 1, 1);
    assert Front(img, 2, 0) == Front(img, 2, 1) == Front(img, 2, 2);
    assert Front(img, 3, 0) == Front(img, 3, 1) == Front(img, 3, 2) == Front(img, 3, 3);
  }

  /** The sample image of two by two pixels composites to black, white, white, black. */
  lemma Part2Example(img: Sif)
    requires img == Sif(2, 2, [0, 2, 2, 2, 1, 1, 2, 2, 2, 2, 1, 2, 0, 0, 0, 0])
    ensures Composite(img) == [0, 1, 1, 0]
  {
    SampleLayers(img);
    SampleFronts(img);
    CompositeOfFour(img);
  }

  /** A four-pixel picture lists what shows through at each pixel. */
  lemma CompositeOfFour(img: Sif)
    requires Valid(img) && img.Size() == 4
    ensures Composite(img) == [Front(img, 0, 0), Front(img, 1, 0), Front(img, 2, 0), Front(img, 3, 0)]
  {
  }
}
