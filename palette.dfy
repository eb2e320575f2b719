/**
 * The glue around the clustering in main: which pixels become samples, how the palette strip is laid
 * out, and the name of the file it is written to.
 */
module Palette {
  import opened Colors

  // ------------------------------------------------------------------ sampling the image

  /**
   * A decoded pixel: its color, and the saturation and value go-colorful's Hsv reports for it
   * (that conversion is foreign, so both are given with the pixel).
   */
  datatype Pixel = Pixel(color: Color, saturation: real, value: real)

  /** The filter main applies: only vivid pixels (S > 0.5 and V > 0.5) become samples. */
  predicate Vivid(p: Pixel) {
    p.saturation > 0.5 && p.value > 0.5
  }

  /** The sample a kept pixel becomes: its color with the zero-valued label of a fresh imageVector. */
  function Sample(p: Pixel): ImageVector {
    ImageVector(p.color, 0)
  }

  /** The rows of an image, one after the other. */
  function RowMajor(image: seq<seq<Pixel>>): seq<Pixel>
    decreases |image|
  {
    if image == [] then [] else RowMajor(image[..|image| - 1]) + image[|image| - 1]
  }

  /** The samples of the vivid pixels of a list, in list order. */
  function Kept(pixels: seq<Pixel>): seq<ImageVector>
    decreases |pixels|
  {
    if pixels == [] then []
    else
      var p := pixels[|pixels| - 1];
      Kept(pixels[..|pixels| - 1]) + (if Vivid(p) then [Sample(p)] else [])
  }

  /** Filtering a concatenation filters each part in turn, so the order of the pixels carries over. */
  lemma {:induction false} KeptAppend(a: seq<Pixel>, b: seq<Pixel>)
    ensures Kept(a + b) == Kept(a) + Kept(b)
    decreases |b|
  {
    if b == [] {
      assert a + b == a;
    } else {
      var n := |b| - 1;
      assert (a + b)[..|a + b| - 1] == a + b[..n];
      KeptAppend(a, b[..n]);
    }
  }

  /** A sample is kept exactly when some vivid pixel has its color and it carries label 0. */
  lemma {:induction false} KeptMembers(pixels: seq<Pixel>, v: ImageVector)
    ensures v in Kept(pixels) <==> exists i :: 0 <= i < |pixels| && Vivid(pixels[i]) && v == Sample(pixels[i])
    decreases |pixels|
  {
    if pixels != [] {
      var n := |pixels| - 1;
      KeptMembers(pixels[..n], v);
      if exists i :: 0 <= i < |pixels| && Vivid(pixels[i]) && v == Sample(pixels[i]) {
        var i :| 0 <= i < |pixels| && Vivid(pixels[i]) && v == Sample(pixels[i]);
        if i < n {
          assert pixels[..n][i] == pixels[i];
        }
      }
      if exists i :: 0 <= i < n && Vivid(pixels[..n][i]) && v == Sample(pixels[..n][i]) {
        var i :| 0 <= i < n && Vivid(pixels[..n][i]) && v == Sample(pixels[..n][i]);
        assert pixels[i] == pixels[..n][i];
      }
    }
  }

  /** Kept samples of unit-range pixels are unit-range and all carry label 0. */
  lemma KeptSamples(pixels: seq<Pixel>)
    requires forall i :: 0 <= i < |pixels| ==> InUnitCube(pixels[i].color)
    ensures forall j :: 0 <= j < |Kept(pixels)| ==> InUnitCube(Kept(pixels)[j].color) && Kept(pixels)[j].group == 0
  {
    forall j | 0 <= j < |Kept(pixels)|
      ensures InUnitCube(Kept(pixels)[j].color) && Kept(pixels)[j].group == 0
    {
      KeptMembers(pixels, Kept(pixels)[j]);
    }
  }

  /**
   * The sampling loop of main: rows top to bottom, pixels left to right, appending a sample for every
   * vivid pixel.
   */
  method SampleImage(image: seq<seq<Pixel>>) returns (imageVectors: seq<ImageVector>)
    ensures imageVectors == Kept(RowMajor(image))
  {
    imageVectors := [];
    for h := 0 to |image|
      invariant imageVectors == Kept(RowMajor(image[..h]))
    {
      ghost var before := imageVectors;
      var row := image[h];
      for w := 0 to |row|
        invariant imageVectors == before + Kept(row[..w])
      {
        assert row[..w + 1][..w] == row[..w];
        if row[w].saturation > 0.5 && row[w].value > 0.5 {
          imageVectors := imageVectors + [ImageVector(row[w].color, 0)];
        }
      }
      assert row[..|row|] == row;
      assert image[..h + 1][..h] == image[..h];
      KeptAppend(RowMajor(image[..h]), row);
    }
    assert image[..|image|] == image;
  }

  // ------------------------------------------------------------------ the palette strip

  /** Each palette entry is a block this many pixels wide. */
  const BlockWidth: nat := 160

  /** The strip is this many pixels tall. */
  const StripHeight: nat := 320

  /** The palette entry column x shows: Go's int(x/160), which truncates like Dafny's division for x >= 0. */
  function BlockIndex(x: nat): (j: nat)
    ensures BlockWidth * j <= x < BlockWidth * (j + 1)
  {
    x / BlockWidth
  }

  /** Column x falls in block j exactly when 160 j <= x < 160 (j + 1); so every column of the strip has an entry. */
  lemma BlockIndexRange(x: nat, j: nat, clusterSize: nat)
    ensures BlockIndex(x) == j <==> BlockWidth * j <= x < BlockWidth * (j + 1)
    ensures x < BlockWidth * clusterSize ==> BlockIndex(x) < clusterSize
  {
    var q := BlockIndex(x);
    if q < j {
      assert BlockWidth * (q + 1) <= BlockWidth * j;
    }
    if q > j {
      assert BlockWidth * (j + 1) <= BlockWidth * q;
    }
    if q >= clusterSize {
      assert BlockWidth * clusterSize <= BlockWidth * q;
    }
  }

  /**
   * The rendering loop of main: a strip 160 k wide and 320 tall whose column x shows the color of the
   * palette entry x / 160, in the order the results come in.
   */
  method RenderStrip(results: seq<ImageVector>, clusterSize: nat) returns (strip: array2<Color>)
    requires |results| == clusterSize
    ensures fresh(strip)
    ensures strip.Length0 == BlockWidth * clusterSize && strip.Length1 == StripHeight
    ensures forall x, y :: 0 <= x < strip.Length0 && 0 <= y < strip.Length1 ==> strip[x, y] == results[BlockIndex(x)].color
  {
    var imageWidth := BlockWidth * clusterSize;
    strip := new Color[imageWidth, StripHeight];
    for x := 0 to imageWidth
      invariant forall x', y :: 0 <= x' < x && 0 <= y < StripHeight ==> strip[x', y] == results[BlockIndex(x')].color
    {
      BlockIndexRange(x, 0, clusterSize);
      var vec := results[x / BlockWidth].color;
      for y := 0 to StripHeight
        invariant forall x', y' :: 0 <= x' < x && 0 <= y' < StripHeight ==> strip[x', y'] == results[BlockIndex(x')].color
        invariant forall y' :: 0 <= y' < y ==> strip[x, y'] == vec
      {
        strip[x, y] := vec;
      }
    }
  }

  // ------------------------------------------------------------------ the output file name

  /** Go's strings.Split(path, "."): the pieces between the dots, always at least one. */
  function SplitDots(path: string): (pieces: seq<string>)
    ensures |pieces| >= 1
    ensures forall i :: 0 <= i < |pieces| ==> '.' !in pieces[i]
    decreases |path|
  {
    if path == [] then [[]]
    else
      var rest := SplitDots(path[1..]);
      if path[0] == '.' then [[]] + rest else [[path[0]] + rest[0]] + rest[1..]
  }

  /** strings.Join(pieces, "."): the pieces with a dot between neighbours. */
  function JoinDots(pieces: seq<string>): string
    decreases |pieces|
  {
    if pieces == [] then []
    else if |pieces| == 1 then pieces[0]
    else pieces[0] + "." + JoinDots(pieces[1..])
  }

  /** Splitting at the dots loses nothing: joining the pieces back gives the path. */
  lemma {:induction false} SplitJoin(path: string)
    ensures JoinDots(SplitDots(path)) == path
    decreases |path|
  {
    if path != [] {
      var rest := SplitDots(path[1..]);
      SplitJoin(path[1..]);
      if path[0] == '.' {
        assert SplitDots(path) == [[]] + rest;
        assert JoinDots([[]] + rest) == [] + "." + JoinDots(rest);
      } else if |rest| == 1 {
        assert SplitDots(path) == [[path[0]] + rest[0]];
      } else {
        assert SplitDots(path) == [[path[0]] + rest[0]] + rest[1..];
        assert rest == [rest[0]] + rest[1..];
        assert JoinDots(rest) == rest[0] + "." + JoinDots(rest[1..]);
      }
    }
  }

  /** filename[0]: the path up to its first dot, or all of it when it has none. */
  function Stem(path: string): string {
    SplitDots(path)[0]
  }

  /** The stem is the longest dot-free prefix of the path. */
  lemma {:induction false} StemIsPrefix(path: string)
    ensures Stem(path) <= path
    ensures '.' !in Stem(path)
    ensures |Stem(path)| < |path| ==> path[|Stem(path)|] == '.'
    decreases |path|
  {
    if path != [] && path[0] != '.' {
      StemIsPrefix(path[1..]);
    }
  }

  /** A dot-free prefix followed by a dot-started rest: the prefix is the stem. */
  lemma {:induction false} StemOfDotted(stem: string, rest: string)
    requires '.' !in stem && |rest| > 0 && rest[0] == '.'
    ensures Stem(stem + rest) == stem
    decreases |stem|
  {
    if stem != [] {
      assert (stem + rest)[1..] == stem[1..] + rest;
      assert stem[0] != '.';
      StemOfDotted(stem[1..], rest);
    } else {
      assert stem + rest == rest;
    }
  }

  /** strconv.Itoa for the non-negative cluster counts main renders: decimal digits, most significant first. */
  function Itoa(n: nat): string
    decreases n
  {
    if n < 10 then [Digit(n)] else Itoa(n / 10) + [Digit(n % 10)]
  }

  /** The character of a decimal digit. */
  function Digit(d: nat): char
    requires d < 10
  {
    "0123456789"[d]
  }

  /** The value of a string of decimal digits. */
  function DecimalValue(s: string): nat
    requires forall i :: 0 <= i < |s| ==> '0' <= s[i] <= '9'
    decreases |s|
  {
    if s == [] then 0 else 10 * DecimalValue(s[..|s| - 1]) + (s[|s| - 1] - '0') as nat
  }

  /** Itoa writes only digits, with no leading zero, and reading them back gives the number. */
  lemma {:induction false} ItoaRoundTrip(n: nat)
    ensures forall i :: 0 <= i < |Itoa(n)| ==> '0' <= Itoa(n)[i] <= '9'
    ensures |Itoa(n)| > 0 && (Itoa(n)[0] == '0' ==> n == 0)
    ensures DecimalValue(Itoa(n)) == n
    decreases n
  {
    if n >= 10 {
      ItoaRoundTrip(n / 10);
      var s := Itoa(n);
      assert s[..|s| - 1] == Itoa(n / 10);
    }
  }

  /** newfilename: the stem, "-pickupcolor", the cluster count and ".png". */
  function OutputName(path: string, clusterSize: nat): string {
    Stem(path) + "-pickupcolor" + Itoa(clusterSize) + ".png"
  }

  /**
   * The output name starts with the input's stem, carries the cluster count in decimal right after
   * "-pickupcolor", and ends in ".png", whose dot is the only dot in the name.
   */
  lemma OutputNameParts(path: string, clusterSize: nat)
    ensures var name, stem := OutputName(path, clusterSize), Stem(path);
      && name[|name| - 4..] == ".png"
      && Stem(name) == name[..|name| - 4]
      && name[..|stem|] == stem
      && name[|stem|..|stem| + 12] == "-pickupcolor"
      && var digits := name[|stem| + 12..|name| - 4];
         (forall i :: 0 <= i < |digits| ==> '0' <= digits[i] <= '9') && DecimalValue(digits) == clusterSize
  {
    var stem, digits := Stem(path), Itoa(clusterSize);
    var name := OutputName(path, clusterSize);
    StemIsPrefix(path);
    ItoaRoundTrip(clusterSize);
    var prefix := stem + "-pickupcolor" + digits;
    forall i | 0 <= i < |prefix|
      ensures prefix[i] != '.'
    {
      if i < |stem| {
        assert prefix[i] == stem[i];
      } else if i < |stem| + 12 {
        assert prefix[i] == "-pickupcolor"[i - |stem|];
      } else {
        assert prefix[i] == digits[i - |stem| - 12];
      }
    }
    StemOfDotted(prefix, ".png");
    assert name == prefix + ".png";
    assert name[..|name| - 4] == prefix;
    assert name[|stem| + 12..|name| - 4] == digits;
  }
}
