// Run-length coded TGA pictures: packets of pixels laid out row by row, from the top or from the bottom.
module Pictures {

  type Byte = b: int | 0 <= b < 256

  const HEADER_BYTES := 18

  // A pixel: alpha, red, green and blue, eight bits each.
  function Argb(a: Byte, r: Byte, g: Byte, b: Byte): nat {
    a * 0x100_0000 + r * 0x1_0000 + g * 0x100 + b
  }

  // How the pixels of a picture are stored: in colour, or as numbers of colours in a map after the header.
  datatype Coding = Coding(indexed: bool, bytes: nat)

  // Bytes of the file one pixel takes.
  function Step(coding: Coding): nat {
    if coding.indexed then 1 else coding.bytes
  }

  // Where the colour of the pixel at m is.
  function ColourAt(source: seq<Byte>, coding: Coding, m: nat): nat
    requires m < |source|
  {
    if coding.indexed then source[m] * coding.bytes + HEADER_BYTES else m
  }

  predicate Readable(source: seq<Byte>, coding: Coding, m: nat) {
    m < |source| && ColourAt(source, coding, m) + coding.bytes <= |source| && (coding.bytes == 3 || coding.bytes == 4)
  }

  function Pixel(source: seq<Byte>, coding: Coding, m: nat): nat
    requires Readable(source, coding, m)
  {
    var j := ColourAt(source, coding, m);
    Argb(if coding.bytes == 4 then source[j + 3] else 0xFF, source[j + 2], source[j + 1], source[j])
  }

  // ---- packets ----------------------------------------------------------------------------------

  // Pixels in a packet.
  function Length(head: Byte): nat {
    if head > 127 then head - 127 else head + 1
  }

  // Where the j-th pixel of the packet at m is read.
  function Place(head: Byte, coding: Coding, m: nat, j: nat): nat {
    if head > 127 then m + 1 else m + 1 + j * Step(coding)
  }

  // Where the next packet starts.
  function After(head: Byte, coding: Coding, m: nat): nat {
    m + 1 + (if head > 127 then Step(coding) else Length(head) * Step(coding))
  }

  // The packets from m expand to exactly `left` pixels, and all of them can be read.
  ghost predicate WellPacked(source: seq<Byte>, coding: Coding, m: nat, left: nat, size: nat)
    decreases left
  {
    left == 0 ||
    (&& m < size && m < |source| && Length(source[m]) <= left
     && (forall j: nat | j < Length(source[m]) :: Readable(source, coding, Place(source[m], coding, m, j)))
     && WellPacked(source, coding, After(source[m], coding, m), left - Length(source[m]), size))
  }

  // The first j pixels of the packet at m.
  ghost function Packet(source: seq<Byte>, coding: Coding, m: nat, j: nat): (pixels: seq<nat>)
    requires m < |source| && j <= Length(source[m])
    requires forall i: nat | i < Length(source[m]) :: Readable(source, coding, Place(source[m], coding, m, i))
    ensures |pixels| == j
  {
    if j == 0 then [] else Packet(source, coding, m, j - 1) + [Pixel(source, coding, Place(source[m], coding, m, j - 1))]
  }

  // What the packets from m expand to.
  ghost function Expansion(source: seq<Byte>, coding: Coding, m: nat, left: nat, size: nat): (pixels: seq<nat>)
    requires WellPacked(source, coding, m, left, size)
    ensures |pixels| == left
    decreases left
  {
    if left == 0 then []
    else
      var n := Length(source[m]);
      Packet(source, coding, m, n) + Expansion(source, coding, After(source[m], coding, m), left - n, size)
  }

  lemma {:induction false} PacketAt(source: seq<Byte>, coding: Coding, m: nat, n: nat, j: nat)
    requires m < |source| && j < n <= Length(source[m])
    requires forall i: nat | i < Length(source[m]) :: Readable(source, coding, Place(source[m], coding, m, i))
    ensures Packet(source, coding, m, n)[j] == Pixel(source, coding, Place(source[m], coding, m, j))
  {
    if j < n - 1 {
      PacketAt(source, coding, m, n - 1, j);
    }
  }

  // ---- rows -------------------------------------------------------------------------------------

  // Column c of row y.
  function At(w: nat, y: nat, c: nat): nat {
    y * w + c
  }

  // The row of the picture that the y-th row of the file is.
  function RowOf(h: nat, origin: nat, y: nat): nat
    requires y < h
  {
    if origin == 0 then h - y - 1 else y
  }

  lemma Monotone(w: nat, y: nat, z: nat)
    requires y <= z
    ensures y * w <= z * w
  {
  }

  lemma AtIsUnique(w: nat, y: nat, c: nat, z: nat, d: nat)
    requires c < w && d < w && At(w, y, c) == At(w, z, d)
    ensures y == z && c == d
  {
    if y < z {
      Monotone(w, y + 1, z);
    } else if z < y {
      Monotone(w, z + 1, y);
    }
  }

  lemma AtInside(w: nat, h: nat, y: nat, c: nat)
    requires y < h && c < w
    ensures At(w, y, c) < w * h
  {
    Monotone(w, y + 1, h);
  }

  // The end of a row, and no other place in it, is a multiple of the width.
  lemma RowEnds(w: nat, y: nat, c: nat)
    requires 0 < c <= w
    ensures At(w, y, c) % w == 0 <==> c == w
  {
    var q, r := At(w, y, c) / w, At(w, y, c) % w;
    assert At(w, y, c) == q * w + r;
    if c == w {
      assert At(w, y, c) == At(w, y + 1, 0);
      AtIsUnique(w, y + 1, 0, q, r);
    } else {
      AtIsUnique(w, y, c, q, r);
    }
  }

  // The first n pixels of the file are where they belong; cells past the picture are as they were.
  ghost predicate Painted(before: seq<nat>, target: seq<nat>, pixels: seq<nat>, w: nat, h: nat, origin: nat, n: nat) {
    && |target| == |before| && n <= |pixels| == w * h <= |target|
    && (forall y: nat, c: nat | y < h && c < w && At(w, y, c) < n :: Shows(target, pixels, w, h, origin, y, c))
    && (forall j | w * h <= j < |target| :: target[j] == before[j])
  }

  ghost predicate Shows(target: seq<nat>, pixels: seq<nat>, w: nat, h: nat, origin: nat, y: nat, c: nat)
    requires y < h
  {
    && At(w, y, c) < |pixels| && At(w, RowOf(h, origin, y), c) < |target|
    && target[At(w, RowOf(h, origin, y), c)] == pixels[At(w, y, c)]
  }

  lemma PaintOne(before: seq<nat>, target: seq<nat>, pixels: seq<nat>, w: nat, h: nat, origin: nat, y: nat, c: nat, v: nat)
    requires y < h && c < w && Painted(before, target, pixels, w, h, origin, At(w, y, c))
    requires At(w, y, c) < |pixels| && v == pixels[At(w, y, c)]
    ensures At(w, RowOf(h, origin, y), c) < |target|
    ensures Painted(before, target[At(w, RowOf(h, origin, y), c) := v], pixels, w, h, origin, At(w, y, c) + 1)
  {
    hide At;
    AtInside(w, h, RowOf(h, origin, y), c);
    var after := target[At(w, RowOf(h, origin, y), c) := v];
    forall z: nat, d: nat | z < h && d < w && At(w, z, d) < At(w, y, c) + 1 ensures Shows(after, pixels, w, h, origin, z, d) {
      if At(w, z, d) == At(w, y, c) {
        AtIsUnique(w, z, d, y, c);
      } else {
        assert Shows(target, pixels, w, h, origin, z, d);
        if At(w, RowOf(h, origin, z), d) == At(w, RowOf(h, origin, y), c) {
          AtIsUnique(w, RowOf(h, origin, z), d, RowOf(h, origin, y), c);
        }
      }
    }
  }

  // Where the writing stands: y rows begun, c pixels of the last one written.
  ghost predicate Stands(i: nat, w: nat, h: nat, origin: nat, y: nat, c: nat) {
    && w > 0 && c <= w && y <= h
    && if y == 0 then i == 0 && c == w else c > 0 && i == At(w, RowOf(h, origin, y - 1), c)
  }

  function Done(w: nat, y: nat, c: nat): nat {
    if y == 0 then 0 else At(w, y - 1, c)
  }

  lemma Empty(w: nat)
    requires w > 0
    ensures 0 % w == 0
  {
  }

  lemma RowStarts(w: nat, y: nat)
    ensures y * w == At(w, y, 0)
  {
  }

  // The end of y rows is the start of the next.
  lemma RowFollows(w: nat, y: nat)
    ensures Done(w, y, w) == At(w, y, 0)
  {
  }

  lemma CellFollows(w: nat, y: nat, c: nat)
    ensures At(w, y, c + 1) == At(w, y, c) + 1
  {
  }

  // One pixel more, at the beginning of the next row when the last one is full.
  method Put(target: array<nat>, w: nat, h: nat, origin: nat, i': nat, y': nat, v: nat, ghost before: seq<nat>, ghost pixels: seq<nat>, ghost c': nat)
    returns (i: nat, y: nat, ghost c: nat)
    requires Stands(i', w, h, origin, y', c') && Painted(before, target[..], pixels, w, h, origin, Done(w, y', c'))
    requires Done(w, y', c') < |pixels| && v == pixels[Done(w, y', c')]
    modifies target
    ensures Stands(i, w, h, origin, y, c) && Done(w, y, c) == Done(w, y', c') + 1
    ensures Painted(before, target[..], pixels, w, h, origin, Done(w, y, c))
  {
    hide Painted, At, Shows;
    i, y, c := i', y', c';
    if y > 0 {
      RowEnds(w, RowOf(h, origin, y - 1), c);
    }
    SizeOf(before, target[..], pixels, w, h, origin, Done(w, y, c));
    Empty(w);
    if i % w == 0 {
      assert c == w;
      if y == h { Full(w, h, c); }
      i := (if origin == 0 then h - y - 1 else y) * w;
      RowStarts(w, RowOf(h, origin, y));
      RowFollows(w, y);
      y := y + 1;
      c := 0;
    }
    assert At(w, y - 1, c) == Done(w, y', c');
    PaintOne(before, target[..], pixels, w, h, origin, y - 1, c, v);
    target[i] := v;
    CellFollows(w, RowOf(h, origin, y - 1), c);
    CellFollows(w, y - 1, c);
    i := i + 1;
    c := c + 1;
  }

  lemma SizeOf(before: seq<nat>, target: seq<nat>, pixels: seq<nat>, w: nat, h: nat, origin: nat, n: nat)
    requires Painted(before, target, pixels, w, h, origin, n)
    ensures |pixels| == w * h
  {
  }

  lemma Full(w: nat, h: nat, c: nat)
    requires h > 0 && c == w
    ensures Done(w, h, c) == w * h
  {
  }

  // The pixels read so far and those to come.
  ghost predicate Reading(source: seq<Byte>, coding: Coding, m: nat, left: nat, size: nat, pixels: seq<nat>) {
    && WellPacked(source, coding, m, left, size) && left <= |pixels|
    && Expansion(source, coding, m, left, size) == pixels[|pixels| - left..]
  }

  lemma PacketPixel(source: seq<Byte>, coding: Coding, m: nat, left: nat, size: nat, pixels: seq<nat>, j: nat)
    requires Reading(source, coding, m, left, size, pixels) && left > 0 && j < Length(source[m])
    ensures Readable(source, coding, Place(source[m], coding, m, j))
    ensures |pixels| - left + j < |pixels|
    ensures pixels[|pixels| - left + j] == Pixel(source, coding, Place(source[m], coding, m, j))
  {
    hide Pixel, Place, Readable;
    var n := Length(source[m]);
    PacketAt(source, coding, m, n, j);
    assert pixels[|pixels| - left..][j] == pixels[|pixels| - left + j];
  }

  lemma PacketDone(source: seq<Byte>, coding: Coding, m: nat, left: nat, size: nat, pixels: seq<nat>)
    requires Reading(source, coding, m, left, size, pixels) && left > 0
    ensures m < size && m < |source| && Length(source[m]) <= left
    ensures Reading(source, coding, After(source[m], coding, m), left - Length(source[m]), size, pixels)
  {
    hide Pixel, Place, Readable, After;
    var n := Length(source[m]);
    var rest := Expansion(source, coding, After(source[m], coding, m), left - n, size);
    assert pixels[|pixels| - left..] == Packet(source, coding, m, n) + rest;
    assert pixels[|pixels| - (left - n)..] == pixels[|pixels| - left..][n..];
  }

  // The pixel at m, k times over.
  method Repeat(source: array<Byte>, target: array<nat>, coding: Coding, ghost at: nat, m: nat, k: nat, w: nat, h: nat, origin: nat,
                first: nat, row: nat, ghost before: seq<nat>, ghost pixels: seq<nat>, ghost col: nat, ghost left: nat, ghost size: nat)
    returns (i: nat, y: nat, ghost c: nat)
    requires left > 0 && Reading(source[..], coding, at, left, size, pixels) && at < source.Length && source[at] > 127
    requires m == at + 1 && k == Length(source[at]) <= left <= |pixels|
    requires Stands(first, w, h, origin, row, col) && Done(w, row, col) == |pixels| - left
    requires Painted(before, target[..], pixels, w, h, origin, |pixels| - left)
    modifies target
    ensures Stands(i, w, h, origin, y, c) && Done(w, y, c) == |pixels| - left + k && Painted(before, target[..], pixels, w, h, origin, |pixels| - left + k)
  {
    hide Expansion, Painted, Readable, Pixel, Stands, Done, Reading, At;
    ghost var s := source[..];
    i, y, c := first, row, col;
    for j := 0 to k
      invariant Stands(i, w, h, origin, y, c) && Done(w, y, c) == |pixels| - left + j && Painted(before, target[..], pixels, w, h, origin, |pixels| - left + j)
    {
      PacketPixel(s, coding, at, left, size, pixels, j);
      i, y, c := Put(target, w, h, origin, i, y, Pixel(source[..], coding, m), before, pixels, c);
    }
  }

  // The k pixels from m on.
  method Copy(source: array<Byte>, target: array<nat>, coding: Coding, ghost at: nat, start: nat, k: nat, w: nat, h: nat, origin: nat,
              first: nat, row: nat, ghost before: seq<nat>, ghost pixels: seq<nat>, ghost col: nat, ghost left: nat, ghost size: nat)
    returns (i: nat, y: nat, ghost c: nat)
    requires left > 0 && Reading(source[..], coding, at, left, size, pixels) && at < source.Length && source[at] <= 127
    requires start == at + 1 && k == Length(source[at]) <= left <= |pixels|
    requires Stands(first, w, h, origin, row, col) && Done(w, row, col) == |pixels| - left
    requires Painted(before, target[..], pixels, w, h, origin, |pixels| - left)
    modifies target
    ensures Stands(i, w, h, origin, y, c) && Done(w, y, c) == |pixels| - left + k && Painted(before, target[..], pixels, w, h, origin, |pixels| - left + k)
  {
    hide Expansion, Painted, Readable, Pixel, Stands, Done, Reading, At;
    ghost var s := source[..];
    i, y, c := first, row, col;
    var m := start;
    for j := 0 to k
      invariant Stands(i, w, h, origin, y, c) && Done(w, y, c) == |pixels| - left + j && Painted(before, target[..], pixels, w, h, origin, |pixels| - left + j)
      invariant m == start + j * Step(coding)
    {
      PacketPixel(s, coding, at, left, size, pixels, j);
      i, y, c := Put(target, w, h, origin, i, y, Pixel(source[..], coding, m), before, pixels, c);
      m := m + Step(coding);
    }
  }

  // The packets of a run-length coded picture, written to their cells one by one.
  method Unpack(source: array<Byte>, target: array<nat>, coding: Coding, start: nat, w: nat, h: nat, origin: nat, size: nat)
    requires w > 0 && h > 0 && w * h <= target.Length && (coding.bytes == 3 || coding.bytes == 4)
    requires WellPacked(source[..], coding, start, w * h, size)
    modifies target
    ensures Painted(old(target[..]), target[..], Expansion(source[..], coding, start, w * h, size), w, h, origin, w * h)
  {
    hide WellPacked, Expansion, Painted, Readable, Pixel, Stands, Done, Reading, At;
    ghost var s, pixels, before := source[..], Expansion(source[..], coding, start, w * h, size), target[..];
    Started(s, target[..], coding, start, w, h, origin, size);
    var m: nat, x: nat, i: nat, y: nat := start, 0, 0, 0;
    ghost var c: nat := w;
    while x < w * h && m < size
      invariant x <= w * h == |pixels| && Reading(s, coding, m, w * h - x, size, pixels)
      invariant Stands(i, w, h, origin, y, c) && Done(w, y, c) == x && Painted(before, target[..], pixels, w, h, origin, x)
      decreases w * h - x
    {
      PacketDone(s, coding, m, w * h - x, size, pixels);
      var head := source[m];
      var k := Length(head);
      ghost var from, at := x, m;
      m := m + 1;
      x := x + k;
      if head > 127 {
        i, y, c := Repeat(source, target, coding, at, m, k, w, h, origin, i, y, before, pixels, c, w * h - from, size);
        m := m + Step(coding);
      } else {
        i, y, c := Copy(source, target, coding, at, m, k, w, h, origin, i, y, before, pixels, c, w * h - from, size);
        m := m + k * Step(coding);
      }
    }
    MoreToCome(s, coding, m, w * h - x, size, pixels);
  }

  lemma MoreToCome(source: seq<Byte>, coding: Coding, m: nat, left: nat, size: nat, pixels: seq<nat>)
    requires Reading(source, coding, m, left, size, pixels)
    ensures left > 0 ==> m < size
  {
  }

  lemma Started(source: seq<Byte>, target: seq<nat>, coding: Coding, start: nat, w: nat, h: nat, origin: nat, size: nat)
    requires w > 0 && WellPacked(source, coding, start, w * h, size) && w * h <= |target|
    ensures var pixels := Expansion(source, coding, start, w * h, size);
            && Reading(source, coding, start, w * h, size, pixels) && Painted(target, target, pixels, w, h, origin, 0)
            && Stands(0, w, h, origin, 0, w) && Done(w, 0, w) == 0
  {
  }

  // Every cell of the picture shows the pixel the file has for it.
  lemma PaintedAll(before: seq<nat>, target: seq<nat>, pixels: seq<nat>, w: nat, h: nat, origin: nat, r: nat, c: nat)
    requires Painted(before, target, pixels, w, h, origin, w * h) && r < h && c < w
    ensures At(w, r, c) < |target| && At(w, RowOf(h, origin, r), c) < |pixels|
    ensures target[At(w, r, c)] == pixels[At(w, RowOf(h, origin, r), c)]
  {
    AtInside(w, h, RowOf(h, origin, r), c);
    assert RowOf(h, origin, RowOf(h, origin, r)) == r;
    assert Shows(target, pixels, w, h, origin, RowOf(h, origin, r), c);
  }

  function Word(source: seq<Byte>, at: nat): nat
    requires at + 1 < |source|
  {
    source[at + 1] as int * 0x100 + source[at] as int
  }

  // What the header says of a run-length coded picture: 9 for numbers of colours, 10 for colours.
  function CodingOf(source: seq<Byte>): Coding
    requires |source| >= HEADER_BYTES
  {
    if source[2] == 9 then Coding(true, source[7] / 8) else Coding(false, source[16] / 8)
  }

  function StartOf(source: seq<Byte>): nat
    requires |source| >= HEADER_BYTES
  {
    HEADER_BYTES + if source[1] != 0 then source[7] as int / 8 * source[5] as int else 0
  }

  // The header of a picture that is refused.
  predicate Refused(source: seq<Byte>)
    requires |source| >= HEADER_BYTES
  {
    || Word(source, 12) < 1 || Word(source, 14) < 1
    || (source[2] == 9 && (source[6] != 0 || source[4] != 0 || source[3] != 0 || (source[7] != 24 && source[7] != 32)))
    || (source[2] == 10 && (source[5] != 0 || source[6] != 0 || source[1] != 0 || (source[16] != 24 && source[16] != 32)))
    || (source[2] != 9 && source[2] != 10)
  }

  // lib_image_tga_parse, for the two run-length codings: row r of the target is row r of the picture, from
  // whichever end the file starts; packets may cross rows; nothing outside the picture is written.
  method Parse(source: array<Byte>, target: array<nat>, size: nat) returns (ok: bool)
    requires source.Length >= HEADER_BYTES && source[2] != 1 && source[2] != 2
    requires !Refused(source[..]) ==>
               && Word(source[..], 12) * Word(source[..], 14) <= target.Length
               && WellPacked(source[..], CodingOf(source[..]), StartOf(source[..]), Word(source[..], 12) * Word(source[..], 14), size)
    modifies target
    ensures ok <==> !Refused(source[..])
    ensures !ok ==> target[..] == old(target[..])
    ensures ok ==> Painted(old(target[..]), target[..],
                           Expansion(source[..], CodingOf(source[..]), StartOf(source[..]), Word(source[..], 12) * Word(source[..], 14), size),
                           Word(source[..], 12), Word(source[..], 14), Word(source[..], 10), Word(source[..], 12) * Word(source[..], 14))
  {
    hide WellPacked, Expansion, Painted;
    var w, h, o := Word(source[..], 12), Word(source[..], 14), Word(source[..], 10);
    var m := (if source[1] != 0 then source[7] as int / 8 * source[5] as int else 0) + HEADER_BYTES;
    if w < 1 || h < 1 {
      return false;
    }
    match source[2] {
    case 9 =>
      if source[6] != 0 || source[4] != 0 || source[3] != 0 || (source[7] != 24 && source[7] != 32) {
        return false;
      }
      Unpack(source, target, Coding(true, source[7] / 8), m, w, h, o, size);
    case 10 =>
      if source[5] != 0 || source[6] != 0 || source[1] != 0 || (source[16] != 24 && source[16] != 32) {
        return false;
      }
      Unpack(source, target, Coding(false, source[16] / 8), m, w, h, o, size);
    case _ =>
      return false;
    }
    return true;
  }

  // ---- what a writer of such pictures writes -------------------------------------------------------

  datatype Colour = Colour(alpha: Byte, red: Byte, green: Byte, blue: Byte)

  // Pixels, each the number of its colour: up to 128 as they come, or up to 128 of one colour.
  datatype Chunk = Raw(pixels: seq<nat>) | Run(pixel: nat, n: nat)

  predicate Sized(chunk: Chunk) {
    match chunk
    case Raw(pixels) => 1 <= |pixels| <= 128
    case Run(_, n) => 1 <= n <= 128
  }

  function PixelsOf(chunk: Chunk): seq<nat> {
    match chunk
    case Raw(pixels) => pixels
    case Run(pixel, n) => seq(n, _ => pixel)
  }

  function AllPixels(chunks: seq<Chunk>): seq<nat> {
    if chunks == [] then [] else PixelsOf(chunks[0]) + AllPixels(chunks[1..])
  }

  // Blue first, then green, red, and alpha if it is stored.
  function ColourBytes(c: Colour, deep: bool): seq<Byte> {
    [c.blue, c.green, c.red] + if deep then [c.alpha] else []
  }

  // A pixel in the file: its colour, or the number of its colour in the map.
  function Code(colours: seq<Colour>, indexed: bool, deep: bool, k: nat): seq<Byte>
    requires k < |colours| <= 256 || (!indexed && k < |colours|)
  {
    if indexed then [k] else ColourBytes(colours[k], deep)
  }

  predicate Numbered(colours: seq<Colour>, indexed: bool, pixels: seq<nat>) {
    (indexed ==> |colours| <= 256) && forall i | 0 <= i < |pixels| :: pixels[i] < |colours|
  }

  function Codes(colours: seq<Colour>, indexed: bool, deep: bool, pixels: seq<nat>): seq<Byte>
    requires Numbered(colours, indexed, pixels)
  {
    if pixels == [] then [] else Code(colours, indexed, deep, pixels[0]) + Codes(colours, indexed, deep, pixels[1..])
  }

  // A byte that says how many, and of which sort.
  function ChunkBytes(colours: seq<Colour>, indexed: bool, deep: bool, chunk: Chunk): seq<Byte>
    requires Sized(chunk) && Numbered(colours, indexed, PixelsOf(chunk))
  {
    match chunk
    case Raw(pixels) => [|pixels| - 1] + Codes(colours, indexed, deep, pixels)
    case Run(pixel, n) => assert PixelsOf(chunk)[0] == pixel; [0x80 + (n - 1)] + Code(colours, indexed, deep, pixel)
  }

  predicate Encodable(colours: seq<Colour>, indexed: bool, chunks: seq<Chunk>) {
    forall i | 0 <= i < |chunks| :: Sized(chunks[i]) && Numbered(colours, indexed, PixelsOf(chunks[i]))
  }

  function Encoded(colours: seq<Colour>, indexed: bool, deep: bool, chunks: seq<Chunk>): seq<Byte>
    requires Encodable(colours, indexed, chunks)
  {
    if chunks == [] then [] else ChunkBytes(colours, indexed, deep, chunks[0]) + Encoded(colours, indexed, deep, chunks[1..])
  }

  function MapBytes(colours: seq<Colour>, deep: bool): seq<Byte> {
    if colours == [] then [] else ColourBytes(colours[0], deep) + MapBytes(colours[1..], deep)
  }

  function Width(indexed: bool, deep: bool): nat {
    if indexed then 1 else if deep then 4 else 3
  }

  lemma {:induction false} CodesAt(colours: seq<Colour>, indexed: bool, deep: bool, pixels: seq<nat>, j: nat)
    requires Numbered(colours, indexed, pixels) && j < |pixels|
    ensures |Codes(colours, indexed, deep, pixels)| == |pixels| * Width(indexed, deep)
    ensures j * Width(indexed, deep) + Width(indexed, deep) <= |Codes(colours, indexed, deep, pixels)|
    ensures Codes(colours, indexed, deep, pixels)[j * Width(indexed, deep)..j * Width(indexed, deep) + Width(indexed, deep)]
            == Code(colours, indexed, deep, pixels[j])
  {
    var n := Width(indexed, deep);
    var head, tail := Code(colours, indexed, deep, pixels[0]), Codes(colours, indexed, deep, pixels[1..]);
    CodeSize(colours, indexed, deep, pixels[0]);
    hide Code, Width;
    if |pixels| > 1 {
      CodesAt(colours, indexed, deep, pixels[1..], if j > 0 then j - 1 else 0);
    }
    Blocks(head, tail, n, |pixels|, j);
  }

  // Block j of blocks of one size.
  lemma Blocks(head: seq<Byte>, tail: seq<Byte>, n: nat, count: nat, j: nat)
    requires |head| == n && count > 0 && j < count && |tail| == (count - 1) * n
    ensures |head + tail| == count * n && j * n + n <= |head + tail|
    ensures j == 0 ==> (head + tail)[j * n..j * n + n] == head
    ensures j > 0 ==> 0 <= (j - 1) * n && (j - 1) * n + n <= |tail| && (head + tail)[j * n..j * n + n] == tail[(j - 1) * n..(j - 1) * n + n]
  {
    Times(count, n);
    Times(j + 1, n);
    Monotone(n, j + 1, count);
    if j > 0 {
      Times(j, n);
      assert (head + tail)[j * n..j * n + n] == tail[j * n - n..j * n];
    } else {
      assert (head + tail)[0..n] == head;
    }
  }

  lemma Times(j: nat, n: nat)
    requires j > 0
    ensures (j - 1) * n == j * n - n && 0 <= (j - 1) * n
  {
  }

  lemma {:induction false} MapAt(colours: seq<Colour>, deep: bool, k: nat)
    requires k < |colours|
    ensures var n := if deep then 4 else 3;
            && |MapBytes(colours, deep)| == |colours| * n && k * n + n <= |colours| * n
            && MapBytes(colours, deep)[k * n..k * n + n] == ColourBytes(colours[k], deep)
  {
    var n := if deep then 4 else 3;
    var head, tail := ColourBytes(colours[0], deep), MapBytes(colours[1..], deep);
    if |colours| > 1 {
      MapAt(colours[1..], deep, if k > 0 then k - 1 else 0);
    }
    Blocks(head, tail, n, |colours|, k);
  }

  // The bytes stand in the file.
  ghost predicate Lies(source: seq<Byte>, at: nat, s: seq<Byte>) {
    at + |s| <= |source| && source[at..at + |s|] == s
  }

  // What the reader is told of the file fits what was written.
  ghost predicate Agreed(source: seq<Byte>, coding: Coding, colours: seq<Colour>, indexed: bool, deep: bool) {
    && coding == Coding(indexed, if deep then 4 else 3)
    && (indexed ==> Lies(source, HEADER_BYTES, MapBytes(colours, deep)))
  }

  // The word a pixel of a colour becomes.
  ghost predicate IsWord(v: nat, c: Colour, deep: bool) {
    && v / 0x100_0000 == (if deep then c.alpha as int else 0xFF) && v / 0x1_0000 % 0x100 == c.red
    && v / 0x100 % 0x100 == c.green && v % 0x100 == c.blue
  }

  lemma WordIs(a: Byte, r: Byte, g: Byte, b: Byte)
    ensures var v := Argb(a, r, g, b); v / 0x100_0000 == a && v / 0x1_0000 % 0x100 == r && v / 0x100 % 0x100 == g && v % 0x100 == b
  {
    var v := Argb(a, r, g, b);
    Digit(a * 0x1_0000 + r * 0x100 + g, b);
    Digit(a * 0x100 + r, g);
    Digit(a, r);
    assert v == (a * 0x1_0000 + r * 0x100 + g) * 0x100 + b;
    Twice(v);
  }

  lemma Digit(x: nat, y: nat)
    requires y < 0x100
    ensures (x * 0x100 + y) / 0x100 == x && (x * 0x100 + y) % 0x100 == y
  {
  }

  lemma Twice(v: nat)
    ensures v / 0x1_0000 == v / 0x100 / 0x100 && v / 0x100_0000 == v / 0x100 / 0x100 / 0x100
  {
  }

  lemma ColourStands(source: seq<Byte>, at: nat, c: Colour, deep: bool)
    requires Lies(source, at, ColourBytes(c, deep))
    ensures at + 2 < |source| && source[at] == c.blue && source[at + 1] == c.green && source[at + 2] == c.red
    ensures deep ==> at + 3 < |source| && source[at + 3] == c.alpha
  {
    var s := ColourBytes(c, deep);
    ByteStands(source, at, s, 0);
    ByteStands(source, at, s, 1);
    ByteStands(source, at, s, 2);
    if deep {
      ByteStands(source, at, s, 3);
    }
  }

  lemma ByteStands(source: seq<Byte>, at: nat, s: seq<Byte>, i: nat)
    requires Lies(source, at, s) && i < |s|
    ensures at + i < |source| && source[at + i] == s[i]
  {
    assert source[at..at + |s|][i] == source[at + i];
  }

  lemma PartStands(source: seq<Byte>, at: nat, s: seq<Byte>, i: nat, j: nat)
    requires Lies(source, at, s) && i <= j <= |s|
    ensures Lies(source, at + i, s[i..j])
  {
    var part := source[at + i..at + j];
    forall x: nat | x < j - i ensures part[x] == s[i..j][x] {
      ByteStands(source, at, s, i + x);
    }
    assert part == s[i..j];
  }

  lemma BothStand(source: seq<Byte>, at: nat, s: seq<Byte>, t: seq<Byte>)
    requires Lies(source, at, s + t)
    ensures Lies(source, at, s) && Lies(source, at + |s|, t)
  {
    PartStands(source, at, s + t, 0, |s|);
    PartStands(source, at, s + t, |s|, |s + t|);
    assert (s + t)[0..|s|] == s && (s + t)[|s|..|s + t|] == t;
  }

  lemma CodeReads(source: seq<Byte>, coding: Coding, colours: seq<Colour>, indexed: bool, deep: bool, k: nat, m: nat)
    requires Agreed(source, coding, colours, indexed, deep) && k < |colours| && (indexed ==> |colours| <= 256)
    requires Lies(source, m, Code(colours, indexed, deep, k))
    ensures Readable(source, coding, m) && IsWord(Pixel(source, coding, m), colours[k], deep)
  {
    var at := if indexed then k * coding.bytes + HEADER_BYTES else m;
    if indexed {
      ByteStands(source, m, [k], 0);
      MapAt(colours, deep, k);
      PartStands(source, HEADER_BYTES, MapBytes(colours, deep), k * coding.bytes, k * coding.bytes + coding.bytes);
    }
    ColourStands(source, at, colours[k], deep);
    WordIs(if deep then source[at + 3] else 0xFF, source[at + 2], source[at + 1], source[at]);
  }

  lemma RawReads(source: seq<Byte>, coding: Coding, colours: seq<Colour>, indexed: bool, deep: bool, pixels: seq<nat>, m: nat, j: nat)
    requires Agreed(source, coding, colours, indexed, deep) && Numbered(colours, indexed, pixels) && j < |pixels|
    requires Lies(source, m, Codes(colours, indexed, deep, pixels))
    ensures var at := m + j * Width(indexed, deep);
            Readable(source, coding, at) && IsWord(Pixel(source, coding, at), colours[pixels[j]], deep)
  {
    hide IsWord, Pixel, Readable, MapBytes, Code, Codes, Lies, Agreed;
    var n := Width(indexed, deep);
    CodesAt(colours, indexed, deep, pixels, j);
    PartStands(source, m, Codes(colours, indexed, deep, pixels), j * n, j * n + n);
    CodeReads(source, coding, colours, indexed, deep, pixels[j], m + j * n);
  }

  // One packet is read as it was written.
  lemma ChunkReads(source: seq<Byte>, coding: Coding, colours: seq<Colour>, indexed: bool, deep: bool, chunk: Chunk, m: nat, j: nat)
    requires Agreed(source, coding, colours, indexed, deep) && Sized(chunk) && Numbered(colours, indexed, PixelsOf(chunk))
    requires Lies(source, m, ChunkBytes(colours, indexed, deep, chunk)) && j < |PixelsOf(chunk)|
    ensures m < |source| && Length(source[m]) == |PixelsOf(chunk)| && After(source[m], coding, m) == m + |ChunkBytes(colours, indexed, deep, chunk)|
    ensures var at := Place(source[m], coding, m, j);
            Readable(source, coding, at) && IsWord(Pixel(source, coding, at), colours[PixelsOf(chunk)[j]], deep)
  {
    hide IsWord, Pixel, Readable, MapBytes, Code, Codes, Lies;
    ByteStands(source, m, ChunkBytes(colours, indexed, deep, chunk), 0);
    StepIsWidth(source, coding, colours, indexed, deep);
    match chunk {
      case Raw(pixels) =>
        CodesAt(colours, indexed, deep, pixels, j);
        BothStand(source, m, [|pixels| - 1], Codes(colours, indexed, deep, pixels));
        RawReads(source, coding, colours, indexed, deep, pixels, m + 1, j);
      case Run(pixel, n) =>
        assert PixelsOf(chunk)[0] == pixel;
        CodeSize(colours, indexed, deep, pixel);
        BothStand(source, m, [0x80 + (n - 1)], Code(colours, indexed, deep, pixel));
        CodeReads(source, coding, colours, indexed, deep, pixel, m + 1);
    }
  }

  lemma StepIsWidth(source: seq<Byte>, coding: Coding, colours: seq<Colour>, indexed: bool, deep: bool)
    requires Agreed(source, coding, colours, indexed, deep)
    ensures Step(coding) == Width(indexed, deep)
  {
  }

  lemma CodeSize(colours: seq<Colour>, indexed: bool, deep: bool, k: nat)
    requires k < |colours| && (indexed ==> |colours| <= 256)
    ensures |Code(colours, indexed, deep, k)| == Width(indexed, deep)
  {
  }

  // The packet at m is all there, and shows its pixels' colours.
  ghost predicate ReadsChunk(source: seq<Byte>, coding: Coding, colours: seq<Colour>, deep: bool, pixels: seq<nat>, m: nat) {
    && m < |source| && Length(source[m]) == |pixels|
    && forall j: nat | j < |pixels| :: ReadsPixel(source, coding, colours, deep, pixels, m, j)
  }

  ghost predicate ReadsPixel(source: seq<Byte>, coding: Coding, colours: seq<Colour>, deep: bool, pixels: seq<nat>, m: nat, j: nat)
    requires m < |source| && j < |pixels|
  {
    && Readable(source, coding, Place(source[m], coding, m, j)) && pixels[j] < |colours|
    && IsWord(Pixel(source, coding, Place(source[m], coding, m, j)), colours[pixels[j]], deep)
  }

  lemma ChunkIsRead(source: seq<Byte>, coding: Coding, colours: seq<Colour>, indexed: bool, deep: bool, chunk: Chunk, m: nat)
    requires Agreed(source, coding, colours, indexed, deep) && Sized(chunk) && Numbered(colours, indexed, PixelsOf(chunk))
    requires Lies(source, m, ChunkBytes(colours, indexed, deep, chunk))
    ensures ReadsChunk(source, coding, colours, deep, PixelsOf(chunk), m)
    ensures After(source[m], coding, m) == m + |ChunkBytes(colours, indexed, deep, chunk)|
  {
    hide IsWord, Pixel, Readable, ChunkBytes, Place, Length, After, Agreed, Lies;
    ChunkReads(source, coding, colours, indexed, deep, chunk, m, 0);
    forall j: nat | j < |PixelsOf(chunk)| ensures ReadsPixel(source, coding, colours, deep, PixelsOf(chunk), m, j) {
      ChunkReads(source, coding, colours, indexed, deep, chunk, m, j);
    }
  }

  // The rest was read, and now the packet before it.
  lemma ExpandsMore(source: seq<Byte>, coding: Coding, colours: seq<Colour>, deep: bool, pixels: seq<nat>, rest: seq<nat>, m: nat, size: nat)
    requires ReadsChunk(source, coding, colours, deep, pixels, m) && |pixels| > 0 && m < size && AllNumbered(colours, rest)
    requires WellPacked(source, coding, After(source[m], coding, m), |rest|, size)
    requires Words(Expansion(source, coding, After(source[m], coding, m), |rest|, size), colours, rest, deep)
    ensures WellPacked(source, coding, m, |pixels + rest|, size) && AllNumbered(colours, pixels + rest)
    ensures Words(Expansion(source, coding, m, |pixels + rest|, size), colours, pixels + rest, deep)
  {
    hide IsWord, Pixel, Readable, Place, Length, After;
    var n := |pixels|;
    forall j: nat | j < n ensures Readable(source, coding, Place(source[m], coding, m, j)) && pixels[j] < |colours| {
      assert ReadsPixel(source, coding, colours, deep, pixels, m, j);
    }
    forall j: nat | j < n ensures IsWord(Packet(source, coding, m, n)[j], colours[pixels[j]], deep) {
      PacketAt(source, coding, m, n, j);
      assert ReadsPixel(source, coding, colours, deep, pixels, m, j);
    }
  }

  ghost predicate Words(words: seq<nat>, colours: seq<Colour>, pixels: seq<nat>, deep: bool)
    requires AllNumbered(colours, pixels)
  {
    |words| == |pixels| && forall i | 0 <= i < |words| :: IsWord(words[i], colours[pixels[i]], deep)
  }

  lemma {:induction false} EncodedReads(source: seq<Byte>, coding: Coding, colours: seq<Colour>, indexed: bool, deep: bool, chunks: seq<Chunk>, m: nat, size: nat)
    requires Agreed(source, coding, colours, indexed, deep) && Encodable(colours, indexed, chunks)
    requires Lies(source, m, Encoded(colours, indexed, deep, chunks)) && m + |Encoded(colours, indexed, deep, chunks)| <= size
    ensures WellPacked(source, coding, m, |AllPixels(chunks)|, size) && AllNumbered(colours, AllPixels(chunks))
    ensures Words(Expansion(source, coding, m, |AllPixels(chunks)|, size), colours, AllPixels(chunks), deep)
    decreases |chunks|
  {
    hide Encoded, AllPixels, Encodable, Numbered, Sized, PixelsOf, IsWord, Pixel, Readable, ChunkBytes, Place, Length, After, Agreed, Lies, WellPacked, Expansion, Words, ReadsChunk, AllNumbered;
    if chunks == [] {
      NothingEncoded(source, coding, colours, deep, m, size);
    } else {
      EncodedParts(colours, indexed, deep, chunks);
      var s, t := ChunkBytes(colours, indexed, deep, chunks[0]), Encoded(colours, indexed, deep, chunks[1..]);
      BothStand(source, m, s, t);
      ChunkIsRead(source, coding, colours, indexed, deep, chunks[0], m);
      ChunkSize(colours, indexed, deep, chunks[0]);
      EncodedReads(source, coding, colours, indexed, deep, chunks[1..], m + |s|, size);
      ExpandsMore(source, coding, colours, deep, PixelsOf(chunks[0]), AllPixels(chunks[1..]), m, size);
    }
  }

  lemma NothingEncoded(source: seq<Byte>, coding: Coding, colours: seq<Colour>, deep: bool, m: nat, size: nat)
    ensures AllPixels([]) == [] && WellPacked(source, coding, m, 0, size) && AllNumbered(colours, [])
    ensures Words(Expansion(source, coding, m, 0, size), colours, [], deep)
  {
  }

  lemma EncodedParts(colours: seq<Colour>, indexed: bool, deep: bool, chunks: seq<Chunk>)
    requires Encodable(colours, indexed, chunks) && chunks != []
    ensures Sized(chunks[0]) && Numbered(colours, indexed, PixelsOf(chunks[0])) && Encodable(colours, indexed, chunks[1..])
    ensures Encoded(colours, indexed, deep, chunks) ==
            ChunkBytes(colours, indexed, deep, chunks[0]) + Encoded(colours, indexed, deep, chunks[1..])
    ensures AllPixels(chunks) == PixelsOf(chunks[0]) + AllPixels(chunks[1..])
  {
  }

  lemma ChunkSize(colours: seq<Colour>, indexed: bool, deep: bool, chunk: Chunk)
    requires Sized(chunk) && Numbered(colours, indexed, PixelsOf(chunk))
    ensures |ChunkBytes(colours, indexed, deep, chunk)| > 0 && |PixelsOf(chunk)| > 0
  {
  }

  ghost predicate AllNumbered(colours: seq<Colour>, pixels: seq<nat>) {
    forall i | 0 <= i < |pixels| :: pixels[i] < |colours|
  }

  // The header of such a picture, w by h, stored with a map of colours or not, with alpha or not.
  predicate Headed(header: seq<Byte>, colours: seq<Colour>, indexed: bool, deep: bool, w: nat, h: nat) {
    && |header| == 18
    && header[12] as int + 256 * header[13] as int == w > 0 && header[14] as int + 256 * header[15] as int == h > 0
    && if indexed then
         && header[2] == 9 && header[1] != 0 && header[3] == header[4] == header[6] == 0 && header[5] as int == |colours|
         && header[7] == if deep then 32 else 24
       else
         && header[2] == 10 && header[1] == header[5] == header[6] == 0 && header[16] == if deep then 32 else 24
  }

  // Column c of row r of the picture shows the colour of the pixel that was written for it; the rows were written
  // from the lowest up if the header gives 0 for where they start.
  ghost predicate CellShows(target: seq<nat>, header: seq<Byte>, colours: seq<Colour>, pixels: seq<nat>, deep: bool, w: nat, h: nat, r: nat, c: nat)
    requires |header| == 18 && r < h && c < w
  {
    var at := (if header[10] == header[11] == 0 then h - 1 - r else r) * w + c;
    r * w + c < |target| && 0 <= at < |pixels| && pixels[at] < |colours| && IsWord(target[r * w + c], colours[pixels[at]], deep)
  }

  lemma EncodedCell(header: seq<Byte>, colours: seq<Colour>, pixels: seq<nat>, deep: bool, w: nat, h: nat,
                    before: seq<nat>, target: seq<nat>, words: seq<nat>, r: nat, c: nat)
    requires |header| == 18 && r < h && c < w && AllNumbered(colours, pixels) && Words(words, colours, pixels, deep)
    requires Painted(before, target, words, w, h, Word(header, 10), w * h)
    ensures CellShows(target, header, colours, pixels, deep, w, h, r, c)
  {
    hide IsWord, Painted;
    var o := Word(header, 10);
    assert o == 0 <==> header[10] == header[11] == 0;
    PaintedAll(before, target, words, w, h, o, r, c);
    assert At(w, r, c) == r * w + c && At(w, RowOf(h, o, r), c) == RowOf(h, o, r) * w + c;
  }

  // Whatever a writer makes of a picture, cut into packets in any way, and whatever follows it in the file: reading
  // it shows every pixel in its colour, in its place.
  method ParseEncoded(header: seq<Byte>, colours: seq<Colour>, indexed: bool, deep: bool, chunks: seq<Chunk>, rest: seq<Byte>,
                      w: nat, h: nat, target: array<nat>)
    returns (ok: bool)
    requires Headed(header, colours, indexed, deep, w, h) && Encodable(colours, indexed, chunks)
    requires |AllPixels(chunks)| == w * h <= target.Length
    modifies target
    ensures ok
    ensures forall r: nat, c: nat | r < h && c < w :: CellShows(target[..], header, colours, AllPixels(chunks), deep, w, h, r, c)
    ensures forall j | w * h <= j < target.Length :: target[j] == old(target[j])
  {
    hide Encoded, MapBytes, Expansion, WellPacked, Painted, CellShows, IsWord, AllPixels, Words, Agreed;
    var map' := if indexed then MapBytes(colours, deep) else [];
    var code := Encoded(colours, indexed, deep, chunks);
    var file := header + map' + code + rest;
    var source := new Byte[|file|](j requires 0 <= j < |file| => file[j]);
    assert source[..] == file;
    Written(header, colours, indexed, deep, chunks, map', code, rest, w, h);
    EncodedReads(file, CodingOf(file), colours, indexed, deep, chunks, StartOf(file), |file|);
    ghost var before := target[..];
    ok := Parse(source, target, |file|);
    forall r: nat, c: nat | r < h && c < w ensures CellShows(target[..], header, colours, AllPixels(chunks), deep, w, h, r, c) {
      EncodedCell(header, colours, AllPixels(chunks), deep, w, h, before, target[..],
                  Expansion(file, CodingOf(file), StartOf(file), w * h, |file|), r, c);
    }
    OutsideKept(before, target[..], Expansion(file, CodingOf(file), StartOf(file), w * h, |file|), w, h, Word(file, 10));
  }

  lemma OutsideKept(before: seq<nat>, target: seq<nat>, pixels: seq<nat>, w: nat, h: nat, origin: nat)
    requires Painted(before, target, pixels, w, h, origin, w * h)
    ensures |target| == |before| && forall j | w * h <= j < |target| :: target[j] == before[j]
  {
  }

  // The header says where the map and the packets are.
  lemma Written(header: seq<Byte>, colours: seq<Colour>, indexed: bool, deep: bool, chunks: seq<Chunk>, map': seq<Byte>, code: seq<Byte>, rest: seq<Byte>,
                w: nat, h: nat)
    requires Headed(header, colours, indexed, deep, w, h) && map' == (if indexed then MapBytes(colours, deep) else [])
    ensures var file := header + map' + code + rest;
            && |file| >= HEADER_BYTES && !Refused(file) && file[2] != 1 && file[2] != 2
            && Word(file, 12) == w && Word(file, 14) == h && Word(file, 10) == Word(header, 10)
            && Agreed(file, CodingOf(file), colours, indexed, deep)
            && StartOf(file) + |code| <= |file| && Lies(file, StartOf(file), code)
  {
    hide MapBytes, Refused, Word, CodingOf, StartOf, Headed;
    var file := header + map' + code + rest;
    HeaderSize(header, colours, indexed, deep, w, h);
    HeaderSays(header, map' + code + rest, colours, indexed, deep, w, h);
    assert header + (map' + code + rest) == file;
    MapSize(colours, deep);
    Laid(header, map', code, rest);
  }

  lemma HeaderSize(header: seq<Byte>, colours: seq<Colour>, indexed: bool, deep: bool, w: nat, h: nat)
    requires Headed(header, colours, indexed, deep, w, h)
    ensures |header| == HEADER_BYTES
  {
  }

  lemma Laid(header: seq<Byte>, map': seq<Byte>, code: seq<Byte>, rest: seq<Byte>)
    ensures var file := header + map' + code + rest;
            Lies(file, |header|, map') && Lies(file, |header| + |map'|, code)
  {
    var file := header + map' + code + rest;
    assert file[|header|..|header| + |map'|] == map';
    assert file[|header| + |map'|..|header| + |map'| + |code|] == code;
  }

  lemma MapSize(colours: seq<Colour>, deep: bool)
    ensures |MapBytes(colours, deep)| == |colours| * if deep then 4 else 3
  {
    if colours != [] {
      MapAt(colours, deep, 0);
    }
  }

  lemma HeaderSays(header: seq<Byte>, rest: seq<Byte>, colours: seq<Colour>, indexed: bool, deep: bool, w: nat, h: nat)
    requires Headed(header, colours, indexed, deep, w, h)
    ensures var file := header + rest;
            && !Refused(file) && file[2] != 1 && file[2] != 2
            && Word(file, 12) == w && Word(file, 14) == h && Word(file, 10) == Word(header, 10)
            && CodingOf(file) == Coding(indexed, if deep then 4 else 3)
            && StartOf(file) == HEADER_BYTES + if indexed then |colours| * (if deep then 4 else 3) else 0
  {
  }

}
