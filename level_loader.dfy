/** `LevelLoader`: turns the pixels of a level image into collidable actors.
    Pixels are visited row by row; white pixels are skipped, exact red becomes
    a "cube n" decorator, exact blue a "Pyramid n" obstacle, and every other
    colour is dropped. One counter, kept by the loader across calls, numbers
    the actors of both colours. */
module Levels {
  import opened Common
  import Collidable

  /** An XNA `Color`; `Equals` compares all four channels, alpha included. */
  datatype Color = Color(r: int, g: int, b: int, a: int)

  const White: Color := Color(255, 255, 255, 255)
  /** `new Color(255, 0, 0)`, which is opaque. */
  const Red: Color := Color(255, 0, 0, 255)
  /** `new Color(0, 0, 255)`, which is opaque. */
  const Blue: Color := Color(0, 0, 255, 255)

  /** A level image: `data` holds its pixels row after row, as `GetData` returns them. */
  datatype Texture = Texture(width: nat, height: nat, data: seq<Color>)

  predicate WellFormed(t: Texture)
  {
    |t.data| == t.width * t.height
  }

  /** The arguments of `Load` that place the actors in the world. */
  datatype Placement = Placement(scaleX: real, scaleZ: real, height: real, offset: Vec3)

  /** The ID a loaded actor is given: a prefix chosen by its colour, then the counter. */
  datatype LoadedId = Cube(n: nat) | Pyramid(n: nat)

  /** The ID as text: `"cube " + count` or `"Pyramid " + count`. */
  function IdText(i: LoadedId): string
  {
    match i
    case Cube(n) => "cube " + NatToString(n)
    case Pyramid(n) => "Pyramid " + NatToString(n)
  }

  /** Different IDs have different texts, so the text can stand for the ID. */
  lemma IdTextInjective(a: LoadedId, b: LoadedId)
    ensures IdText(a) == IdText(b) <==> a == b
  {
    if a.Cube? && b.Cube? {
      PrefixedNumberInjective("cube ", a.n, b.n);
    } else if a.Pyramid? && b.Pyramid? {
      PrefixedNumberInjective("Pyramid ", a.n, b.n);
    } else {
      assert IdText(a)[0] != IdText(b)[0];
    }
  }

  /** The archetypes `getObjectFromColor` clones, by their dictionary keys
      "lit textured cube" and "lit textured pyramid". */
  datatype Archetype = LitTexturedCube | LitTexturedPyramid

  /** The textures it assigns, by their dictionary keys "walls" and "redCube". */
  datatype TextureKey = Walls | RedCube

  /** A collidable actor as built by `getObjectFromColor`: the archetype it is
      cloned from, the texture and alpha it is given, and its collision primitive. */
  datatype LoadedActor = LoadedActor(id: LoadedId, actorType: ActorType, status: Status,
                                     transform: Transform3D, archetype: Archetype, texture: TextureKey,
                                     alpha: real, primitive: Collidable.CollisionPrimitive)
  {
    function AsActor(): Actor { Actor(IdText(id), actorType, PrimitiveObject) }
  }

  predicate ProducesActor(c: Color)
  {
    c == Red || c == Blue
  }

  /** Where the pixel in column `x`, row `y` is placed: spread out by the two
      scales in the XZ plane, lifted to `height`, then shifted by `offset`. */
  function PixelTranslation(x: nat, y: nat, p: Placement): Vec3
  {
    Vec3(x as real * p.scaleX, p.height, y as real * p.scaleZ).Plus(p.offset)
  }

  /** With both scales nonzero, no two pixels are placed at the same point:
      the translation gives back the column and the row. */
  lemma PixelTranslationInjective(x1: nat, y1: nat, x2: nat, y2: nat, p: Placement)
    requires p.scaleX != 0.0 && p.scaleZ != 0.0
    ensures PixelTranslation(x1, y1, p) == PixelTranslation(x2, y2, p) <==> x1 == x2 && y1 == y2
  {
    if PixelTranslation(x1, y1, p) == PixelTranslation(x2, y2, p) {
      assert (x1 as real - x2 as real) * p.scaleX == 0.0;
      assert (y1 as real - y2 as real) * p.scaleZ == 0.0;
    }
  }

  /** The actor built for a red or blue pixel, numbered `n`. */
  function MakeActor(c: Color, translation: Vec3, n: nat): LoadedActor
    requires ProducesActor(c)
  {
    if c == Red then
      LoadedActor(Cube(n), CollidableDecorator, {Update, Drawn},
                  Transform3D(translation, Zero, Vec3(2.0, 3.0, 1.0).Times(10.0)),
                  LitTexturedCube, Walls, 1.0, Collidable.BoxCollisionPrimitive)
    else
      LoadedActor(Pyramid(n), CollidableObstacle, {Update, Drawn},
                  Transform3D(translation, Zero, Vec3(1.0, 1.0, 1.0).Times(10.0)),
                  LitTexturedPyramid, RedCube, 1.0, Collidable.BoxCollisionPrimitive)
  }

  /** `getObjectFromColor` with the counter at `count`: an actor exactly for red
      and blue, numbered `count`, placed at `translation`, unrotated, drawn and
      updated; red gives a decorator cube, blue an obstacle pyramid. */
  function FromColor(c: Color, translation: Vec3, count: nat): (r: Option<LoadedActor>)
    ensures r.Some? <==> ProducesActor(c)
    ensures r.Some? ==> r.value.id.n == count && r.value.status == {Update, Drawn} &&
                        r.value.transform.translation == translation &&
                        r.value.transform.rotationInDegrees == Zero &&
                        r.value.primitive == Collidable.BoxCollisionPrimitive && r.value.alpha == 1.0
    ensures r.Some? ==> r.value.transform.scale == (if c == Red then Vec3(20.0, 30.0, 10.0) else Vec3(10.0, 10.0, 10.0)) &&
                        r.value.texture == (if c == Red then Walls else RedCube) &&
                        r.value.archetype == (if c == Red then LitTexturedCube else LitTexturedPyramid)
    ensures r.Some? ==> (r.value.id.Cube? <==> c == Red) &&
                        (r.value.actorType == CollidableDecorator <==> c == Red) &&
                        (r.value.actorType == CollidableObstacle <==> c == Blue)
  {
    if c == Red || c == Blue then Some(MakeActor(c, translation, count)) else None
  }

  /** A pixel index lies in an image that has at least one column. */
  lemma WidthPositive(t: Texture, i: nat)
    requires WellFormed(t) && i < |t.data|
    ensures t.width > 0
  {
  }

  /** The column of index `i` in rows of `w` pixels, counted by whole rows. */
  function Column(i: nat, w: nat): nat
    requires w > 0
    decreases i
  {
    if i < w then i else Column(i - w, w)
  }

  /** The row of index `i` in rows of `w` pixels. */
  function RowOf(i: nat, w: nat): nat
    requires w > 0
    decreases i
  {
    if i < w then 0 else RowOf(i - w, w) + 1
  }

  /** Column and row are the remainder and the quotient of the division by the width. */
  lemma {:induction false} ColumnRowAreDivMod(i: nat, w: nat)
    requires w > 0
    ensures Column(i, w) == i % w && RowOf(i, w) == i / w
    decreases i
  {
    if i >= w {
      ColumnRowAreDivMod(i - w, w);
      DivModStep(i, w);
    }
  }

  lemma DivModStep(i: nat, w: nat)
    requires 0 < w <= i
    ensures (i - w) % w == i % w && (i - w) / w + 1 == i / w
  {
    var q, r := (i - w) / w, (i - w) % w;
    assert i - w == q * w + r && 0 <= r < w;
    assert i == (q + 1) * w + r;
    DivModUnique(i, w, q + 1, r);
  }

  /** Division by a positive `w` has only one quotient and remainder. */
  lemma DivModUnique(i: nat, w: nat, q: int, r: int)
    requires w > 0 && i == q * w + r && 0 <= r < w
    ensures i / w == q && i % w == r
  {
    var q', r' := i / w, i % w;
    assert (q - q') * w == r' - r;
    if q > q' {
      assert (q - q') * w >= w by { MulAtLeast(q - q', w); }
    } else if q < q' {
      assert (q' - q) * w >= w by { MulAtLeast(q' - q, w); }
    }
  }

  lemma MulAtLeast(a: int, w: nat)
    requires a >= 1
    ensures a * w >= w
  {
    assert a * w == (a - 1) * w + w;
  }

  /** Where pixel `i` of the flat pixel array is placed: it lies in column
      `i % width` of row `i / width`. */
  function PixelPlace(t: Texture, p: Placement, i: nat): Vec3
    requires WellFormed(t) && i < |t.data|
  {
    WidthPositive(t, i);
    PixelTranslation(i % t.width, i / t.width, p)
  }

  /** The actor list an optional actor contributes: none or one. */
  function AsList(o: Option<LoadedActor>): (r: seq<LoadedActor>)
    ensures o.None? <==> r == []
    ensures o.Some? ==> r == [o.value]
  {
    if o.Some? then [o.value] else []
  }

  /** What pixel `i` contributes, with the counter at `count`. */
  function PixelActors(t: Texture, p: Placement, i: nat, count: nat): seq<LoadedActor>
    requires WellFormed(t) && i < |t.data|
  {
    if t.data[i] == White then [] else AsList(FromColor(t.data[i], PixelPlace(t, p, i), count))
  }

  /** The list `Load` has built after the first `n` pixels, with the counter at `count` at the start. */
  function Scan(t: Texture, p: Placement, n: nat, count: nat): seq<LoadedActor>
    requires WellFormed(t) && n <= |t.data|
    decreases n
  {
    if n == 0 then []
    else
      var before := Scan(t, p, n - 1, count);
      before + PixelActors(t, p, n - 1, count + |before|)
  }

  /** The indices below `n` of the red and blue pixels, in scan order. */
  function Producing(t: Texture, n: nat): (r: seq<nat>)
    requires n <= |t.data|
    ensures forall j :: 0 <= j < |r| ==> r[j] < n && ProducesActor(t.data[r[j]])
    decreases n
  {
    if n == 0 then []
    else Producing(t, n - 1) + (if ProducesActor(t.data[n - 1]) then [n - 1] else [])
  }

  /** `Producing` lists every red or blue pixel below `n`, each once, in increasing order. */
  lemma {:induction false} ProducingComplete(t: Texture, n: nat)
    requires n <= |t.data|
    ensures forall i :: 0 <= i < n && ProducesActor(t.data[i]) ==> i in Producing(t, n)
    ensures forall j, k :: 0 <= j < k < |Producing(t, n)| ==> Producing(t, n)[j] < Producing(t, n)[k]
    decreases n
  {
    if n > 0 {
      ProducingComplete(t, n - 1);
    }
  }

  /** One actor per red or blue pixel. */
  lemma {:induction false} ScanLength(t: Texture, p: Placement, n: nat, count: nat)
    requires WellFormed(t) && n <= |t.data|
    ensures |Scan(t, p, n, count)| == |Producing(t, n)|
    decreases n
  {
    if n > 0 {
      ScanLength(t, p, n - 1, count);
      assert t.data[n - 1] == White ==> !ProducesActor(t.data[n - 1]);
    }
  }

  /** The `j`-th actor is built from the `j`-th red or blue pixel and numbered `count + j`. */
  lemma {:induction false} ScanAt(t: Texture, p: Placement, n: nat, count: nat, j: nat)
    requires WellFormed(t) && n <= |t.data|
    requires j < |Producing(t, n)|
    ensures |Scan(t, p, n, count)| == |Producing(t, n)|
    ensures Scan(t, p, n, count)[j] ==
            MakeActor(t.data[Producing(t, n)[j]], PixelPlace(t, p, Producing(t, n)[j]), count + j)
    decreases n
  {
    ScanLength(t, p, n, count);
    ScanLength(t, p, n - 1, count);
    if j < |Producing(t, n - 1)| {
      ScanAt(t, p, n - 1, count, j);
    } else {
      assert Producing(t, n)[j] == n - 1;
    }
  }

  /** The loader's output is the actor of every red or blue pixel, in scan order,
      numbered consecutively from the counter's value at the start. */
  lemma ScanIsProducingMap(t: Texture, p: Placement, n: nat, count: nat)
    requires WellFormed(t) && n <= |t.data|
    ensures |Scan(t, p, n, count)| == |Producing(t, n)|
    ensures forall j :: 0 <= j < |Producing(t, n)| ==>
              Scan(t, p, n, count)[j] ==
                MakeActor(t.data[Producing(t, n)[j]], PixelPlace(t, p, Producing(t, n)[j]), count + j)
  {
    ScanLength(t, p, n, count);
    forall j | 0 <= j < |Producing(t, n)|
      ensures Scan(t, p, n, count)[j] ==
                MakeActor(t.data[Producing(t, n)[j]], PixelPlace(t, p, Producing(t, n)[j]), count + j)
    {
      ScanAt(t, p, n, count, j);
    }
  }

  /** The actors of `s` carry the numbers `start`, `start + 1`, ... in order. */
  predicate NumberedFrom(s: seq<LoadedActor>, start: nat)
  {
    forall j :: 0 <= j < |s| ==> s[j].id.n == start + j
  }

  lemma ScanNumbered(t: Texture, p: Placement, n: nat, count: nat)
    requires WellFormed(t) && n <= |t.data|
    ensures NumberedFrom(Scan(t, p, n, count), count)
  {
    ScanLength(t, p, n, count);
    forall j | 0 <= j < |Scan(t, p, n, count)|
      ensures Scan(t, p, n, count)[j].id.n == count + j
    {
      ScanAt(t, p, n, count, j);
    }
  }

  /** Actor IDs never repeat within one load, as values and as text. */
  lemma ScanIdsDistinct(t: Texture, p: Placement, n: nat, count: nat, j: nat, k: nat)
    requires WellFormed(t) && n <= |t.data|
    requires j < k < |Scan(t, p, n, count)|
    ensures IdText(Scan(t, p, n, count)[j].id) != IdText(Scan(t, p, n, count)[k].id)
  {
    var s := Scan(t, p, n, count);
    ScanNumbered(t, p, n, count);
    IdTextInjective(s[j].id, s[k].id);
  }

  /** Every loaded actor is collidable: a `CollidableDecorator` cube or a `CollidableObstacle` pyramid. */
  lemma {:induction false} ScanIsCollidable(t: Texture, p: Placement, n: nat, count: nat)
    requires WellFormed(t) && n <= |t.data|
    ensures forall a :: a in Scan(t, p, n, count) ==>
              a.actorType == CollidableDecorator || a.actorType == CollidableObstacle
    decreases n
  {
    if n > 0 {
      ScanIsCollidable(t, p, n - 1, count);
    }
  }

  /** Two numbered runs, the second starting where the first stopped, share no ID. */
  lemma ConsecutiveRunsDistinct(a: seq<LoadedActor>, b: seq<LoadedActor>, start: nat, j: nat, k: nat)
    requires NumberedFrom(a, start) && NumberedFrom(b, start + |a|)
    requires j < |a| && k < |b|
    ensures IdText(a[j].id) != IdText(b[k].id)
  {
    IdTextInjective(a[j].id, b[k].id);
  }

  /** Two loads by one loader never reuse an ID: the second starts numbering where the first stopped. */
  lemma SuccessiveLoadsDistinct(t1: Texture, p1: Placement, t2: Texture, p2: Placement, count: nat, j: nat, k: nat)
    requires WellFormed(t1) && WellFormed(t2)
    requires j < |Scan(t1, p1, |t1.data|, count)|
    requires k < |Scan(t2, p2, |t2.data|, count + |Scan(t1, p1, |t1.data|, count)|)|
    ensures IdText(Scan(t1, p1, |t1.data|, count)[j].id) !=
            IdText(Scan(t2, p2, |t2.data|, count + |Scan(t1, p1, |t1.data|, count)|)[k].id)
  {
    var a := Scan(t1, p1, |t1.data|, count);
    ScanNumbered(t1, p1, |t1.data|, count);
    ScanNumbered(t2, p2, |t2.data|, count + |a|);
    ConsecutiveRunsDistinct(a, Scan(t2, p2, |t2.data|, count + |a|), count, j, k);
  }

  /** Where row `y` starts in the flat pixel array, counted row by row. `Load`
      keeps its row index in this form so that its loop invariants stay linear;
      `RowStartIsProduct` connects it to the source's `y * width`. */
  function RowStart(w: nat, y: nat): nat
    decreases y
  {
    if y == 0 then 0 else RowStart(w, y - 1) + w
  }

  lemma {:induction false} RowStartIsProduct(w: nat, y: nat)
    ensures RowStart(w, y) == y * w
    decreases y
  {
    if y > 0 {
      RowStartIsProduct(w, y - 1);
      assert (y - 1) * w + w == y * w;
    }
  }

  /** Column `x` of row `y` is index `RowStart(w, y) + x` of the flat array, and back. */
  lemma {:induction false} RowMajor(x: nat, y: nat, w: nat)
    requires x < w
    ensures Column(RowStart(w, y) + x, w) == x && RowOf(RowStart(w, y) + x, w) == y
    decreases y
  {
    if y > 0 {
      RowMajor(x, y - 1, w);
      assert RowStart(w, y) + x - w == RowStart(w, y - 1) + x;
    }
  }

  /** One more pixel: the list grows by the actor of the pixel in column `x` of
      row `y`, numbered from where the list stood. */
  lemma ScanStep(t: Texture, p: Placement, x: nat, y: nat, row: nat, count: nat,
                 list: seq<LoadedActor>, actor: Option<LoadedActor>)
    requires WellFormed(t) && x < t.width && row == RowStart(t.width, y) && row + x < |t.data|
    requires list == Scan(t, p, row + x, count)
    requires actor == FromColor(t.data[row + x], PixelTranslation(x, y, p), count + |list|)
    ensures list + AsList(actor) == Scan(t, p, row + (x + 1), count)
  {
    RowMajor(x, y, t.width);
    ColumnRowAreDivMod(row + x, t.width);
    assert PixelPlace(t, p, row + x) == PixelTranslation(x, y, p);
  }

  /** Later rows start later. */
  lemma {:induction false} RowStartMonotone(w: nat, y: nat, z: nat)
    requires y <= z
    ensures RowStart(w, y) <= RowStart(w, z)
    decreases z
  {
    if y < z {
      RowStartMonotone(w, y, z - 1);
    }
  }

  /** After the last row, the scan has covered the whole image. */
  lemma RowsCover(t: Texture, y: nat)
    requires WellFormed(t) && y == t.height
    ensures RowStart(t.width, y) == |t.data|
  {
    RowStartIsProduct(t.width, y);
  }

  /** Every row of the image lies inside its pixel array. */
  lemma RowFits(t: Texture, y: nat)
    requires WellFormed(t) && y < t.height
    ensures RowStart(t.width, y) + t.width <= |t.data|
  {
    RowStartMonotone(t.width, y + 1, t.height);
    RowsCover(t, t.height);
  }

  class LevelLoader {
    /** The next actor number; it starts at 1 and is never reset. */
    var count: nat

    constructor ()
      ensures count == 1
    {
      count := 1;
    }

    /** `getObjectFromColor`: the actor for a red or blue pixel, numbered with
        the counter, which then moves on; `None` for any other colour. */
    method GetObjectFromColor(c: Color, translation: Vec3) returns (a: Option<LoadedActor>)
      modifies this
      ensures a == FromColor(c, translation, old(count))
      ensures count == old(count) + (if a.Some? then 1 else 0)
    {
      if c == Red {
        a := Some(MakeActor(c, translation, count));
        count := count + 1;
      } else if c == Blue {
        a := Some(MakeActor(c, translation, count));
        count := count + 1;
      } else {
        a := None;
      }
    }

    /** One pixel of `Load`'s inner loop, the one in column `x` of row `y`:
        skipped when white, otherwise handed to `GetObjectFromColor`, and the
        actor it returns, if any, appended to the list. */
    method LoadPixel(t: Texture, p: Placement, x: nat, y: nat, ghost row: nat, ghost i: nat, ghost start: nat,
                     list0: seq<LoadedActor>) returns (list: seq<LoadedActor>)
      requires WellFormed(t) && x < t.width && y < t.height && row == RowStart(t.width, y) && i == row + x
      requires row + t.width <= |t.data|
      requires list0 == Scan(t, p, i, start) && count == start + |list0|
      modifies this
      ensures list == Scan(t, p, i + 1, start) && count == start + |list|
    {
      RowStartIsProduct(t.width, y);
      assert x + y * t.width == row + x;
      var color := t.data[x + y * t.width];
      var actor: Option<LoadedActor> := None;
      if color != White {
        var translation := PixelTranslation(x, y, p);
        actor := GetObjectFromColor(color, translation);
      } else {
        assert !ProducesActor(color);
      }
      list := list0;
      if actor.Some? {
        list := list + [actor.value];
      }
      ScanStep(t, p, x, y, row, start, list0, actor);
    }

    /** The pixels of row `y`, in column order: the body of the outer loop of
        `Load`, with the list built so far passed in and returned. */
    method LoadRow(t: Texture, p: Placement, y: nat, ghost row: nat, ghost start: nat, list0: seq<LoadedActor>)
      returns (list: seq<LoadedActor>)
      requires WellFormed(t) && y < t.height && row == RowStart(t.width, y) && row + t.width <= |t.data|
      requires list0 == Scan(t, p, row, start) && count == start + |list0|
      modifies this
      ensures list == Scan(t, p, row + t.width, start) && count == start + |list|
    {
      list := list0;
      var x := 0;
      ghost var i := row;
      while x < t.width
        invariant 0 <= x <= t.width && i == row + x
        invariant list == Scan(t, p, i, start) && count == start + |list|
      {
        list := LoadPixel(t, p, x, y, row, i, start, list);
        x := x + 1;
        i := i + 1;
      }
      assert i == row + t.width;
    }

    /** `Load`: every pixel, row after row; white ones are skipped, the others go
        through `GetObjectFromColor`, and what it returns is appended. */
    method Load(t: Texture, p: Placement) returns (list: seq<LoadedActor>)
      requires WellFormed(t)
      modifies this
      ensures list == Scan(t, p, |t.data|, old(count))
      ensures count == old(count) + |list|
    {
      list := [];
      ghost var start := count;
      ghost var row: nat := 0;
      var y := 0;
      while y < t.height
        invariant 0 <= y <= t.height
        invariant row == RowStart(t.width, y) && row <= |t.data|
        invariant list == Scan(t, p, row, start) && count == start + |list|
      {
        RowFits(t, y);
        list := LoadRow(t, p, y, row, start, list);
        row := row + t.width;
        y := y + 1;
      }
      RowsCover(t, y);
    }
  }
}
