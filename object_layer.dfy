/**
 * One layer of the tile world's game objects (ToyWorld/World/ToyWorldCore/SimpleObjectLayer.cs):
 * an append-only list of objects and a linear-scan query for the objects whose cover
 * rectangle meets a query rectangle.
 */
module ObjectLayer {

  /** An axis-aligned rectangle: its corner (x, y), its width and its height. */
  datatype Rect = Rect(x: real, y: real, width: real, height: real)

  /** The rectangle with no extent. */
  const EmptyRect: Rect := Rect(0.0, 0.0, 0.0, 0.0)

  function Min(a: real, b: real): real {
    if a <= b then a else b
  }

  function Max(a: real, b: real): real {
    if a <= b then b else a
  }

  /** The length of the common part of the intervals [a0, a1] and [b0, b1]; negative when they are apart. */
  function Overlap(a0: real, a1: real, b0: real, b1: real): real {
    Min(a1, b1) - Max(a0, b0)
  }

  /**
   * `RectangleF.Intersect`, whose code is not part of this model, by the definition of the
   * vector-math libraries it follows: the common part of the two rectangles when it has
   * positive extent along both axes, otherwise the empty rectangle. Rectangles that only
   * touch therefore intersect in the empty rectangle.
   */
  function Intersect(a: Rect, b: Rect): (r: Rect)
    ensures r != EmptyRect ==> a.x <= r.x && b.x <= r.x && a.y <= r.y && b.y <= r.y
    ensures r != EmptyRect ==> r.x + r.width <= a.x + a.width && r.x + r.width <= b.x + b.width
    ensures r != EmptyRect ==> r.y + r.height <= a.y + a.height && r.y + r.height <= b.y + b.height
    ensures r == EmptyRect || (0.0 < r.width && 0.0 < r.height)
  {
    var x1 := Max(a.x, b.x);
    var x2 := Min(a.x + a.width, b.x + b.width);
    var y1 := Max(a.y, b.y);
    var y2 := Min(a.y + a.height, b.y + b.height);
    if x2 > x1 && y2 > y1 then Rect(x1, y1, x2 - x1, y2 - y1) else EmptyRect
  }

  /**
   * `r.Size.Length() > 0`: the size vector has a positive Euclidean length, which holds
   * exactly when its squared length is positive.
   */
  predicate SizeLengthPositive(r: Rect) {
    r.width * r.width + r.height * r.height > 0.0
  }

  /** The inclusion test of `GetGameObjects` for one object's cover rectangle. */
  predicate Hits(cover: Rect, query: Rect) {
    SizeLengthPositive(Intersect(cover, query))
  }

  /**
   * An object is returned exactly when its cover rectangle and the query share a stretch of
   * positive length along both axes, that is, an overlap of positive area.
   */
  lemma {:induction false} HitsIff(cover: Rect, query: Rect)
    ensures Hits(cover, query) <==>
      && Overlap(cover.x, cover.x + cover.width, query.x, query.x + query.width) > 0.0
      && Overlap(cover.y, cover.y + cover.height, query.y, query.y + query.height) > 0.0
  {
    var r := Intersect(cover, query);
    if r != EmptyRect {
      SquaresPositive(r.width, r.height);
    }
  }

  lemma SquaresPositive(w: real, h: real)
    requires 0.0 < w && 0.0 < h
    ensures w * w + h * h > 0.0
  {
    assert w * w > 0.0;
  }

  /**
   * A rectangle that touches the query's right edge, over a stretch or only at a corner,
   * is not returned. This rests on the intersection of touching rectangles being empty.
   */
  lemma EdgeTouchIsNoHit(cover: Rect, query: Rect)
    requires 0.0 <= query.width && 0.0 <= cover.width
    requires cover.x == query.x + query.width
    ensures !Hits(cover, query)
  {
    assert Overlap(cover.x, cover.x + cover.width, query.x, query.x + query.width) == 0.0;
    HitsIff(cover, query);
  }

  /** A rectangle lying wholly to the right of the query is not returned. */
  lemma ApartIsNoHit(cover: Rect, query: Rect)
    requires cover.x > query.x + query.width
    ensures !Hits(cover, query)
  {
    assert Overlap(cover.x, cover.x + cover.width, query.x, query.x + query.width) < 0.0;
    HitsIff(cover, query);
  }

  /** An object whose cover holds the whole of a query of positive size is returned. */
  lemma CoveringIsHit(cover: Rect, query: Rect)
    requires 0.0 < query.width && 0.0 < query.height
    requires cover.x <= query.x && query.x + query.width <= cover.x + cover.width
    requires cover.y <= query.y && query.y + query.height <= cover.y + cover.height
    ensures Hits(cover, query)
  {
    assert Overlap(cover.x, cover.x + cover.width, query.x, query.x + query.width) == query.width;
    assert Overlap(cover.y, cover.y + cover.height, query.y, query.y + query.height) == query.height;
    HitsIff(cover, query);
  }

  /** A game object, as far as the layer sees it: an identity and its cover rectangle. */
  datatype GameObject = GameObject(id: int, cover: Rect)

  /** The semantic category of a layer; the enumeration's members are not part of this model. */
  datatype LayerType = LayerType(code: nat)

  /** The members of `objects` that `GetGameObjects` returns for `query`, in list order. */
  function InRectangle(objects: seq<GameObject>, query: Rect): seq<GameObject> {
    if objects == [] then []
    else
      var last := objects[|objects| - 1];
      InRectangle(objects[..|objects| - 1], query) + (if Hits(last.cover, query) then [last] else [])
  }

  /** The positions in `objects` of the members `GetGameObjects` returns for `query`. */
  function HitPositions(objects: seq<GameObject>, query: Rect): seq<nat> {
    if objects == [] then []
    else
      var n := |objects| - 1;
      HitPositions(objects[..n], query) + (if Hits(objects[n].cover, query) then [n] else [])
  }

  /**
   * The query result is an order-preserving selection of the layer's members: its k-th
   * element is the member at the k-th of a strictly increasing list of positions, and a
   * position is on that list exactly when its member's cover rectangle hits the query.
   */
  lemma {:induction false} InRectangleSelects(objects: seq<GameObject>, query: Rect)
    ensures var ix := HitPositions(objects, query);
      && |InRectangle(objects, query)| == |ix|
      && (forall k | 0 <= k < |ix| :: ix[k] < |objects| && InRectangle(objects, query)[k] == objects[ix[k]])
      && (forall k1, k2 | 0 <= k1 < k2 < |ix| :: ix[k1] < ix[k2])
      && (forall i | 0 <= i < |objects| :: i in ix <==> Hits(objects[i].cover, query))
  {
    if objects != [] {
      var n := |objects| - 1;
      var init := objects[..n];
      InRectangleSelects(init, query);
      var ix0 := HitPositions(init, query);
      assert forall k | 0 <= k < |ix0| :: ix0[k] < n;
      forall i | 0 <= i < n ensures objects[i] == init[i] {
      }
    }
  }

  /** Membership: an object is in the result exactly when it is a member whose cover hits the query. */
  lemma {:induction false} InRectangleMembers(objects: seq<GameObject>, query: Rect, o: GameObject)
    ensures o in InRectangle(objects, query) <==> o in objects && Hits(o.cover, query)
  {
    if objects != [] {
      var n := |objects| - 1;
      InRectangleMembers(objects[..n], query, o);
      assert objects == objects[..n] + [objects[n]];
    }
  }

  /** `SimpleObjectLayer`: the layer's category and its objects in insertion order. */
  class SimpleObjectLayer {
    var gameObjects: seq<GameObject>
    var layerType: LayerType

    /** A new layer of the given category holds no objects. */
    constructor (layerType: LayerType)
      ensures this.layerType == layerType && gameObjects == []
    {
      this.layerType := layerType;
      gameObjects := [];
    }

    /**
     * `GetGameObjects`: scans the members in order and keeps those whose cover rectangle
     * hits the query. The layer itself is not changed.
     */
    method GetGameObjects(rectangle: Rect) returns (list: seq<GameObject>)
      ensures list == InRectangle(gameObjects, rectangle)
    {
      list := [];
      for i := 0 to |gameObjects|
        invariant list == InRectangle(gameObjects[..i], rectangle)
      {
        var gameObject := gameObjects[i];
        var r := Intersect(gameObject.cover, rectangle);
        if SizeLengthPositive(r) {
          list := list + [gameObject];
        }
        assert gameObjects[..i + 1][..i] == gameObjects[..i];
      }
      assert gameObjects[..|gameObjects|] == gameObjects;
    }

    /** `AddGameObject`: appends, without looking for duplicates, and reports success. */
    method AddGameObject(gameObject: GameObject) returns (added: bool)
      modifies this`gameObjects
      ensures added && gameObjects == old(gameObjects) + [gameObject]
    {
      gameObjects := gameObjects + [gameObject];
      added := true;
    }

    /** `GetAllObjects`: the members, in insertion order. */
    method GetAllObjects() returns (all: seq<GameObject>)
      ensures all == gameObjects
    {
      all := gameObjects;
    }
  }

  /** A new layer given the same object twice holds it twice. */
  method AddTwiceYieldsTwice(layerType: LayerType, o: GameObject) returns (all: seq<GameObject>)
    ensures all == [o, o]
  {
    var layer := new SimpleObjectLayer(layerType);
    var first := layer.AddGameObject(o);
    var second := layer.AddGameObject(o);
    all := layer.GetAllObjects();
  }
}
