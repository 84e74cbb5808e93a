/** Game objects: the axis-aligned rectangles that stand for the player and
    the enemies, and the collision test between two of them. */
module GameObjects {

  /** The image an object is drawn with, as an opaque tag ('v1' … 'v4'). */
  datatype Sprite = V1 | V2 | V3 | V4

  /** A rectangle with its top-left corner at (x, y). Two objects are equal
      exactly when all five fields are. */
  datatype GameObject = GameObject(x: real, y: real, width: real, height: real, image: Sprite)

  function Abs(r: real): (a: real)
    ensures a >= 0.0 && (a == r || a == -r)
  {
    if r < 0.0 then -r else r
  }

  /** `a.checkCollision(b)`: the distance between the centres is compared with
      half the widths horizontally and, vertically, with half of a's height
      plus half of b's WIDTH (not its height). */
  predicate CheckCollision(a: GameObject, b: GameObject)
  {
    var centerX1 := a.x + a.width / 2.0;
    var centerX2 := b.x + b.width / 2.0;
    var centerY1 := a.y + a.height / 2.0;
    var centerY2 := b.y + b.height / 2.0;
    Abs(centerX1 - centerX2) < a.width / 2.0 + b.width / 2.0 &&
    Abs(centerY1 - centerY2) < a.height / 2.0 + b.width / 2.0
  }

  /** The half-open intervals [p, p + w) and [q, q + v) share a point. */
  predicate Overlap(p: real, w: real, q: real, v: real)
  {
    p < q + v && q < p + w
  }

  /** Collision as rectangle overlap: a's rectangle overlaps the square of side
      b.width centred on b's centre. */
  lemma CollisionIsOverlap(a: GameObject, b: GameObject)
    ensures CheckCollision(a, b) <==>
              Overlap(a.x, a.width, b.x, b.width) &&
              Overlap(a.y, a.height, b.y + b.height / 2.0 - b.width / 2.0, b.width)
  {
  }

  /** For objects as wide as they are high, collision is exactly the overlap
      of the two rectangles. */
  lemma SquareCollisionIsOverlap(a: GameObject, b: GameObject)
    requires b.width == b.height
    ensures CheckCollision(a, b) <==>
              Overlap(a.x, a.width, b.x, b.width) && Overlap(a.y, a.height, b.y, b.height)
  {
    CollisionIsOverlap(a, b);
  }

  /** The images play no part in the test. */
  lemma CollisionIgnoresImage(a: GameObject, b: GameObject, ia: Sprite, ib: Sprite)
    ensures CheckCollision(a, b) == CheckCollision(a.(image := ia), b.(image := ib))
  {
  }

  /** When each object is square the test is symmetric. */
  lemma CollisionSymmetricForSquares(a: GameObject, b: GameObject)
    requires a.width == a.height && b.width == b.height
    ensures CheckCollision(a, b) == CheckCollision(b, a)
  {
    SquareCollisionIsOverlap(a, b);
    SquareCollisionIsOverlap(b, a);
  }

  /** In general it is not: a tall thin object reaches a square one that does
      not reach it. */
  lemma CollisionNotSymmetric()
    ensures var a := GameObject(0.0, 0.0, 100.0, 100.0, V1);
            var b := GameObject(0.0, 50.0, 10.0, 200.0, V1);
            CheckCollision(b, a) && !CheckCollision(a, b)
  {
  }

  /** An object with positive size collides with itself. */
  lemma CollisionReflexive(a: GameObject)
    requires a.width > 0.0 && a.height > 0.0
    ensures CheckCollision(a, a)
  {
  }

  /** Objects side by side with no horizontal overlap never collide. */
  lemma HorizontallyApartNoCollision(a: GameObject, b: GameObject)
    requires a.x + a.width <= b.x || b.x + b.width <= a.x
    ensures !CheckCollision(a, b)
  {
    CollisionIsOverlap(a, b);
  }

  /** Moving both objects by the same offset does not change the outcome. */
  lemma CollisionTranslationInvariant(a: GameObject, b: GameObject, dx: real, dy: real)
    ensures CheckCollision(a, b) ==
            CheckCollision(a.(x := a.x + dx, y := a.y + dy), b.(x := b.x + dx, y := b.y + dy))
  {
  }
}
