/** The raycast collision resolver of Controller2D.cs.

    The pure part states what one resolve call computes: `Sweep` is one pass
    of rays along an axis, `Resolve` the whole call (facing direction, the
    horizontal pass, then the vertical pass offset by the clipped x). The class
    `Controller2D` is the component itself, whose methods update its fields in
    place and are proved to compute exactly `Resolve`. */
module Controller {
  import opened Geometry

  /** The inward margin from which every ray starts. */
  const SkinWidth: real := 0.015

  /** Physics2D.Raycast restricted to the collision mask: for a ray origin, a
      direction and a maximum length, the distance of the hit, if there is one. */
  type Caster = (Vec2, Vec2, real) -> Option<real>

  /** What the engine promises of every hit: it lies on the ray. */
  ghost predicate ValidCaster(cast: Caster) {
    forall o: Vec2, v: Vec2, len: real :: cast(o, v, len).Some? ==> 0.0 <= cast(o, v, len).value <= len
  }

  /** A caster that behaves like a query against fixed geometry: a shorter ray
      along the same line sees the same first obstruction if it reaches it, and
      nothing otherwise. */
  ghost predicate Consistent(cast: Caster) {
    forall o: Vec2, v: Vec2, long: real, short: real {:trigger cast(o, v, long), cast(o, v, short)} ::
      0.0 <= short <= long ==>
        cast(o, v, short) == (if cast(o, v, long).Some? && cast(o, v, long).value <= short then cast(o, v, long) else None)
  }

  /** CollisionInfo: the four contact flags and the facing direction (1 right, -1 left). */
  datatype CollisionInfo = CollisionInfo(above: bool, below: bool, left: bool, right: bool, faceDir: int) {
    /** CollisionInfo.Reset */
    function Reset(): (r: CollisionInfo)
      ensures !r.above && !r.below && !r.left && !r.right
      ensures r.faceDir == faceDir
    {
      this.(above := false, below := false, left := false, right := false)
    }
  }

  /** RaycastOrigins: the corners of the shrunk bounds. */
  datatype RaycastOrigins = RaycastOrigins(topLeft: Vec2, topRight: Vec2, bottomLeft: Vec2, bottomRight: Vec2)

  /** The corners of a box centred on `center` of the given size after
      Bounds.Expand(-2 * skin), which takes the skin off every side. */
  function Corners(center: Vec2, size: Vec2): (o: RaycastOrigins)
    ensures o.bottomLeft.x == o.topLeft.x && o.bottomRight.x == o.topRight.x
    ensures o.bottomLeft.y == o.bottomRight.y && o.topLeft.y == o.topRight.y
    ensures o.topRight.x - o.bottomLeft.x == size.x - 2.0 * SkinWidth
    ensures o.topRight.y - o.bottomLeft.y == size.y - 2.0 * SkinWidth
    ensures o.bottomLeft.x + o.topRight.x == 2.0 * center.x
    ensures o.bottomLeft.y + o.topRight.y == 2.0 * center.y
  {
    var minX := center.x - size.x / 2.0 + SkinWidth;
    var maxX := center.x + size.x / 2.0 - SkinWidth;
    var minY := center.y - size.y / 2.0 + SkinWidth;
    var maxY := center.y + size.y / 2.0 - SkinWidth;
    RaycastOrigins(Vec2(minX, maxY), Vec2(maxX, maxY), Vec2(minX, minY), Vec2(maxX, minY))
  }

  /** Mathf.Clamp(n, 2, int.MaxValue) on a ray count. */
  function ClampRayCount(n: int): (r: int)
    ensures r >= 2 && r >= n
    ensures r == 2 || r == n
  {
    if n < 2 then 2 else n
  }

  /** The gap between neighbouring rays spread over `extent`. */
  function RaySpacing(extent: real, count: int): (s: real)
    requires count >= 2
    ensures s * (count - 1) as real == extent
  {
    extent / (count - 1) as real
  }

  /** The facing direction after a move: the sign of a nonzero x, else the old one. */
  function FaceDirAfter(faceDir: int, dx: real): (r: int)
    ensures dx != 0.0 ==> r == Sign(dx)
    ensures dx == 0.0 ==> r == faceDir
    ensures (faceDir == 1 || faceDir == -1) ==> (r == 1 || r == -1)
  {
    if dx != 0.0 then Sign(dx) else faceDir
  }

  /** What a pass of rays carries from one ray to the next: the displacement
      along the pass's axis, the current ray length, and whether a ray hit. */
  datatype Pass = Pass(delta: real, rayLength: real, hit: bool)

  /** One ray of a pass: a hit at distance d clips the displacement to
      (d - skin) * dir and shortens the later rays to d. */
  function Step(p: Pass, hit: Option<real>, dir: real): Pass {
    match hit
    case None => p
    case Some(d) => Pass((d - SkinWidth) * dir, d, true)
  }

  /** The pass after casting, in order, one ray from each origin along `castDir`,
      each with the length the rays before it left. */
  function Sweep(cast: Caster, origins: seq<Vec2>, castDir: Vec2, dir: real, p: Pass): Pass
    decreases |origins|
  {
    if origins == [] then p
    else
      var before := Sweep(cast, origins[..|origins| - 1], castDir, dir, p);
      Step(before, cast(origins[|origins| - 1], castDir, before.rayLength), dir)
  }

  /** The answer the k-th ray of a pass receives. */
  function RayHit(cast: Caster, origins: seq<Vec2>, castDir: Vec2, dir: real, p: Pass, k: int): Option<real>
    requires 0 <= k < |origins|
  {
    cast(origins[k], castDir, Sweep(cast, origins[..k], castDir, dir, p).rayLength)
  }

  /** Some ray of the pass hit. */
  ghost predicate AnyRayHit(cast: Caster, origins: seq<Vec2>, castDir: Vec2, dir: real, p: Pass) {
    exists k :: 0 <= k < |origins| && RayHit(cast, origins, castDir, dir, p, k).Some?
  }

  /** The state of a pass is clipped to its ray: after a hit, the displacement
      stops one skin short of the hit distance. */
  ghost predicate Clipped(p: Pass, dir: real) {
    p.hit ==> p.delta == (p.rayLength - SkinWidth) * dir
  }

  /** Horizontal rays reach |dx| + skin, but never less than two skins, so that
      an actor standing still still probes the side it faces. */
  function HorizontalRayLength(dx: real): (len: real)
    ensures len == Max(Abs(dx) + SkinWidth, 2.0 * SkinWidth)
  {
    if Abs(dx) < SkinWidth then 2.0 * SkinWidth else Abs(dx) + SkinWidth
  }

  /** The i-th horizontal ray starts on the leading bottom corner, raised by i gaps. */
  function HorizontalRayOrigin(o: RaycastOrigins, spacing: real, dir: real, i: int): Vec2 {
    (if dir == -1.0 then o.bottomLeft else o.bottomRight).Plus(Up.Scale(spacing * i as real))
  }

  /** The i-th vertical ray starts on the leading left corner, moved right by i
      gaps and by the horizontal displacement `dx` already decided. */
  function VerticalRayOrigin(o: RaycastOrigins, spacing: real, dir: real, dx: real, i: int): Vec2 {
    (if dir == -1.0 then o.bottomLeft else o.topLeft).Plus(Right.Scale(spacing * i as real + dx))
  }

  function HorizontalOrigins(o: RaycastOrigins, spacing: real, dir: real, count: nat): seq<Vec2> {
    seq(count, (i: int) => HorizontalRayOrigin(o, spacing, dir, i))
  }

  function VerticalOrigins(o: RaycastOrigins, spacing: real, dir: real, count: nat, dx: real): seq<Vec2> {
    seq(count, (i: int) => VerticalRayOrigin(o, spacing, dir, dx, i))
  }

  function HorizontalStart(dx: real): Pass { Pass(dx, HorizontalRayLength(dx), false) }

  function VerticalStart(dy: real): Pass { Pass(dy, Abs(dy) + SkinWidth, false) }

  /** The horizontal pass of a move whose facing direction is `dir`. */
  function HorizontalPass(cast: Caster, o: RaycastOrigins, spacing: real, count: nat, dir: real, dx: real): Pass {
    Sweep(cast, HorizontalOrigins(o, spacing, dir, count), Right.Scale(dir), dir, HorizontalStart(dx))
  }

  /** The vertical pass of a move in direction `dir`, after the horizontal pass chose `dx`. */
  function VerticalPass(cast: Caster, o: RaycastOrigins, spacing: real, count: nat, dir: real, dx: real, dy: real): Pass {
    Sweep(cast, VerticalOrigins(o, spacing, dir, count, dx), Up.Scale(dir), dir, VerticalStart(dy))
  }

  /** The outcome of one move: the clipped displacement and the fresh contacts. */
  datatype Resolution = Resolution(delta: Vec2, collisions: CollisionInfo)

  /** One call of Controller2D.Move on the ray origins `o`: the facing direction
      follows the unclipped x; the horizontal pass always runs; the vertical pass
      runs only for a nonzero y and is offset by the clipped x. */
  function Resolve(cast: Caster, o: RaycastOrigins, hSpacing: real, vSpacing: real, hCount: nat, vCount: nat,
                   faceDir: int, delta: Vec2): Resolution
  {
    var face := FaceDirAfter(faceDir, delta.x);
    var dirX := face as real;
    var h := HorizontalPass(cast, o, hSpacing, hCount, dirX, delta.x);
    var info := CollisionInfo(false, false, h.hit && dirX == -1.0, h.hit && dirX == 1.0, face);
    if delta.y == 0.0 then
      Resolution(Vec2(h.delta, delta.y), info)
    else
      var dirY := Sign(delta.y) as real;
      var v := VerticalPass(cast, o, vSpacing, vCount, dirY, h.delta, delta.y);
      Resolution(Vec2(h.delta, v.delta), info.(below := v.hit && dirY == -1.0, above := v.hit && dirY == 1.0))
  }

  // ---------------------------------------------------------------------------
  // Properties of one pass

  /** Casting one more ray extends a pass by one step. */
  lemma SweepNext(cast: Caster, origins: seq<Vec2>, castDir: Vec2, dir: real, p: Pass, i: int)
    requires 0 <= i < |origins|
    ensures var before := Sweep(cast, origins[..i], castDir, dir, p);
            Sweep(cast, origins[..i + 1], castDir, dir, p) == Step(before, cast(origins[i], castDir, before.rayLength), dir)
  {
    assert origins[..i + 1][..i] == origins[..i];
  }

  /** Ray lengths never grow inside a pass, and a hit leaves a length of at least zero. */
  lemma {:induction false} SweepShortens(cast: Caster, origins: seq<Vec2>, castDir: Vec2, dir: real, p: Pass)
    requires ValidCaster(cast)
    ensures Sweep(cast, origins, castDir, dir, p).rayLength <= p.rayLength
    ensures Sweep(cast, origins, castDir, dir, p).rayLength == p.rayLength || 0.0 <= Sweep(cast, origins, castDir, dir, p).rayLength
    decreases |origins|
  {
    if origins != [] {
      SweepShortens(cast, origins[..|origins| - 1], castDir, dir, p);
    }
  }

  /** After a hit the displacement is always (last hit distance - skin) * dir. */
  lemma {:induction false} SweepClips(cast: Caster, origins: seq<Vec2>, castDir: Vec2, dir: real, p: Pass)
    requires Clipped(p, dir)
    ensures Clipped(Sweep(cast, origins, castDir, dir, p), dir)
    decreases |origins|
  {
    if origins != [] {
      SweepClips(cast, origins[..|origins| - 1], castDir, dir, p);
    }
  }

  /** The rays of a prefix receive the same answers as in the whole pass. */
  lemma {:induction false} RayHitPrefix(cast: Caster, origins: seq<Vec2>, castDir: Vec2, dir: real, p: Pass, n: nat, k: int)
    requires 0 <= k < n <= |origins|
    ensures RayHit(cast, origins[..n], castDir, dir, p, k) == RayHit(cast, origins, castDir, dir, p, k)
  {
    assert origins[..n][..k] == origins[..k];
  }

  /** A pass reports a hit exactly when one of its rays hit; with no hit it
      changes nothing. */
  lemma {:induction false} SweepHits(cast: Caster, origins: seq<Vec2>, castDir: Vec2, dir: real, p: Pass)
    ensures Sweep(cast, origins, castDir, dir, p).hit <==> p.hit || AnyRayHit(cast, origins, castDir, dir, p)
    ensures !AnyRayHit(cast, origins, castDir, dir, p) ==> Sweep(cast, origins, castDir, dir, p) == p
    decreases |origins|
  {
    if origins != [] {
      var n := |origins| - 1;
      var init := origins[..n];
      SweepHits(cast, init, castDir, dir, p);
      var last := RayHit(cast, origins, castDir, dir, p, n);
      assert Sweep(cast, origins, castDir, dir, p) == Step(Sweep(cast, init, castDir, dir, p), last, dir);
      LastRaySplit(cast, origins, castDir, dir, p);
    }
  }

  /** A pass has a hitting ray exactly when its prefix has one or its last ray hit. */
  lemma {:induction false} LastRaySplit(cast: Caster, origins: seq<Vec2>, castDir: Vec2, dir: real, p: Pass)
    requires origins != []
    ensures AnyRayHit(cast, origins, castDir, dir, p) <==>
              AnyRayHit(cast, origins[..|origins| - 1], castDir, dir, p) || RayHit(cast, origins, castDir, dir, p, |origins| - 1).Some?
  {
    var n := |origins| - 1;
    var init := origins[..n];
    if AnyRayHit(cast, init, castDir, dir, p) {
      var k :| 0 <= k < n && RayHit(cast, init, castDir, dir, p, k).Some?;
      RayHitPrefix(cast, origins, castDir, dir, p, n, k);
    }
    if AnyRayHit(cast, origins, castDir, dir, p) {
      var k :| 0 <= k < |origins| && RayHit(cast, origins, castDir, dir, p, k).Some?;
      if k < n {
        RayHitPrefix(cast, origins, castDir, dir, p, n, k);
        assert RayHit(cast, init, castDir, dir, p, k).Some?;
      }
    }
  }

  /** After a pass that started without a hit and ended with one, the ray length
      is the distance some ray of the pass reported. */
  lemma {:induction false} SweepLastHit(cast: Caster, origins: seq<Vec2>, castDir: Vec2, dir: real, p: Pass)
    requires !p.hit && Sweep(cast, origins, castDir, dir, p).hit
    ensures exists k :: 0 <= k < |origins| && RayHit(cast, origins, castDir, dir, p, k) == Some(Sweep(cast, origins, castDir, dir, p).rayLength)
    decreases |origins|
  {
    var n := |origins| - 1;
    var init := origins[..n];
    var r := Sweep(cast, origins, castDir, dir, p);
    var last := RayHit(cast, origins, castDir, dir, p, n);
    assert r == Step(Sweep(cast, init, castDir, dir, p), last, dir);
    if last.Some? {
      assert last == Some(r.rayLength);
    } else {
      SweepLastHit(cast, init, castDir, dir, p);
      var k :| 0 <= k < n && RayHit(cast, init, castDir, dir, p, k) == Some(Sweep(cast, init, castDir, dir, p).rayLength);
      RayHitPrefix(cast, origins, castDir, dir, p, n, k);
      assert RayHit(cast, origins, castDir, dir, p, k) == Some(r.rayLength);
    }
  }

  /** What a pass that starts without a hit ends with, taking the engine's
      distance bound into account: a hit exactly when some ray hit; no hit and
      nothing changed otherwise; after a hit, a ray length between zero and the
      first one, and a displacement along `dir` of that length minus the skin. */
  lemma {:induction false} PassOutcome(cast: Caster, origins: seq<Vec2>, castDir: Vec2, dir: real, p: Pass)
    requires ValidCaster(cast)
    requires dir == 1.0 || dir == -1.0
    requires !p.hit
    ensures var r := Sweep(cast, origins, castDir, dir, p);
            (r.hit <==> AnyRayHit(cast, origins, castDir, dir, p)) &&
            (!r.hit ==> r == p) &&
            (r.hit ==> 0.0 <= r.rayLength <= p.rayLength && r.delta * dir == r.rayLength - SkinWidth)
  {
    var r := Sweep(cast, origins, castDir, dir, p);
    SweepHits(cast, origins, castDir, dir, p);
    SweepClips(cast, origins, castDir, dir, p);
    SweepShortens(cast, origins, castDir, dir, p);
    if r.hit {
      SweepLastHit(cast, origins, castDir, dir, p);
      var k :| 0 <= k < |origins| && RayHit(cast, origins, castDir, dir, p, k) == Some(r.rayLength);
      assert 0.0 <= r.rayLength;
      assert r.delta * dir == (r.rayLength - SkinWidth) * (dir * dir);
    }
  }

  /** The closest hit wins: against consistent geometry, any ray that would hit
      at distance d with the pass's first ray length leaves a final ray length of
      at most d, whichever ray it is. */
  lemma {:induction false} ClosestHitWins(cast: Caster, origins: seq<Vec2>, castDir: Vec2, dir: real, p: Pass, k: int)
    requires ValidCaster(cast) && Consistent(cast)
    requires 0 <= k < |origins|
    requires cast(origins[k], castDir, p.rayLength).Some?
    ensures Sweep(cast, origins, castDir, dir, p).hit
    ensures Sweep(cast, origins, castDir, dir, p).rayLength <= cast(origins[k], castDir, p.rayLength).value
    decreases |origins|
  {
    var n := |origins| - 1;
    var init := origins[..n];
    assert origins[..n] == init;
    var d := cast(origins[k], castDir, p.rayLength).value;
    var before := Sweep(cast, init, castDir, dir, p);
    SweepShortens(cast, init, castDir, dir, p);
    if k < n {
      assert init[k] == origins[k];
      ClosestHitWins(cast, init, castDir, dir, p, k);
    } else {
      assert 0.0 <= before.rayLength <= p.rayLength;
      assert cast(origins[n], castDir, before.rayLength) == (if d <= before.rayLength then Some(d) else None);
      if d > before.rayLength {
        // some earlier ray already shortened the pass, so it has hit
        SweepHits(cast, init, castDir, dir, p);
      }
    }
  }

  // ---------------------------------------------------------------------------
  // Properties of a whole move

  /** How a resolution is made of its two passes. */
  lemma {:induction false} ResolveShape(cast: Caster, o: RaycastOrigins, hSpacing: real, vSpacing: real, hCount: nat, vCount: nat,
                     faceDir: int, delta: Vec2)
    ensures var r := Resolve(cast, o, hSpacing, vSpacing, hCount, vCount, faceDir, delta);
            var dir := FaceDirAfter(faceDir, delta.x) as real;
            var h := HorizontalPass(cast, o, hSpacing, hCount, dir, delta.x);
            r.collisions.faceDir == FaceDirAfter(faceDir, delta.x) &&
            r.delta.x == h.delta &&
            r.collisions.left == (h.hit && dir == -1.0) &&
            r.collisions.right == (h.hit && dir == 1.0)
    ensures var r := Resolve(cast, o, hSpacing, vSpacing, hCount, vCount, faceDir, delta);
            delta.y == 0.0 ==> r.delta.y == 0.0 && !r.collisions.above && !r.collisions.below
    ensures var r := Resolve(cast, o, hSpacing, vSpacing, hCount, vCount, faceDir, delta);
            var dir := Sign(delta.y) as real;
            var v := VerticalPass(cast, o, vSpacing, vCount, dir, r.delta.x, delta.y);
            delta.y != 0.0 ==>
              r.delta.y == v.delta &&
              r.collisions.below == (v.hit && dir == -1.0) &&
              r.collisions.above == (v.hit && dir == 1.0)
  {
  }

  /** The side flags of a move: the flag that is set is the one of the side the
      actor faces, and it is set exactly when one of this call's horizontal rays
      hit; `left` and `right` are never both set. */
  lemma {:induction false} HorizontalFlags(cast: Caster, o: RaycastOrigins, hSpacing: real, vSpacing: real, hCount: nat, vCount: nat,
                                           faceDir: int, delta: Vec2)
    ensures var r := Resolve(cast, o, hSpacing, vSpacing, hCount, vCount, faceDir, delta);
            var dir := r.collisions.faceDir as real;
            var hit := AnyRayHit(cast, HorizontalOrigins(o, hSpacing, dir, hCount), Right.Scale(dir), dir, HorizontalStart(delta.x));
            (r.collisions.left <==> hit && dir == -1.0) &&
            (r.collisions.right <==> hit && dir == 1.0) &&
            !(r.collisions.left && r.collisions.right)
  {
    ResolveShape(cast, o, hSpacing, vSpacing, hCount, vCount, faceDir, delta);
    var dir := FaceDirAfter(faceDir, delta.x) as real;
    SweepHits(cast, HorizontalOrigins(o, hSpacing, dir, hCount), Right.Scale(dir), dir, HorizontalStart(delta.x));
  }

  /** The horizontal clip of a move: without a hit x passes unchanged; after a
      hit x stops one skin short of the last hit; the clipped movement along the
      facing direction is at most max(|dx|, skin) and, after a hit, at least -skin. */
  lemma {:induction false} HorizontalClip(cast: Caster, o: RaycastOrigins, hSpacing: real, vSpacing: real, hCount: nat, vCount: nat,
                                          faceDir: int, delta: Vec2)
    requires ValidCaster(cast)
    requires faceDir == 1 || faceDir == -1
    ensures var r := Resolve(cast, o, hSpacing, vSpacing, hCount, vCount, faceDir, delta);
            var dir := r.collisions.faceDir as real;
            var h := HorizontalPass(cast, o, hSpacing, hCount, dir, delta.x);
            (!h.hit ==> r.delta.x == delta.x) &&
            (h.hit ==> r.delta.x == (h.rayLength - SkinWidth) * dir && r.delta.x * dir >= -SkinWidth) &&
            r.delta.x * dir <= Max(Abs(delta.x), SkinWidth)
  {
    ResolveShape(cast, o, hSpacing, vSpacing, hCount, vCount, faceDir, delta);
    var dir := FaceDirAfter(faceDir, delta.x) as real;
    var p := HorizontalStart(delta.x);
    var h := HorizontalPass(cast, o, hSpacing, hCount, dir, delta.x);
    PassClip(h, p, dir, delta.x) by {
      PassOutcome(cast, HorizontalOrigins(o, hSpacing, dir, hCount), Right.Scale(dir), dir, p);
    }
  }

  /** The arithmetic of the horizontal clip, for one pass outcome. */
  lemma PassClip(h: Pass, p: Pass, dir: real, dx: real)
    requires p == HorizontalStart(dx)
    requires dir == 1.0 || dir == -1.0
    requires dx != 0.0 ==> dir * dx == Abs(dx)
    requires !h.hit ==> h == p
    requires h.hit ==> 0.0 <= h.rayLength <= p.rayLength && h.delta * dir == h.rayLength - SkinWidth
    ensures !h.hit ==> h.delta == dx
    ensures h.hit ==> h.delta == (h.rayLength - SkinWidth) * dir && h.delta * dir >= -SkinWidth
    ensures h.delta * dir <= Max(Abs(dx), SkinWidth)
  {
  }

  /** The vertical flags of a move. With dy = 0 no vertical ray is cast: y
      stays zero and `above` and `below` stay as reset. Otherwise the rays sit at
      the already clipped x; `below` holds exactly when one of them hit on the
      way down and `above` exactly when one hit on the way up, never both. */
  lemma {:induction false} VerticalFlags(cast: Caster, o: RaycastOrigins, hSpacing: real, vSpacing: real, hCount: nat, vCount: nat,
                                         faceDir: int, delta: Vec2)
    ensures var r := Resolve(cast, o, hSpacing, vSpacing, hCount, vCount, faceDir, delta);
            delta.y == 0.0 ==> r.delta.y == 0.0 && !r.collisions.above && !r.collisions.below
    ensures var r := Resolve(cast, o, hSpacing, vSpacing, hCount, vCount, faceDir, delta);
            var dir := Sign(delta.y) as real;
            var hit := AnyRayHit(cast, VerticalOrigins(o, vSpacing, dir, vCount, r.delta.x), Up.Scale(dir), dir, VerticalStart(delta.y));
            delta.y != 0.0 ==>
              (r.collisions.below <==> hit && delta.y < 0.0) &&
              (r.collisions.above <==> hit && delta.y > 0.0) &&
              !(r.collisions.above && r.collisions.below)
  {
    ResolveShape(cast, o, hSpacing, vSpacing, hCount, vCount, faceDir, delta);
    if delta.y != 0.0 {
      var dx := Resolve(cast, o, hSpacing, vSpacing, hCount, vCount, faceDir, delta).delta.x;
      var dir := Sign(delta.y) as real;
      SweepHits(cast, VerticalOrigins(o, vSpacing, dir, vCount, dx), Up.Scale(dir), dir, VerticalStart(delta.y));
    }
  }

  /** The vertical clip of a move with dy != 0: the pass runs from the clipped
      x; without a hit y passes unchanged; after a hit y stops one skin short of
      the last hit; the clipped movement along the direction of travel is at
      most |dy| and, after a hit, at least -skin. */
  lemma {:induction false} VerticalClip(cast: Caster, o: RaycastOrigins, hSpacing: real, vSpacing: real, hCount: nat, vCount: nat,
                                        faceDir: int, delta: Vec2)
    requires ValidCaster(cast)
    requires delta.y != 0.0
    ensures var r := Resolve(cast, o, hSpacing, vSpacing, hCount, vCount, faceDir, delta);
            var dir := Sign(delta.y) as real;
            var v := VerticalPass(cast, o, vSpacing, vCount, dir, r.delta.x, delta.y);
            r.delta.y == v.delta &&
            (!v.hit ==> r.delta.y == delta.y) &&
            (v.hit ==> r.delta.y == (v.rayLength - SkinWidth) * dir && r.delta.y * dir >= -SkinWidth) &&
            r.delta.y * dir <= Abs(delta.y)
  {
    ResolveShape(cast, o, hSpacing, vSpacing, hCount, vCount, faceDir, delta);
    var dx := Resolve(cast, o, hSpacing, vSpacing, hCount, vCount, faceDir, delta).delta.x;
    var dir := Sign(delta.y) as real;
    var p := VerticalStart(delta.y);
    var v := VerticalPass(cast, o, vSpacing, vCount, dir, dx, delta.y);
    VerticalPassClip(v, p, dir, delta.y) by {
      PassOutcome(cast, VerticalOrigins(o, vSpacing, dir, vCount, dx), Up.Scale(dir), dir, p);
    }
  }

  /** The arithmetic of the vertical clip, for one pass outcome. */
  lemma VerticalPassClip(v: Pass, p: Pass, dir: real, dy: real)
    requires p == VerticalStart(dy)
    requires dir == Sign(dy) as real
    requires !v.hit ==> v == p
    requires v.hit ==> 0.0 <= v.rayLength <= p.rayLength && v.delta * dir == v.rayLength - SkinWidth
    ensures !v.hit ==> v.delta == dy
    ensures v.hit ==> v.delta == (v.rayLength - SkinWidth) * dir && v.delta * dir >= -SkinWidth
    ensures v.delta * dir <= Abs(dy)
  {
  }

  /** With nothing on the collision layer the displacement passes through
      unmodified and no contact is reported. */
  lemma {:induction false} EmptyWorldPassesThrough(cast: Caster, o: RaycastOrigins, hSpacing: real, vSpacing: real, hCount: nat, vCount: nat,
                                faceDir: int, delta: Vec2)
    requires forall a: Vec2, v: Vec2, len: real :: cast(a, v, len).None?
    ensures var r := Resolve(cast, o, hSpacing, vSpacing, hCount, vCount, faceDir, delta);
            r.delta == delta && !r.collisions.above && !r.collisions.below && !r.collisions.left && !r.collisions.right
  {
    var face := FaceDirAfter(faceDir, delta.x);
    var dir := face as real;
    SweepHits(cast, HorizontalOrigins(o, hSpacing, dir, hCount), Right.Scale(dir), dir, HorizontalStart(delta.x));
    var dirY := Sign(delta.y) as real;
    SweepHits(cast, VerticalOrigins(o, vSpacing, dirY, vCount, delta.x), Up.Scale(dirY), dirY, VerticalStart(delta.y));
  }

  /** Against consistent geometry, a ray of a pass that would hit at distance d
      with the pass's first length stops the displacement along `dir` at d - skin
      or earlier. */
  lemma {:induction false} PassStopsShort(cast: Caster, origins: seq<Vec2>, castDir: Vec2, dir: real, p: Pass, k: int)
    requires ValidCaster(cast) && Consistent(cast)
    requires dir == 1.0 || dir == -1.0
    requires !p.hit
    requires 0 <= k < |origins|
    requires cast(origins[k], castDir, p.rayLength).Some?
    ensures Sweep(cast, origins, castDir, dir, p).hit
    ensures Sweep(cast, origins, castDir, dir, p).delta * dir <= cast(origins[k], castDir, p.rayLength).value - SkinWidth
  {
    ClosestHitWins(cast, origins, castDir, dir, p, k);
    PassOutcome(cast, origins, castDir, dir, p);
  }

  /** A wall that one horizontal ray would meet at distance d stops the actor one
      skin short of it: the clipped movement toward the wall is at most d - skin
      and the flag of the side the actor faces is set. */
  lemma {:induction false} WallStopsActor(cast: Caster, o: RaycastOrigins, hSpacing: real, vSpacing: real, hCount: nat, vCount: nat,
                                          faceDir: int, delta: Vec2, k: int)
    requires ValidCaster(cast) && Consistent(cast)
    requires faceDir == 1 || faceDir == -1
    requires 0 <= k < hCount
    requires var dir := FaceDirAfter(faceDir, delta.x) as real;
             cast(HorizontalOrigins(o, hSpacing, dir, hCount)[k], Right.Scale(dir), HorizontalRayLength(delta.x)).Some?
    ensures var r := Resolve(cast, o, hSpacing, vSpacing, hCount, vCount, faceDir, delta);
            var dir := FaceDirAfter(faceDir, delta.x) as real;
            var d := cast(HorizontalOrigins(o, hSpacing, dir, hCount)[k], Right.Scale(dir), HorizontalRayLength(delta.x)).value;
            r.delta.x * dir <= d - SkinWidth && (if dir == -1.0 then r.collisions.left else r.collisions.right)
  {
    var dir := FaceDirAfter(faceDir, delta.x) as real;
    PassStopsShort(cast, HorizontalOrigins(o, hSpacing, dir, hCount), Right.Scale(dir), dir, HorizontalStart(delta.x), k);
    WallStopsResolution(cast, o, hSpacing, vSpacing, hCount, vCount, faceDir, delta, k);
  }

  /** The second half of WallStopsActor: a horizontal pass that stopped short
      of the ray's hit carries its stop and its flag into the resolution. */
  lemma WallStopsResolution(cast: Caster, o: RaycastOrigins, hSpacing: real, vSpacing: real, hCount: nat, vCount: nat,
                            faceDir: int, delta: Vec2, k: int)
    requires faceDir == 1 || faceDir == -1
    requires 0 <= k < hCount
    requires var dir := FaceDirAfter(faceDir, delta.x) as real;
             var origins := HorizontalOrigins(o, hSpacing, dir, hCount);
             var p := HorizontalStart(delta.x);
             var hit := cast(origins[k], Right.Scale(dir), p.rayLength);
             hit.Some? && Sweep(cast, origins, Right.Scale(dir), dir, p).hit &&
             Sweep(cast, origins, Right.Scale(dir), dir, p).delta * dir <= hit.value - SkinWidth
    ensures var r := Resolve(cast, o, hSpacing, vSpacing, hCount, vCount, faceDir, delta);
            var dir := FaceDirAfter(faceDir, delta.x) as real;
            var d := cast(HorizontalOrigins(o, hSpacing, dir, hCount)[k], Right.Scale(dir), HorizontalRayLength(delta.x)).value;
            r.delta.x * dir <= d - SkinWidth && (if dir == -1.0 then r.collisions.left else r.collisions.right)
  {
    ResolveShape(cast, o, hSpacing, vSpacing, hCount, vCount, faceDir, delta);
  }

  /** A floor (or ceiling) that one vertical ray, at the clipped x, would meet at
      distance d stops the actor one skin short of it and sets the flag of that side. */
  lemma {:induction false} FloorStopsActor(cast: Caster, o: RaycastOrigins, hSpacing: real, vSpacing: real, hCount: nat, vCount: nat,
                                           faceDir: int, delta: Vec2, k: int)
    requires ValidCaster(cast) && Consistent(cast)
    requires delta.y != 0.0
    requires 0 <= k < vCount
    requires var dx := Resolve(cast, o, hSpacing, vSpacing, hCount, vCount, faceDir, delta).delta.x;
             var dir := Sign(delta.y) as real;
             cast(VerticalOrigins(o, vSpacing, dir, vCount, dx)[k], Up.Scale(dir), Abs(delta.y) + SkinWidth).Some?
    ensures var r := Resolve(cast, o, hSpacing, vSpacing, hCount, vCount, faceDir, delta);
            var dir := Sign(delta.y) as real;
            var d := cast(VerticalOrigins(o, vSpacing, dir, vCount, r.delta.x)[k], Up.Scale(dir), Abs(delta.y) + SkinWidth).value;
            r.delta.y * dir <= d - SkinWidth && (if delta.y < 0.0 then r.collisions.below else r.collisions.above)
  {
    var dx := Resolve(cast, o, hSpacing, vSpacing, hCount, vCount, faceDir, delta).delta.x;
    var dir := Sign(delta.y) as real;
    PassStopsShort(cast, VerticalOrigins(o, vSpacing, dir, vCount, dx), Up.Scale(dir), dir, VerticalStart(delta.y), k);
    FloorStopsResolution(cast, o, hSpacing, vSpacing, hCount, vCount, faceDir, delta, k);
  }

  /** The second half of FloorStopsActor: a vertical pass that stopped short
      of the ray's hit carries its stop and its flag into the resolution. */
  lemma FloorStopsResolution(cast: Caster, o: RaycastOrigins, hSpacing: real, vSpacing: real, hCount: nat, vCount: nat,
                             faceDir: int, delta: Vec2, k: int)
    requires delta.y != 0.0
    requires 0 <= k < vCount
    requires var dx := Resolve(cast, o, hSpacing, vSpacing, hCount, vCount, faceDir, delta).delta.x;
             var dir := Sign(delta.y) as real;
             var origins := VerticalOrigins(o, vSpacing, dir, vCount, dx);
             var p := VerticalStart(delta.y);
             var hit := cast(origins[k], Up.Scale(dir), p.rayLength);
             hit.Some? && Sweep(cast, origins, Up.Scale(dir), dir, p).hit &&
             Sweep(cast, origins, Up.Scale(dir), dir, p).delta * dir <= hit.value - SkinWidth
    ensures var r := Resolve(cast, o, hSpacing, vSpacing, hCount, vCount, faceDir, delta);
            var dir := Sign(delta.y) as real;
            var d := cast(VerticalOrigins(o, vSpacing, dir, vCount, r.delta.x)[k], Up.Scale(dir), Abs(delta.y) + SkinWidth).value;
            r.delta.y * dir <= d - SkinWidth && (if delta.y < 0.0 then r.collisions.below else r.collisions.above)
  {
    var r := Resolve(cast, o, hSpacing, vSpacing, hCount, vCount, faceDir, delta);
    var dir := Sign(delta.y) as real;
    var d := cast(VerticalOrigins(o, vSpacing, dir, vCount, r.delta.x)[k], Up.Scale(dir), Abs(delta.y) + SkinWidth).value;
    ResolveShape(cast, o, hSpacing, vSpacing, hCount, vCount, faceDir, delta);
    VerticalStop(r, VerticalPass(cast, o, vSpacing, vCount, dir, r.delta.x, delta.y), dir, delta.y, d);
  }

  /** The last step of FloorStopsActor: a vertical pass that hit carries its
      stop and its flag into the resolution. */
  lemma VerticalStop(r: Resolution, v: Pass, dir: real, dy: real, d: real)
    requires dy != 0.0 && dir == Sign(dy) as real
    requires r.delta.y == v.delta
    requires r.collisions.below == (v.hit && dir == -1.0) && r.collisions.above == (v.hit && dir == 1.0)
    requires v.hit && v.delta * dir <= d - SkinWidth
    ensures r.delta.y * dir <= d - SkinWidth && (if dy < 0.0 then r.collisions.below else r.collisions.above)
  {
  }

  /** With at least two rays and a spacing of extent / (count - 1), the
      horizontal rays of a side run exactly from its bottom corner to its top
      corner. */
  lemma {:induction false} HorizontalRaysSpanSide(center: Vec2, size: Vec2, count: int, dir: real)
    requires count >= 2
    ensures var o := Corners(center, size);
            var hs := HorizontalOrigins(o, RaySpacing(size.y - 2.0 * SkinWidth, count), dir, count);
            hs[0] == (if dir == -1.0 then o.bottomLeft else o.bottomRight) &&
            hs[count - 1] == (if dir == -1.0 then o.topLeft else o.topRight)
  {
  }

  /** The vertical rays of a side run exactly from its left corner to its right
      corner, both shifted by the horizontal displacement `dx`. */
  lemma {:induction false} VerticalRaysSpanSide(center: Vec2, size: Vec2, count: int, dir: real, dx: real)
    requires count >= 2
    ensures var o := Corners(center, size);
            var vs := VerticalOrigins(o, RaySpacing(size.x - 2.0 * SkinWidth, count), dir, count, dx);
            vs[0] == (if dir == -1.0 then o.bottomLeft else o.topLeft).Plus(Vec2(dx, 0.0)) &&
            vs[count - 1] == (if dir == -1.0 then o.bottomRight else o.topRight).Plus(Vec2(dx, 0.0))
  {
  }

  // ---------------------------------------------------------------------------
  // The component

  /** Controller2D: owns the ray configuration, the contact flags and the
      actor's position (transform.position, also the centre of the collider's
      bounds) and the sign of its x scale. */
  class Controller2D {
    var horizontalRayCount: int
    var verticalRayCount: int
    var horizontalRaySpacing: real
    var verticalRaySpacing: real
    var raycastOrigins: RaycastOrigins
    var collisions: CollisionInfo
    var position: Vec2
    var scaleX: real
    /** collider.bounds.size */
    const size: Vec2

    /** What Start establishes and every move keeps: a facing direction of 1 or
        -1, at least two rays per side, spread evenly over the shrunk box. */
    ghost predicate Valid()
      reads this
    {
      (collisions.faceDir == 1 || collisions.faceDir == -1) &&
      horizontalRayCount >= 2 && verticalRayCount >= 2 &&
      horizontalRaySpacing == RaySpacing(size.y - 2.0 * SkinWidth, horizontalRayCount) &&
      verticalRaySpacing == RaySpacing(size.x - 2.0 * SkinWidth, verticalRayCount)
    }

    /** The resolution a move by `delta` would have from the current state. */
    ghost function Resolved(cast: Caster, delta: Vec2): Resolution
      reads this
      requires Valid()
    {
      Resolve(cast, Corners(position, size), horizontalRaySpacing, verticalRaySpacing,
              horizontalRayCount, verticalRayCount, collisions.faceDir, delta)
    }

    /** The component as the editor configures it, before Start. */
    constructor (position: Vec2, size: Vec2, horizontalRayCount: int, verticalRayCount: int, scaleX: real)
      ensures this.position == position && this.size == size && this.scaleX == scaleX
      ensures this.horizontalRayCount == horizontalRayCount && this.verticalRayCount == verticalRayCount
      ensures collisions == CollisionInfo(false, false, false, false, 0)
    {
      this.position := position;
      this.size := size;
      this.horizontalRayCount := horizontalRayCount;
      this.verticalRayCount := verticalRayCount;
      this.scaleX := scaleX;
      horizontalRaySpacing := 0.0;
      verticalRaySpacing := 0.0;
      raycastOrigins := RaycastOrigins(Zero, Zero, Zero, Zero);
      collisions := CollisionInfo(false, false, false, false, 0);
    }

    /** Start: configure the rays and face right. */
    method Start()
      modifies this
      ensures Valid()
      ensures horizontalRayCount == ClampRayCount(old(horizontalRayCount))
      ensures verticalRayCount == ClampRayCount(old(verticalRayCount))
      ensures collisions == old(collisions).(faceDir := 1)
      ensures position == old(position) && scaleX == old(scaleX) && raycastOrigins == old(raycastOrigins)
    {
      CalculateRaySpacing();
      collisions := collisions.(faceDir := 1);
    }

    /** CalculateRaySpacing: at least two rays per side, evenly spread over the shrunk box. */
    method CalculateRaySpacing()
      modifies this`horizontalRayCount, this`verticalRayCount, this`horizontalRaySpacing, this`verticalRaySpacing
      ensures horizontalRayCount == ClampRayCount(old(horizontalRayCount))
      ensures verticalRayCount == ClampRayCount(old(verticalRayCount))
      ensures horizontalRayCount >= 2 && verticalRayCount >= 2
      ensures horizontalRaySpacing == RaySpacing(size.y - 2.0 * SkinWidth, horizontalRayCount)
      ensures verticalRaySpacing == RaySpacing(size.x - 2.0 * SkinWidth, verticalRayCount)
    {
      var boundsSize := Vec2(size.x - 2.0 * SkinWidth, size.y - 2.0 * SkinWidth);
      horizontalRayCount := ClampRayCount(horizontalRayCount);
      verticalRayCount := ClampRayCount(verticalRayCount);
      horizontalRaySpacing := boundsSize.y / (horizontalRayCount - 1) as real;
      verticalRaySpacing := boundsSize.x / (verticalRayCount - 1) as real;
    }

    /** UpdateRaycastOrigins: the corners of the current bounds, shrunk by the skin. */
    method UpdateRaycastOrigins()
      modifies this`raycastOrigins
      ensures raycastOrigins == Corners(position, size)
    {
      var minX := position.x - size.x / 2.0 + SkinWidth;
      var maxX := position.x + size.x / 2.0 - SkinWidth;
      var minY := position.y - size.y / 2.0 + SkinWidth;
      var maxY := position.y + size.y / 2.0 - SkinWidth;
      raycastOrigins := RaycastOrigins(Vec2(minX, maxY), Vec2(maxX, maxY), Vec2(minX, minY), Vec2(maxX, minY));
    }

    /** Flip: mirror the sprite by negating the x scale. */
    method Flip()
      modifies this`scaleX
      ensures scaleX == -old(scaleX)
    {
      scaleX := -scaleX;
    }

    /** Move: resolve `deltaMovement` against the collision layer and translate
        the actor by the clipped displacement; flip the sprite exactly when the
        facing direction changed. */
    method Move(deltaMovement: Vec2, cast: Caster)
      requires Valid()
      modifies this
      ensures Valid()
      ensures raycastOrigins == Corners(old(position), size)
      ensures position == old(position).Plus(old(Resolved(cast, deltaMovement)).delta)
      ensures collisions == old(Resolved(cast, deltaMovement)).collisions
      ensures scaleX == if collisions.faceDir != old(collisions.faceDir) then -old(scaleX) else old(scaleX)
      ensures horizontalRayCount == old(horizontalRayCount) && verticalRayCount == old(verticalRayCount)
      ensures horizontalRaySpacing == old(horizontalRaySpacing) && verticalRaySpacing == old(verticalRaySpacing)
    {
      UpdateRaycastOrigins();
      collisions := collisions.Reset();

      var oldFaceDir := collisions.faceDir;
      if deltaMovement.x != 0.0 {
        collisions := collisions.(faceDir := Sign(deltaMovement.x));
      }

      var moved := HorizontalCollisions(deltaMovement, cast);
      if moved.y != 0.0 {
        moved := VerticalCollisions(moved, cast);
      }

      position := position.Plus(moved);

      if oldFaceDir != collisions.faceDir {
        Flip();
      }
    }

    /** HorizontalCollisions: cast the horizontal rays toward the facing side,
        clipping x to each hit and shortening the later rays to it. */
    method HorizontalCollisions(deltaMovement: Vec2, cast: Caster) returns (moved: Vec2)
      requires Valid()
      modifies this`collisions
      ensures Valid()
      ensures var dir := collisions.faceDir as real;
              var h := HorizontalPass(cast, raycastOrigins, horizontalRaySpacing, horizontalRayCount, dir, deltaMovement.x);
              moved == Vec2(h.delta, deltaMovement.y) &&
              collisions == if h.hit then old(collisions).(left := dir == -1.0, right := dir == 1.0) else old(collisions)
    {
      var directionX := collisions.faceDir as real;
      var rayLength := Abs(deltaMovement.x) + SkinWidth;
      if Abs(deltaMovement.x) < SkinWidth {
        rayLength := 2.0 * SkinWidth;
      }
      moved := deltaMovement;

      ghost var origins := HorizontalOrigins(raycastOrigins, horizontalRaySpacing, directionX, horizontalRayCount);
      ghost var start := HorizontalStart(deltaMovement.x);
      ghost var hit := false;
      for i := 0 to horizontalRayCount
        invariant Sweep(cast, origins[..i], Right.Scale(directionX), directionX, start) == Pass(moved.x, rayLength, hit)
        invariant moved.y == deltaMovement.y
        invariant collisions == if hit then old(collisions).(left := directionX == -1.0, right := directionX == 1.0) else old(collisions)
      {
        // bottom-left corner when facing left, bottom-right when facing right, raised by i gaps
        var rayOrigin := HorizontalRayOrigin(raycastOrigins, horizontalRaySpacing, directionX, i);
        var h := cast(rayOrigin, Right.Scale(directionX), rayLength);
        SweepNext(cast, origins, Right.Scale(directionX), directionX, start, i);
        if h.Some? {
          moved := moved.(x := (h.value - SkinWidth) * directionX);
          rayLength := h.value;
          collisions := collisions.(left := directionX == -1.0, right := directionX == 1.0);
          hit := true;
        }
      }
      assert origins[..horizontalRayCount] == origins;
    }

    /** VerticalCollisions: cast the vertical rays in the direction of travel,
        from positions shifted by the x already chosen, clipping y to each hit. */
    method VerticalCollisions(deltaMovement: Vec2, cast: Caster) returns (moved: Vec2)
      requires Valid()
      modifies this`collisions
      ensures Valid()
      ensures var dir := Sign(deltaMovement.y) as real;
              var v := VerticalPass(cast, raycastOrigins, verticalRaySpacing, verticalRayCount, dir, deltaMovement.x, deltaMovement.y);
              moved == Vec2(deltaMovement.x, v.delta) &&
              collisions == if v.hit then old(collisions).(below := dir == -1.0, above := dir == 1.0) else old(collisions)
    {
      var directionY := Sign(deltaMovement.y) as real;
      var rayLength := Abs(deltaMovement.y) + SkinWidth;
      moved := deltaMovement;

      ghost var origins := VerticalOrigins(raycastOrigins, verticalRaySpacing, directionY, verticalRayCount, deltaMovement.x);
      ghost var start := VerticalStart(deltaMovement.y);
      ghost var hit := false;
      for i := 0 to verticalRayCount
        invariant Sweep(cast, origins[..i], Up.Scale(directionY), directionY, start) == Pass(moved.y, rayLength, hit)
        invariant moved.x == deltaMovement.x
        invariant collisions == if hit then old(collisions).(below := directionY == -1.0, above := directionY == 1.0) else old(collisions)
      {
        // below-left corner when moving down, top-left when moving up, shifted by i gaps and the clipped x
        var rayOrigin := VerticalRayOrigin(raycastOrigins, verticalRaySpacing, directionY, moved.x, i);
        var h := cast(rayOrigin, Up.Scale(directionY), rayLength);
        SweepNext(cast, origins, Up.Scale(directionY), directionY, start, i);
        if h.Some? {
          moved := moved.(y := (h.value - SkinWidth) * directionY);
          rayLength := h.value;
          collisions := collisions.(below := directionY == -1.0, above := directionY == 1.0);
          hit := true;
        }
      }
      assert origins[..verticalRayCount] == origins;
    }
  }
}
