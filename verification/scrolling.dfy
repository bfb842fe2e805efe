/** Scrolling and recycling of platforms and coins (updatePlatforms and
    updateCoins). The random numbers of a recycle are parameters: one draw
    record per item, each number in [0, 1), consulted only if that item is
    recycled in this pass. */
module Scrolling {
  import opened Geometry

  /** A number Math.random() can return. */
  predicate Unit(r: real)
  {
    0.0 <= r < 1.0
  }

  /** The three draws a recycled platform consumes: new x, new y, new width. */
  datatype PlatformDraw = PlatformDraw(rx: real, ry: real, rw: real)

  /** The two draws a recycled coin consumes: new x, new y. */
  datatype CoinDraw = CoinDraw(rx: real, ry: real)

  predicate PlatformDrawsOk(ds: seq<PlatformDraw>)
  {
    forall j :: 0 <= j < |ds| ==> Unit(ds[j].rx) && Unit(ds[j].ry) && Unit(ds[j].rw)
  }

  predicate CoinDrawsOk(ds: seq<CoinDraw>)
  {
    forall j :: 0 <= j < |ds| ==> Unit(ds[j].rx) && Unit(ds[j].ry)
  }

  /** The scrolled item has passed the left edge of the screen entirely. */
  predicate OffScreen(b: Box)
  {
    b.x + b.width < 0.0
  }

  function Shifted(b: Box, speed: real): Box
  {
    b.(x := b.x - speed)
  }

  /** The vertical band in which recycled platforms and coins reappear. */
  predicate InBand(b: Box, c: Canvas)
  {
    c.height - 250.0 < b.y <= c.height - 50.0
  }

  /** A recycled platform: just off the right edge, inside the band, with a
      new width; its height is kept. */
  function RelocatedPlatform(pl: Box, d: PlatformDraw, c: Canvas): (r: Box)
    requires Unit(d.rx) && Unit(d.ry) && Unit(d.rw)
    ensures c.width <= r.x < c.width + 200.0
    ensures InBand(r, c)
    ensures 50.0 <= r.width < 150.0
    ensures r.height == pl.height
  {
    Box(c.width + d.rx * 200.0, c.height - 50.0 - d.ry * 200.0, 50.0 + d.rw * 100.0, pl.height)
  }

  /** The state of the platform pass: the platforms, the game speed it has
      reached and the number of platforms recycled so far. */
  datatype PlatformScroll = PlatformScroll(items: seq<Box>, speed: real, recycled: nat)

  /** What a pass did to one platform: either recycled into the band to the
      right of the screen, or moved left by a speed between the speed at the
      start of the pass and the speed at the end, and still on screen. */
  predicate PlatformOutcome(before: Box, after: Box, lo: real, hi: real, c: Canvas)
  {
    && after.height == before.height
    && ((c.width <= after.x < c.width + 200.0 && InBand(after, c) && 50.0 <= after.width < 150.0)
        || (&& after.y == before.y && after.width == before.width
            && before.x - hi <= after.x <= before.x - lo
            && !OffScreen(after)))
  }

  /** The forEach of updatePlatforms after its first n iterations. Every
      recycle raises the speed by 0.1 at once, so the platforms after it in
      the same pass move by the raised speed. */
  function PlatformsPass(ps: seq<Box>, speed: real, ds: seq<PlatformDraw>, c: Canvas, n: nat): (r: PlatformScroll)
    requires n <= |ps| <= |ds| && PlatformDrawsOk(ds)
    ensures |r.items| == |ps|
    ensures r.recycled <= n
    ensures r.speed == speed + 0.1 * r.recycled as real
    decreases n
  {
    if n == 0 then PlatformScroll(ps, speed, 0)
    else
      var prev := PlatformsPass(ps, speed, ds, c, n - 1);
      var moved := Shifted(prev.items[n - 1], prev.speed);
      if OffScreen(moved) then
        PlatformScroll(prev.items[n - 1 := RelocatedPlatform(moved, ds[n - 1], c)], prev.speed + 0.1, prev.recycled + 1)
      else
        PlatformScroll(prev.items[n - 1 := moved], prev.speed, prev.recycled)
  }

  /** The platforms the pass has not visited yet are untouched. */
  lemma {:induction false} PassUntouched(ps: seq<Box>, speed: real, ds: seq<PlatformDraw>, c: Canvas, n: nat)
    requires n <= |ps| <= |ds| && PlatformDrawsOk(ds)
    ensures forall j :: n <= j < |ps| ==> PlatformsPass(ps, speed, ds, c, n).items[j] == ps[j]
    decreases n
  {
    if n > 0 {
      PassUntouched(ps, speed, ds, c, n - 1);
    }
  }

  /** Every platform the pass has visited was either recycled into the band
      to the right of the screen, or moved left by a speed between the start
      and the current speed of the pass and is still on screen; and while
      nothing is recycled, every visited platform moved by exactly the
      start speed. */
  lemma {:induction false} PassOutcome(ps: seq<Box>, speed: real, ds: seq<PlatformDraw>, c: Canvas, n: nat)
    requires n <= |ps| <= |ds| && PlatformDrawsOk(ds)
    ensures var r := PlatformsPass(ps, speed, ds, c, n);
            forall j :: 0 <= j < n ==> PlatformOutcome(ps[j], r.items[j], speed, r.speed, c)
    ensures var r := PlatformsPass(ps, speed, ds, c, n);
            r.recycled == 0 ==> forall j :: 0 <= j < n ==> r.items[j] == Shifted(ps[j], speed)
    decreases n
  {
    if n > 0 {
      PassOutcome(ps, speed, ds, c, n - 1);
      PassUntouched(ps, speed, ds, c, n - 1);
      var prev := PlatformsPass(ps, speed, ds, c, n - 1);
      var r := PlatformsPass(ps, speed, ds, c, n);
      assert prev.items[n - 1] == ps[n - 1];
      forall j | 0 <= j < n - 1
        ensures r.items[j] == prev.items[j]
        ensures PlatformOutcome(ps[j], r.items[j], speed, r.speed, c)
      {
        assert PlatformOutcome(ps[j], prev.items[j], speed, prev.speed, c);
      }
    }
  }

  /** The pass handles each platform once: a platform already handled is
      not touched by the later iterations. */
  lemma {:induction false} PassHandlesOnce(ps: seq<Box>, speed: real, ds: seq<PlatformDraw>, c: Canvas, m: nat, n: nat)
    requires m <= n <= |ps| <= |ds| && PlatformDrawsOk(ds)
    ensures forall j :: 0 <= j < m ==>
              PlatformsPass(ps, speed, ds, c, n).items[j] == PlatformsPass(ps, speed, ds, c, m).items[j]
    decreases n
  {
    if m < n {
      PassHandlesOnce(ps, speed, ds, c, m, n - 1);
    }
  }

  /** Platform j is recycled by the pass: moved left by the speed the pass
      has reached when it visits j, it has passed the left edge. */
  predicate RecycledAt(ps: seq<Box>, speed: real, ds: seq<PlatformDraw>, c: Canvas, j: nat)
    requires j < |ps| <= |ds| && PlatformDrawsOk(ds)
  {
    OffScreen(Shifted(ps[j], PlatformsPass(ps, speed, ds, c, j).speed))
  }

  /** The indices of the platforms recycled among the first n. */
  function RecycledBefore(ps: seq<Box>, speed: real, ds: seq<PlatformDraw>, c: Canvas, n: nat): set<nat>
    requires n <= |ps| <= |ds| && PlatformDrawsOk(ds)
    decreases n
  {
    if n == 0 then {}
    else RecycledBefore(ps, speed, ds, c, n - 1) + if RecycledAt(ps, speed, ds, c, n - 1) then {n - 1} else {}
  }

  /** An index is in RecycledBefore exactly when it is below n and that
      platform is recycled by the pass. */
  lemma {:induction false} RecycledMembers(ps: seq<Box>, speed: real, ds: seq<PlatformDraw>, c: Canvas, n: nat, j: nat)
    requires n <= |ps| <= |ds| && PlatformDrawsOk(ds)
    ensures j in RecycledBefore(ps, speed, ds, c, n) <==> j < n && RecycledAt(ps, speed, ds, c, j)
    decreases n
  {
    if n > 0 {
      RecycledMembers(ps, speed, ds, c, n - 1, j);
    }
  }

  /** What the pass does to platform j: it is moved left by the speed
      reached when j is visited and, if it then has left the screen, put
      back to the right of it with the draws of index j. */
  lemma PassVisit(ps: seq<Box>, speed: real, ds: seq<PlatformDraw>, c: Canvas, n: nat, j: nat)
    requires j < n <= |ps| <= |ds| && PlatformDrawsOk(ds)
    ensures var moved := Shifted(ps[j], PlatformsPass(ps, speed, ds, c, j).speed);
            PlatformsPass(ps, speed, ds, c, n).items[j]
              == if OffScreen(moved) then RelocatedPlatform(moved, ds[j], c) else moved
  {
    PassHandlesOnce(ps, speed, ds, c, j + 1, n);
    PassUntouched(ps, speed, ds, c, j);
  }

  /** The counter of the pass is the number of platforms recycled, so the
      speed rises by exactly 0.1 per recycled platform. */
  lemma {:induction false} RecycledCount(ps: seq<Box>, speed: real, ds: seq<PlatformDraw>, c: Canvas, n: nat)
    requires n <= |ps| <= |ds| && PlatformDrawsOk(ds)
    ensures PlatformsPass(ps, speed, ds, c, n).recycled == |RecycledBefore(ps, speed, ds, c, n)|
    ensures PlatformsPass(ps, speed, ds, c, n).speed == speed + 0.1 * |RecycledBefore(ps, speed, ds, c, n)| as real
    decreases n
  {
    if n > 0 {
      RecycledCount(ps, speed, ds, c, n - 1);
      RecycledStep(ps, speed, ds, c, n);
      RecycledGrow(ps, speed, ds, c, n);
    }
  }

  /** Index n - 1 joins RecycledBefore exactly when that platform is
      recycled. */
  lemma RecycledGrow(ps: seq<Box>, speed: real, ds: seq<PlatformDraw>, c: Canvas, n: nat)
    requires 0 < n <= |ps| <= |ds| && PlatformDrawsOk(ds)
    ensures |RecycledBefore(ps, speed, ds, c, n)|
              == |RecycledBefore(ps, speed, ds, c, n - 1)| + if RecycledAt(ps, speed, ds, c, n - 1) then 1 else 0
  {
    RecycledMembers(ps, speed, ds, c, n - 1, n - 1);
  }

  /** Visiting platform n - 1 adds one to the counter exactly when that
      platform is recycled. */
  lemma RecycledStep(ps: seq<Box>, speed: real, ds: seq<PlatformDraw>, c: Canvas, n: nat)
    requires 0 < n <= |ps| <= |ds| && PlatformDrawsOk(ds)
    ensures PlatformsPass(ps, speed, ds, c, n).recycled
              == PlatformsPass(ps, speed, ds, c, n - 1).recycled + if RecycledAt(ps, speed, ds, c, n - 1) then 1 else 0
  {
    PassUntouched(ps, speed, ds, c, n - 1);
    var prev := PlatformsPass(ps, speed, ds, c, n - 1);
    assert prev.items[n - 1] == ps[n - 1];
  }

  /** After a full pass, and while the canvas has a non-negative width, no
      platform is left entirely to the left of the screen. */
  lemma NoPlatformLeftBehind(ps: seq<Box>, speed: real, ds: seq<PlatformDraw>, c: Canvas)
    requires |ps| <= |ds| && PlatformDrawsOk(ds) && c.width >= 0.0
    ensures forall j :: 0 <= j < |ps| ==> !OffScreen(PlatformsPass(ps, speed, ds, c, |ps|).items[j])
  {
    var r := PlatformsPass(ps, speed, ds, c, |ps|);
    PassOutcome(ps, speed, ds, c, |ps|);
    forall j | 0 <= j < |ps| ensures !OffScreen(r.items[j]) {
      assert PlatformOutcome(ps[j], r.items[j], speed, r.speed, c);
    }
  }

  /** One coin of updateCoins: moved left by the game speed, and if it has
      left the screen, put back to the right of it inside the band. */
  function CoinAfter(coin: Box, speed: real, d: CoinDraw, c: Canvas): (r: Box)
    requires Unit(d.rx) && Unit(d.ry)
    ensures r.width == coin.width && r.height == coin.height
    ensures OffScreen(Shifted(coin, speed)) ==> c.width <= r.x < c.width + 200.0 && InBand(r, c)
    ensures !OffScreen(Shifted(coin, speed)) ==> r == Shifted(coin, speed) && !OffScreen(r)
  {
    var moved := Shifted(coin, speed);
    if OffScreen(moved) then
      moved.(x := c.width + d.rx * 200.0, y := c.height - 50.0 - d.ry * 200.0)
    else moved
  }

  /** The whole coin pass: the game speed does not change during it, so
      every coin is handled independently of the others. */
  function CoinsPass(cs: seq<Box>, speed: real, ds: seq<CoinDraw>, c: Canvas): (r: seq<Box>)
    requires |cs| <= |ds| && CoinDrawsOk(ds)
    ensures |r| == |cs|
    ensures forall j :: 0 <= j < |cs| ==> r[j] == CoinAfter(cs[j], speed, ds[j], c)
  {
    seq(|cs|, j requires 0 <= j < |cs| => CoinAfter(cs[j], speed, ds[j], c))
  }
}
