/** The player-versus-platform tests of the game loop. The player's `y` is
    the bottom edge of its box and `x` its horizontal centre; a platform's
    `y` is its top edge and `x` its left edge. */
module Collision {
  import opened GameTypes

  /** `checkPlatformCollision`: the boxes overlap on both axes (touching
      counts vertically, not horizontally). The game loop does not call it. */
  predicate Overlapping(px: real, py: real, pw: real, ph: real, p: Platform)
  {
    && px + pw / 2.0 > p.x
    && px - pw / 2.0 < p.x + p.width
    && py >= p.y
    && py - ph <= p.y + p.height
  }

  /** The horizontal spans overlap strictly. */
  predicate SpansOverlap(px: real, pw: real, p: Platform)
  {
    px + pw / 2.0 > p.x && px - pw / 2.0 < p.x + p.width
  }

  /** `checkStandingOnPlatform`: moving down or resting, with the bottom
      edge at most 10 units below the platform's top. */
  predicate StandingOn(px: real, py: real, pw: real, ph: real, p: Platform, vy: real)
  {
    vy >= 0.0 && py >= p.y && py <= p.y + 10.0 && SpansOverlap(px, pw, p)
  }

  /** `checkHittingPlatformBottom`: only pass-through platforms; moving up,
      with the top edge at most 10 units above the platform's bottom. */
  predicate HittingBottom(px: real, py: real, pw: real, ph: real, p: Platform, vy: real)
  {
    if !p.canPassThrough then false
    else
      vy < 0.0 && py - ph <= p.y + p.height && py - ph >= p.y + p.height - 10.0
      && SpansOverlap(px, pw, p)
  }

  /** Standing on a platform and striking its underside exclude each other:
      one needs the player to move down, the other up. */
  lemma StandingExcludesHitting(px: real, py: real, pw: real, ph: real, p: Platform, vy: real)
    ensures !(StandingOn(px, py, pw, ph, p, vy) && HittingBottom(px, py, pw, ph, p, vy))
  {
  }

  /** What an underside hit implies: a pass-through platform, upward motion
      and the player's top inside the 10-unit band under the platform. */
  lemma HittingBottomFacts(px: real, py: real, pw: real, ph: real, p: Platform, vy: real)
    requires HittingBottom(px, py, pw, ph, p, vy)
    ensures p.canPassThrough && vy < 0.0
    ensures p.y + p.height - 10.0 <= py - ph <= p.y + p.height
  {
  }

  /** A player who stands on a platform overlaps it in the sense of
      `checkPlatformCollision`, provided the two heights together reach the
      10-unit tolerance (the player is 30 or 50 units tall). */
  lemma StandingIsOverlapping(px: real, py: real, pw: real, ph: real, p: Platform, vy: real)
    requires StandingOn(px, py, pw, ph, p, vy)
    requires ph + p.height >= 10.0
    ensures Overlapping(px, py, pw, ph, p)
  {
  }

  /** Snapping the player's bottom to the platform's top keeps it standing
      there while it does not move up. */
  lemma SnappedStaysStanding(px: real, pw: real, ph: real, p: Platform)
    requires SpansOverlap(px, pw, p)
    ensures StandingOn(px, p.y, pw, ph, p, 0.0)
  {
  }
}
