/** Procedural level generation: `generatePlatforms` and `generateEnemies`.
    Each is given twice: a tail-recursive specification function, which the
    reducer uses, and an imperative method that runs the source's loop
    (closure-threaded seed, `push`, `i--` rejection, `splice`) and is proved
    to compute exactly what the function does. */
module LevelGen {
  import opened GameTypes
  import opened Prng

  /** The fixed platform every generated level starts the player on. */
  const StartPlatform := Platform(50.0, 350.0, 200.0, 15.0, Spirit, true)

  /** Elements a generated platform or enemy may carry. */
  const FloatingElements: seq<Element> := [Fire, Water, Earth, Air]

  /** Attempts the model allows the rejection loop before it gives up, a
      thousand for each platform the level asks for; the source has no such
      bound. */
  function PlacementBudget(level: nat): nat
  {
    1000 * PlatformCount(level)
  }

  /** `5 + Math.min(level * 3, 20)` floating platforms per level. */
  function PlatformCount(level: nat): (n: nat)
    ensures 5 <= n <= 25
  {
    5 + (if level * 3 <= 20 then level * 3 else 20)
  }

  function LevelWidth(level: nat): real
  {
    1000.0 + level as real * 200.0
  }

  /** The rejection test of `generatePlatforms`: the x-spans intersect and
      the tops are less than 30 apart. */
  predicate Overlaps(p: Platform, q: Platform)
  {
    p.x < q.x + q.width && p.x + p.width > q.x && Abs(p.y - q.y) < 30.0
  }

  predicate OverlapsAny(p: Platform, placed: seq<Platform>)
  {
    exists j :: 0 <= j < |placed| && Overlaps(p, placed[j])
  }

  /** A platform as the placement loop builds it. */
  predicate Floating(p: Platform)
  {
    p.height == 15.0 && p.element in FloatingElements
    && 150.0 <= p.y < 450.0 && 80.0 <= p.width < 200.0
  }

  /** Ground, then the start platform, then floating platforms of which none
      overlaps any platform before it. */
  predicate LayoutShape(ps: seq<Platform>)
  {
    && |ps| >= 2 && ps[0] == Ground && ps[1] == StartPlatform
    && (forall k :: 2 <= k < |ps| ==> Floating(ps[k]))
    && (forall j, k :: 0 <= j < k < |ps| && 2 <= k ==> !Overlaps(ps[k], ps[j]))
  }

  datatype Draw = Draw(platform: Platform, seed: nat)

  /** One pass of the loop body before the overlap test: five draws, for
      x within the i-th segment, y, width, element and pass-through. */
  function Candidate(level: nat, i: nat, seed: nat): (d: Draw)
    ensures d.seed < Modulus
  {
    var s1 := NextSeed(seed);
    var xPos := SegmentX(level, i, s1);
    var s2 := NextSeed(s1);
    var yPos := Scaled(s2, 150.0, 450.0);
    var s3 := NextSeed(s2);
    var width := Scaled(s3, 80.0, 200.0);
    var s4 := NextSeed(s3);
    var element := FloatingElements[PickIndex(s4, |FloatingElements|)];
    var s5 := NextSeed(s4);
    var passThrough := Scaled(s5, 0.0, 10.0) < 7.0 + level as real * 0.5;
    Draw(Platform(xPos, yPos, width, 15.0, element, passThrough), s5)
  }

  /** The x of the i-th candidate: 20 into the i-th of `PlatformCount`
      equal segments of the level's width, plus up to the segment's width
      less 100. */
  function SegmentX(level: nat, i: nat, seed: nat): real
    requires seed < Modulus
  {
    var segmentWidth := LevelWidth(level) / PlatformCount(level) as real;
    var segmentStart := segmentWidth * i as real;
    segmentStart + Scaled(seed, 20.0, segmentWidth - 100.0)
  }

  /** Every candidate is a floating platform: 15 high, 80 to 200 wide, its
      top between 150 and 450, of one of the four floating elements. */
  lemma CandidateIsFloating(level: nat, i: nat, seed: nat)
    ensures Floating(Candidate(level, i, seed).platform)
  {
  }

  datatype Layout = Layout(platforms: seq<Platform>, finished: bool)

  /** The placement loop from iteration `i` on, with `fuel` attempts left:
      a candidate that overlaps is dropped and the same `i` is tried again. */
  function PlaceFrom(level: nat, i: nat, seed: nat, fuel: nat, placed: seq<Platform>): (r: Layout)
    ensures |placed| <= |r.platforms| && (|placed| > 0 ==> r.platforms[0] == placed[0])
    decreases fuel
  {
    if i >= PlatformCount(level) then Layout(placed, true)
    else if fuel == 0 then Layout(placed, false)
    else
      var d := Candidate(level, i, seed);
      if OverlapsAny(d.platform, placed) then PlaceFrom(level, i, d.seed, fuel - 1, placed)
      else PlaceFrom(level, i + 1, d.seed, fuel - 1, placed + [d.platform])
  }

  /** The placement loop only appends: what was placed stays, in order. */
  lemma {:induction false} PlaceFromExtends(level: nat, i: nat, seed: nat, fuel: nat, placed: seq<Platform>)
    ensures placed <= PlaceFrom(level, i, seed, fuel, placed).platforms
    decreases fuel
  {
    if i < PlatformCount(level) && fuel > 0 {
      var d := Candidate(level, i, seed);
      if OverlapsAny(d.platform, placed) {
        PlaceFromExtends(level, i, d.seed, fuel - 1, placed);
      } else {
        PlaceFromExtends(level, i + 1, d.seed, fuel - 1, placed + [d.platform]);
      }
    }
  }

  /** Appending a floating platform that overlaps nothing before it keeps
      the layout's shape. */
  lemma ExtendLayout(placed: seq<Platform>, p: Platform)
    requires LayoutShape(placed) && Floating(p) && !OverlapsAny(p, placed)
    ensures LayoutShape(placed + [p])
  {
    var ps := placed + [p];
    forall j, k | 0 <= j < k < |ps| && 2 <= k
      ensures !Overlaps(ps[k], ps[j])
    {
      if k == |placed| {
        assert ps[j] == placed[j];
      }
    }
  }

  /** One attempt of the placement loop, as `PlaceFrom` unfolds it: the
      drawn candidate is dropped when it overlaps and appended otherwise. */
  lemma PlaceFromStep(level: nat, i: nat, seed: nat, fuel: nat, placed: seq<Platform>,
                      candidate: Platform, next: nat)
    requires i < PlatformCount(level) && fuel > 0
    requires Draw(candidate, next) == Candidate(level, i, seed)
    ensures Floating(candidate)
    ensures OverlapsAny(candidate, placed) ==>
              PlaceFrom(level, i, seed, fuel, placed) == PlaceFrom(level, i, next, fuel - 1, placed)
    ensures !OverlapsAny(candidate, placed) ==>
              PlaceFrom(level, i, seed, fuel, placed) == PlaceFrom(level, i + 1, next, fuel - 1, placed + [candidate])
  {
    CandidateIsFloating(level, i, seed);
  }

  /** Every accepted candidate keeps the layout's shape, and the loop stops
      with all platforms placed exactly when it did not run out of attempts. */
  lemma {:induction false} PlaceFromShape(level: nat, i: nat, seed: nat, fuel: nat, placed: seq<Platform>)
    requires i <= PlatformCount(level) && |placed| == 2 + i && LayoutShape(placed)
    ensures var r := PlaceFrom(level, i, seed, fuel, placed);
      && LayoutShape(r.platforms)
      && |r.platforms| <= 2 + PlatformCount(level)
      && (r.finished <==> |r.platforms| == 2 + PlatformCount(level))
    decreases fuel
  {
    if i < PlatformCount(level) && fuel > 0 {
      var d := Candidate(level, i, seed);
      PlaceFromStep(level, i, seed, fuel, placed, d.platform, d.seed);
      if OverlapsAny(d.platform, placed) {
        PlaceFromShape(level, i, d.seed, fuel - 1, placed);
      } else {
        ExtendLayout(placed, d.platform);
        PlaceFromShape(level, i + 1, d.seed, fuel - 1, placed + [d.platform]);
      }
    }
  }

  /** `generatePlatforms(level, seed)`, with the rejection loop limited to
      `budget` attempts. */
  function PlatformLayout(level: nat, seed: nat, budget: nat): (r: Layout)
    ensures |r.platforms| >= 1 && r.platforms[0] == Ground
    ensures level == 1 ==> r.platforms == [Ground] && r.finished
  {
    if level == 1 then Layout([Ground], true)
    else PlaceFrom(level, 0, seed, budget, [Ground, StartPlatform])
  }

  /** Beyond the tutorial a layout is the ground, the start platform and up
      to `PlatformCount(level)` non-overlapping floating platforms; it is
      complete exactly when the budget sufficed to place them all. */
  lemma PlatformLayoutShape(level: nat, seed: nat, budget: nat)
    requires level != 1
    ensures var r := PlatformLayout(level, seed, budget);
      && LayoutShape(r.platforms)
      && |r.platforms| <= 2 + PlatformCount(level)
      && (r.finished <==> |r.platforms| == 2 + PlatformCount(level))
  {
    PlaceFromShape(level, 0, seed, budget, [Ground, StartPlatform]);
  }

  /** The five `rng` calls of one pass of the placement loop, each of
      which reassigns the seed. */
  method DrawCandidate(level: nat, i: nat, seed: nat) returns (candidate: Platform, current: nat)
    ensures Draw(candidate, current) == Candidate(level, i, seed)
  {
    current := NextSeed(seed);
    var xPos := SegmentX(level, i, current);
    current := NextSeed(current);
    var yPos := Scaled(current, 150.0, 450.0);
    current := NextSeed(current);
    var width := Scaled(current, 80.0, 200.0);
    current := NextSeed(current);
    var element := FloatingElements[PickIndex(current, |FloatingElements|)];
    current := NextSeed(current);
    var passThrough := Scaled(current, 0.0, 10.0) < 7.0 + level as real * 0.5;
    candidate := Platform(xPos, yPos, width, 15.0, element, passThrough);
  }

  /** The source's loop: the seed is reassigned by every draw, accepted
      candidates are pushed, rejected ones repeat the iteration. */
  method GeneratePlatforms(level: nat, seed: nat, budget: nat) returns (platforms: seq<Platform>, finished: bool)
    ensures Layout(platforms, finished) == PlatformLayout(level, seed, budget)
  {
    var current := seed;
    platforms := [Ground];
    if level == 1 {
      return platforms, true;
    }
    platforms := platforms + [StartPlatform];
    assert platforms == [Ground, StartPlatform];
    var platformCount := PlatformCount(level);
    var i := 0;
    var attempts := 0;
    ghost var layout := PlaceFrom(level, 0, seed, budget, platforms);
    while i < platformCount && attempts < budget
      invariant i <= platformCount && attempts <= budget
      invariant PlaceFrom(level, i, current, budget - attempts, platforms) == layout
      decreases budget - attempts
    {
      ghost var fuel := budget - attempts;
      i, current, platforms := Attempt(level, i, current, fuel, platforms);
      attempts := attempts + 1;
      assert budget - attempts == fuel - 1;
    }
    finished := i == platformCount;
  }

  /** One pass of the placement loop's body: draw a candidate, push it when
      it overlaps nothing placed so far, and move on to the next index only
      then. */
  method Attempt(level: nat, i: nat, seed: nat, ghost fuel: nat, platforms: seq<Platform>)
    returns (nextIndex: nat, current: nat, placed: seq<Platform>)
    requires i < PlatformCount(level) && fuel > 0
    ensures nextIndex == i || nextIndex == i + 1
    ensures PlaceFrom(level, nextIndex, current, fuel - 1, placed) == PlaceFrom(level, i, seed, fuel, platforms)
  {
    var candidate;
    candidate, current := DrawCandidate(level, i, seed);
    PlaceFromStep(level, i, seed, fuel, platforms, candidate, current);
    nextIndex, placed := i, platforms;
    if !OverlapsAny(candidate, platforms) {
      placed := platforms + [candidate];
      nextIndex := i + 1;
    }
  }

  // ---------------------------------------------------------------------
  // Enemies

  /** `Math.min(level * 2, 15)` enemies are attempted. */
  function EnemyCount(level: nat): (n: nat)
    ensures n <= 15 && n <= 2 * level
  {
    if level * 2 <= 15 then level * 2 else 15
  }

  function EnemyHealth(level: nat): real
  {
    30.0 + level as real * 5.0
  }

  predicate Distinct(s: seq<nat>)
  {
    forall a, b :: 0 <= a < b < |s| ==> s[a] != s[b]
  }

  /** An enemy as the roster loop builds it on platform `p` in iteration `k`. */
  predicate WellPlaced(level: nat, k: nat, e: Enemy, p: Platform)
  {
    && e.id == k && e.width == 30.0 && e.height == 30.0
    && e.health == EnemyHealth(level) && e.maxHealth == EnemyHealth(level)
    && e.y == p.y - 30.0 && e.element in FloatingElements
    && 0.5 <= e.speed <= 0.5 + level as real * 0.2
    && (p.width >= 60.0 ==> p.x + 20.0 <= e.x <= p.x + p.width - 40.0)
  }

  /** A roster together with the index, into the platform list, of the
      platform each enemy was put on. */
  datatype Roster = Roster(enemies: seq<Enemy>, origins: seq<nat>)

  /** Every enemy sits on its own platform, none of them the ground or the
      start platform. */
  predicate RosterShape(level: nat, platforms: seq<Platform>, r: Roster)
  {
    && |r.enemies| == |r.origins| && Distinct(r.origins)
    && (forall k :: 0 <= k < |r.origins| ==> 2 <= r.origins[k] < |platforms|)
    && (forall k :: 0 <= k < |r.enemies| ==> WellPlaced(level, k, r.enemies[k], platforms[r.origins[k]]))
  }

  /** The platforms still free: distinct, past the first two, not used yet. */
  predicate SlotsFree(platforms: seq<Platform>, available: seq<nat>, r: Roster)
  {
    && Distinct(available)
    && (forall k :: 0 <= k < |available| ==> 2 <= available[k] < |platforms|)
    && (forall a, b :: 0 <= a < |available| && 0 <= b < |r.origins| ==> available[a] != r.origins[b])
  }

  /** `platforms.slice(2)`, as indices into `platforms`. */
  function InitialSlots(platforms: seq<Platform>): (s: seq<nat>)
    ensures |platforms| >= 2 ==> |s| == |platforms| - 2
    ensures |platforms| < 2 ==> s == []
    ensures forall k :: 0 <= k < |s| ==> s[k] == k + 2
  {
    if |platforms| < 2 then [] else seq(|platforms| - 2, k => k + 2)
  }

  datatype Spawn = Spawn(enemy: Enemy, slot: nat, seed: nat)

  /** One pass of the roster loop: five draws, for the platform slot, x,
      element, speed and direction. */
  function SpawnEnemy(level: nat, id: nat, platforms: seq<Platform>, available: seq<nat>, seed: nat): (d: Spawn)
    requires |available| > 0
    requires forall k :: 0 <= k < |available| ==> available[k] < |platforms|
    ensures d.slot < |available| && d.seed < Modulus
  {
    var s1 := NextSeed(seed);
    var slot := PickIndex(s1, |available|);
    var platform := platforms[available[slot]];
    var s2 := NextSeed(s1);
    var xPos := platform.x + Scaled(s2, 20.0, platform.width - 40.0);
    var yPos := platform.y - 30.0;
    var s3 := NextSeed(s2);
    var element := FloatingElements[PickIndex(s3, |FloatingElements|)];
    var s4 := NextSeed(s3);
    var speed := 0.5 + Scaled(s4, 0.0, level as real * 0.2);
    var s5 := NextSeed(s4);
    var direction := if Scaled(s5, 0.0, 1.0) > 0.5 then Left else Right;
    Spawn(Enemy(id, xPos, yPos, 30.0, 30.0, EnemyHealth(level), EnemyHealth(level), element, direction, speed),
          slot, s5)
  }

  /** Every drawn enemy is well placed on the platform drawn for it. */
  lemma SpawnIsWellPlaced(level: nat, id: nat, platforms: seq<Platform>, available: seq<nat>, seed: nat)
    requires |available| > 0 && InRange(available, platforms)
    ensures var d := SpawnEnemy(level, id, platforms, available, seed);
      WellPlaced(level, id, d.enemy, platforms[available[d.slot]])
  {
  }

  /** `available` with the entry at `slot` spliced out. */
  function Splice(available: seq<nat>, slot: nat): (s: seq<nat>)
    requires slot < |available|
    ensures |s| == |available| - 1
    ensures forall k :: 0 <= k < |s| ==> s[k] == available[if k < slot then k else k + 1]
  {
    available[..slot] + available[slot + 1..]
  }

  /** Splicing out a slot keeps the other slots free and makes the spliced
      one used. */
  lemma SpliceKeepsSlotsFree(platforms: seq<Platform>, available: seq<nat>, r: Roster, slot: nat, e: Enemy)
    requires slot < |available| && SlotsFree(platforms, available, r)
    ensures SlotsFree(platforms, Splice(available, slot), Roster(r.enemies + [e], r.origins + [available[slot]]))
  {
  }

  predicate InRange(available: seq<nat>, platforms: seq<Platform>)
  {
    forall k :: 0 <= k < |available| ==> available[k] < |platforms|
  }

  /** The roster loop from iteration `i` on: stop after `EnemyCount` enemies
      or when no platform is left. */
  function SpawnFrom(level: nat, platforms: seq<Platform>, available: seq<nat>, seed: nat, i: nat, acc: Roster): (r: Roster)
    requires InRange(available, platforms)
    ensures |r.enemies| >= |acc.enemies|
    decreases EnemyCount(level) - i
  {
    if i >= EnemyCount(level) || |available| == 0 then acc
    else
      var d := SpawnEnemy(level, i, platforms, available, seed);
      var next := Roster(acc.enemies + [d.enemy], acc.origins + [available[d.slot]]);
      SpawnFrom(level, platforms, Splice(available, d.slot), d.seed, i + 1, next)
  }

  /** The roster loop only appends: earlier enemies and their platforms
      stay, in order. */
  lemma {:induction false} SpawnFromExtends(level: nat, platforms: seq<Platform>, available: seq<nat>, seed: nat, i: nat, acc: Roster)
    requires InRange(available, platforms)
    ensures var r := SpawnFrom(level, platforms, available, seed, i, acc);
      acc.enemies <= r.enemies && acc.origins <= r.origins
    decreases EnemyCount(level) - i
  {
    if i < EnemyCount(level) && |available| > 0 {
      var d := SpawnEnemy(level, i, platforms, available, seed);
      var next := Roster(acc.enemies + [d.enemy], acc.origins + [available[d.slot]]);
      SpawnFromStep(level, platforms, available, seed, i, acc, d.enemy, d.slot, d.seed);
      SpawnFromExtends(level, platforms, Splice(available, d.slot), d.seed, i + 1, next);
    }
  }

  /** Each pass puts one well-placed enemy on a platform no earlier enemy
      uses, so the roster is as long as the count or the free platforms
      allow, whichever is less. */
  lemma {:induction false} SpawnFromShape(level: nat, platforms: seq<Platform>, available: seq<nat>, seed: nat, i: nat, acc: Roster)
    requires i <= EnemyCount(level) && |acc.enemies| == i
    requires RosterShape(level, platforms, acc) && SlotsFree(platforms, available, acc)
    ensures var r := SpawnFrom(level, platforms, available, seed, i, acc);
      && RosterShape(level, platforms, r)
      && |r.enemies| == if EnemyCount(level) <= i + |available| then EnemyCount(level) else i + |available|
    decreases EnemyCount(level) - i
  {
    if i < EnemyCount(level) && |available| > 0 {
      var d := SpawnEnemy(level, i, platforms, available, seed);
      var next := Roster(acc.enemies + [d.enemy], acc.origins + [available[d.slot]]);
      SpawnIsWellPlaced(level, i, platforms, available, seed);
      SpliceKeepsSlotsFree(platforms, available, acc, d.slot, d.enemy);
      SpawnFromShape(level, platforms, Splice(available, d.slot), d.seed, i + 1, next);
    }
  }

  /** `generateEnemies(level, platforms, seed)`, with the platform each
      enemy was put on. */
  function EnemyRoster(level: nat, platforms: seq<Platform>, seed: nat): (r: Roster)
    ensures level == 1 ==> r.enemies == []
  {
    if level == 1 then Roster([], [])
    else SpawnFrom(level, platforms, InitialSlots(platforms), seed, 0, Roster([], []))
  }

  /** Every enemy of a roster is well placed on its own floating platform,
      and there are as many as the level asks for or as there are floating
      platforms, whichever is fewer. */
  lemma EnemyRosterShape(level: nat, platforms: seq<Platform>, seed: nat)
    ensures var r := EnemyRoster(level, platforms, seed);
      && RosterShape(level, platforms, r)
      && (level != 1 ==> |r.enemies| == if EnemyCount(level) <= |InitialSlots(platforms)|
                                        then EnemyCount(level) else |InitialSlots(platforms)|)
  {
    if level != 1 {
      SpawnFromShape(level, platforms, InitialSlots(platforms), seed, 0, Roster([], []));
    }
  }

  /** One pass of the roster loop, as `SpawnFrom` unfolds it: the pass
      that draws `enemy` on `slot` leaves the rest of the roster to the
      spliced list. */
  lemma SpawnFromStep(level: nat, platforms: seq<Platform>, available: seq<nat>, seed: nat, i: nat, acc: Roster,
                      enemy: Enemy, slot: nat, next: nat)
    requires InRange(available, platforms) && i < EnemyCount(level) && |available| > 0
    requires Spawn(enemy, slot, next) == SpawnEnemy(level, i, platforms, available, seed)
    ensures slot < |available| && InRange(Splice(available, slot), platforms)
    ensures SpawnFrom(level, platforms, available, seed, i, acc)
         == SpawnFrom(level, platforms, Splice(available, slot), next, i + 1,
                      Roster(acc.enemies + [enemy], acc.origins + [available[slot]]))
  {
  }

  /** A level as the reducer draws it. */
  datatype Level = Level(platforms: seq<Platform>, enemies: seq<Enemy>)

  /** The platforms and enemies of `level`, both drawn from the seed
      `worldSeed + level`, the enemies on the platforms just drawn. */
  function DrawLevel(level: nat, worldSeed: nat): (l: Level)
    ensures level == 1 ==> l.platforms == [Ground] && l.enemies == []
  {
    var seed := worldSeed + level;
    var platforms := PlatformLayout(level, seed, PlacementBudget(level)).platforms;
    Level(platforms, EnemyRoster(level, platforms, seed).enemies)
  }

  /** The shape of a generated level beyond the tutorial: the ground, the
      start platform and non-overlapping floating platforms, at most
      `EnemyCount` enemies and one per floating platform, numbered in order
      and at full health `30 + 5 * level`. */
  predicate LevelShape(level: nat, l: Level)
  {
    && LayoutShape(l.platforms) && |l.platforms| <= 2 + PlatformCount(level)
    && |l.enemies| <= EnemyCount(level) && |l.enemies| <= |l.platforms| - 2
    && (forall k :: 0 <= k < |l.enemies| ==>
          l.enemies[k].id == k && l.enemies[k].health == l.enemies[k].maxHealth == EnemyHealth(level))
  }

  /** Beyond the tutorial a drawn level has the shape of a generated level. */
  lemma DrawLevelShape(level: nat, worldSeed: nat)
    requires level != 1
    ensures LevelShape(level, DrawLevel(level, worldSeed))
  {
    var seed := worldSeed + level;
    var l := DrawLevel(level, worldSeed);
    var platforms := PlatformLayout(level, seed, PlacementBudget(level)).platforms;
    assert l.platforms == platforms && l.enemies == EnemyRoster(level, platforms, seed).enemies;
    PlatformLayoutShape(level, seed, PlacementBudget(level));
    RosterHealth(level, platforms, seed);
  }

  /** Every enemy of a drawn level stands 30 above its own floating
      platform, no two on the same one. */
  lemma DrawLevelRoster(level: nat, worldSeed: nat)
    ensures var l := DrawLevel(level, worldSeed);
      exists origins :: RosterShape(level, l.platforms, Roster(l.enemies, origins))
  {
    var seed := worldSeed + level;
    var l := DrawLevel(level, worldSeed);
    var platforms := PlatformLayout(level, seed, PlacementBudget(level)).platforms;
    var r := EnemyRoster(level, platforms, seed);
    assert l.platforms == platforms && l.enemies == r.enemies;
    EnemyRosterShape(level, platforms, seed);
    assert Roster(l.enemies, r.origins) == r;
  }

  /** A roster beyond the tutorial holds at most the count of enemies and
      one per floating platform, numbered in order and at full health. */
  lemma RosterHealth(level: nat, platforms: seq<Platform>, seed: nat)
    requires level != 1 && |platforms| >= 2
    ensures var r := EnemyRoster(level, platforms, seed);
      && |r.enemies| <= EnemyCount(level) && |r.enemies| <= |platforms| - 2
      && (forall k :: 0 <= k < |r.enemies| ==>
            r.enemies[k].id == k && r.enemies[k].health == r.enemies[k].maxHealth == EnemyHealth(level))
  {
    EnemyRosterShape(level, platforms, seed);
    var r := EnemyRoster(level, platforms, seed);
    forall k | 0 <= k < |r.enemies|
      ensures r.enemies[k].id == k && r.enemies[k].health == r.enemies[k].maxHealth == EnemyHealth(level)
    {
      assert WellPlaced(level, k, r.enemies[k], platforms[r.origins[k]]);
    }
  }

  /** The five `rng` calls of one pass of the roster loop, on the list of
      platforms still available; `origin` says where each came from. */
  method DrawEnemy(level: nat, id: nat, availablePlatforms: seq<Platform>, seed: nat,
                   ghost platforms: seq<Platform>, ghost origin: seq<nat>)
    returns (enemy: Enemy, platformIndex: nat, current: nat)
    requires |availablePlatforms| > 0 && |origin| == |availablePlatforms|
    requires forall k :: 0 <= k < |origin| ==> origin[k] < |platforms| && availablePlatforms[k] == platforms[origin[k]]
    ensures Spawn(enemy, platformIndex, current) == SpawnEnemy(level, id, platforms, origin, seed)
  {
    current := NextSeed(seed);
    platformIndex := PickIndex(current, |availablePlatforms|);
    var platform := availablePlatforms[platformIndex];
    current := NextSeed(current);
    var xPos := platform.x + Scaled(current, 20.0, platform.width - 40.0);
    var yPos := platform.y - 30.0;
    current := NextSeed(current);
    var element := FloatingElements[PickIndex(current, |FloatingElements|)];
    current := NextSeed(current);
    var speed := 0.5 + Scaled(current, 0.0, level as real * 0.2);
    current := NextSeed(current);
    var direction := if Scaled(current, 0.0, 1.0) > 0.5 then Left else Right;
    enemy := Enemy(id, xPos, yPos, 30.0, 30.0, EnemyHealth(level), EnemyHealth(level), element, direction, speed);
  }

  /** `available[k]` is the platform at index `origin[k]`. */
  predicate Aligned(available: seq<Platform>, origin: seq<nat>, platforms: seq<Platform>)
  {
    |available| == |origin|
    && forall k :: 0 <= k < |origin| ==> origin[k] < |platforms| && available[k] == platforms[origin[k]]
  }

  /** Splicing the same entry out of both lists keeps them aligned. */
  lemma SpliceKeepsAligned(available: seq<Platform>, origin: seq<nat>, platforms: seq<Platform>, slot: nat)
    requires Aligned(available, origin, platforms) && slot < |available|
    ensures Aligned(available[..slot] + available[slot + 1..], Splice(origin, slot), platforms)
  {
    var rest := available[..slot] + available[slot + 1..];
    forall k | 0 <= k < |rest|
      ensures rest[k] == available[if k < slot then k else k + 1]
    {
    }
  }

  /** The source's loop over a copy of the platform list from index 2 on,
      which `splice` shrinks; `origin` records where each copy came from. */
  method GenerateEnemies(level: nat, platforms: seq<Platform>, seed: nat) returns (enemies: seq<Enemy>)
    ensures enemies == EnemyRoster(level, platforms, seed).enemies
  {
    if level == 1 {
      return [];
    }
    enemies := [];
    var current := seed;
    var enemyCount := EnemyCount(level);
    var availablePlatforms := if |platforms| < 2 then [] else platforms[2..];
    ghost var origin: seq<nat> := InitialSlots(platforms);
    ghost var used: seq<nat> := [];
    var i := 0;
    while i < enemyCount
      invariant i <= enemyCount && |enemies| == i
      invariant Aligned(availablePlatforms, origin, platforms)
      invariant SpawnFrom(level, platforms, origin, current, i, Roster(enemies, used))
             == SpawnFrom(level, platforms, InitialSlots(platforms), seed, 0, Roster([], []))
    {
      if |availablePlatforms| == 0 {
        break;
      }
      var enemy, platformIndex, next := DrawEnemy(level, i, availablePlatforms, current, platforms, origin);
      SpawnFromStep(level, platforms, origin, current, i, Roster(enemies, used), enemy, platformIndex, next);
      current := next;
      enemies := enemies + [enemy];
      used := used + [origin[platformIndex]];
      SpliceKeepsAligned(availablePlatforms, origin, platforms, platformIndex);
      availablePlatforms := availablePlatforms[..platformIndex] + availablePlatforms[platformIndex + 1..];
      origin := Splice(origin, platformIndex);
      i := i + 1;
    }
  }
}
