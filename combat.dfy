/** Elemental combat: the damage-multiplier table, the projectile table, and
    one tick of a projectile's flight with its collision tests. Projectiles
    and enemies use centre-x; an enemy's `y` is its bottom edge and a
    projectile's `y` its centre. */
module Combat {
  import opened GameTypes

  /** The rock-paper-scissors table: 2 for an advantage, 0.5 for the
      reverse pair, 0.25 against the same element, 1 otherwise. */
  function DamageMultiplier(attacker: Element, target: Element): real
  {
    if (attacker == Fire && target == Air) || (attacker == Water && target == Fire)
       || (attacker == Earth && target == Water) || (attacker == Air && target == Earth)
    then 2.0
    else if (attacker == Air && target == Fire) || (attacker == Fire && target == Water)
       || (attacker == Water && target == Earth) || (attacker == Earth && target == Air)
    then 0.5
    else if attacker == target then 0.25
    else 1.0
  }

  /** The element each non-spirit element beats; it closes a four-cycle
      fire, air, earth, water. */
  function Prey(e: Element): Element
  {
    match e
    case Fire => Air
    case Air => Earth
    case Earth => Water
    case Water => Fire
    case Spirit => Spirit
  }

  /** The table agrees with the cycle: each non-spirit element has exactly
      one target it doubles against and exactly one it halves against (the
      one that beats it); same element is 0.25, spirit against another
      element is 1. */
  lemma MultiplierFollowsCycle(a: Element, b: Element)
    ensures DamageMultiplier(a, b) == 2.0 <==> a != Spirit && b == Prey(a)
    ensures DamageMultiplier(a, b) == 0.5 <==> b != Spirit && a == Prey(b)
    ensures DamageMultiplier(a, b) == 0.25 <==> a == b
    ensures a != b && (a == Spirit || b == Spirit) ==> DamageMultiplier(a, b) == 1.0
    ensures DamageMultiplier(a, b) in {2.0, 0.5, 0.25, 1.0}
  {
  }

  /** An advantage read backwards is a disadvantage. */
  lemma AdvantageIsReversedDisadvantage(a: Element, b: Element)
    ensures DamageMultiplier(a, b) == 2.0 <==> DamageMultiplier(b, a) == 0.5
  {
  }

  lemma PreyIsFourCycle(e: Element)
    requires e != Spirit
    ensures Prey(e) != e && Prey(e) != Spirit && Prey(Prey(Prey(Prey(e)))) == e
  {
  }

  /** Damage of a shot by element. */
  function ShotDamage(e: Element): real
  {
    match e
    case Fire => 15.0
    case Water => 8.0
    case Earth => 20.0
    case Air => 5.0
    case Spirit => 10.0
  }

  /** Width and height of a shot by element. */
  function ShotSize(e: Element): real
  {
    match e
    case Fire => 12.0
    case Water => 8.0
    case Earth => 15.0
    case Air => 6.0
    case Spirit => 10.0
  }

  /** The box of a projectile centred at (nx, ny) meets the enemy's box. */
  predicate StrikesEnemy(nx: real, ny: real, p: Projectile, e: Enemy)
  {
    && nx + p.width / 2.0 > e.x - e.width / 2.0
    && nx - p.width / 2.0 < e.x + e.width / 2.0
    && ny + p.height / 2.0 > e.y - e.height
    && ny - p.height / 2.0 < e.y
  }

  /** The box of a projectile centred at (nx, ny) meets a solid platform. */
  predicate StrikesPlatform(nx: real, ny: real, p: Projectile, pl: Platform)
  {
    && !pl.canPassThrough
    && nx + p.width / 2.0 > pl.x
    && nx - p.width / 2.0 < pl.x + pl.width
    && ny + p.height / 2.0 > pl.y
    && ny - p.height / 2.0 < pl.y + pl.height
  }

  predicate StrikesAnyPlatform(nx: real, ny: real, p: Projectile, platforms: seq<Platform>)
  {
    exists j :: 0 <= j < |platforms| && StrikesPlatform(nx, ny, p, platforms[j])
  }

  /** The first enemy at or after `from`, in list order, that the projectile
      meets. */
  function FirstStruck(nx: real, ny: real, p: Projectile, enemies: seq<Enemy>, from: nat): (k: Option<nat>)
    ensures k.Some? ==> from <= k.value < |enemies| && StrikesEnemy(nx, ny, p, enemies[k.value])
    ensures k.Some? ==> forall j :: from <= j < k.value ==> !StrikesEnemy(nx, ny, p, enemies[j])
    ensures k.None? ==> forall j :: from <= j < |enemies| ==> !StrikesEnemy(nx, ny, p, enemies[j])
    decreases |enemies| - from
  {
    if from >= |enemies| then None
    else if StrikesEnemy(nx, ny, p, enemies[from]) then Some(from)
    else FirstStruck(nx, ny, p, enemies, from + 1)
  }

  /** The enemy list with enemy `k` having taken the projectile's damage,
      scaled by the multiplier and floored at 0. */
  function Struck(p: Projectile, enemies: seq<Enemy>, k: nat): (r: seq<Enemy>)
    requires k < |enemies|
    ensures |r| == |enemies| && forall j :: 0 <= j < |r| && j != k ==> r[j] == enemies[j]
    ensures r[k] == enemies[k].(health := r[k].health)
    ensures r[k].health == Max(0.0, enemies[k].health - p.damage * DamageMultiplier(p.element, enemies[k].element))
  {
    var e := enemies[k];
    enemies[k := e.(health := Max(0.0, e.health - p.damage * DamageMultiplier(p.element, e.element)))]
  }

  predicate InWorld(x: real, y: real)
  {
    0.0 <= x <= 2000.0 && 0.0 <= y <= 800.0
  }

  /** One projectile's tick as the `map` callback of `UPDATE_PROJECTILES`
      returns it. */
  function StepProjectile(p: Projectile, enemies: seq<Enemy>, platforms: seq<Platform>): (q: Projectile)
    ensures q.id == p.id && q.element == p.element && q.damage == p.damage
    ensures !p.active ==> q == p
    ensures p.active && !InWorld(p.x + p.velocityX, p.y + p.velocityY) ==> q == p.(active := false)
    ensures p.active && InWorld(p.x + p.velocityX, p.y + p.velocityY) ==>
              q == p.(x := p.x + p.velocityX, y := p.y + p.velocityY, active := q.active)
    ensures q.active ==> p.active && q.x == p.x + p.velocityX && q.y == p.y + p.velocityY && InWorld(q.x, q.y)
    ensures q.active ==> forall j :: 0 <= j < |enemies| ==> !StrikesEnemy(q.x, q.y, p, enemies[j])
    ensures q.active ==> !StrikesAnyPlatform(q.x, q.y, p, platforms)
    ensures p.active && InWorld(p.x + p.velocityX, p.y + p.velocityY) && !q.active ==>
              FirstStruck(q.x, q.y, p, enemies, 0).Some? || StrikesAnyPlatform(q.x, q.y, p, platforms)
  {
    if !p.active then p
    else
      var nx := p.x + p.velocityX;
      var ny := p.y + p.velocityY;
      if nx < 0.0 || nx > 2000.0 || ny < 0.0 || ny > 800.0 then p.(active := false)
      else
        var collided := FirstStruck(nx, ny, p, enemies, 0).Some? || StrikesAnyPlatform(nx, ny, p, platforms);
        p.(x := nx, y := ny, active := !collided)
  }

  /** The callback's local enemy copy: the first enemy struck takes the
      damage. `UPDATE_PROJECTILES` never reads it back. */
  function LocalEnemies(p: Projectile, enemies: seq<Enemy>): (r: seq<Enemy>)
    ensures |r| == |enemies|
  {
    var nx := p.x + p.velocityX;
    var ny := p.y + p.velocityY;
    if !p.active || !InWorld(nx, ny) then enemies
    else match FirstStruck(nx, ny, p, enemies, 0)
      case Some(k) => Struck(p, enemies, k)
      case None => enemies
  }

  /** The body of the `map` callback with its two `for ... break` loops and
      the `hasCollided` flag; it returns the projectile and the local enemy
      copy the callback builds. */
  method ResolveProjectile(projectile: Projectile, enemies: seq<Enemy>, platforms: seq<Platform>)
    returns (result: Projectile, updatedEnemies: seq<Enemy>)
    ensures result == StepProjectile(projectile, enemies, platforms)
    ensures updatedEnemies == LocalEnemies(projectile, enemies)
  {
    if !projectile.active {
      return projectile, enemies;
    }
    var newX := projectile.x + projectile.velocityX;
    var newY := projectile.y + projectile.velocityY;
    if newX < 0.0 || newX > 2000.0 || newY < 0.0 || newY > 800.0 {
      return projectile.(active := false), enemies;
    }
    var hasCollided := false;
    updatedEnemies := enemies;
    var i := 0;
    while i < |updatedEnemies|
      invariant 0 <= i <= |enemies| && updatedEnemies == enemies && !hasCollided
      invariant FirstStruck(newX, newY, projectile, enemies, 0) == FirstStruck(newX, newY, projectile, enemies, i)
    {
      var enemy := updatedEnemies[i];
      if StrikesEnemy(newX, newY, projectile, enemy) {
        var damageMultiplier := DamageMultiplier(projectile.element, enemy.element);
        var damage := projectile.damage * damageMultiplier;
        updatedEnemies := updatedEnemies[i := enemy.(health := Max(0.0, enemy.health - damage))];
        hasCollided := true;
        break;
      }
      i := i + 1;
    }
    ghost var enemyHit := hasCollided;
    assert enemyHit <==> FirstStruck(newX, newY, projectile, enemies, 0).Some?;
    var j := 0;
    while j < |platforms|
      invariant 0 <= j <= |platforms|
      invariant hasCollided == (enemyHit || exists k :: 0 <= k < j && StrikesPlatform(newX, newY, projectile, platforms[k]))
    {
      var platform := platforms[j];
      if !platform.canPassThrough {
        if newX + projectile.width / 2.0 > platform.x
           && newX - projectile.width / 2.0 < platform.x + platform.width
           && newY + projectile.height / 2.0 > platform.y
           && newY - projectile.height / 2.0 < platform.y + platform.height
        {
          assert StrikesPlatform(newX, newY, projectile, platforms[j]);
          hasCollided := true;
          break;
        }
      }
      j := j + 1;
    }
    assert hasCollided == (enemyHit || StrikesAnyPlatform(newX, newY, projectile, platforms));
    result := projectile.(x := newX, y := newY, active := !hasCollided);
  }

  /** `.filter(projectile => projectile.active)`. */
  function KeepActive(ps: seq<Projectile>): (r: seq<Projectile>)
    ensures |r| <= |ps| && multiset(r) <= multiset(ps)
    ensures forall q :: q in r <==> q in ps && q.active
  {
    if ps == [] then []
    else
      assert ps == [ps[0]] + ps[1..];
      (if ps[0].active then [ps[0]] else []) + KeepActive(ps[1..])
  }

  /** Every projectile advanced one tick, the spent ones dropped. */
  function AdvanceProjectiles(ps: seq<Projectile>, enemies: seq<Enemy>, platforms: seq<Platform>): (r: seq<Projectile>)
    ensures |r| <= |ps|
    ensures forall q :: q in r ==> q.active && InWorld(q.x, q.y)
    ensures forall q :: q in r ==> exists k :: 0 <= k < |ps| && ps[k].active && q == StepProjectile(ps[k], enemies, platforms)
    ensures forall k :: 0 <= k < |ps| && StepProjectile(ps[k], enemies, platforms).active ==>
              StepProjectile(ps[k], enemies, platforms) in r
    ensures r == KeepActive(seq(|ps|, k requires 0 <= k < |ps| => StepProjectile(ps[k], enemies, platforms)))
  {
    var stepped := seq(|ps|, k requires 0 <= k < |ps| => StepProjectile(ps[k], enemies, platforms));
    assert forall k :: 0 <= k < |ps| ==> stepped[k] == StepProjectile(ps[k], enemies, platforms) && stepped[k] in stepped;
    var r := KeepActive(stepped);
    assert forall k :: 0 <= k < |ps| && stepped[k].active ==> stepped[k] in r;
    r
  }

  /** `.filter(enemy => enemy.health > 0)`. */
  function Survivors(es: seq<Enemy>): (r: seq<Enemy>)
    ensures |r| <= |es| && multiset(r) <= multiset(es)
    ensures forall e :: e in r <==> e in es && e.health > 0.0
  {
    if es == [] then []
    else
      assert es == [es[0]] + es[1..];
      (if es[0].health > 0.0 then [es[0]] else []) + Survivors(es[1..])
  }

  /** The filter keeps the order: filtering a concatenation is
      concatenating the filtered parts. */
  lemma {:induction false} KeepActiveAppend(xs: seq<Projectile>, ys: seq<Projectile>)
    ensures KeepActive(xs + ys) == KeepActive(xs) + KeepActive(ys)
    decreases |xs|
  {
    if xs == [] {
      assert xs + ys == ys;
    } else {
      assert (xs + ys)[0] == xs[0];
      assert (xs + ys)[1..] == xs[1..] + ys;
      KeepActiveAppend(xs[1..], ys);
    }
  }

  lemma {:induction false} SurvivorsAppend(xs: seq<Enemy>, ys: seq<Enemy>)
    ensures Survivors(xs + ys) == Survivors(xs) + Survivors(ys)
    decreases |xs|
  {
    if xs == [] {
      assert xs + ys == ys;
    } else {
      assert (xs + ys)[0] == xs[0];
      assert (xs + ys)[1..] == xs[1..] + ys;
      SurvivorsAppend(xs[1..], ys);
    }
  }

  /** The number of enemies at health 0 or below. */
  function Fallen(es: seq<Enemy>): nat
  {
    if es == [] then 0
    else (if es[0].health > 0.0 then 0 else 1) + Fallen(es[1..])
  }

  /** Filtering removes exactly the fallen enemies. */
  lemma {:induction false} SurvivorsCount(es: seq<Enemy>)
    ensures |Survivors(es)| + Fallen(es) == |es|
  {
    if es != [] {
      SurvivorsCount(es[1..]);
    }
  }
}
