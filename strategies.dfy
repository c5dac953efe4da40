/** The four attack strategies of the modular engine (the strategies
    directory): damage is `floor((base + attacker.attack) * multiplier *
    variation)` over the fire/water/grass triangle, with normal attacks
    neutral. The random variation is a parameter `rnd` in [0, 1), standing for
    `Math.random()`; multipliers and variation are exact rationals. */
module Strategies {
  import opened Common
  import opened Monsters

  datatype Strategy = FireAttack | WaterAttack | GrassAttack | NormalAttack

  /** The `baseDamage` each strategy's constructor sets. */
  function BaseDamage(s: Strategy): int {
    match s
    case FireAttack => 15
    case WaterAttack => 12
    case GrassAttack => 14
    case NormalAttack => 13
  }

  function AttackName(s: Strategy): string {
    match s
    case FireAttack => "Fire Attack"
    case WaterAttack => "Water Attack"
    case GrassAttack => "Grass Attack"
    case NormalAttack => "Normal Attack"
  }

  /** The type-effectiveness factor against a target of the given type. */
  function Effectiveness(s: Strategy, targetType: string): (m: real)
    ensures m == 2.0 || m == 1.0 || m == 0.5
  {
    match s
    case FireAttack => if targetType == "grass" then 2.0 else if targetType == "water" then 0.5 else 1.0
    case WaterAttack => if targetType == "fire" then 2.0 else if targetType == "grass" then 0.5 else 1.0
    case GrassAttack => if targetType == "water" then 2.0 else if targetType == "fire" then 0.5 else 1.0
    case NormalAttack => 1.0
  }

  /** `0.8 + Math.random() * 0.4`. */
  function Variation(rnd: real): (v: real)
    requires 0.0 <= rnd < 1.0
    ensures 0.8 <= v < 1.2
  {
    0.8 + rnd * 0.4
  }

  lemma ScaleMonotone(x: real, lo: real, hi: real)
    requires x >= 0.0 && lo <= hi
    ensures x * lo <= x * hi
  {
    assert x * hi - x * lo == x * (hi - lo);
  }

  lemma FloorMonotone(a: real, b: real)
    requires a <= b
    ensures a.Floor <= b.Floor
  {
    assert a.Floor as real <= a && b < b.Floor as real + 1.0;
  }

  /** Flooring keeps a non-negative amount varied by 0.8 to 1.2 within the floors of those two extremes. */
  lemma VariedWithinBounds(scaled: real, v: real)
    requires scaled >= 0.0 && 0.8 <= v <= 1.2
    ensures 0 <= (scaled * 0.8).Floor <= (scaled * v).Floor <= (scaled * 1.2).Floor
  {
    FloorMonotone(0.0, scaled * 0.8);
    FloorScaleMonotone(scaled, 0.8, v);
    FloorScaleMonotone(scaled, v, 1.2);
  }

  lemma ProductOfNonNegatives(a: real, b: real)
    requires a >= 0.0 && b >= 0.0
    ensures a * b >= 0.0
  {
  }

  /** Scaling a non-negative amount by a larger factor never gives a smaller floor. */
  lemma FloorScaleMonotone(x: real, lo: real, hi: real)
    requires x >= 0.0 && lo <= hi
    ensures (x * lo).Floor <= (x * hi).Floor
  {
    var low, high := x * lo, x * hi;
    ProductOfNonNegatives(x, hi - lo);
    assert high - low == x * (hi - lo);
    FloorMonotone(low, high);
  }

  /** `calculateDamage(attacker, target)`: within 20% of the scaled raw damage
      either way, rounded down, and never negative when the raw damage is not. */
  function CalculateDamage(s: Strategy, attack: int, targetType: string, rnd: real): (damage: int)
    requires 0.0 <= rnd < 1.0
    ensures var scaled := (BaseDamage(s) + attack) as real * Effectiveness(s, targetType);
            scaled >= 0.0 ==> (scaled * 0.8).Floor <= damage <= (scaled * 1.2).Floor
    ensures BaseDamage(s) + attack >= 0 ==> damage >= 0
  {
    var scaled := (BaseDamage(s) + attack) as real * Effectiveness(s, targetType);
    var v := Variation(rnd);
    if scaled >= 0.0 then
      VariedWithinBounds(scaled, v);
      (scaled * v).Floor
    else
      (scaled * v).Floor
  }

  /** With attacker and variation fixed, a larger multiplier never deals less damage. */
  lemma MoreEffectiveNeverWeaker(s: Strategy, attack: int, stronger: string, weaker: string, rnd: real)
    requires 0.0 <= rnd < 1.0
    requires BaseDamage(s) + attack >= 0
    requires Effectiveness(s, stronger) >= Effectiveness(s, weaker)
    ensures CalculateDamage(s, attack, stronger, rnd) >= CalculateDamage(s, attack, weaker, rnd)
  {
    var raw := (BaseDamage(s) + attack) as real;
    var v := Variation(rnd);
    ScaleMonotone(raw, Effectiveness(s, weaker), Effectiveness(s, stronger));
    ScaleMonotone(v, raw * Effectiveness(s, weaker), raw * Effectiveness(s, stronger));
    assert raw * Effectiveness(s, weaker) * v <= raw * Effectiveness(s, stronger) * v;
  }

  /** Fire: grass targets take at least as much as neutral ones, neutral at least as much as water. */
  lemma FireTriangle(attack: int, neutral: string, rnd: real)
    requires 0.0 <= rnd < 1.0 && attack >= -BaseDamage(FireAttack)
    requires neutral != "grass" && neutral != "water"
    ensures CalculateDamage(FireAttack, attack, "grass", rnd) >= CalculateDamage(FireAttack, attack, neutral, rnd)
    ensures CalculateDamage(FireAttack, attack, neutral, rnd) >= CalculateDamage(FireAttack, attack, "water", rnd)
  {
    MoreEffectiveNeverWeaker(FireAttack, attack, "grass", neutral, rnd);
    MoreEffectiveNeverWeaker(FireAttack, attack, neutral, "water", rnd);
  }

  /** Water: fire targets take at least as much as neutral ones, neutral at least as much as grass. */
  lemma WaterTriangle(attack: int, neutral: string, rnd: real)
    requires 0.0 <= rnd < 1.0 && attack >= -BaseDamage(WaterAttack)
    requires neutral != "fire" && neutral != "grass"
    ensures CalculateDamage(WaterAttack, attack, "fire", rnd) >= CalculateDamage(WaterAttack, attack, neutral, rnd)
    ensures CalculateDamage(WaterAttack, attack, neutral, rnd) >= CalculateDamage(WaterAttack, attack, "grass", rnd)
  {
    MoreEffectiveNeverWeaker(WaterAttack, attack, "fire", neutral, rnd);
    MoreEffectiveNeverWeaker(WaterAttack, attack, neutral, "grass", rnd);
  }

  /** Grass: water targets take at least as much as neutral ones, neutral at least as much as fire. */
  lemma GrassTriangle(attack: int, neutral: string, rnd: real)
    requires 0.0 <= rnd < 1.0 && attack >= -BaseDamage(GrassAttack)
    requires neutral != "water" && neutral != "fire"
    ensures CalculateDamage(GrassAttack, attack, "water", rnd) >= CalculateDamage(GrassAttack, attack, neutral, rnd)
    ensures CalculateDamage(GrassAttack, attack, neutral, rnd) >= CalculateDamage(GrassAttack, attack, "fire", rnd)
  {
    MoreEffectiveNeverWeaker(GrassAttack, attack, "water", neutral, rnd);
    MoreEffectiveNeverWeaker(GrassAttack, attack, neutral, "fire", rnd);
  }

  /** A normal attack does not look at the target's type. */
  lemma NormalIgnoresType(attack: int, t1: string, t2: string, rnd: real)
    requires 0.0 <= rnd < 1.0
    ensures CalculateDamage(NormalAttack, attack, t1, rnd) == CalculateDamage(NormalAttack, attack, t2, rnd)
    ensures CalculateDamage(NormalAttack, attack, t1, rnd) == ((BaseDamage(NormalAttack) + attack) as real * Variation(rnd)).Floor
  {
  }

  /** A fire monster with attack 20 hitting a grass monster (90 hp, defense 12)
      with the variation at exactly 1.0 computes 70 and leaves it at 32 hp. */
  lemma FireOnGrassScenario()
    ensures Variation(0.5) == 1.0
    ensures CalculateDamage(FireAttack, 20, "grass", 0.5) == 70
    ensures HpAfterHit(90, 70, 12) == 32
  {
  }

  function AttackMessage(s: Strategy, attackerName: string, targetName: string, damage: int): string {
    attackerName + " used " + AttackName(s) + "! " + targetName + " took " + IntToString(damage) + " damage!"
  }

  /** What the attacker's observers hear when it strikes: the computed damage. */
  function Report(s: Strategy, attacker: Monster, target: Monster, rnd: real): seq<Delivery>
    requires 0.0 <= rnd < 1.0
    reads attacker`observers
  {
    Broadcast(attacker.observers,
              AttackMessage(s, attacker.name, target.name, CalculateDamage(s, attacker.attack, target.elementType, rnd)))
  }

  /** What the target's observers hear when it is struck: the mitigated damage. */
  function Hurt(s: Strategy, attacker: Monster, target: Monster, rnd: real): seq<Delivery>
    requires 0.0 <= rnd < 1.0
    reads target`observers
  {
    Broadcast(target.observers,
              DamageMessage(target.name, Mitigated(CalculateDamage(s, attacker.attack, target.elementType, rnd), target.defense)))
  }

  /** The effect of one completed `attack(attacker, target)`: the target takes
      the computed damage once through its own takeDamage, and the attacker's
      observers hear the computed damage (not what the target actually lost). */
  twostate predicate Struck(s: Strategy, attacker: Monster, target: Monster, rnd: real)
    requires 0.0 <= rnd < 1.0
    reads attacker, target
  {
    && target.hp == HpAfterHit(old(target.hp), CalculateDamage(s, attacker.attack, target.elementType, rnd), target.defense)
    && (attacker != target ==>
          attacker.outbox == old(attacker.outbox) + Report(s, attacker, target, rnd)
          && target.outbox == old(target.outbox) + Hurt(s, attacker, target, rnd))
    && (attacker == target ==>
          attacker.outbox == old(attacker.outbox) + Hurt(s, attacker, target, rnd) + Report(s, attacker, target, rnd))
  }

  /** Neither the hit points nor the notifications of `m` (if any) changed. */
  twostate predicate Untouched(m: Monster?)
    reads Present(m)
  {
    m != null ==> m.hp == old(m.hp) && m.outbox == old(m.outbox)
  }

  /** `strategy.attack(attacker, target)`. A null attacker or target is read
      before anything changes, so the call throws a TypeError and has no effect. */
  method Attack(s: Strategy, attacker: Monster?, target: Monster?, rnd: real) returns (outcome: Outcome)
    requires 0.0 <= rnd < 1.0
    modifies Present(attacker)`outbox, Present(target)`hp, Present(target)`outbox
    ensures attacker == null || target == null ==> outcome == Threw(TypeError)
    ensures attacker != null && target != null ==> outcome == Done && Struck(s, attacker, target, rnd)
    ensures outcome.Threw? ==> Untouched(attacker) && Untouched(target)
  {
    if attacker == null || target == null {
      return Threw(TypeError);
    }
    var damage := CalculateDamage(s, attacker.attack, target.elementType, rnd);
    var taken := target.TakeDamage(damage);
    attacker.NotifyObservers(AttackMessage(s, attacker.name, target.name, damage));
    outcome := Done;
  }
}
