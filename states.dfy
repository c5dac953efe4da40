/** The three state classes of the modular engine (the states directory). Each holds the
    monster it belongs to and acts on it in place: the attack state hits with a
    50% bonus and takes damage unchanged, the defend state halves incoming
    damage, and the stunned state cannot act, takes 50% more damage and wears
    off after two action attempts. */
module States {
  import opened Common
  import opened Monsters

  /** Turns a fresh stun lasts. */
  const StunTurns: int := 2

  /** `Math.floor(x * 1.5)`: the attack state's bonus and the stunned state's vulnerability. */
  function FloorThreeHalves(x: int): (r: int)
    ensures 2 * r <= 3 * x < 2 * r + 2
    ensures x >= 0 ==> x <= r
  {
    (x as real * 1.5).Floor
  }

  /** `Math.floor(damage / 2.0)`: the defend state's reduction. */
  function Halved(damage: int): (r: int)
    ensures 2 * r <= damage < 2 * r + 2
    ensures damage >= 0 ==> 0 <= r <= damage
  {
    (damage as real / 2.0).Floor
  }

  /** For a non-negative hit, defending never loses more hit points than the attack state does. */
  lemma DefendNeverWorse(hp: int, damage: int)
    requires damage >= 0
    ensures LoseHp(hp, Halved(damage)) >= LoseHp(hp, damage)
  {
  }

  /** For a non-negative hit, a stunned monster never loses fewer hit points than in the attack state. */
  lemma StunnedNeverBetter(hp: int, damage: int)
    requires damage >= 0
    ensures LoseHp(hp, FloorThreeHalves(damage)) <= LoseHp(hp, damage)
  {
  }

  function FaintedMessage(name: string): string {
    name + " fainted!"
  }

  function HealedMessage(name: string, amount: int): string {
    name + " healed for " + IntToString(amount) + " HP!"
  }

  function AlreadyDefendingMessage(name: string): string {
    name + " is already defending!"
  }

  function CannotActMessage(name: string, action: string): string {
    name + " is stunned and cannot " + action + "!"
  }

  function RecoveredMessage(name: string): string {
    name + " is no longer stunned!"
  }

  /** What every state's takeDamage does once it has transformed the damage:
      lose hit points down to 0, and report a faint when they end at exactly 0. */
  method Suffer(m: Monster, amount: int)
    modifies m`hp, m`outbox
    ensures m.hp == LoseHp(old(m.hp), amount)
    ensures m.outbox == old(m.outbox) + (if m.hp == 0 then Broadcast(m.observers, FaintedMessage(m.name)) else [])
  {
    m.hp := LoseHp(m.hp, amount);
    if m.hp == 0 {
      m.NotifyObservers(FaintedMessage(m.name));
    }
  }

  /** Every state's heal: add what fits under `maxHp` and report it. */
  method Restore(m: Monster, amount: int) returns (actual: int)
    modifies m`hp, m`outbox
    ensures actual == HealAmount(m.maxHp, old(m.hp), amount)
    ensures m.hp == old(m.hp) + actual && m.hp <= m.maxHp
    ensures m.outbox == old(m.outbox) + Broadcast(m.observers, HealedMessage(m.name, actual))
  {
    actual := HealAmount(m.maxHp, m.hp, amount);
    m.hp := m.hp + actual;
    m.NotifyObservers(HealedMessage(m.name, actual));
  }

  class AttackState {
    const monster: Monster

    constructor(monster: Monster)
      ensures this.monster == monster
    {
      this.monster := monster;
    }

    /** Hits the target once with the bonus damage and returns that pre-mitigation amount. */
    method Attack(target: Monster) returns (damage: int)
      modifies target`hp, target`outbox
      ensures damage == FloorThreeHalves(monster.attack)
      ensures target.hp == HpAfterHit(old(target.hp), damage, target.defense)
      ensures target.outbox == old(target.outbox) + Broadcast(target.observers, DamageMessage(target.name, Mitigated(damage, target.defense)))
    {
      damage := FloorThreeHalves(monster.attack);
      var taken := target.TakeDamage(damage);
    }

    /** As written: the file never requires DefendState, so evaluating
        `new DefendState(...)` throws before anything changes. */
    method Defend() returns (r: Result<int>)
      ensures r == Err(ReferenceError("DefendState"))
    {
      r := Err(ReferenceError("DefendState"));
    }

    /** The intended defend: switch the monster to the defend state, leave hit points alone, return 0. */
    method DefendResolved() returns (r: int)
      modifies monster`state, monster`outbox
      ensures r == 0 && monster.state == Some(Defending)
      ensures monster.outbox == old(monster.outbox) + Broadcast(monster.observers, StateMessage(monster.name, Defending))
    {
      var next := new DefendState(monster);
      monster.SetState(Defending);
      r := 0;
    }

    /** Damage passes through unchanged. */
    method TakeDamage(damage: int) returns (r: int)
      modifies monster`hp, monster`outbox
      ensures r == damage
      ensures monster.hp == LoseHp(old(monster.hp), damage)
      ensures monster.outbox == old(monster.outbox) + (if monster.hp == 0 then Broadcast(monster.observers, FaintedMessage(monster.name)) else [])
    {
      Suffer(monster, damage);
      r := damage;
    }

    method Heal(amount: int) returns (actual: int)
      modifies monster`hp, monster`outbox
      ensures actual == HealAmount(monster.maxHp, old(monster.hp), amount)
      ensures monster.hp == old(monster.hp) + actual && monster.hp <= monster.maxHp
      ensures monster.outbox == old(monster.outbox) + Broadcast(monster.observers, HealedMessage(monster.name, actual))
    {
      actual := Restore(monster, amount);
    }
  }

  class DefendState {
    const monster: Monster

    constructor(monster: Monster)
      ensures this.monster == monster
    {
      this.monster := monster;
    }

    /** As written: the file never requires AttackState, so evaluating
        `new AttackState(...)` throws before anything changes. */
    method Attack(target: Monster) returns (r: Result<int>)
      ensures r == Err(ReferenceError("AttackState"))
    {
      r := Err(ReferenceError("AttackState"));
    }

    /** The intended attack: leave the defend state, then attack exactly as the attack state does. */
    method AttackResolved(target: Monster) returns (damage: int)
      modifies monster`state, monster`outbox, target`hp, target`outbox
      ensures damage == FloorThreeHalves(monster.attack)
      ensures monster.state == Some(Attacking)
      ensures target.hp == HpAfterHit(old(target.hp), damage, target.defense)
      ensures target != monster ==>
        monster.outbox == old(monster.outbox) + Broadcast(monster.observers, StateMessage(monster.name, Attacking)) &&
        target.outbox == old(target.outbox) + Broadcast(target.observers, DamageMessage(target.name, Mitigated(damage, target.defense)))
      ensures target == monster ==>
        monster.outbox == old(monster.outbox) + Broadcast(monster.observers, StateMessage(monster.name, Attacking))
                          + Broadcast(monster.observers, DamageMessage(monster.name, Mitigated(damage, monster.defense)))
    {
      var next := new AttackState(monster);
      monster.SetState(Attacking);
      damage := next.Attack(target);
    }

    /** Already defending: report it and change nothing else. */
    method Defend() returns (r: int)
      modifies monster`outbox
      ensures r == 0
      ensures monster.outbox == old(monster.outbox) + Broadcast(monster.observers, AlreadyDefendingMessage(monster.name))
    {
      monster.NotifyObservers(AlreadyDefendingMessage(monster.name));
      r := 0;
    }

    /** Incoming damage is halved (rounded down); the reduced amount is returned. */
    method TakeDamage(damage: int) returns (reduced: int)
      modifies monster`hp, monster`outbox
      ensures reduced == Halved(damage)
      ensures monster.hp == LoseHp(old(monster.hp), reduced)
      ensures monster.outbox == old(monster.outbox) + (if monster.hp == 0 then Broadcast(monster.observers, FaintedMessage(monster.name)) else [])
    {
      reduced := Halved(damage);
      Suffer(monster, reduced);
    }

    method Heal(amount: int) returns (actual: int)
      modifies monster`hp, monster`outbox
      ensures actual == HealAmount(monster.maxHp, old(monster.hp), amount)
      ensures monster.hp == old(monster.hp) + actual && monster.hp <= monster.maxHp
      ensures monster.outbox == old(monster.outbox) + Broadcast(monster.observers, HealedMessage(monster.name, actual))
    {
      actual := Restore(monster, amount);
    }
  }

  class StunnedState {
    const monster: Monster
    var turnsLeft: int

    constructor(monster: Monster)
      ensures this.monster == monster && turnsLeft == StunTurns
    {
      this.monster := monster;
      turnsLeft := StunTurns;
    }

    /** One refused action: report it, count it, and return the monster to
        the attack state when the countdown runs out, whatever its hit points. */
    method Refuse(action: string)
      modifies this`turnsLeft, monster`state, monster`outbox
      ensures turnsLeft == old(turnsLeft) - 1
      ensures monster.state == if turnsLeft <= 0 then Some(Attacking) else old(monster.state)
      ensures monster.outbox == old(monster.outbox) + Broadcast(monster.observers, CannotActMessage(monster.name, action))
        + (if turnsLeft <= 0
           then Broadcast(monster.observers, StateMessage(monster.name, Attacking)) + Broadcast(monster.observers, RecoveredMessage(monster.name))
           else [])
    {
      monster.NotifyObservers(CannotActMessage(monster.name, action));
      turnsLeft := turnsLeft - 1;
      if turnsLeft <= 0 {
        Recover();
      }
    }

    /** The end of a stun: back to a fresh attack state, announced twice. */
    method Recover()
      modifies monster`state, monster`outbox
      ensures monster.state == Some(Attacking)
      ensures monster.outbox == old(monster.outbox)
        + (Broadcast(monster.observers, StateMessage(monster.name, Attacking)) + Broadcast(monster.observers, RecoveredMessage(monster.name)))
    {
      ghost var before := monster.outbox;
      monster.SetState(Attacking);
      ghost var changed := monster.outbox;
      monster.NotifyObservers(RecoveredMessage(monster.name));
      assert monster.outbox == changed + Broadcast(monster.observers, RecoveredMessage(monster.name));
      SeqAssoc(before, Broadcast(monster.observers, StateMessage(monster.name, Attacking)),
               Broadcast(monster.observers, RecoveredMessage(monster.name)));
    }

    /** A stunned monster deals no damage: the target is not touched. */
    method Attack(target: Monster) returns (r: int)
      modifies this`turnsLeft, monster`state, monster`outbox
      ensures r == 0
      ensures turnsLeft == old(turnsLeft) - 1
      ensures monster.state == if turnsLeft <= 0 then Some(Attacking) else old(monster.state)
      ensures monster.outbox == old(monster.outbox) + Broadcast(monster.observers, CannotActMessage(monster.name, "attack"))
        + (if turnsLeft <= 0
           then Broadcast(monster.observers, StateMessage(monster.name, Attacking)) + Broadcast(monster.observers, RecoveredMessage(monster.name))
           else [])
    {
      Refuse("attack");
      r := 0;
    }

    method Defend() returns (r: int)
      modifies this`turnsLeft, monster`state, monster`outbox
      ensures r == 0
      ensures turnsLeft == old(turnsLeft) - 1
      ensures monster.state == if turnsLeft <= 0 then Some(Attacking) else old(monster.state)
      ensures monster.outbox == old(monster.outbox) + Broadcast(monster.observers, CannotActMessage(monster.name, "defend"))
        + (if turnsLeft <= 0
           then Broadcast(monster.observers, StateMessage(monster.name, Attacking)) + Broadcast(monster.observers, RecoveredMessage(monster.name))
           else [])
    {
      Refuse("defend");
      r := 0;
    }

    /** Incoming damage is amplified by half (rounded down); the amplified amount is returned. */
    method TakeDamage(damage: int) returns (increased: int)
      modifies monster`hp, monster`outbox
      ensures increased == FloorThreeHalves(damage)
      ensures damage >= 0 ==> increased >= damage
      ensures monster.hp == LoseHp(old(monster.hp), increased)
      ensures monster.outbox == old(monster.outbox) + (if monster.hp == 0 then Broadcast(monster.observers, FaintedMessage(monster.name)) else [])
    {
      increased := FloorThreeHalves(damage);
      Suffer(monster, increased);
    }

    method Heal(amount: int) returns (actual: int)
      modifies monster`hp, monster`outbox
      ensures actual == HealAmount(monster.maxHp, old(monster.hp), amount)
      ensures monster.hp == old(monster.hp) + actual && monster.hp <= monster.maxHp
      ensures monster.outbox == old(monster.outbox) + Broadcast(monster.observers, HealedMessage(monster.name, actual))
    {
      actual := Restore(monster, amount);
    }
  }

  /** A fresh stun, entered through `setState`, survives the first action
      attempt and is gone after the second, whatever the monster's hit points. */
  method StunWearsOffOnSecondAttempt(m: Monster, target: Monster)
    returns (afterFirst: Option<StateKind>, afterSecond: Option<StateKind>)
    modifies m`state, m`outbox
    ensures afterFirst == Some(Stunned) && afterSecond == Some(Attacking)
    ensures m.hp == old(m.hp) && target.hp == old(target.hp)
  {
    var stun := new StunnedState(m);
    m.SetState(Stunned);
    var r := stun.Attack(target);
    afterFirst := m.state;
    r := stun.Defend();
    afterSecond := m.state;
  }
}
