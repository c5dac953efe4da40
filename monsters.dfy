/** The combatant of the modular engine (core/Monster.js): hit points with
    flat-defense mitigation, healing clamped at the maximum, a state tag and
    a list of observers that hear about every change. */
module Monsters {
  import opened Common

  /** Which state class a monster was last given through `setState`. */
  datatype StateKind = Attacking | Defending | Stunned {
    /** `state.constructor.name`, as reported in the state-change message. */
    function ClassName(): string {
      match this
      case Attacking => "AttackState"
      case Defending => "DefendState"
      case Stunned => "StunnedState"
    }
  }

  /** `Math.max(1, damage - defense)`: defense absorbs damage, but a hit always costs at least 1. */
  function Mitigated(damage: int, defense: int): (actual: int)
    ensures actual >= 1 && actual >= damage - defense
    ensures actual == 1 || actual == damage - defense
  {
    if damage - defense > 1 then damage - defense else 1
  }

  /** `Math.max(0, hp - amount)`: hit points after losing `amount`, never below 0. */
  function LoseHp(hp: int, amount: int): (r: int)
    ensures r >= 0 && r >= hp - amount
    ensures r == 0 || r == hp - amount
  {
    if hp - amount > 0 then hp - amount else 0
  }

  /** `Math.min(maxHp - hp, amount)`: the part of a heal that fits under the maximum. */
  function HealAmount(maxHp: int, hp: int, amount: int): (r: int)
    ensures r <= amount && hp + r <= maxHp
    ensures r == amount || hp + r == maxHp
    ensures amount >= 0 && hp <= maxHp ==> r >= 0
  {
    if maxHp - hp < amount then maxHp - hp else amount
  }

  /** Hit points after `takeDamage(damage)` on a monster with the given defense. */
  function HpAfterHit(hp: int, damage: int, defense: int): (r: int)
    ensures r >= 0
    ensures hp >= 0 ==> r <= hp
    ensures hp > 0 ==> r <= hp - 1
    ensures r > 0 ==> r == hp - Mitigated(damage, defense)
  {
    LoseHp(hp, Mitigated(damage, defense))
  }

  /** A monster survives a hit exactly when its hit points exceed the mitigated damage. */
  lemma SurvivesHitIff(hp: int, damage: int, defense: int)
    ensures HpAfterHit(hp, damage, defense) > 0 <==> hp > Mitigated(damage, defense)
  {
  }

  /** The monsters a possibly-null reference points to: the frame of an operation that touches it only when it is there. */
  function Present(m: Monster?): set<Monster> {
    if m == null then {} else {m}
  }

  function DamageMessage(name: string, amount: int): string {
    name + "이(가) " + IntToString(amount) + "의 피해를 입었습니다!"
  }

  function HealMessage(name: string, amount: int): string {
    name + "이(가) " + IntToString(amount) + "만큼 회복했습니다!"
  }

  function StateMessage(name: string, kind: StateKind): string {
    name + "의 상태가 " + kind.ClassName() + "로 변경되었습니다!"
  }

  class Monster {
    const name: string
    const elementType: string
    const maxHp: int
    var hp: int
    const attack: int
    const defense: int
    /** `null` until the first `setState`. */
    var state: Option<StateKind>
    var observers: seq<ObserverId>
    /** Every `update` call this monster has made on its observers, in order. */
    var outbox: seq<Delivery>

    constructor(name: string, elementType: string, hp: int, attack: int, defense: int)
      ensures this.name == name && this.elementType == elementType
      ensures maxHp == hp && this.hp == hp
      ensures this.attack == attack && this.defense == defense
      ensures state == None && observers == [] && outbox == []
    {
      this.name := name;
      this.elementType := elementType;
      maxHp := hp;
      this.hp := hp;
      this.attack := attack;
      this.defense := defense;
      state := None;
      observers := [];
      outbox := [];
    }

    /** `isAlive()`: a monster is alive while its hit points are positive. */
    function IsAlive(): (alive: bool)
      reads this
      ensures alive <==> hp > 0
    {
      hp > 0
    }

    /** Flat-defense damage; the state is never consulted. Returns the
        mitigated amount, which may exceed the hit points actually lost. */
    method TakeDamage(damage: int) returns (actual: int)
      modifies this`hp, this`outbox
      ensures actual == Mitigated(damage, defense)
      ensures hp == HpAfterHit(old(hp), damage, defense)
      ensures old(hp) >= 0 ==> old(hp) - hp <= actual
      ensures hp > 0 ==> old(hp) - hp == actual
      ensures IsAlive() <==> old(hp) > actual
      ensures outbox == old(outbox) + Broadcast(observers, DamageMessage(name, actual))
    {
      actual := Mitigated(damage, defense);
      hp := LoseHp(hp, actual);
      NotifyObservers(DamageMessage(name, actual));
    }

    /** Heals by at most `amount`, never past `maxHp`, and returns what was added. */
    method Heal(amount: int) returns (actual: int)
      modifies this`hp, this`outbox
      ensures actual == HealAmount(maxHp, old(hp), amount)
      ensures hp == old(hp) + actual && hp <= maxHp
      ensures 0 <= old(hp) <= maxHp && amount >= 0 ==> old(hp) <= hp <= maxHp
      ensures outbox == old(outbox) + Broadcast(observers, HealMessage(name, actual))
    {
      actual := HealAmount(maxHp, hp, amount);
      hp := hp + actual;
      NotifyObservers(HealMessage(name, actual));
    }

    method SetState(kind: StateKind)
      modifies this`state, this`outbox
      ensures state == Some(kind)
      ensures outbox == old(outbox) + Broadcast(observers, StateMessage(name, kind))
    {
      state := Some(kind);
      NotifyObservers(StateMessage(name, kind));
    }

    /** Appends without checking for duplicates. */
    method AddObserver(observer: ObserverId)
      modifies this`observers
      ensures observers == old(observers) + [observer]
    {
      observers := observers + [observer];
    }

    method RemoveObserver(observer: ObserverId)
      modifies this`observers
      ensures observers == RemoveAll(old(observers), observer)
    {
      observers := RemoveAll(observers, observer);
    }

    method NotifyObservers(message: string)
      modifies this`outbox
      ensures outbox == old(outbox) + Broadcast(observers, message)
    {
      var calls := DeliverAll(observers, message);
      outbox := outbox + calls;
    }
  }
}
