/** The single-file early draft of the engine (PokeRogue.js), kept apart from
    the modular generation because the two disagree: fixed-damage strategies
    that subtract from `hp` without clamping, a monster whose state is
    recomputed from its hit points, a command holder, a three-entry factory
    and a plain subject/player pair. Targets are duck-typed in the draft: a
    strategy writes `target.hp` of a monster or of a player alike. */
module Draft {
  import opened Common

  /** The draft's four strategy classes. */
  datatype Strategy = NormalAttack | FireAttack | WaterAttack | GrassAttack

  /** The fixed damage each strategy subtracts. */
  function FixedDamage(s: Strategy): int {
    match s
    case NormalAttack => 10
    case FireAttack => 15
    case WaterAttack => 13
    case GrassAttack => 12
  }

  /** The three state classes; the draft's monster holds one of them. */
  datatype State = AttackState | DefendState | StunnedState {
    /** `getName()`. */
    function Name(): string {
      match this
      case AttackState => "공격 상태"
      case DefendState => "방어 상태"
      case StunnedState => "기절 상태"
    }
  }

  /** The shared rule of `takeDamage` and `updateState`: no hit points left
      means stunned, fewer than 30 means defending, otherwise attacking. */
  function Classify(hp: int): (st: State)
    ensures st == StunnedState <==> hp <= 0
    ensures st == DefendState <==> 0 < hp < 30
    ensures st == AttackState <==> hp >= 30
  {
    if hp <= 0 then StunnedState else if hp < 30 then DefendState else AttackState
  }

  /** How strongly a state lets a monster fight back. */
  function Vigour(st: State): nat {
    match st
    case StunnedState => 0
    case DefendState => 1
    case AttackState => 2
  }

  /** More hit points never put a monster in a weaker state. */
  lemma ClassifyMonotone(lower: int, higher: int)
    requires lower <= higher
    ensures Vigour(Classify(lower)) <= Vigour(Classify(higher))
  {
  }

  /** The damage `state.handle(monster, target)` deals: the strategy's in the
      attack state, a fixed counter of 5 in the defend state, nothing when stunned. */
  function HandleDamage(st: State, s: Strategy): (d: int)
    ensures st == StunnedState <==> d == 0
    ensures st == DefendState ==> d == 5
    ensures st == AttackState ==> d == FixedDamage(s) && d >= 10
  {
    match st
    case AttackState => FixedDamage(s)
    case DefendState => 5
    case StunnedState => 0
  }

  class Monster {
    const name: string
    var hp: int
    var strategy: Strategy
    var state: State

    /** Starts in the attack state whatever its hit points. */
    constructor(name: string, hp: int, strategy: Strategy)
      ensures this.name == name && this.hp == hp && this.strategy == strategy
      ensures state == AttackState
    {
      this.name := name;
      this.hp := hp;
      this.strategy := strategy;
      state := AttackState;
    }

    /** Subtracts without clamping, then reclassifies. */
    method TakeDamage(dmg: int)
      modifies this`hp, this`state
      ensures hp == old(hp) - dmg
      ensures state == Classify(hp)
    {
      hp := hp - dmg;
      if hp <= 0 {
        SetState(StunnedState);
      } else if hp < 30 {
        SetState(DefendState);
      } else {
        SetState(AttackState);
      }
    }

    /** Reclassifies from the current hit points; calling it again changes nothing. */
    method UpdateState()
      modifies this`state
      ensures state == Classify(hp)
    {
      if hp <= 0 {
        SetState(StunnedState);
      } else if hp < 30 {
        SetState(DefendState);
      } else {
        SetState(AttackState);
      }
    }

    method SetStrategy(s: Strategy)
      modifies this`strategy
      ensures strategy == s
    {
      strategy := s;
    }

    method SetState(st: State)
      modifies this`state
      ensures state == st
    {
      state := st;
    }

    /** Refreshes the state from the hit points, then lets that state act on
        the target: only the target's hit points change (and this monster's
        state); a stunned monster deals nothing. */
    method PerformAttack(target: Actor)
      modifies this`state, Monsters(target)`hp, Players(target)`hp
      ensures state == Classify(old(hp))
      ensures HpOf(target) == old(HpOf(target)) - HandleDamage(Classify(old(hp)), strategy)
    {
      UpdateState();
      match state
      case AttackState =>
        StrategyAttack(strategy, target);
      case DefendState =>
        SetHp(target, HpOf(target) - 5);
      case StunnedState =>
    }
  }

  class Player {
    const name: string
    var hp: int
    /** The Subject part: duplicates allowed. */
    var observers: seq<ObserverId>
    var outbox: seq<Delivery>

    constructor(name: string, hp: int)
      ensures this.name == name && this.hp == hp && observers == [] && outbox == []
    {
      this.name := name;
      this.hp := hp;
      observers := [];
      outbox := [];
    }

    method Subscribe(observer: ObserverId)
      modifies this`observers
      ensures observers == old(observers) + [observer]
    {
      observers := observers + [observer];
    }

    method Unsubscribe(observer: ObserverId)
      modifies this`observers
      ensures observers == RemoveAll(old(observers), observer)
    {
      observers := RemoveAll(observers, observer);
    }

    method Notify(data: string)
      modifies this`outbox
      ensures outbox == old(outbox) + Broadcast(observers, data)
    {
      var calls := DeliverAll(observers, data);
      outbox := outbox + calls;
    }

    /** Subtracts without clamping and reports the remaining hit points once. */
    method TakeDamage(dmg: int)
      modifies this`hp, this`outbox
      ensures hp == old(hp) - dmg
      ensures outbox == old(outbox) + Broadcast(observers, PlayerHurtMessage(name, dmg, hp))
    {
      hp := hp - dmg;
      Notify(PlayerHurtMessage(name, dmg, hp));
    }
  }

  function PlayerHurtMessage(name: string, dmg: int, hp: int): string {
    name + "이(가) " + IntToString(dmg) + "의 피해를 입었습니다! 남은 체력: " + IntToString(hp)
  }

  /** Anything a strategy can target: both kinds of object carry `hp`. */
  datatype Actor = MonsterActor(monster: Monster) | PlayerActor(player: Player)

  function Monsters(a: Actor): set<Monster> {
    if a.MonsterActor? then {a.monster} else {}
  }

  function Players(a: Actor): set<Player> {
    if a.PlayerActor? then {a.player} else {}
  }

  function HpOf(a: Actor): int
    reads Monsters(a), Players(a)
  {
    match a
    case MonsterActor(m) => m.hp
    case PlayerActor(p) => p.hp
  }

  /** `target.hp = v`. */
  method SetHp(target: Actor, v: int)
    modifies Monsters(target)`hp, Players(target)`hp
    ensures HpOf(target) == v
  {
    match target
    case MonsterActor(m) => m.hp := v;
    case PlayerActor(p) => p.hp := v;
  }

  /** `strategy.attack(attacker, target)`: subtracts the fixed damage from the
      target's hit points, with no clamping and without reclassifying a monster. */
  method StrategyAttack(s: Strategy, target: Actor)
    modifies Monsters(target)`hp, Players(target)`hp
    ensures HpOf(target) == old(HpOf(target)) - FixedDamage(s)
  {
    SetHp(target, HpOf(target) - FixedDamage(s));
  }

  class AttackCommand {
    const strategy: Strategy

    constructor(strategy: Strategy)
      ensures this.strategy == strategy
    {
      this.strategy := strategy;
    }

    method Execute(attacker: Actor, target: Actor)
      modifies Monsters(target)`hp, Players(target)`hp
      ensures HpOf(target) == old(HpOf(target)) - FixedDamage(strategy)
    {
      StrategyAttack(strategy, target);
    }
  }

  class BattleContext {
    var command: AttackCommand?

    constructor()
      ensures command == null
    {
      command := null;
    }

    /** Replaces whatever command was set. */
    method SetCommand(command: AttackCommand?)
      modifies this`command
      ensures this.command == command
    {
      this.command := command;
    }

    /** Runs the current command, or does nothing when none is set. */
    method ExecuteCommand(attacker: Actor, target: Actor)
      modifies Monsters(target)`hp, Players(target)`hp
      ensures command == null ==> HpOf(target) == old(HpOf(target))
      ensures command != null ==> HpOf(target) == old(HpOf(target)) - FixedDamage(command.strategy)
    {
      if command != null {
        command.Execute(attacker, target);
      }
    }
  }

  /** The name, starting hit points and strategy of each kind the factory knows. */
  function Species(kind: string): (r: Option<(string, int, Strategy)>)
    ensures r.Some? <==> kind in {"Charmander", "Squirtle", "Bulbasaur"}
  {
    match kind
    case "Charmander" => Some(("망나뇽", 100, FireAttack))
    case "Squirtle" => Some(("꼬부기", 105, WaterAttack))
    case "Bulbasaur" => Some(("붐버맨", 110, GrassAttack))
    case _ => None
  }

  /** `MonsterFactory.create(type)`: one of three monsters, or an error for any other name. */
  method Create(kind: string) returns (r: Result<Monster>)
    ensures Species(kind).None? ==> r == Err(Error("Invalid monster type"))
    ensures Species(kind).Some? ==>
              r.Ok? && fresh(r.value) && r.value.state == AttackState
              && (r.value.name, r.value.hp, r.value.strategy) == Species(kind).value
  {
    var species := Species(kind);
    if species.None? {
      return Err(Error("Invalid monster type"));
    }
    var (name, hp, strategy) := species.value;
    var m := new Monster(name, hp, strategy);
    r := Ok(m);
  }
}
