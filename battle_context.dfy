/** The turn engine of the modular generation (core/BattleContext.js): a turn
    counter, an append-only battle log that every notification goes through,
    a fixed player-then-enemy action order, and the end-of-battle and winner
    rules over both rosters. */
module Battle {
  import opened Common
  import opened Monsters
  import opened Strategies
  import opened Commands
  import CorePlayer

  const StartMessage := "전투가 시작되었습니다!"
  const ClosingMessage := "전투가 종료되었습니다!"
  const NextTurnError := Error("BattleContext.nextTurn: 이미 전투가 종료되었습니다.")
  const NullCommandError := Error("BattleContext.executeCommand: command는 null/undefined일 수 없습니다.")
  const NoActiveError := Error("BattleContext.executeCommand: 활성화된 몬스터가 없습니다.")

  function VsMessage(playerName: string, enemyName: string): string {
    playerName + " vs " + enemyName
  }

  function TurnMessage(n: int): string {
    "\n" + IntToString(n) + "번째 턴"
  }

  function TurnEndedMessage(n: int): string {
    "\n" + IntToString(n) + "번째 턴이 종료되었습니다."
  }

  function VictoryMessage(name: string): string {
    name + "이(가) 승리했습니다!"
  }

  /** `team.some(m => m.isAlive())`. */
  function AnyAlive(team: seq<Monster>): (b: bool)
    reads team
    ensures b <==> exists i :: 0 <= i < |team| && team[i].hp > 0
  {
    if team == [] then false
    else team[0].IsAlive() || AnyAlive(team[1..])
  }

  /** `team.every(m => !m.isAlive())`. */
  function AllFainted(team: seq<Monster>): (b: bool)
    reads team
    ensures b <==> forall i :: 0 <= i < |team| ==> team[i].hp <= 0
  {
    if team == [] then true
    else !team[0].IsAlive() && AllFainted(team[1..])
  }

  /** `checkBattleEnd` on two rosters: some side has no living monster. The
      two ways of asking a roster whether it is beaten agree, so the battle is
      over exactly when one side is wiped out, and an empty roster counts as
      wiped out. */
  function Ended(playerTeam: seq<Monster>, enemyTeam: seq<Monster>): (ended: bool)
    reads playerTeam, enemyTeam
    ensures ended <==> AllFainted(playerTeam) || AllFainted(enemyTeam)
    ensures playerTeam == [] || enemyTeam == [] ==> ended
  {
    !AnyAlive(playerTeam) || !AnyAlive(enemyTeam)
  }

  /** The winner named at the end has a beaten opponent: the player when the
      enemy roster is wiped out (even if the player's is too), otherwise the
      enemy, whose opponent then has no living monster. */
  lemma WinnerHasBeatenOpponent(playerTeam: seq<Monster>, enemyTeam: seq<Monster>)
    requires Ended(playerTeam, enemyTeam)
    ensures AllFainted(enemyTeam) || AllFainted(playerTeam)
    ensures !AllFainted(enemyTeam) ==> !AnyAlive(playerTeam) && AnyAlive(enemyTeam)
  {
  }

  /** The deliveries of notifying each message in turn. */
  function Announce(observers: seq<ObserverId>, messages: seq<string>): seq<Delivery>
  {
    if messages == [] then []
    else Announce(observers, messages[..|messages| - 1]) + Broadcast(observers, messages[|messages| - 1])
  }

  /** A monster is gated in by `activeMonster && activeMonster.isAlive()`. */
  predicate Ready(m: Monster?)
    reads Present(m)
  {
    m != null && m.hp > 0
  }

  /** The battle a possibly-null reference points to. */
  function Context(c: BattleContext?): set<BattleContext> {
    if c == null then {} else {c}
  }

  class BattleContext {
    const player: CorePlayer.Player
    const enemy: CorePlayer.Player
    var turnCount: int
    var battleLog: seq<string>
    /** Duplicates allowed; every listed observer is assumed to have `update`. */
    var observers: seq<ObserverId>
    /** Every `update` call made so far, in order. */
    var outbox: seq<Delivery>

    constructor(player: CorePlayer.Player, enemy: CorePlayer.Player)
      ensures this.player == player && this.enemy == enemy
      ensures turnCount == 0 && battleLog == [] && observers == [] && outbox == []
    {
      this.player := player;
      this.enemy := enemy;
      turnCount := 0;
      battleLog := [];
      observers := [];
      outbox := [];
    }

    /** `checkBattleEnd()`: one of the two rosters has no living monster. */
    function CheckBattleEnd(): (ended: bool)
      reads player, enemy, player.monsters, enemy.monsters
      ensures ended <==> AllFainted(player.monsters) || AllFainted(enemy.monsters)
    {
      Ended(player.monsters, enemy.monsters)
    }

    /** The winner line and the closing line of `endBattle`. */
    function EndMessages(): (lines: seq<string>)
      reads player, enemy, enemy.monsters
      ensures |lines| == 2 && lines[1] == ClosingMessage
      ensures lines[0] == VictoryMessage(player.name) <== AllFainted(enemy.monsters)
      ensures lines[0] == VictoryMessage(enemy.name) <== !AllFainted(enemy.monsters)
    {
      [VictoryMessage(if AllFainted(enemy.monsters) then player.name else enemy.name), ClosingMessage]
    }

    method AddObserver(observer: ObserverId)
      modifies this`observers
      ensures observers == old(observers) + [observer]
    {
      observers := observers + [observer];
    }

    method RemoveObserver(observer: ObserverId)
      modifies this`observers
      ensures observers == RemoveAll(old(observers), observer)
    {
      observers := RemoveAll(observers, observer);
    }

    /** Logs the message, then tells every observer in order. */
    method NotifyObservers(message: string)
      modifies this`battleLog, this`outbox
      ensures battleLog == old(battleLog) + [message]
      ensures outbox == old(outbox) + Broadcast(observers, message)
    {
      battleLog := battleLog + [message];
      var calls := DeliverAll(observers, message);
      outbox := outbox + calls;
    }

    method StartBattle()
      modifies this`turnCount, this`battleLog, this`outbox
      ensures turnCount == 0
      ensures battleLog == [StartMessage, VsMessage(player.name, enemy.name)]
      ensures outbox == old(outbox) + Broadcast(observers, StartMessage) + Broadcast(observers, battleLog[1])
    {
      turnCount := 0;
      battleLog := [];
      NotifyObservers(StartMessage);
      NotifyObservers(VsMessage(player.name, enemy.name));
    }

    method EndBattle()
      modifies this`battleLog, this`outbox
      ensures battleLog == old(battleLog) + EndMessages()
      ensures outbox == old(outbox) + Announce(observers, EndMessages())
    {
      var lines := EndMessages();
      NotifyObservers(lines[0]);
      NotifyObservers(lines[1]);
      AnnounceTwo(observers, lines);
    }

    /** Refuses once the battle is over, leaving everything as it was;
        otherwise counts a turn and logs its end. Nothing here changes a
        monster, so the end check that follows never fires. */
    method NextTurn() returns (outcome: Outcome)
      modifies this`turnCount, this`battleLog, this`outbox
      ensures old(CheckBattleEnd()) ==>
                outcome == Threw(NextTurnError) && turnCount == old(turnCount)
                && battleLog == old(battleLog) && outbox == old(outbox)
      ensures !old(CheckBattleEnd()) ==>
                outcome == Done && turnCount == old(turnCount) + 1
                && battleLog == old(battleLog) + [TurnEndedMessage(turnCount)]
                && outbox == old(outbox) + Broadcast(observers, TurnEndedMessage(turnCount))
    {
      if CheckBattleEnd() {
        return Threw(NextTurnError);
      }
      turnCount := turnCount + 1;
      NotifyObservers(TurnEndedMessage(turnCount));
      if CheckBattleEnd() {
        // endBattle: unreachable, no monster changed since the check above
        assert false;
      }
      outcome := Done;
    }

    /** `executeTurn(playerAction, enemyAction)`: counts and announces the
        turn, lets the two active monsters exchange blows, and ends the battle
        when a side is wiped out; an exception from an action ends the turn
        there, before the end check. The two active monsters are distinct. */
    method ExecuteTurn(playerAction: AttackCommand?, enemyAction: AttackCommand?, playerRnd: real, enemyRnd: real)
      returns (outcome: Outcome)
      requires 0.0 <= playerRnd < 1.0 && 0.0 <= enemyRnd < 1.0
      requires player.activeMonster == null || player.activeMonster != enemy.activeMonster
      modifies this`turnCount, this`battleLog, this`outbox
      modifies Present(player.activeMonster)`hp, Present(player.activeMonster)`outbox
      modifies Present(enemy.activeMonster)`hp, Present(enemy.activeMonster)`outbox
      ensures turnCount == old(turnCount) + 1
      ensures Exchanged(playerAction, enemyAction, player.activeMonster, enemy.activeMonster, playerRnd, enemyRnd,
                        old(HpOf(player.activeMonster)), old(HpOf(enemy.activeMonster)),
                        old(OutboxOf(player.activeMonster)), old(OutboxOf(enemy.activeMonster)), outcome)
      ensures var closing := if outcome == Done && CheckBattleEnd() then EndMessages() else [];
              && battleLog == old(battleLog) + [TurnMessage(turnCount)] + closing
              && outbox == old(outbox) + Broadcast(observers, TurnMessage(turnCount)) + Announce(observers, closing)
    {
      turnCount := turnCount + 1;
      NotifyObservers(TurnMessage(turnCount));
      outcome := Exchange(playerAction, enemyAction, player.activeMonster, enemy.activeMonster, playerRnd, enemyRnd);
      CloseTurn(outcome);
    }

    /** The end check at the close of `executeTurn`, reached only when neither action threw. */
    method CloseTurn(outcome: Outcome)
      modifies this`battleLog, this`outbox
      ensures var closing := if outcome == Done && CheckBattleEnd() then EndMessages() else [];
              battleLog == old(battleLog) + closing && outbox == old(outbox) + Announce(observers, closing)
    {
      if outcome == Done && CheckBattleEnd() {
        EndBattle();
      }
    }

    /** `executeCommand(command, isPlayer)`: the chosen side's active monster
        attacks the other side's, after checking that the command and both
        active monsters are there. */
    method ExecuteCommand(command: AttackCommand?, isPlayer: bool, rnd: real) returns (outcome: Outcome)
      requires 0.0 <= rnd < 1.0
      modifies Present(player.activeMonster)`hp, Present(player.activeMonster)`outbox
      modifies Present(enemy.activeMonster)`hp, Present(enemy.activeMonster)`outbox
      ensures command == null ==>
                outcome == Threw(NullCommandError) && Untouched(player.activeMonster) && Untouched(enemy.activeMonster)
      ensures command != null && (player.activeMonster == null || enemy.activeMonster == null) ==>
                outcome == Threw(NoActiveError) && Untouched(player.activeMonster) && Untouched(enemy.activeMonster)
      ensures command != null && player.activeMonster != null && enemy.activeMonster != null ==>
                outcome == Done
                && (isPlayer ==> Struck(command.strategy, player.activeMonster, enemy.activeMonster, rnd))
                && (!isPlayer ==> Struck(command.strategy, enemy.activeMonster, player.activeMonster, rnd))
    {
      if command == null {
        return Threw(NullCommandError);
      }
      var p, e := player.activeMonster, enemy.activeMonster;
      if p == null || e == null {
        return Threw(NoActiveError);
      }
      if isPlayer {
        outcome := command.Execute(p, e, rnd);
      } else {
        outcome := command.Execute(e, p, rnd);
      }
    }
  }

  /** One side's half of a turn (the body of each `if` in `executeTurn`):
      the action runs only for a ready attacker, and a missing action or
      target throws before anything changes. */
  twostate predicate Acted(action: AttackCommand?, attacker: Monster?, target: Monster?, rnd: real, outcome: Outcome)
    requires 0.0 <= rnd < 1.0
    reads Present(attacker), Present(target)
  {
    && (!old(Ready(attacker)) ==> outcome == Done && Untouched(attacker) && Untouched(target))
    && (old(Ready(attacker)) && (action == null || target == null) ==>
          outcome == Threw(TypeError) && Untouched(attacker) && Untouched(target))
    && (old(Ready(attacker)) && action != null && target != null ==>
          outcome == Done && Struck(action.strategy, attacker, target, rnd))
  }

  method Act(action: AttackCommand?, attacker: Monster?, target: Monster?, rnd: real) returns (outcome: Outcome)
    requires 0.0 <= rnd < 1.0
    modifies Present(attacker)`outbox, Present(target)`hp, Present(target)`outbox
    ensures Acted(action, attacker, target, rnd, outcome)
  {
    if attacker != null && attacker.IsAlive() {
      if action == null {
        return Threw(TypeError);
      }
      outcome := action.Execute(attacker, target, rnd);
    } else {
      outcome := Done;
    }
  }

  /** The hit points of a monster that may be missing. */
  function HpOf(m: Monster?): int
    reads Present(m)
  {
    if m == null then 0 else m.hp
  }

  /** The deliveries a monster that may be missing has made. */
  function OutboxOf(m: Monster?): seq<Delivery>
    reads Present(m)
  {
    if m == null then [] else m.outbox
  }

  /** The two halves of a turn between distinct active monsters `p` and `e`,
      which had `pHp` and `eHp` hit points and had made the deliveries `pOut`
      and `eOut` before it: the player's monster strikes first if it is alive;
      the enemy's strikes back if the first half did not throw and it is still
      alive. Each side's hit points change only by the other side's hit, and
      each side's observers hear, in order, its own attack report and the
      damage it took. */
  predicate Exchanged(playerAction: AttackCommand?, enemyAction: AttackCommand?, p: Monster?, e: Monster?,
                      playerRnd: real, enemyRnd: real, pHp: int, eHp: int,
                      pOut: seq<Delivery>, eOut: seq<Delivery>, outcome: Outcome)
    requires 0.0 <= playerRnd < 1.0 && 0.0 <= enemyRnd < 1.0
    reads Present(p), Present(e)
  {
    var firstThrew := p != null && pHp > 0 && (playerAction == null || e == null);
    var firstHit := p != null && pHp > 0 && !firstThrew;
    var secondRan := !firstThrew && Ready(e);
    var secondThrew := secondRan && (enemyAction == null || p == null);
    var secondHit := secondRan && !secondThrew;
    && outcome == (if firstThrew || secondThrew then Threw(TypeError) else Done)
    && (e != null ==> e.hp == if firstHit
          then HpAfterHit(eHp, CalculateDamage(playerAction.strategy, p.attack, e.elementType, playerRnd), e.defense)
          else eHp)
    && (p != null ==> p.hp == if secondHit
          then HpAfterHit(pHp, CalculateDamage(enemyAction.strategy, e.attack, p.elementType, enemyRnd), p.defense)
          else pHp)
    && (p != null ==>
          p.outbox == pOut
                      + (if firstHit then Report(playerAction.strategy, p, e, playerRnd) else [])
                      + (if secondHit then Hurt(enemyAction.strategy, e, p, enemyRnd) else []))
    && (e != null ==>
          e.outbox == eOut
                      + (if firstHit then Hurt(playerAction.strategy, p, e, playerRnd) else [])
                      + (if secondHit then Report(enemyAction.strategy, e, p, enemyRnd) else []))
  }

  method Exchange(playerAction: AttackCommand?, enemyAction: AttackCommand?, p: Monster?, e: Monster?,
                  playerRnd: real, enemyRnd: real) returns (outcome: Outcome)
    requires 0.0 <= playerRnd < 1.0 && 0.0 <= enemyRnd < 1.0
    requires p == null || p != e
    modifies Present(p)`hp, Present(p)`outbox, Present(e)`hp, Present(e)`outbox
    ensures Exchanged(playerAction, enemyAction, p, e, playerRnd, enemyRnd, old(HpOf(p)), old(HpOf(e)),
                      old(OutboxOf(p)), old(OutboxOf(e)), outcome)
  {
    ghost var pHp, eHp, pOut, eOut := HpOf(p), HpOf(e), OutboxOf(p), OutboxOf(e);
    outcome := Act(playerAction, p, e, playerRnd);
    ghost var firstHit := p != null && pHp > 0 && playerAction != null && e != null;
    assert p != null ==>
      p.hp == pHp && p.outbox == pOut + (if firstHit then Report(playerAction.strategy, p, e, playerRnd) else []);
    assert e != null ==>
      e.outbox == eOut + (if firstHit then Hurt(playerAction.strategy, p, e, playerRnd) else []);
    if outcome.Threw? {
      return;
    }
    ghost var pHp1, eHp1, pOut1, eOut1 := HpOf(p), HpOf(e), OutboxOf(p), OutboxOf(e);
    outcome := Act(enemyAction, e, p, enemyRnd);
    ghost var secondHit := e != null && eHp1 > 0 && enemyAction != null && p != null;
    assert e != null ==>
      e.hp == eHp1 && e.outbox == eOut1 + (if secondHit then Report(enemyAction.strategy, e, p, enemyRnd) else []);
    assert p != null ==>
      p.outbox == pOut1 + (if secondHit then Hurt(enemyAction.strategy, e, p, enemyRnd) else []);
  }

  /** Announcing two lines is broadcasting one and then the other. */
  lemma AnnounceTwo(observers: seq<ObserverId>, lines: seq<string>)
    requires |lines| == 2
    ensures Announce(observers, lines) == Broadcast(observers, lines[0]) + Broadcast(observers, lines[1])
  {
    assert lines[..1][..0] == [];
    assert Announce(observers, lines[..1]) == Broadcast(observers, lines[0]);
    assert lines[..|lines| - 1] == lines[..1];
  }
}
