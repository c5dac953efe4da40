/** The emphasizing decorator (decorators/EmphasizedLogger.js): a keyword
    rule that frames important battle messages with an emoji, in front of a
    battle logger that records the framed message. */
module Emphasis {
  import opened Common
  import Strategies
  import BattleLog

  /** `${mark} ${message} ${mark}`. */
  function Wrap(mark: string, message: string): (r: string)
    requires |mark| == 1
    ensures |r| == |message| + 4 && r[0] == mark[0]
  {
    mark + " " + message + " " + mark
  }

  /** `emphasizeMessage(message)`: the first matching rule wins — a victory,
      then a damage report, then a heal, then a state change; any other
      message is returned as it is. */
  function Emphasize(message: string): (r: string)
    ensures r == Wrap("🎉", message) <==> Contains(message, "won the battle")
    ensures r == Wrap("💥", message) <==>
              !Contains(message, "won the battle") && Contains(message, "took") && Contains(message, "damage")
    ensures r == Wrap("💚", message) <==>
              && !Contains(message, "won the battle")
              && !(Contains(message, "took") && Contains(message, "damage"))
              && Contains(message, "healed")
    ensures r == Wrap("✨", message) <==>
              && !Contains(message, "won the battle")
              && !(Contains(message, "took") && Contains(message, "damage"))
              && !Contains(message, "healed")
              && Contains(message, "is now in")
    ensures r == message <==> !Emphatic(message)
  {
    if Contains(message, "won the battle") then Wrap("🎉", message)
    else if Contains(message, "took") && Contains(message, "damage") then Wrap("💥", message)
    else if Contains(message, "healed") then Wrap("💚", message)
    else if Contains(message, "is now in") then Wrap("✨", message)
    else message
  }

  /** Whether some emphasis rule applies. */
  predicate Emphatic(message: string) {
    || Contains(message, "won the battle")
    || (Contains(message, "took") && Contains(message, "damage"))
    || Contains(message, "healed")
    || Contains(message, "is now in")
  }

  /** Emphasis never loses the message: it is always inside the result. */
  lemma EmphasizeKeepsMessage(message: string)
    ensures Contains(Emphasize(message), message)
  {
    var r := Emphasize(message);
    if Emphatic(message) {
      assert r[2..2 + |message|] == message;
      assert OccursAt(r, message, 2);
    } else {
      assert r[0..|message|] == message;
      assert OccursAt(r, message, 0);
    }
  }

  /** A message is left untouched exactly when no rule applies; otherwise it
      gains the two marks and the two spaces around it. */
  lemma EmphasizeChangesIffEmphatic(message: string)
    ensures Emphasize(message) == message <==> !Emphatic(message)
    ensures Emphatic(message) ==> |Emphasize(message)| == |message| + 4
  {
  }

  /** Every report of a strategy attack (".. took N damage!") that does not
      also mention a victory is framed with 💥. */
  lemma AttackReportsExplode(s: Strategies.Strategy, attacker: string, target: string, damage: int)
    requires !Contains(Strategies.AttackMessage(s, attacker, target, damage), "won the battle")
    ensures Emphasize(Strategies.AttackMessage(s, attacker, target, damage))
              == Wrap("💥", Strategies.AttackMessage(s, attacker, target, damage))
  {
    var head := attacker + " used " + Strategies.AttackName(s) + "! " + target;
    var amount := Common.IntToString(damage);
    var m := Strategies.AttackMessage(s, attacker, target, damage);
    assert m == head + " took " + amount + " damage!";
    assert m[|head| + 1..|head| + 5] == "took";
    assert OccursAt(m, "took", |head| + 1);
    var at := |head| + 6 + |amount| + 1;
    assert m[at..at + 6] == "damage";
    assert OccursAt(m, "damage", at);
  }

  class EmphasizedLogger {
    const logger: BattleLog.BattleLogger

    constructor(logger: BattleLog.BattleLogger)
      ensures this.logger == logger
    {
      this.logger := logger;
    }

    /** Forwards exactly one emphasized message to the wrapped logger. */
    method Update(message: string)
      modifies logger`logs
      ensures logger.logs == old(logger.logs) + [BattleLog.LogEntry(Emphasize(message), logger.CurrentTurn())]
    {
      logger.Update(Emphasize(message));
    }
  }
}
