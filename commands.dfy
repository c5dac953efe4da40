/** The command object of the modular engine (commands/AttackCommand.js): it
    holds one attack strategy and runs it against whatever pair it is given. */
module Commands {
  import opened Common
  import opened Monsters
  import opened Strategies

  class AttackCommand {
    const strategy: Strategy

    constructor(strategy: Strategy)
      ensures this.strategy == strategy
    {
      this.strategy := strategy;
    }

    /** `execute(attacker, target)`: exactly the strategy's attack on this pair,
        with no checks of its own. */
    method Execute(attacker: Monster?, target: Monster?, rnd: real) returns (outcome: Outcome)
      requires 0.0 <= rnd < 1.0
      modifies Present(attacker)`outbox, Present(target)`hp, Present(target)`outbox
      ensures attacker == null || target == null ==> outcome == Threw(TypeError)
      ensures attacker != null && target != null ==> outcome == Done && Struck(strategy, attacker, target, rnd)
      ensures outcome.Threw? ==> Untouched(attacker) && Untouched(target)
    {
      outcome := Attack(strategy, attacker, target, rnd);
    }

    /** `undo()` is inherited from the abstract Command and always throws. */
    method Undo() returns (outcome: Outcome)
      ensures outcome == Threw(Error("Method 'undo()' must be implemented"))
    {
      outcome := Threw(Error("Method 'undo()' must be implemented"));
    }
  }
}
