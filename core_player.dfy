/** The roster of the modular engine (core/Player.js): a list of distinct
    monsters plus the one currently in play. The player is itself a subject
    (its `events`) and also observes each monster on its team under its own
    observer identity. */
module CorePlayer {
  import opened Common
  import opened Monsters
  import opened Subjects

  const NullMonsterError := Error("Player.addMonster: monster는 null/undefined일 수 없습니다.")
  const DuplicateError := Error("Player.addMonster: 이미 팀에 있는 몬스터입니다.")
  const RemoveNullError := Error("Player.removeMonster: monster는 null/undefined일 수 없습니다.")
  const RemoveMissingError := Error("Player.removeMonster: 팀에 없는 몬스터입니다.")
  const ActivateNullError := Error("Player.setActiveMonster: monster는 null/undefined일 수 없습니다.")
  const ActivateMissingError := Error("Player.setActiveMonster: 팀에 없는 몬스터입니다.")
  const SwitchNullError := Error("Player.switchMonster: monster는 null/undefined일 수 없습니다.")
  const SwitchMissingError := Error("Player.switchMonster: 팀에 없는 몬스터입니다.")
  const SwitchFaintedError := Error("Player.switchMonster: 이미 기절한 몬스터입니다.")

  function JoinedMessage(name: string): string {
    name + "이(가) 당신의 팀에 합류했습니다!"
  }

  function LeftMessage(name: string): string {
    name + "이(가) 팀을 떠났습니다!"
  }

  function ActivatedMessage(name: string): string {
    name + "이(가) 현재 활성화된 몬스터가 되었습니다!"
  }

  class Player {
    const name: string
    /** This player's identity in the observer lists of its monsters. */
    const id: ObserverId
    /** The Subject part of the player: its own observers and the calls it made. */
    const events: Subject
    var monsters: seq<Monster>
    /** May be left pointing at a monster that has since been removed. */
    var activeMonster: Monster?

    predicate Valid()
      reads this, events
    {
      NoDuplicates(monsters) && events.Valid()
    }

    constructor(name: string, id: ObserverId)
      ensures this.name == name && this.id == id
      ensures monsters == [] && activeMonster == null
      ensures fresh(events) && events.observers == [] && events.outbox == []
      ensures Valid()
    {
      this.name := name;
      this.id := id;
      events := new Subject();
      monsters := [];
      activeMonster := null;
    }

    /** Rejects null and members; otherwise appends the monster, subscribes to
        it and announces it. `responds` says which of this player's observers
        have an `update` function. */
    method AddMonster(monster: Monster?, responds: set<ObserverId>) returns (outcome: Outcome)
      requires Valid()
      modifies this`monsters, Present(monster)`observers, events`outbox
      ensures Valid()
      ensures monster == null ==> outcome == Threw(NullMonsterError) && monsters == old(monsters) && events.outbox == old(events.outbox)
      ensures monster != null && monster in old(monsters) ==>
                outcome == Threw(DuplicateError) && monsters == old(monsters)
                && monster.observers == old(monster.observers) && events.outbox == old(events.outbox)
      ensures monster != null && monster !in old(monsters) ==>
                outcome == Done && monsters == old(monsters) + [monster]
                && monster.observers == old(monster.observers) + [id]
                && events.outbox == old(events.outbox) + Deliverable(events.observers, responds, JoinedMessage(monster.name))
    {
      if monster == null {
        return Threw(NullMonsterError);
      }
      if monster in monsters {
        return Threw(DuplicateError);
      }
      monsters := monsters + [monster];
      monster.AddObserver(id);
      events.NotifyObservers(JoinedMessage(monster.name), responds);
      outcome := Done;
    }

    /** Rejects null and non-members; otherwise removes the monster and
        unsubscribes from it. The active monster is not touched, even when it
        is the one removed. */
    method RemoveMonster(monster: Monster?, responds: set<ObserverId>) returns (outcome: Outcome)
      requires Valid()
      modifies this`monsters, Present(monster)`observers, events`outbox
      ensures Valid()
      ensures activeMonster == old(activeMonster)
      ensures monster == null ==> outcome == Threw(RemoveNullError) && monsters == old(monsters) && events.outbox == old(events.outbox)
      ensures monster != null && monster !in old(monsters) ==>
                outcome == Threw(RemoveMissingError) && monsters == old(monsters)
                && monster.observers == old(monster.observers) && events.outbox == old(events.outbox)
      ensures monster != null && monster in old(monsters) ==>
                outcome == Done && monsters == RemoveAll(old(monsters), monster)
                && |monsters| == |old(monsters)| - 1
                && monster.observers == RemoveAll(old(monster.observers), id)
                && events.outbox == old(events.outbox) + Deliverable(events.observers, responds, LeftMessage(monster.name))
    {
      if monster == null {
        return Threw(RemoveNullError);
      }
      if monster !in monsters {
        return Threw(RemoveMissingError);
      }
      RemoveOneOfDistinct(monsters, monster);
      RemoveAllKeepsNoDuplicates(monsters, monster);
      monsters := RemoveAll(monsters, monster);
      monster.RemoveObserver(id);
      events.NotifyObservers(LeftMessage(monster.name), responds);
      outcome := Done;
    }

    /** Rejects null and non-members; otherwise makes the monster active and announces it. */
    method SetActiveMonster(monster: Monster?, responds: set<ObserverId>) returns (outcome: Outcome)
      modifies this`activeMonster, events`outbox
      ensures monster == null ==>
                outcome == Threw(ActivateNullError) && activeMonster == old(activeMonster) && events.outbox == old(events.outbox)
      ensures monster != null && monster !in monsters ==>
                outcome == Threw(ActivateMissingError) && activeMonster == old(activeMonster) && events.outbox == old(events.outbox)
      ensures monster != null && monster in monsters ==>
                outcome == Done && activeMonster == monster
                && events.outbox == old(events.outbox) + Deliverable(events.observers, responds, ActivatedMessage(monster.name))
    {
      if monster == null {
        return Threw(ActivateNullError);
      }
      if monster !in monsters {
        return Threw(ActivateMissingError);
      }
      activeMonster := monster;
      events.NotifyObservers(ActivatedMessage(monster.name), responds);
      outcome := Done;
    }

    /** Like SetActiveMonster, but also refuses a fainted monster, and answers `true`. */
    method SwitchMonster(monster: Monster?, responds: set<ObserverId>) returns (r: Result<bool>)
      modifies this`activeMonster, events`outbox
      ensures monster == null ==>
                r == Err(SwitchNullError) && activeMonster == old(activeMonster) && events.outbox == old(events.outbox)
      ensures monster != null && monster !in monsters ==>
                r == Err(SwitchMissingError) && activeMonster == old(activeMonster) && events.outbox == old(events.outbox)
      ensures monster != null && monster in monsters && !monster.IsAlive() ==>
                r == Err(SwitchFaintedError) && activeMonster == old(activeMonster) && events.outbox == old(events.outbox)
      ensures monster != null && monster in monsters && monster.IsAlive() ==>
                r == Ok(true) && activeMonster == monster
                && events.outbox == old(events.outbox) + Deliverable(events.observers, responds, ActivatedMessage(monster.name))
    {
      if monster == null {
        return Err(SwitchNullError);
      }
      if monster !in monsters {
        return Err(SwitchMissingError);
      }
      if !monster.IsAlive() {
        return Err(SwitchFaintedError);
      }
      var outcome := SetActiveMonster(monster, responds);
      r := Ok(true);
    }
  }
}
