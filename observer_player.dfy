/** The earlier roster of the observer package (observer/Player.js): no
    checks, duplicates allowed, and an active monster that follows the list. */
module ObserverPlayer {
  import opened Common
  import opened Monsters

  class Player {
    const name: string
    /** JavaScript lets `null` be pushed, so entries are nullable. */
    var monsters: seq<Monster?>
    var activeMonster: Monster?

    /** The active monster is a member (or null), and when the list holds no
        null it is null exactly when the list is empty. */
    predicate Valid()
      reads this
    {
      && (activeMonster == null || activeMonster in monsters)
      && (null !in monsters ==> (activeMonster == null <==> monsters == []))
    }

    constructor(name: string)
      ensures this.name == name && monsters == [] && activeMonster == null
      ensures Valid()
    {
      this.name := name;
      monsters := [];
      activeMonster := null;
    }

    /** Appends (even a monster already listed); the first monster added while
        none is active becomes active. */
    method AddMonster(monster: Monster?)
      requires Valid()
      modifies this
      ensures Valid()
      ensures monsters == old(monsters) + [monster]
      ensures activeMonster == if old(activeMonster) == null then monster else old(activeMonster)
    {
      monsters := monsters + [monster];
      if activeMonster == null {
        activeMonster := monster;
      }
    }

    /** Removes every copy; if the active monster went, the first remaining
        one (or null) takes its place. */
    method RemoveMonster(monster: Monster?)
      requires Valid()
      modifies this
      ensures Valid()
      ensures monsters == RemoveAll(old(monsters), monster)
      ensures old(activeMonster) != monster ==> activeMonster == old(activeMonster)
      ensures old(activeMonster) == monster ==> activeMonster == if monsters == [] then null else monsters[0]
    {
      monsters := RemoveAll(monsters, monster);
      if activeMonster == monster {
        activeMonster := if monsters == [] then null else monsters[0];
      }
    }

    /** Makes a member active; anything else is silently ignored. */
    method SetActiveMonster(monster: Monster?)
      requires Valid()
      modifies this`activeMonster
      ensures Valid()
      ensures activeMonster == if monster in monsters then monster else old(activeMonster)
    {
      if monster in monsters {
        activeMonster := monster;
      }
    }
  }
}
