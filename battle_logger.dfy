/** The log store of the decorators package (decorators/BattleLogger.js): an
    observer that records every message it is sent, stamped with the battle's
    turn number at that moment, and answers queries by turn. */
module BattleLog {
  import opened Common
  import Battle

  /** One recorded event; `turn` is None when the logger has no battle. */
  datatype LogEntry = LogEntry(event: string, turn: Option<int>)

  /** `logs.filter(log => log.turn === turn)`. */
  function EntriesOfTurn(logs: seq<LogEntry>, turn: Option<int>): (r: seq<LogEntry>)
    ensures |r| <= |logs|
    ensures forall i :: 0 <= i < |r| ==> r[i].turn == turn && r[i] in logs
    ensures forall i :: 0 <= i < |logs| && logs[i].turn == turn ==> logs[i] in r
  {
    if logs == [] then []
    else
      var last := logs[|logs| - 1];
      EntriesOfTurn(logs[..|logs| - 1], turn) + (if last.turn == turn then [last] else [])
  }

  /** Filtering by turn distributes over concatenation, so each turn's
      entries come back in the order they were logged. */
  lemma {:induction false} EntriesOfTurnAppend(a: seq<LogEntry>, b: seq<LogEntry>, turn: Option<int>)
    ensures EntriesOfTurn(a + b, turn) == EntriesOfTurn(a, turn) + EntriesOfTurn(b, turn)
  {
    if b == [] {
      assert a + b == a;
    } else {
      var b' := b[..|b| - 1];
      assert (a + b)[..|a + b| - 1] == a + b';
      EntriesOfTurnAppend(a, b', turn);
    }
  }

  class BattleLogger {
    const battleContext: Battle.BattleContext?
    var logs: seq<LogEntry>

    constructor(battleContext: Battle.BattleContext?)
      ensures this.battleContext == battleContext && logs == []
    {
      this.battleContext := battleContext;
      logs := [];
    }

    /** The turn an entry logged now carries. */
    function CurrentTurn(): (t: Option<int>)
      reads this, Battle.Context(battleContext)
      ensures t.None? <==> battleContext == null
    {
      if battleContext == null then None else Some(battleContext.turnCount)
    }

    /** `update(message)`, which is `logBattleEvent(message)`: appends exactly
        one entry, carrying the message and the current turn, and returns it. */
    method LogBattleEvent(event: string) returns (entry: LogEntry)
      modifies this`logs
      ensures entry == LogEntry(event, CurrentTurn())
      ensures logs == old(logs) + [entry]
      ensures GetLogsByTurn(CurrentTurn()) == old(GetLogsByTurn(CurrentTurn())) + [entry]
    {
      entry := LogEntry(event, CurrentTurn());
      EntriesOfTurnAppend(logs, [entry], entry.turn);
      logs := logs + [entry];
    }

    method Update(message: string)
      modifies this`logs
      ensures logs == old(logs) + [LogEntry(message, CurrentTurn())]
    {
      var entry := LogBattleEvent(message);
    }

    /** The entries in the order they were logged: every one of them is found
        again by asking for its own turn, and no turn has more entries. */
    function GetBattleLogs(): (r: seq<LogEntry>)
      reads this
      ensures forall i :: 0 <= i < |r| ==> r[i] in GetLogsByTurn(r[i].turn)
      ensures forall turn :: |GetLogsByTurn(turn)| <= |r|
    {
      logs
    }

    /** The entries of one turn: all of them, and only logged ones. */
    function GetLogsByTurn(turn: Option<int>): (r: seq<LogEntry>)
      reads this
      ensures forall i :: 0 <= i < |r| ==> r[i].turn == turn && r[i] in logs
      ensures forall i :: 0 <= i < |logs| && logs[i].turn == turn ==> logs[i] in r
    {
      EntriesOfTurn(logs, turn)
    }

    method ClearLogs()
      modifies this`logs
      ensures logs == []
    {
      logs := [];
    }
  }
}
