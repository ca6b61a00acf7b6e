/**
 * The static transition table of the playback state machine: for every
 * state, the actions it accepts and the state each one leads to.
 */
module TransitionTable {
  import opened Options

  /** The three playback states ('stop', 'play', 'pause'). */
  datatype State = Stopped | Playing | Paused

  /** The actions a row of the table may be keyed by. */
  datatype Action = Play | Pause | Stop | Next | Back

  /**
   * The row of the table for state `s`, as written in the program: the
   * Stopped row has no Stop entry, the Playing row has no Play entry and the
   * Paused row has no Pause entry. The outer table has a row for every state.
   */
  function Row(s: State): map<Action, State>
  {
    match s
    case Stopped => map[Play := Playing, Next := Playing, Back := Playing, Pause := Stopped]
    case Playing => map[Pause := Paused, Stop := Stopped, Next := Playing, Back := Playing]
    case Paused => map[Play := Playing, Stop := Stopped, Next := Playing, Back := Playing]
  }

  /** Whether the row of `s` holds `a` and, if so, where it leads. */
  function Lookup(s: State, a: Action): (r: Option<State>)
    ensures a in {Next, Back} ==> r == Some(Playing)
    ensures r.Some? && a == Play ==> r.value == Playing
    ensures r.Some? && a == Stop ==> r.value == Stopped
    ensures a == Pause && r.Some? ==> r.value == if s == Playing then Paused else Stopped
  {
    if a in Row(s) then Some(Row(s)[a]) else None
  }

  /**
   * The table rejects exactly three (state, action) pairs: Stop while
   * stopped, Play while playing and Pause while paused.
   */
  lemma MissingEntries(s: State, a: Action)
    ensures Lookup(s, a).None? <==>
      (s == Stopped && a == Stop) || (s == Playing && a == Play) || (s == Paused && a == Pause)
  {
  }
}
