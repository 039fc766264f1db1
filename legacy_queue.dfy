/**
 * The command records of the older front ends (scripts/bioprintly-gui/state.py
 * and scripts/bioprintly_gui/state.py): every command carries its half-step
 * countdown from the start, and only its two stamps and the countdown change.
 */
module LegacyQueue {
  import opened Wrappers

  /** `verb`; a value loaded from a save file may be any other text. */
  datatype Verb = Rotate | Actuate | OtherVerb(text: string)

  /** `CommandRotate` / `CommandActuate`: the direction is text the processing code never reads. */
  datatype Specifics = Specifics(verb: Verb, direction: string, stepsNeededTotal: int, halfStepsRemaining: int)

  /** `Command`; `queuedAt` is `enqueued_at` in bioprintly-gui and `submitted_at` in bioprintly_gui. */
  datatype Command = Command(queuedAt: int, startedAt: Option<int>, finishedAt: Option<int>, specifics: Specifics)

  /** `if active_command['started_at'] == None: active_command['started_at'] = now`. */
  function Started(c: Command, now: int): (r: Command)
    ensures r.startedAt.Some? && r.(startedAt := c.startedAt) == c
    ensures c.startedAt.Some? ==> r == c
  {
    if c.startedAt.None? then c.(startedAt := Some(now)) else c
  }

  /** A command is started once: a later start leaves the first stamp. */
  lemma StartedOnce(c: Command, first: int, later: int)
    ensures Started(Started(c, first), later) == Started(c, first)
    ensures Started(c, first).startedAt == if c.startedAt.Some? then c.startedAt else Some(first)
  {
  }

  /** `specifics['half_steps_remaining'] -= 1`. */
  function CountedDown(c: Command): Command
  {
    c.(specifics := c.specifics.(halfStepsRemaining := c.specifics.halfStepsRemaining - 1))
  }
}
