/**
 * scripts/bioprintly_gui/process.py: the same command tick as
 * scripts/bioprintly-gui/service.py, except that the state is saved as soon
 * as the head has its start stamp. Its imports (`save_state_to_disk`,
 * `time_ms`, the three-argument `read_pin`/`write_pin`) are those of
 * scripts/bioprintly-gui, so it runs over that front end's state.
 */
module UnderscoreGuiProcess {
  import opened Wrappers
  import opened Pins
  import opened LegacyQueue
  import opened HyphenGuiState
  import opened HyphenGuiService

  /** `finish_active_task`: the same as scripts/bioprintly-gui/service.py's. */
  method FinishActiveTask(state: GlobalState, now: int)
    requires |state.g.commandQueue| > 0
    modifies state
    ensures state.Model() == Finished(old(state.Model()), now)
  {
    HyphenGuiService.FinishActiveTask(state, now);
  }

  /** `process_commands`: start the head, save, then half-step or finish it. */
  method ProcessCommands(state: GlobalState, clock: TickClock) returns (outcome: Outcome)
    modifies state
    ensures Step(state.Model(), outcome) == TickWith(old(state.Model()), clock, true)
  {
    outcome := ProcessCommandsWith(state, clock, true);
  }

  /**
   * The extra save changes nothing but the disk: the state and the outcome are
   * those of the tick without it.
   */
  lemma SameTickAsService(m: Machine, clock: TickClock)
    ensures TickWith(m, clock, true).m.g == Tick(m, clock).m.g
    ensures TickWith(m, clock, true).outcome == Tick(m, clock).outcome
  {
  }

  /**
   * Whenever the queue is not empty, a tick leaves a save of the state with
   * the head started at the state's path; unless the head was finished (which
   * saves once more), that save is the state just after the start stamp.
   */
  lemma SavesOnEveryTick(m: Machine, clock: TickClock)
    requires |m.g.commandQueue| > 0
    ensures var st := TickWith(m, clock, true); var path := m.g.savefilePath;
      path in st.m.disk && st.m.disk[path].Some?
    ensures var s := m.g.commandQueue[0].specifics;
      (s.verb.OtherVerb? || s.halfStepsRemaining != 0) ==>
      TickWith(m, clock, true).m.disk[m.g.savefilePath] ==
        Some(SaveImage(WithHead(m, Started(m.g.commandQueue[0], clock.startReading)).g))
  {
  }

  /** Without it, the tick may leave the disk as it was: a started head is not saved. */
  lemma ServiceTickMaySkipSave(m: Machine, clock: TickClock)
    requires |m.g.commandQueue| > 0 && m.g.commandQueue[0].specifics.verb.OtherVerb?
    ensures Tick(m, clock).m.disk == m.disk
  {
  }
}
