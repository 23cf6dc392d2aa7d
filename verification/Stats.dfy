/** The live-session gauge of the telemetry registry. */
module Stats {
  class Registry {
    var sessions: int

    constructor ()
      ensures sessions == 0
    {
      sessions := 0;
    }

    method SessionStart()
      modifies this
      ensures sessions == old(sessions) + 1
    {
      sessions := sessions + 1;
    }

    method SessionEnd()
      modifies this
      ensures sessions == old(sessions) - 1
    {
      sessions := sessions - 1;
    }
  }
}
