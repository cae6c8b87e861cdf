/** The enable/disable gate of src/Analytics/Analytics.php: one boolean that
    starts true and that `enable()`/`disable()` overwrite. */
module Gate {

  datatype Toggle = TurnOn | TurnOff

  /** The state after one call. */
  function Step(enabled: bool, t: Toggle): bool
  {
    t == TurnOn
  }

  /** The state after a sequence of calls, oldest first. */
  function Run(enabled: bool, ts: seq<Toggle>): bool
    decreases |ts|
  {
    if ts == [] then enabled else Run(Step(enabled, ts[0]), ts[1..])
  }

  /** The last call wins, whatever the state and the calls before it. */
  lemma {:induction false} LastCallWins(enabled: bool, ts: seq<Toggle>)
    requires ts != []
    ensures Run(enabled, ts) <==> ts[|ts| - 1] == TurnOn
    decreases |ts|
  {
    if |ts| > 1 {
      LastCallWins(Step(enabled, ts[0]), ts[1..]);
    }
  }

  /** Repeating a call changes nothing further. */
  lemma {:induction false} RepeatIsIdempotent(enabled: bool, t: Toggle, n: nat)
    requires n > 0
    ensures Run(enabled, seq(n, _ => t)) == Step(enabled, t)
  {
    var ts := seq(n, _ => t);
    LastCallWins(enabled, ts);
  }

  class Analytics {
    var enabled: bool

    /** A new instance tracks. */
    constructor ()
      ensures enabled
    {
      enabled := true;
    }

    method Enable()
      modifies this
      ensures enabled == Step(old(enabled), TurnOn) && enabled
    {
      enabled := true;
    }

    method Disable()
      modifies this
      ensures enabled == Step(old(enabled), TurnOff) && !enabled
    {
      enabled := false;
    }
  }
}
