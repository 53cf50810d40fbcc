/** The client's connection counters (`Connections`). */
module ClientCounters {

  class Connections {
    var success: nat
    var error: nat
    var attempt: nat

    /** A new instance has all three counters at 0. */
    constructor ()
      ensures success == 0 && error == 0 && attempt == 0
    {
      success := 0;
      error := 0;
      attempt := 0;
    }

    /** Exactly one more attempt; the other counters are untouched. */
    method Attempt()
      modifies this`attempt
      ensures attempt == old(attempt) + 1
    {
      attempt := attempt + 1;
    }

    /** Exactly one more error; the other counters are untouched. */
    method Error()
      modifies this`error
      ensures error == old(error) + 1
    {
      error := error + 1;
    }

    /** Exactly one more success; the other counters are untouched. */
    method Success()
      modifies this`success
      ensures success == old(success) + 1
    {
      success := success + 1;
    }
  }
}
