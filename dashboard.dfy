/** The state the dashboard component keeps for its signal panel: the list of
    signals and the simulation-mode flag, with the three handlers that
    replace them. */
module Dashboard {
  import opened Signals
  import opened Classifiers

  /** The signal list the panel starts from. */
  function InitialSignals(): (r: seq<Signal>)
    ensures WellFormed(r)
    ensures |r| == 4
  {
    [ Signal("S001", "Signal A1", Green, "T123", "before", "Central-North"),
      Signal("S002", "Signal A2", Red, "T456", "after", "Central-North"),
      Signal("S003", "Signal B1", Yellow, "T789", "before", "North-South"),
      Signal("S004", "Signal B2", Green, "T012", "after", "North-South") ]
  }

  class SignalPanel {
    var signals: seq<Signal>
    var simulationMode: bool

    /** Ids stay unique and every lamp shows an aspect. */
    ghost predicate Valid()
      reads this
    {
      WellFormed(signals)
    }

    constructor ()
      ensures Valid()
      ensures signals == InitialSignals() && !simulationMode
    {
      signals := InitialSignals();
      simulationMode := false;
    }

    /** A click on the lamp of signal `id`. */
    method ToggleSignal(id: string)
      requires Valid()
      modifies this
      ensures Valid()
      ensures signals == Toggle(old(signals), id)
      ensures simulationMode == old(simulationMode)
    {
      TransformsPreserveWellFormed(signals, id);
      signals := Toggle(signals, id);
    }

    /** The "Start Simulation" button; the dimming of green signals, which the
        component defers by two seconds, is applied at once. */
    method StartSimulation()
      requires Valid()
      modifies this
      ensures Valid()
      ensures simulationMode
      ensures signals == StartTransform(old(signals))
    {
      TransformsPreserveWellFormed(signals, "");
      simulationMode := true;
      signals := StartTransform(signals);
    }

    /** The "Stop Simulation" button. */
    method StopSimulation()
      requires Valid()
      modifies this
      ensures Valid()
      ensures !simulationMode
      ensures signals == StopTransform(old(signals))
    {
      TransformsPreserveWellFormed(signals, "");
      simulationMode := false;
      signals := StopTransform(signals);
    }

    /** The colour drawn for each lamp of the panel, in list order; in a valid
        panel no lamp is drawn off. */
    function Lamps(): (r: seq<Colour>)
      reads this
      ensures |r| == |signals|
      ensures forall i :: 0 <= i < |r| ==> r[i] == SignalColor(signals[i].status)
      ensures WellFormed(signals) ==> forall i :: 0 <= i < |r| ==> r[i] != SignalOff
    {
      seq(|signals|, i requires 0 <= i < |signals| reads this => SignalColor(signals[i].status))
    }
  }
}
