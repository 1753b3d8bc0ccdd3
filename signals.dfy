/** The signal records of the signal-control panel and the three rewrites of
    the whole list: a click on one signal, and the resets that starting and
    stopping the simulation apply. Each rewrite is a map over the list that
    touches nothing but the `status` field. */
module Signals {

  const Green: string := "green"
  const Yellow: string := "yellow"
  const Red: string := "red"

  /** A status that is one of the three aspects a lamp shows. */
  predicate IsLit(status: string)
  {
    status == Green || status == Yellow || status == Red
  }

  datatype Signal = Signal(id: string, name: string, status: string, trainId: string,
                           position: string, section: string)

  /** The two signals agree on every field except, possibly, `status`. */
  predicate SameExceptStatus(a: Signal, b: Signal)
  {
    a.id == b.id && a.name == b.name && a.trainId == b.trainId
    && a.position == b.position && a.section == b.section
  }

  /** The order in which repeated clicks step a lit signal. */
  const ClickCycle: seq<string> := [Green, Red, Yellow]

  /** Status after one click: green becomes red, red becomes yellow, and
      everything else (yellow and any unknown status) becomes green. */
  function NextStatus(status: string): (r: string)
    ensures IsLit(r)
    ensures r == Green <==> status != Green && status != Red
  {
    if status == Green then Red
    else if status == Red then Yellow
    else Green
  }

  /** A click advances a lit status one place along ClickCycle. */
  lemma NextStatusFollowsClickCycle(k: nat)
    requires k < |ClickCycle|
    ensures NextStatus(ClickCycle[k]) == ClickCycle[(k + 1) % |ClickCycle|]
  {
  }

  /** Three clicks bring a lit status back; an unknown status does not come
      back, it ends up yellow. */
  lemma NextStatusThrice(status: string)
    ensures IsLit(status) ==> NextStatus(NextStatus(NextStatus(status))) == status
    ensures !IsLit(status) ==> NextStatus(NextStatus(NextStatus(status))) == Yellow
  {
  }

  /** The list with `f` applied to every record, order kept. */
  function MapSignals(signals: seq<Signal>, f: Signal -> Signal): (r: seq<Signal>)
    ensures |r| == |signals|
    ensures forall i :: 0 <= i < |signals| ==> r[i] == f(signals[i])
  {
    if |signals| == 0 then [] else [f(signals[0])] + MapSignals(signals[1..], f)
  }

  // ---- a click on one signal ----

  function Clicked(signal: Signal, id: string): Signal
  {
    if signal.id == id then signal.(status := NextStatus(signal.status)) else signal
  }

  /** Every record whose id is `id` steps its status; all other records and
      all other fields stay as they were. */
  function Toggle(signals: seq<Signal>, id: string): (r: seq<Signal>)
    ensures |r| == |signals|
    ensures forall i :: 0 <= i < |r| ==> SameExceptStatus(signals[i], r[i])
    ensures forall i :: 0 <= i < |r| && signals[i].id != id ==> r[i] == signals[i]
    ensures forall i :: 0 <= i < |r| && signals[i].id == id ==> r[i].status == NextStatus(signals[i].status)
  {
    MapSignals(signals, s => Clicked(s, id))
  }

  /** Every record with this id has a lit status. */
  predicate LitAt(signals: seq<Signal>, id: string)
  {
    forall i :: 0 <= i < |signals| && signals[i].id == id ==> IsLit(signals[i].status)
  }

  /** A click on an id no record carries leaves the list identical. */
  lemma ToggleUnknownId(signals: seq<Signal>, id: string)
    requires forall i :: 0 <= i < |signals| ==> signals[i].id != id
    ensures Toggle(signals, id) == signals
  {
  }

  /** Three clicks on the same id restore the list when the signals it names
      are lit. */
  lemma ToggleThrice(signals: seq<Signal>, id: string)
    requires LitAt(signals, id)
    ensures Toggle(Toggle(Toggle(signals, id), id), id) == signals
  {
  }

  /** `n` clicks on the same id. */
  function ToggleTimes(signals: seq<Signal>, id: string, n: nat): (r: seq<Signal>)
    ensures |r| == |signals|
    decreases n
  {
    if n == 0 then signals else ToggleTimes(Toggle(signals, id), id, n - 1)
  }

  /** After one click the signals named are lit. */
  lemma ToggleMakesLit(signals: seq<Signal>, id: string)
    ensures LitAt(Toggle(signals, id), id)
  {
  }

  /** From the first click on, repeated clicks on one id cycle with period
      three, whatever the statuses were to begin with. */
  lemma {:induction false} ToggleTimesPeriodic(signals: seq<Signal>, id: string, n: nat)
    requires n >= 1 || LitAt(signals, id)
    ensures ToggleTimes(signals, id, n + 3) == ToggleTimes(signals, id, n)
    decreases n
  {
    if n == 0 {
      var once := Toggle(signals, id);
      var twice := Toggle(once, id);
      assert ToggleTimes(signals, id, 3) == ToggleTimes(twice, id, 1);
      ToggleThrice(signals, id);
    } else {
      ToggleMakesLit(signals, id);
      ToggleTimesPeriodic(Toggle(signals, id), id, n - 1);
    }
  }

  /** When ids are unique, a click changes at most one record. */
  lemma ToggleChangesAtMostOne(signals: seq<Signal>, id: string, i: nat, j: nat)
    requires UniqueIds(signals)
    requires i < |signals| && j < |signals|
    requires Toggle(signals, id)[i] != signals[i] && Toggle(signals, id)[j] != signals[j]
    ensures i == j
  {
  }

  // ---- starting and stopping the simulation ----

  function Dimmed(signal: Signal): Signal
  {
    if signal.status == Green then signal.(status := Yellow) else signal
  }

  function Restored(signal: Signal): Signal
  {
    if signal.status == Yellow then signal.(status := Green) else signal
  }

  /** Starting the simulation: every green signal turns yellow, the others
      keep their record, and no green is left. */
  function StartTransform(signals: seq<Signal>): (r: seq<Signal>)
    ensures |r| == |signals|
    ensures forall i :: 0 <= i < |r| ==> SameExceptStatus(signals[i], r[i])
    ensures forall i :: 0 <= i < |r| ==>
              r[i].status == (if signals[i].status == Green then Yellow else signals[i].status)
    ensures forall i :: 0 <= i < |r| ==> r[i].status != Green
  {
    MapSignals(signals, Dimmed)
  }

  /** Stopping the simulation: every yellow signal turns green, the others
      keep their record, and no yellow is left. */
  function StopTransform(signals: seq<Signal>): (r: seq<Signal>)
    ensures |r| == |signals|
    ensures forall i :: 0 <= i < |r| ==> SameExceptStatus(signals[i], r[i])
    ensures forall i :: 0 <= i < |r| ==>
              r[i].status == (if signals[i].status == Yellow then Green else signals[i].status)
    ensures forall i :: 0 <= i < |r| ==> r[i].status != Yellow
  {
    MapSignals(signals, Restored)
  }

  lemma StartIdempotent(signals: seq<Signal>)
    ensures StartTransform(StartTransform(signals)) == StartTransform(signals)
  {
  }

  lemma StopIdempotent(signals: seq<Signal>)
    ensures StopTransform(StopTransform(signals)) == StopTransform(signals)
  {
  }

  /** Stopping after starting is the same as stopping alone: no yellow is
      left and red signals keep their record. */
  lemma StopAfterStart(signals: seq<Signal>)
    ensures StopTransform(StartTransform(signals)) == StopTransform(signals)
    ensures forall i :: 0 <= i < |signals| ==> StopTransform(StartTransform(signals))[i].status != Yellow
    ensures forall i :: 0 <= i < |signals| && signals[i].status == Red
              ==> StopTransform(StartTransform(signals))[i] == signals[i]
  {
  }

  /** A click and the start rewrite do not commute: for a single green
      signal, clicking before the dimming leaves it red, clicking after it
      leaves it green. */
  lemma ClickAndStartDoNotCommute(signal: Signal)
    requires signal.status == Green
    ensures StartTransform(Toggle([signal], signal.id))[0].status == Red
    ensures Toggle(StartTransform([signal]), signal.id)[0].status == Green
  {
  }

  /** Starting after stopping is the same as starting alone. */
  lemma StartAfterStop(signals: seq<Signal>)
    ensures StartTransform(StopTransform(signals)) == StartTransform(signals)
  {
  }

  // ---- the panel's invariant ----

  predicate UniqueIds(signals: seq<Signal>)
  {
    forall i, j :: 0 <= i < j < |signals| ==> signals[i].id != signals[j].id
  }

  /** Unique ids and every status lit. */
  predicate WellFormed(signals: seq<Signal>)
  {
    UniqueIds(signals) && forall i :: 0 <= i < |signals| ==> IsLit(signals[i].status)
  }

  /** All three rewrites keep the list well formed. */
  lemma TransformsPreserveWellFormed(signals: seq<Signal>, id: string)
    requires WellFormed(signals)
    ensures WellFormed(Toggle(signals, id))
    ensures WellFormed(StartTransform(signals))
    ensures WellFormed(StopTransform(signals))
  {
  }
}
