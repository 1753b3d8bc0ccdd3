/** The dashboard's display categories and the four classifiers that map a
    status string to one of them. Every classifier is total: an input it does
    not know falls through to a default entry. */
module Classifiers {

  /** The palette entries the classifiers return, one per key of the
      dashboard's colour table. Only the names are modelled, not the hex
      values (several keys share one). */
  datatype Colour =
    | OnTimeTrain | MinorDelayTrain | SignificantDelayTrain
    | FreightTrain | PassengerTrain
    | AlertCritical | AlertHigh | AlertMedium | SecondaryAccent
    | SignalGreen | SignalYellow | SignalRed | SignalOff

  /** A lookup table with a fallback entry: the shape all four classifiers
      share, used below as their independent reference. */
  function Lookup(table: map<string, Colour>, key: string, fallback: Colour): Colour
  {
    if key in table then table[key] else fallback
  }

  /** Train statuses whose colour wins over the train's type. */
  const TrainStatusTable: map<string, Colour> :=
    map["on-time" := OnTimeTrain, "minor-delay" := MinorDelayTrain,
        "significant-delay" := SignificantDelayTrain]

  const PriorityTable: map<string, Colour> :=
    map["CRITICAL" := AlertCritical, "HIGH" := AlertHigh, "MEDIUM" := AlertMedium]

  const PlatformStatusTable: map<string, Colour> :=
    map["occupied" := AlertCritical, "reserved" := AlertHigh]

  const SignalTable: map<string, Colour> :=
    map["green" := SignalGreen, "yellow" := SignalYellow, "red" := SignalRed]

  /** Colour of a train chip: the status decides when it is one of the three
      punctuality classes, otherwise the type does ("freight" or anything else). */
  function TrainColor(status: string, trainType: string): (r: Colour)
    ensures r in {OnTimeTrain, MinorDelayTrain, SignificantDelayTrain, FreightTrain, PassengerTrain}
    ensures status in TrainStatusTable <==> r in {OnTimeTrain, MinorDelayTrain, SignificantDelayTrain}
    ensures r == FreightTrain <==> status !in TrainStatusTable && trainType == "freight"
    ensures r == PassengerTrain <==> status !in TrainStatusTable && trainType != "freight"
  {
    if status == "on-time" then OnTimeTrain
    else if status == "minor-delay" then MinorDelayTrain
    else if status == "significant-delay" then SignificantDelayTrain
    else if trainType == "freight" then FreightTrain
    else PassengerTrain
  }

  /** Colour of a recommendation badge; the priority names are upper case and
      matched exactly, anything else gets the accent colour. */
  function PriorityColor(priority: string): (r: Colour)
    ensures r in {AlertCritical, AlertHigh, AlertMedium, SecondaryAccent}
    ensures r == SecondaryAccent <==> priority !in PriorityTable
  {
    match priority
    case "CRITICAL" => AlertCritical
    case "HIGH" => AlertHigh
    case "MEDIUM" => AlertMedium
    case _ => SecondaryAccent
  }

  /** Colour of a platform dot. */
  function PlatformStatusColor(status: string): (r: Colour)
    ensures r in {AlertCritical, AlertHigh, SecondaryAccent}
    ensures r == SecondaryAccent <==> status !in PlatformStatusTable
  {
    match status
    case "occupied" => AlertCritical
    case "reserved" => AlertHigh
    case _ => SecondaryAccent
  }

  /** Colour of a signal lamp; a status that is no aspect shows the lamp off. */
  function SignalColor(status: string): (r: Colour)
    ensures r in {SignalGreen, SignalYellow, SignalRed, SignalOff}
    ensures r == SignalOff <==> status !in SignalTable
  {
    match status
    case "green" => SignalGreen
    case "yellow" => SignalYellow
    case "red" => SignalRed
    case _ => SignalOff
  }

  /** The train colour is the status table's entry, else the type's colour. */
  lemma TrainColorMatchesTable(status: string, trainType: string)
    ensures TrainColor(status, trainType)
         == Lookup(TrainStatusTable, status, if trainType == "freight" then FreightTrain else PassengerTrain)
  {
  }

  /** A punctuality status decides the colour whatever the two trains' types. */
  lemma TrainColorStatusPrecedence(status: string, type1: string, type2: string)
    requires status in TrainStatusTable
    ensures TrainColor(status, type1) == TrainColor(status, type2) == TrainStatusTable[status]
  {
  }

  lemma PriorityColorMatchesTable(priority: string)
    ensures PriorityColor(priority) == Lookup(PriorityTable, priority, SecondaryAccent)
  {
  }

  lemma PlatformStatusColorMatchesTable(status: string)
    ensures PlatformStatusColor(status) == Lookup(PlatformStatusTable, status, SecondaryAccent)
  {
  }

  lemma SignalColorMatchesTable(status: string)
    ensures SignalColor(status) == Lookup(SignalTable, status, SignalOff)
  {
  }

  /** Distinct known inputs are never shown alike: each table is one-to-one
      and never yields its classifier's fallback entry. */
  lemma TablesAreInjective(k1: string, k2: string)
    ensures k1 in TrainStatusTable && k2 in TrainStatusTable && k1 != k2
            ==> TrainStatusTable[k1] != TrainStatusTable[k2]
    ensures k1 in PriorityTable && k2 in PriorityTable && k1 != k2
            ==> PriorityTable[k1] != PriorityTable[k2]
    ensures k1 in PlatformStatusTable && k2 in PlatformStatusTable && k1 != k2
            ==> PlatformStatusTable[k1] != PlatformStatusTable[k2]
    ensures k1 in SignalTable && k2 in SignalTable && k1 != k2
            ==> SignalTable[k1] != SignalTable[k2]
    ensures k1 in TrainStatusTable ==> TrainStatusTable[k1] !in {FreightTrain, PassengerTrain}
    ensures k1 in PriorityTable ==> PriorityTable[k1] != SecondaryAccent
    ensures k1 in PlatformStatusTable ==> PlatformStatusTable[k1] != SecondaryAccent
    ensures k1 in SignalTable ==> SignalTable[k1] != SignalOff
  {
  }
}
