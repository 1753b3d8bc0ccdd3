/** Per-platform occupancy of a station, as the station overview draws it:
    platform n (numbered from 1) is "occupied" when some train of the station
    stands at platform n, and "empty" otherwise. The stored
    `occupiedPlatforms` count is a separate, hand-written field that this rule
    does not consult. */
module Platforms {
  import opened Classifiers

  datatype Option<T> = None | Some(value: T)

  /** A train as listed under a station. */
  datatype StationTrain = StationTrain(id: string, name: string, trainType: string, status: string, platform: int)

  datatype Station = Station(id: string, name: string, platforms: nat, occupiedPlatforms: nat,
                             trains: seq<StationTrain>)

  /** Some train of the list stands at platform n. */
  predicate OnPlatform(trains: seq<StationTrain>, n: int)
  {
    exists i :: 0 <= i < |trains| && trains[i].platform == n
  }

  /** Index of the first train at platform n, as the list's `find` scans it. */
  function FirstOnPlatform(trains: seq<StationTrain>, n: int): (r: Option<nat>)
    ensures r.None? ==> forall j :: 0 <= j < |trains| ==> trains[j].platform != n
    ensures r.Some? ==> r.value < |trains| && trains[r.value].platform == n
                        && forall j :: 0 <= j < r.value ==> trains[j].platform != n
  {
    if |trains| == 0 then None
    else if trains[0].platform == n then Some(0)
    else match FirstOnPlatform(trains[1..], n)
      case None => None
      case Some(k) => Some(k + 1)
  }

  /** The train drawn at platform n, if any: the first one listed there. */
  function TrainOnPlatform(trains: seq<StationTrain>, n: int): (r: Option<StationTrain>)
    ensures r.Some? <==> OnPlatform(trains, n)
    ensures r.Some? ==> r.value in trains && r.value.platform == n
    ensures r.Some? ==> exists k :: 0 <= k < |trains| && r.value == trains[k] && trains[k].platform == n
                                    && forall j :: 0 <= j < k ==> trains[j].platform != n
  {
    match FirstOnPlatform(trains, n)
    case None => None
    case Some(k) => Some(trains[k])
  }

  /** Status string of platform n. */
  function PlatformStatus(trains: seq<StationTrain>, n: int): (r: string)
    ensures r == "occupied" || r == "empty"
    ensures r == "occupied" <==> OnPlatform(trains, n)
  {
    if TrainOnPlatform(trains, n).Some? then "occupied" else "empty"
  }

  /** One status per platform of the station, platform k + 1 at index k. */
  function PlatformStatuses(station: Station): (r: seq<string>)
    ensures |r| == station.platforms
    ensures forall k :: 0 <= k < |r| ==>
              (r[k] == "occupied" <==> OnPlatform(station.trains, k + 1))
              && (r[k] == "occupied" || r[k] == "empty")
  {
    seq(station.platforms, k => PlatformStatus(station.trains, k + 1))
  }

  /** The dot of a platform is the critical colour exactly when a train is
      there and the accent colour otherwise; the rule never yields "reserved". */
  lemma PlatformDotColour(trains: seq<StationTrain>, n: int)
    ensures PlatformStatusColor(PlatformStatus(trains, n))
         == if OnPlatform(trains, n) then AlertCritical else SecondaryAccent
  {
  }

  /** The platform numbers the trains of a list stand at. */
  function PlatformsOf(trains: seq<StationTrain>): (r: set<int>)
    ensures |r| <= |trains|
    ensures forall n :: n in r <==> OnPlatform(trains, n)
  {
    if |trains| == 0 then {}
    else
      var rest := PlatformsOf(trains[1..]);
      assert forall n :: OnPlatform(trains, n) <==> n == trains[0].platform || OnPlatform(trains[1..], n) by {
        forall n ensures OnPlatform(trains, n) ==> n == trains[0].platform || OnPlatform(trains[1..], n) {
          if OnPlatform(trains, n) && n != trains[0].platform {
            var i :| 0 <= i < |trains| && trains[i].platform == n;
            assert trains[1..][i - 1].platform == n;
          }
        }
      }
      {trains[0].platform} + rest
  }

  /** Platform numbers of the station whose dot shows "occupied". */
  function OccupiedNumbers(station: Station): set<int>
  {
    set n | 1 <= n <= station.platforms && PlatformStatus(station.trains, n) == "occupied"
  }

  /** No more dots are shown occupied than the station lists trains: each
      occupied dot has a train of its own, because a train stands at one
      platform. */
  lemma OccupiedDotsAtMostTrains(station: Station)
    ensures |OccupiedNumbers(station)| <= |station.trains|
  {
    var occupied := OccupiedNumbers(station);
    var all := PlatformsOf(station.trains);
    assert occupied <= all;
    assert all == occupied + (all - occupied);
    assert occupied * (all - occupied) == {};
  }
}
