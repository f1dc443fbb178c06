/** The domain entities (models.py).  Requests, vehicles and route stops are
    objects that the simulator updates in place; `View` gives the value an object
    currently stands for, and the specifications are written over those values. */
module Models {
  import opened Geo

  datatype Option<+T> = None | Some(value: T)

  /** Nodes are ordered by name; `Node` is a node's rank in that order. */
  type Node = nat

  type Cell = string

  datatype StopType = Pickup | Dropoff

  datatype RequestStatus = Pending | Assigned | Onboard | Completed | Rejected

  /** One stop of a route, with the limits of the request it belongs to. */
  datatype Stop = Stop(
    requestId: int,
    stopType: StopType,
    location: Point,
    partySize: nat,
    requestTime: real,
    maxWait: real,
    directTime: real,
    maxDetour: real,
    boardedAt: Option<real>)
  {
    /** The longest ride allowed to a passenger of this stop. */
    function RideLimit(): real {
      directTime * maxDetour
    }
  }

  datatype VehicleState = VehicleState(
    id: int,
    location: Point,
    capacity: nat,
    route: seq<Stop>,
    onboard: int,
    homeCell: Option<Cell>,
    ownerNode: Option<Node>,
    version: nat,
    repositionTarget: Option<Point>,
    distanceTraveled: real,
    busyTime: real)

  datatype RequestState = RequestState(
    id: int,
    origin: Point,
    destination: Point,
    requestTime: real,
    partySize: nat,
    maxWait: real,
    maxDetourFactor: real,
    pickupCell: Option<Cell>,
    status: RequestStatus,
    assignedVehicle: Option<int>,
    pickupTime: Option<real>,
    dropoffTime: Option<real>,
    assignedAt: Option<real>)
  {
    function DirectTravelTime(d: Distance): real {
      TravelTime(d, origin, destination)
    }

    /** The longest ride this request allows. */
    function RideLimit(d: Distance): real {
      DirectTravelTime(d) * maxDetourFactor
    }

    /** The stop the engine makes for this request. */
    function StopFor(d: Distance, stopType: StopType): Stop {
      Stop(id, stopType, if stopType.Pickup? then origin else destination, partySize,
           requestTime, maxWait, DirectTravelTime(d), maxDetourFactor, None)
    }
  }

  class RouteStop {
    const requestId: int
    const stopType: StopType
    const location: Point
    const partySize: nat
    const requestTime: real
    const maxWait: real
    const directTime: real
    const maxDetour: real
    var boardedAt: Option<real>
    var eta: Option<real>

    constructor (requestId: int, stopType: StopType, location: Point, partySize: nat,
                 requestTime: real, maxWait: real, directTime: real, maxDetour: real)
      ensures View() == Stop(requestId, stopType, location, partySize, requestTime, maxWait,
                             directTime, maxDetour, None)
    {
      this.requestId, this.stopType, this.location, this.partySize :=
        requestId, stopType, location, partySize;
      this.requestTime, this.maxWait, this.directTime, this.maxDetour :=
        requestTime, maxWait, directTime, maxDetour;
      boardedAt, eta := None, None;
    }

    function View(): Stop
      reads this`boardedAt
    {
      Stop(requestId, stopType, location, partySize, requestTime, maxWait, directTime, maxDetour, boardedAt)
    }
  }

  /** `views` holds the values of the stop objects, in order. */
  ghost predicate Shows(route: seq<RouteStop>, views: seq<Stop>)
    reads (set s | s in route)`boardedAt
  {
    |views| == |route| && forall k :: 0 <= k < |route| ==> views[k] == route[k].View()
  }

  lemma {:induction false} SomethingShows(route: seq<RouteStop>) returns (views: seq<Stop>)
    ensures Shows(route, views)
  {
    if route == [] {
      views := [];
    } else {
      views := SomethingShows(route[1..]);
      views := [route[0].View()] + views;
    }
  }

  /** The values of a sequence of stop objects.  `eta` is not part of them. */
  ghost function Views(route: seq<RouteStop>): (views: seq<Stop>)
    reads (set s | s in route)`boardedAt
    ensures Shows(route, views)
  {
    assert exists views :: Shows(route, views) by {
      var views := SomethingShows(route);
    }
    var views :| Shows(route, views);
    views
  }

  /** No stop object appears twice. */
  ghost predicate Distinct(route: seq<RouteStop>) {
    forall i, j :: 0 <= i < j < |route| ==> route[i] != route[j]
  }

  class Vehicle {
    const id: int
    var location: Point
    const capacity: nat
    var route: seq<RouteStop>
    var onboard: int
    const homeCell: Option<Cell>
    var ownerNode: Option<Node>
    var version: nat
    var repositionTarget: Option<Point>
    var distanceTraveled: real
    var busyTime: real

    constructor (id: int, location: Point, capacity: nat, homeCell: Option<Cell>)
      ensures View() == VehicleState(id, location, capacity, [], 0, homeCell, None, 0, None, 0.0, 0.0)
      ensures route == []
    {
      this.id, this.location, this.capacity, this.homeCell := id, location, capacity, homeCell;
      route, onboard, ownerNode, version, repositionTarget := [], 0, None, 0, None;
      distanceTraveled, busyTime := 0.0, 0.0;
    }

    ghost function View(): VehicleState
      reads this, (set s | s in route)`boardedAt
    {
      VehicleState(id, location, capacity, Views(route), onboard, homeCell, ownerNode, version,
                   repositionTarget, distanceTraveled, busyTime)
    }
  }

  class Request {
    const id: int
    const origin: Point
    const destination: Point
    const requestTime: real
    const partySize: nat
    const maxWait: real
    const maxDetourFactor: real
    const pickupCell: Option<Cell>
    var status: RequestStatus
    var assignedVehicle: Option<int>
    var pickupTime: Option<real>
    var dropoffTime: Option<real>
    var assignedAt: Option<real>

    constructor (id: int, origin: Point, destination: Point, requestTime: real, partySize: nat,
                 maxWait: real, maxDetourFactor: real, pickupCell: Option<Cell>)
      ensures View() == RequestState(id, origin, destination, requestTime, partySize, maxWait,
                                     maxDetourFactor, pickupCell, Pending, None, None, None, None)
    {
      this.id, this.origin, this.destination, this.requestTime := id, origin, destination, requestTime;
      this.partySize, this.maxWait, this.maxDetourFactor, this.pickupCell :=
        partySize, maxWait, maxDetourFactor, pickupCell;
      status, assignedVehicle, pickupTime, dropoffTime, assignedAt := Pending, None, None, None, None;
    }

    function View(): RequestState
      reads this
    {
      RequestState(id, origin, destination, requestTime, partySize, maxWait, maxDetourFactor, pickupCell,
                   status, assignedVehicle, pickupTime, dropoffTime, assignedAt)
    }
  }
}
