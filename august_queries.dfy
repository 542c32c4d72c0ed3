/**
 * The resource client of the August integration: the houses and locks of the
 * account, and the door status of one lock, each projected from one response.
 */
module AugustQueries {
  import opened Wrappers
  import opened Json
  import opened Http
  import opened AugustSession

  /** Fields are whatever the body holds under their names; `None` is undefined. */
  datatype House = House(id: Option<Json>, name: Option<Json>)

  /** A lock; its id is the key it is listed under. */
  datatype Lock = Lock(id: string, name: Option<Json>, macAddress: Option<Json>, houseId: Option<Json>, houseName: Option<Json>)

  datatype DoorStatus = Unknown | Closed | Open

  /** A door status with the serial number the response gave, if any. */
  datatype Status = Status(doorStatus: DoorStatus, serialNumber: Option<Json>)

  const HousesPath := "/users/houses/mine"
  const LocksPath := "/users/locks/mine"

  const ClosedState := "kAugDoorState_Closed"
  const OpenState := "kAugDoorState_Open"
  const InitState := "kAugDoorState_Init"

  /** The door states the client recognises. */
  const KnownStates: set<Option<Json>> := {Some(JString(ClosedState)), Some(JString(OpenState)), Some(JString(InitState))}

  function StatusPath(lockId: string): string { "/remoteoperate/" + lockId + "/status" }

  function HousesRequest(s: SessionState): Request
  {
    Request(OptionsFor(s.apiKey, HousesPath, GET, Some(s.token)), None)
  }

  function LocksRequest(s: SessionState): Request
  {
    Request(OptionsFor(s.apiKey, LocksPath, GET, Some(s.token)), None)
  }

  function StatusRequest(s: SessionState, lockId: string): Request
  {
    Request(OptionsFor(s.apiKey, StatusPath(lockId), PUT, Some(s.token)), None)
  }

  /** A response whose status is 200 and whose payload is truthy. */
  predicate HasBody(response: Response)
  {
    response.status == 200 && Truthy(response.payload)
  }

  /** A response whose status is 200 and whose payload is an array. */
  predicate HasArrayBody(response: Response)
  {
    response.status == 200 && response.payload.Some? && response.payload.value.JArray?
  }

  function HouseOf(home: Json): House
  {
    House(Get(home, "HouseID"), Get(home, "HouseName"))
  }

  /** Projects every element of a house list, in order; a null element makes the projection throw. */
  function ProjectHouses(homes: seq<Json>): (r: Result<seq<House>, Error>)
    ensures r.Success? <==> JNull !in homes
    ensures r.Failure? ==> r.error == NullishProperty
    ensures r.Success? ==> |r.value| == |homes| && forall i :: 0 <= i < |homes| ==> r.value[i] == HouseOf(homes[i])
  {
    if homes == [] then Success([])
    else if homes[0] == JNull then Failure(NullishProperty)
    else match ProjectHouses(homes[1..])
      case Failure(e) => Failure(e)
      case Success(rest) => Success([HouseOf(homes[0])] + rest)
  }

  /**
   * The houses of a response: one per array element, in order, when the
   * status is 200 and the payload is an array; none otherwise.
   */
  function HousesOf(response: Response): (r: Result<seq<House>, Error>)
    ensures !HasArrayBody(response) ==> r == Success([])
    ensures HasArrayBody(response) ==>
              var homes := response.payload.value.items;
              && (r.Success? <==> JNull !in homes)
              && (r.Failure? ==> r.error == NullishProperty)
              && (r.Success? ==> |r.value| == |homes| && forall i :: 0 <= i < |homes| ==> r.value[i] == HouseOf(homes[i]))
  {
    if HasArrayBody(response) then ProjectHouses(response.payload.value.items) else Success([])
  }

  function LockOf(id: string, lock: Json): Lock
  {
    Lock(id, Get(lock, "LockName"), Get(lock, "macAddress"), Get(lock, "HouseID"), Get(lock, "HouseName"))
  }

  /** Projects every entry of a lock listing, in order; a null entry makes the projection throw. */
  function ProjectLocks(entries: seq<(string, Json)>): (r: Result<seq<Lock>, Error>)
    ensures r.Success? <==> forall i :: 0 <= i < |entries| ==> entries[i].1 != JNull
    ensures r.Failure? ==> r.error == NullishProperty
    ensures r.Success? ==> (|r.value| == |entries| &&
              forall i :: 0 <= i < |entries| ==> r.value[i] == LockOf(entries[i].0, entries[i].1))
  {
    if entries == [] then Success([])
    else if entries[0].1 == JNull then Failure(NullishProperty)
    else match ProjectLocks(entries[1..])
      case Failure(e) => Failure(e)
      case Success(rest) => Success([LockOf(entries[0].0, entries[0].1)] + rest)
  }

  /**
   * The locks of a response: one per key of the payload, in key order, each
   * with that key as its id, when the status is 200 and the payload is
   * truthy; none otherwise.
   */
  function LocksOf(response: Response): (r: Result<seq<Lock>, Error>)
    ensures !HasBody(response) ==> r == Success([])
    ensures HasBody(response) ==>
              var entries := Entries(response.payload.value);
              && (r.Success? <==> forall i :: 0 <= i < |entries| ==> entries[i].1 != JNull)
              && (r.Failure? ==> r.error == NullishProperty)
              && (r.Success? ==> (|r.value| == |entries| &&
                    forall i :: 0 <= i < |entries| ==> r.value[i].id == entries[i].0 && r.value[i] == LockOf(entries[i].0, entries[i].1)))
  {
    if HasBody(response) then ProjectLocks(Entries(response.payload.value)) else Success([])
  }

  /** Within one listing, no two locks share an id. */
  lemma LockIdsDistinct(response: Response)
    requires response.payload.Some? ==> DistinctKeys(response.payload.value)
    requires LocksOf(response).Success?
    ensures var locks := LocksOf(response).value;
      forall i, j :: 0 <= i < j < |locks| ==> locks[i].id != locks[j].id
  {
    if HasBody(response) {
      EntryKeysDistinct(response.payload.value);
    }
  }

  /** `info?.serialNumber` of a status payload. */
  function NestedSerial(payload: Json): Option<Json>
  {
    match Get(payload, "info")
    case Some(info) => Get(info, "serialNumber")
    case None => None
  }

  /**
   * The door status of a response. Without a 200 status and a truthy payload
   * it is unknown with no serial number. Otherwise the three known states map
   * to closed, open and unknown, an absent or falsy state to unknown, and any
   * other state makes the call fail; every status carries `info.serialNumber`.
   */
  function DoorStatusOf(response: Response): (r: Result<Status, Error>)
    ensures !HasBody(response) ==> r == Success(Status(Unknown, None))
    ensures HasBody(response) ==>
              var state := Get(response.payload.value, "doorState");
              && (r.Failure? <==> Truthy(state) && state !in KnownStates)
              && (r.Failure? ==> r.error == UnknownDoorStatus(state.value))
              && (r.Success? ==> r.value.serialNumber == NestedSerial(response.payload.value))
              && (state == Some(JString(ClosedState)) ==> r.Success? && r.value.doorStatus == Closed)
              && (state == Some(JString(OpenState)) ==> r.Success? && r.value.doorStatus == Open)
              && (r.Success? && state !in {Some(JString(ClosedState)), Some(JString(OpenState))} ==> r.value.doorStatus == Unknown)
  {
    if HasBody(response) then
      var payload := response.payload.value;
      var status := Get(payload, "doorState");
      var serialNumber := NestedSerial(payload);
      if status == Some(JString(ClosedState)) then Success(Status(Closed, serialNumber))
      else if status == Some(JString(OpenState)) then Success(Status(Open, serialNumber))
      else if status == Some(JString(InitState)) then Success(Status(Unknown, serialNumber))
      else if !Truthy(status) then Success(Status(Unknown, serialNumber))
      else Failure(UnknownDoorStatus(status.value))
    else
      Success(Status(Unknown, None))
  }

  /** The top-level `serialNumber` of a status response, or the empty string without a body. */
  function SerialNumberOf(response: Response): (r: Option<Json>)
    ensures !HasBody(response) ==> r == Some(JString(""))
    ensures HasBody(response) ==> r == Get(response.payload.value, "serialNumber")
  {
    if HasBody(response) then Get(response.payload.value, "serialNumber") else Some(JString(""))
  }

  /** A status body with a closed door and serial number "X1" reads as closed, with that serial number. */
  lemma ClosedWithSerial()
    ensures var payload := JObject([("doorState", JString(ClosedState)), ("info", JObject([("serialNumber", JString("X1"))]))]);
      DoorStatusOf(Response(200, "t", Some(payload))) == Success(Status(Closed, Some(JString("X1"))))
  {
    var payload := JObject([("doorState", JString(ClosedState)), ("info", JObject([("serialNumber", JString("X1"))]))]);
    assert payload.fields[..1] == [("doorState", JString(ClosedState))];
    assert Lookup(payload.fields, "doorState") == Lookup(payload.fields[..1], "doorState");
    assert Lookup(payload.fields[..1], "doorState") == Some(JString(ClosedState));
  }

  /**
   * The serial number query reads a top-level member, while the door status
   * reads it under `info`: on a status body the first finds nothing where the
   * second finds the serial number.
   */
  lemma SerialNumberSourcesDiffer()
    ensures var response := Response(200, "t", Some(JObject([("doorState", JString(OpenState)),
                                                               ("info", JObject([("serialNumber", JString("SN9"))]))])));
      && DoorStatusOf(response) == Success(Status(Open, Some(JString("SN9"))))
      && SerialNumberOf(response) == None
  {
    var payload := JObject([("doorState", JString(OpenState)), ("info", JObject([("serialNumber", JString("SN9"))]))]);
    assert payload.fields[..1] == [("doorState", JString(OpenState))];
    assert Lookup(payload.fields, "doorState") == Lookup(payload.fields[..1], "doorState");
    assert Lookup(payload.fields[..1], "doorState") == Some(JString(OpenState));
  }

  /**
   * Whatever a status body holds under `info`, the serial number query does not
   * see it: replacing the `info` member leaves that query's answer unchanged,
   * while the door status reports the new `info.serialNumber`.
   */
  lemma SerialNumberIgnoresInfo(status: int, token: string, fields: seq<(string, Json)>, info: Json)
    requires status == 200
    ensures var before := Response(status, token, Some(JObject(fields)));
      var after := Response(status, token, Some(JObject(Put(fields, "info", info))));
      && SerialNumberOf(after) == SerialNumberOf(before) == Lookup(fields, "serialNumber")
      && (DoorStatusOf(after).Success? ==> DoorStatusOf(after).value.serialNumber == Get(info, "serialNumber"))
  {
  }

  /** Lists the account's houses. */
  method GetHouses(session: Session, server: Server) returns (homes: Result<seq<House>, Error>)
    modifies server
    ensures server.log == old(server.log) + [Exchanged(server.respond, old(server.log), HousesRequest(session.View()))]
    ensures homes == HousesOf(server.log[|server.log| - 1].response)
  {
    var options := GetRequestOptions(session.apiKey, HousesPath, GET, session);
    var results := server.MakeRequest(Request(options, None));
    homes := HousesOf(results);
  }

  /** Lists the account's locks. */
  method GetLocks(session: Session, server: Server) returns (locks: Result<seq<Lock>, Error>)
    modifies server
    ensures server.log == old(server.log) + [Exchanged(server.respond, old(server.log), LocksRequest(session.View()))]
    ensures locks == LocksOf(server.log[|server.log| - 1].response)
  {
    var options := GetRequestOptions(session.apiKey, LocksPath, GET, session);
    var results := server.MakeRequest(Request(options, None));
    locks := LocksOf(results);
  }

  /** Reads the door status of one lock. */
  method GetDoorStatus(session: Session, lockId: string, server: Server) returns (status: Result<Status, Error>)
    modifies server
    ensures server.log == old(server.log) + [Exchanged(server.respond, old(server.log), StatusRequest(session.View(), lockId))]
    ensures status == DoorStatusOf(server.log[|server.log| - 1].response)
  {
    var options := GetRequestOptions(session.apiKey, StatusPath(lockId), PUT, session);
    var results := server.MakeRequest(Request(options, None));
    status := DoorStatusOf(results);
  }

  /** Reads the serial number of one lock from its status. */
  method GetSerialNumber(session: Session, lockId: string, server: Server) returns (serialNumber: Option<Json>)
    modifies server
    ensures server.log == old(server.log) + [Exchanged(server.respond, old(server.log), StatusRequest(session.View(), lockId))]
    ensures serialNumber == SerialNumberOf(server.log[|server.log| - 1].response)
  {
    var options := GetRequestOptions(session.apiKey, StatusPath(lockId), PUT, session);
    var results := server.MakeRequest(Request(options, None));
    serialNumber := SerialNumberOf(results);
  }
}
