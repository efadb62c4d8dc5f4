/**
 * The service handlers: list all services, add one, delete one by id. The
 * `emergency_services` table is an object whose rows the handlers change.
 * A database error during a handler is an input (`dbError` holds the
 * text of the exception); the transaction is then not committed and the
 * table is left as it was.
 */
module Services {
  import opened Common

  /** One service as `GET /api/services` lists it. */
  datatype ServiceView = ServiceView(
    id: nat,
    name: Json,
    kind: Json,
    longitude: Num,
    latitude: Num,
    address: Json,
    contactInfo: Json)

  /** The listing columns of a row: id, name, type, longitude, latitude, address, contact_info. */
  function View(row: ServiceRow): ServiceView
  {
    ServiceView(row.id, row.name, row.kind, row.location.x, row.location.y, row.address, row.contactInfo)
  }

  /** `all(field in data for field in required_fields)` over the six required keys. */
  predicate HasRequiredFields(data: map<string, Json>)
  {
    && "name" in data && "type" in data && "latitude" in data && "longitude" in data
    && "address" in data && "contact_info" in data
  }

  /** How the validation of an add-service request ends. */
  datatype Validation =
    | Accepted(row: ServiceRow)
    | Rejected(reply: Reply<()>)

  const MissingFields := "Missing required fields"
  const InvalidNumbers := "Latitude and Longitude must be valid numbers"

  /**
   * The checks `add_service` makes before touching the database, and the
   * row it would insert under `id`: a missing field answers 400; then
   * `float(latitude)` and `float(longitude)` are evaluated in that order, a
   * `ValueError` answers 400 and a `TypeError` escapes the handler, so Flask
   * answers 500. The point is made longitude first.
   */
  function ValidateService(data: map<string, Json>, id: nat, parse: string -> Option<Num>): (v: Validation)
    ensures !HasRequiredFields(data) ==> v == Rejected(Reply(400, Error(MissingFields)))
    ensures v.Accepted? <==>
      && HasRequiredFields(data)
      && FloatOfJson(data["latitude"], parse).Float?
      && FloatOfJson(data["longitude"], parse).Float?
    ensures HasRequiredFields(data) && FloatOfJson(data["latitude"], parse) == ValueError ==>
      v == Rejected(Reply(400, Error(InvalidNumbers)))
    ensures HasRequiredFields(data) && FloatOfJson(data["latitude"], parse) == TypeError ==>
      v == Rejected(Reply(500, Unhandled))
    ensures HasRequiredFields(data) && FloatOfJson(data["latitude"], parse).Float? ==>
      && (FloatOfJson(data["longitude"], parse) == ValueError ==> v == Rejected(Reply(400, Error(InvalidNumbers))))
      && (FloatOfJson(data["longitude"], parse) == TypeError ==> v == Rejected(Reply(500, Unhandled)))
    ensures v.Accepted? ==>
      v.row == ServiceRow(id, data["name"], data["type"],
                          Point(FloatOfJson(data["longitude"], parse).value, FloatOfJson(data["latitude"], parse).value),
                          data["address"], data["contact_info"])
  {
    if !HasRequiredFields(data) then Rejected(Reply(400, Error(MissingFields)))
    else
      match (FloatOfJson(data["latitude"], parse), FloatOfJson(data["longitude"], parse))
      case (TypeError, _) => Rejected(Reply(500, Unhandled))
      case (ValueError, _) => Rejected(Reply(400, Error(InvalidNumbers)))
      case (Float(_), TypeError) => Rejected(Reply(500, Unhandled))
      case (Float(_), ValueError) => Rejected(Reply(400, Error(InvalidNumbers)))
      case (Float(lat), Float(lon)) =>
        Accepted(ServiceRow(id, data["name"], data["type"], Point(lon, lat), data["address"], data["contact_info"]))
  }

  /** Every row of `rows` whose id is not `id`, in order. */
  function WithoutId(rows: seq<ServiceRow>, id: nat): (r: seq<ServiceRow>)
    ensures forall row :: row in r <==> row in rows && row.id != id
    ensures (forall k :: 0 <= k < |rows| ==> rows[k].id != id) ==> r == rows
  {
    Filter(rows, (row: ServiceRow) => row.id != id)
  }

  /** Ids are distinct and below the next id the table's serial column will hand out. */
  ghost predicate IdsBelow(rows: seq<ServiceRow>, nextId: nat)
  {
    && (forall k :: 0 <= k < |rows| ==> rows[k].id < nextId)
    && (forall j, k :: 0 <= j < k < |rows| ==> rows[j].id != rows[k].id)
  }

  /** Deleting rows keeps the ids distinct and below the next id. */
  lemma {:induction false} WithoutIdKeepsIds(rows: seq<ServiceRow>, id: nat, nextId: nat)
    requires IdsBelow(rows, nextId)
    ensures IdsBelow(WithoutId(rows, id), nextId)
  {
    if rows != [] {
      var rest := rows[1..];
      assert IdsBelow(rest, nextId);
      WithoutIdKeepsIds(rest, id, nextId);
      var tail := WithoutId(rest, id);
      if rows[0].id != id {
        assert WithoutId(rows, id) == [rows[0]] + tail;
        forall k | 0 <= k < |tail| ensures tail[k].id != rows[0].id {
          assert tail[k] in rest;
        }
      } else {
        assert WithoutId(rows, id) == tail;
      }
    }
  }

  /** Removing the rows with a present id leaves one row fewer when ids are distinct. */
  lemma {:induction false} WithoutIdRemovesOne(rows: seq<ServiceRow>, id: nat, nextId: nat)
    requires IdsBelow(rows, nextId)
    requires exists k :: 0 <= k < |rows| && rows[k].id == id
    ensures |WithoutId(rows, id)| == |rows| - 1
  {
    if rows[0].id == id {
      assert IdsBelow(rows[1..], nextId);
      assert forall k :: 0 <= k < |rows[1..]| ==> rows[1..][k].id != id;
      assert WithoutId(rows, id) == WithoutId(rows[1..], id);
    } else {
      assert IdsBelow(rows[1..], nextId);
      var k :| 0 <= k < |rows| && rows[k].id == id;
      assert rows[1..][k - 1].id == id;
      WithoutIdRemovesOne(rows[1..], id, nextId);
      assert WithoutId(rows, id) == [rows[0]] + WithoutId(rows[1..], id);
    }
  }

  const NoServices := "No emergency services found"
  const ServiceAdded := "Service added successfully"
  const ServiceNotFound := "Service not found"

  /** The `emergency_services` table. */
  class ServicesTable {
    var rows: seq<ServiceRow>
    var nextId: nat

    ghost predicate Valid()
      reads this
    {
      IdsBelow(rows, nextId)
    }

    constructor ()
      ensures Valid() && rows == [] && nextId == 1
    {
      rows := [];
      nextId := 1;
    }

    /**
     * `get_services`: 500 on a database error, 404 for an empty table,
     * otherwise 200 with every row listed, in the model's stored order.
     */
    function GetServices(dbError: Option<string>): (r: Reply<seq<ServiceView>>)
      reads this
      ensures dbError.Some? ==> r == Reply(500, Error("Failed to fetch services: " + dbError.value))
      ensures dbError.None? && rows == [] ==> r == Reply(404, Message(NoServices))
      ensures r.status == 200 <==> dbError.None? && rows != []
      ensures r.status == 200 ==>
        && r.body.Data?
        && |r.body.value| == |rows|
        && forall k :: 0 <= k < |rows| ==> r.body.value[k] == View(rows[k])
    {
      if dbError.Some? then Reply(500, Error("Failed to fetch services: " + dbError.value))
      else if rows == [] then Reply(404, Message(NoServices))
      else Reply(200, Data(seq(|rows|, k requires 0 <= k < |rows| reads this => View(rows[k]))))
    }

    /**
     * `add_service`: validation first, nothing inserted when it fails; then
     * one insert, which a database error undoes.
     */
    method AddService(data: map<string, Json>, dbError: Option<string>, parse: string -> Option<Num>)
      returns (reply: Reply<()>)
      requires Valid()
      modifies this
      ensures Valid()
      ensures ValidateService(data, old(nextId), parse).Rejected? ==>
        && reply == ValidateService(data, old(nextId), parse).reply
        && rows == old(rows) && nextId == old(nextId)
      ensures ValidateService(data, old(nextId), parse).Accepted? && dbError.Some? ==>
        && reply == Reply(500, Error("Failed to add service: " + dbError.value))
        && rows == old(rows) && nextId == old(nextId)
      ensures ValidateService(data, old(nextId), parse).Accepted? && dbError.None? ==>
        && reply == Reply(201, Message(ServiceAdded))
        && rows == old(rows) + [ValidateService(data, old(nextId), parse).row]
        && nextId == old(nextId) + 1
    {
      match ValidateService(data, nextId, parse)
      case Rejected(r) =>
        reply := r;
      case Accepted(row) =>
        if dbError.Some? {
          reply := Reply(500, Error("Failed to add service: " + dbError.value));
        } else {
          rows := rows + [row];
          nextId := nextId + 1;
          reply := Reply(201, Message(ServiceAdded));
        }
    }

    /**
     * `delete_service`: 404 and no change for an absent id; otherwise the
     * rows with that id are deleted, all others kept in order, and 200.
     */
    method DeleteService(serviceId: nat, dbError: Option<string>) returns (reply: Reply<()>)
      requires Valid()
      modifies this
      ensures Valid() && nextId == old(nextId)
      ensures dbError.Some? ==>
        reply == Reply(500, Error("Failed to delete service: " + dbError.value)) && rows == old(rows)
      ensures dbError.None? && (forall k :: 0 <= k < |old(rows)| ==> old(rows)[k].id != serviceId) ==>
        reply == Reply(404, Error(ServiceNotFound)) && rows == old(rows)
      ensures dbError.None? && (exists k :: 0 <= k < |old(rows)| && old(rows)[k].id == serviceId) ==>
        && reply == Reply(200, Message("Service with ID " + NatToString(serviceId) + " deleted successfully"))
        && rows == WithoutId(old(rows), serviceId)
        && |rows| == |old(rows)| - 1
    {
      if dbError.Some? {
        reply := Reply(500, Error("Failed to delete service: " + dbError.value));
        return;
      }
      if forall k :: 0 <= k < |rows| ==> rows[k].id != serviceId {
        reply := Reply(404, Error(ServiceNotFound));
        return;
      }
      WithoutIdRemovesOne(rows, serviceId, nextId);
      WithoutIdKeepsIds(rows, serviceId, nextId);
      rows := WithoutId(rows, serviceId);
      reply := Reply(200, Message("Service with ID " + NatToString(serviceId) + " deleted successfully"));
    }
  }
}
