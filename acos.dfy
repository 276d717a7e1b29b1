/**
 * The appliance client facade as the v2 handlers see it: the outcome of a
 * remote call, the mutating calls the handlers issue, a client object that
 * records every call it is asked to make, and the JSON-like values that the
 * appliance's statistics replies are made of.
 */
module Acos {
  import opened Wrappers

  /**
   * What a remote call reports: success, or one of the error classes of the
   * client library that the handlers tell apart (`Exists`,
   * `AddressSpecifiedIsInUse`, `NotFound`, anything else).
   */
  datatype Outcome = Ok | Exists | AddrInUse | NotFound | Other

  /** The administrative status sent with a server, member or virtual server. */
  datatype Status = Up | Down

  /** `UP` unless the resource is administratively down. */
  function StatusFor(adminStateUp: bool): (s: Status)
    ensures s == Down <==> !adminStateUp
  {
    if adminStateUp then Up else Down
  }

  /**
   * The error that escapes a `try` block whose `except` clause absorbs the
   * outcomes in `absorbed`: none on success or on an absorbed outcome,
   * otherwise the outcome itself.
   */
  function Escapes(o: Outcome, absorbed: set<Outcome>): (e: Option<Outcome>)
    ensures e.None? <==> o == Ok || o in absorbed
    ensures e.Some? ==> e.value == o && e.value != Ok
  {
    if o == Ok || o in absorbed then None else Some(o)
  }

  /** A JSON-like value as returned by the appliance. */
  datatype Value = Num(n: int) | Str(s: string) | Arr(items: seq<Value>) | Obj(fields: map<string, Value>)

  /** A JSON object (a Python `dict` with string keys). */
  type Dict = map<string, Value>

  /** The mutating remote calls issued by the member and load-balancer handlers. */
  datatype Call =
    | ServerCreate(name: string, ip: string, status: Status, templates: Option<Value>, args: Dict)
    | ServerPortDelete(name: string, port: int, protocol: string)
    | ServerDelete(name: string)
    | MemberCreate(pool: string, server: string, port: int, status: Status, args: Dict)
    | MemberUpdate(pool: string, server: string, port: int, status: Status, args: Dict)
    | MemberDelete(pool: string, server: string, port: int)
    | VirtualServerCreate(name: string, vip: string, status: Status, vrid: Option<Value>, body: Dict)
    | VirtualServerUpdate(name: string, vip: string, status: Status, vrid: Option<Value>, body: Dict)
    | VirtualServerDelete(name: string)

  /**
   * The remote client `c.client`: every call is appended to `trace`, and the
   * appliance's answer is `respond(history, call)`, where `history` is every
   * call made before it; the appliance's behaviour is otherwise unknown.
   */
  class Client {
    var trace: seq<Call>
    const respond: (seq<Call>, Call) -> Outcome

    constructor (respond: (seq<Call>, Call) -> Outcome)
      ensures trace == []
      ensures this.respond == respond
    {
      trace := [];
      this.respond := respond;
    }

    /** Issues one remote call. */
    method Send(call: Call) returns (o: Outcome)
      modifies this
      ensures trace == old(trace) + [call]
      ensures o == respond(old(trace), call)
    {
      o := respond(trace, call);
      trace := trace + [call];
    }
  }
}
