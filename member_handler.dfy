/**
 * The v2 member handler (`MemberHandler` in v2/handler_member.py): the name
 * a member's server gets on the appliance, and the remote calls that create,
 * update, delete and read a member, with the idempotency policy their
 * `except` clauses implement.
 *
 * A handler run is the sequence of remote calls it issues on a `Client`,
 * plus the error that escapes it, if any. What the neutron helpers answer
 * (the member's IP, its metadata overrides, the pool name, how many members
 * share the server) is an input, `Lookups`.
 */
module MemberHandler {
  import opened Wrappers
  import opened Acos
  import Plumbing

  // ---------------------------------------------------------------------
  // Server names
  // ---------------------------------------------------------------------

  /** A character of a Python 2 byte string. */
  type Octet = c: char | c as int < 256 witness 'a'

  /** The characters a tenant label may keep: `[0-9a-zA-Z_-]`. */
  predicate LabelChar(c: char) {
    ('0' <= c <= '9') || ('a' <= c <= 'z') || ('A' <= c <= 'Z') || c == '_' || c == '-'
  }

  predicate AllLabelChars(s: string) {
    forall i :: 0 <= i < |s| ==> LabelChar(s[i])
  }

  /** The lower-case hexadecimal digit of a nibble. */
  function HexDigit(n: nat): (c: char)
    requires n < 16
    ensures LabelChar(c)
  {
    if n < 10 then ('0' as int + n) as char else ('a' as int + n - 10) as char
  }

  /** The nibble a lower-case hexadecimal digit stands for. */
  function HexValue(c: char): (r: Option<nat>)
    ensures r.Some? ==> r.value < 16 && HexDigit(r.value) == c
  {
    if '0' <= c <= '9' then Some(c as int - '0' as int)
    else if 'a' <= c <= 'f' then Some(c as int - 'a' as int + 10)
    else None
  }

  /** `binascii.hexlify`: two lower-case hexadecimal digits per byte. */
  function Hexlify(s: seq<Octet>): (r: string)
    ensures |r| == 2 * |s|
    ensures AllLabelChars(r)
  {
    if s == [] then []
    else [HexDigit(s[0] as int / 16), HexDigit(s[0] as int % 16)] + Hexlify(s[1..])
  }

  /** `binascii.unhexlify` on lower-case digits: the inverse of `Hexlify`. */
  function Unhexlify(r: string): Option<seq<Octet>>
    decreases |r|
  {
    if r == [] then Some([])
    else if |r| == 1 then None
    else match (HexValue(r[0]), HexValue(r[1]), Unhexlify(r[2..]))
      case (Some(hi), Some(lo), Some(rest)) => Some([(16 * hi + lo) as char] + rest)
      case _ => None
  }

  /** Hex encoding loses nothing: decoding a label gives back the bytes it was made from. */
  lemma {:induction false} UnhexlifyHexlify(s: seq<Octet>)
    ensures Unhexlify(Hexlify(s)) == Some(s)
  {
    if s != [] {
      var hi, lo := s[0] as int / 16, s[0] as int % 16;
      var r := Hexlify(s);
      assert r[0] == HexDigit(hi) && r[1] == HexDigit(lo) && r[2..] == Hexlify(s[1..]);
      assert HexValue(HexDigit(hi)) == Some(hi) && HexValue(HexDigit(lo)) == Some(lo);
      UnhexlifyHexlify(s[1..]);
      assert [(16 * hi + lo) as char] + s[1..] == s;
    }
  }

  /** `tenant_id[:5]` */
  function TenantPrefix(tenantId: seq<Octet>): (p: seq<Octet>)
    ensures |p| == if |tenantId| < 5 then |tenantId| else 5
    ensures p <= tenantId
  {
    tenantId[..if |tenantId| < 5 then |tenantId| else 5]
  }

  /**
   * The tenant part of a server name: the first five characters of the
   * tenant id, kept as they are when all of them are label characters and
   * hex-encoded otherwise. Either way the label holds label characters only,
   * and a hex-encoded label decodes back to the prefix.
   */
  function TenantLabel(tenantId: seq<Octet>): (tag: string)
    ensures AllLabelChars(tag)
    ensures tag == TenantPrefix(tenantId) <==> AllLabelChars(TenantPrefix(tenantId))
    ensures |tag| == if AllLabelChars(TenantPrefix(tenantId)) then |TenantPrefix(tenantId)| else 2 * |TenantPrefix(tenantId)|
    ensures !AllLabelChars(TenantPrefix(tenantId)) ==> Unhexlify(tag) == Some(TenantPrefix(tenantId))
  {
    var prefix := TenantPrefix(tenantId);
    if AllLabelChars(prefix) then prefix
    else
      UnhexlifyHexlify(prefix);
      Hexlify(prefix)
  }

  /** How many `.` characters a string holds. */
  function DotCount(s: string): nat {
    if s == [] then 0 else (if s[0] == '.' then 1 else 0) + DotCount(s[1..])
  }

  /** `s.replace(".", "_", count)`: the first `count` dots become underscores. */
  function ReplaceDots(s: string, count: nat): (r: string)
    ensures |r| == |s|
  {
    if s == [] then []
    else if s[0] == '.' && count > 0 then ['_'] + ReplaceDots(s[1..], count - 1)
    else [s[0]] + ReplaceDots(s[1..], count)
  }

  /** A character is replaced exactly when it is a dot preceded by fewer than `count` dots. */
  lemma {:induction false} ReplaceDotsAt(s: string, count: nat, i: nat)
    requires i < |s|
    ensures ReplaceDots(s, count)[i] == if s[i] == '.' && DotCount(s[..i]) < count then '_' else s[i]
  {
    if i > 0 {
      assert s[..i][1..] == s[1..][..i - 1];
      if s[0] == '.' && count > 0 {
        ReplaceDotsAt(s[1..], count - 1, i - 1);
      } else {
        ReplaceDotsAt(s[1..], count, i - 1);
      }
    }
  }

  /** At most `count` dots are replaced: the dots left are those beyond the first `count`. */
  lemma {:induction false} ReplaceDotsLeaves(s: string, count: nat)
    ensures DotCount(ReplaceDots(s, count)) == if DotCount(s) <= count then 0 else DotCount(s) - count
  {
    if s != [] {
      var r := ReplaceDots(s, count);
      if s[0] == '.' && count > 0 {
        ReplaceDotsLeaves(s[1..], count - 1);
        assert r[1..] == ReplaceDots(s[1..], count - 1);
      } else {
        ReplaceDotsLeaves(s[1..], count);
        assert r[1..] == ReplaceDots(s[1..], count);
      }
    }
  }

  /** A string holds no dot exactly when its dot count is zero. */
  lemma {:induction false} NoDotWhenCountZero(s: string)
    ensures DotCount(s) == 0 <==> '.' !in s
  {
    if s != [] {
      NoDotWhenCountZero(s[1..]);
      assert s == [s[0]] + s[1..];
    }
  }

  /** A member of a pool: the fields of the neutron member the handler reads. */
  datatype Member = Member(id: string, tenantId: seq<Octet>, adminStateUp: bool, protocolPort: int)

  /**
   * `_get_name`: the member's id when `member_name_use_uuid` is set,
   * otherwise `_<tenant label>_<address with dots replaced>_neutron`.
   */
  function GetName(useUuid: bool, m: Member, ip: string): (name: string)
    ensures useUuid ==> name == m.id
    ensures !useUuid ==> name == "_" + TenantLabel(m.tenantId) + "_" + ReplaceDots(ip, 4) + "_neutron"
  {
    if useUuid then m.id
    else "_" + TenantLabel(m.tenantId) + "_" + ReplaceDots(ip, 4) + "_neutron"
  }

  /**
   * A generated name for an address with at most four dots (any IPv4 or
   * IPv6 address) contains no dot, and its address part is as long as the
   * address.
   */
  lemma GeneratedNameHasNoDot(m: Member, ip: string)
    requires DotCount(ip) <= 4
    ensures '.' !in GetName(false, m, ip)
    ensures |GetName(false, m, ip)| == |TenantLabel(m.tenantId)| + |ip| + 10
  {
    var tenantTag := TenantLabel(m.tenantId);
    var addr := ReplaceDots(ip, 4);
    ReplaceDotsLeaves(ip, 4);
    NoDotWhenCountZero(addr);
    assert '.' !in tenantTag;
    var name := GetName(false, m, ip);
    assert name == "_" + tenantTag + "_" + addr + "_neutron";
    assert '.' !in "_neutron";
  }

  // ---------------------------------------------------------------------
  // Remote calls of one handler run
  // ---------------------------------------------------------------------

  /** The device configuration entries `_create` reads. */
  datatype DeviceConfig = DeviceConfig(connLimit: Option<Value>, connResume: Option<Value>, templates: Option<Dict>)

  /**
   * What the helpers outside this model answer for one member: its IP
   * (`member_get_ip`), the `name`, `server` and `member` metadata
   * (`meta`), the pool name (`_pool_name`) and how many members use the
   * same server (`member_count`).
   */
  datatype Lookups = Lookups(serverIp: string, nameMeta: Option<string>, serverMeta: Dict, memberMeta: Dict, pool: string, memberCount: int)

  /** `_meta_name`: the `name` metadata if any, the generated name otherwise. */
  function ServerName(useUuid: bool, m: Member, look: Lookups): (n: string)
    ensures look.nameMeta.Some? ==> n == look.nameMeta.value
    ensures look.nameMeta.None? && useUuid ==> n == m.id
    ensures look.nameMeta.None? && !useUuid ==> n == GetName(false, m, look.serverIp)
  {
    look.nameMeta.GetOr(GetName(useUuid, m, look.serverIp))
  }

  /**
   * The `axapi_args` of the server create: the `server` metadata, with the
   * configured `conn-limit` and `conn-resume` set over it, under `server`.
   */
  function ServerArgs(meta: Dict, dev: DeviceConfig): (r: Dict)
    ensures r.Keys == {"server"} && r["server"].Obj?
    ensures var a := r["server"].fields;
      && a.Keys == meta.Keys + (if dev.connLimit.Some? then {"conn-limit"} else {}) + (if dev.connResume.Some? then {"conn-resume"} else {})
      && (dev.connLimit.Some? ==> a["conn-limit"] == dev.connLimit.value)
      && (dev.connResume.Some? ==> a["conn-resume"] == dev.connResume.value)
      && (forall k :: k in meta && !(k == "conn-limit" && dev.connLimit.Some?) && !(k == "conn-resume" && dev.connResume.Some?) ==> a[k] == meta[k])
  {
    var withLimit := if dev.connLimit.Some? then meta["conn-limit" := dev.connLimit.value] else meta;
    var withResume := if dev.connResume.Some? then withLimit["conn-resume" := dev.connResume.value] else withLimit;
    map["server" := Obj(withResume)]
  }

  /** The `server` template of the device, when templates are configured and name one. */
  function ServerTemplates(dev: DeviceConfig): (r: Option<Value>)
    ensures r.Some? <==> dev.templates.Some? && "server" in dev.templates.value
    ensures r.Some? ==> r.value == dev.templates.value["server"]
  {
    if dev.templates.Some? && dev.templates.value != map[] then
      if "server" in dev.templates.value then Some(dev.templates.value["server"]) else None
    else None
  }

  function ServerCreateCall(useUuid: bool, m: Member, look: Lookups, dev: DeviceConfig): Call {
    ServerCreate(ServerName(useUuid, m, look), look.serverIp, StatusFor(m.adminStateUp), ServerTemplates(dev), ServerArgs(look.serverMeta, dev))
  }

  function MemberCreateCall(useUuid: bool, m: Member, look: Lookups): Call {
    MemberCreate(look.pool, ServerName(useUuid, m, look), m.protocolPort, StatusFor(m.adminStateUp), map["member" := Obj(look.memberMeta)])
  }

  function MemberUpdateCall(useUuid: bool, m: Member, look: Lookups): Call {
    MemberUpdate(look.pool, ServerName(useUuid, m, look), m.protocolPort, StatusFor(m.adminStateUp), map["member" := Obj(look.memberMeta)])
  }

  /** The call `_delete` makes after removing the port: the service-group member if others share the server, else the server. */
  function SecondDeleteCall(useUuid: bool, m: Member, look: Lookups): Call {
    if look.memberCount > 1 then MemberDelete(look.pool, ServerName(useUuid, m, look), m.protocolPort)
    else ServerDelete(ServerName(useUuid, m, look))
  }

  /** The calls a handler run issued and the error that escaped it. */
  datatype Run = Run(calls: seq<Call>, escaped: Option<Outcome>)

  /**
   * `_create`: create the server, absorbing `Exists` and
   * `AddressSpecifiedIsInUse`; then add it to the pool, absorbing `Exists`.
   * Any other error stops the run and escapes.
   */
  function CreateRun(respond: (seq<Call>, Call) -> Outcome, before: seq<Call>, server: Call, member: Call): Run {
    match Escapes(respond(before, server), {Exists, AddrInUse})
    case Some(e) => Run([server], Some(e))
    case None => Run([server, member], Escapes(respond(before + [server], member), {Exists}))
  }

  /** `update`: update the pool member; when the appliance does not know it, run `_create` instead. */
  function UpdateRun(respond: (seq<Call>, Call) -> Outcome, before: seq<Call>, update: Call, server: Call, member: Call): Run {
    var o := respond(before, update);
    if o == NotFound then
      var recovery := CreateRun(respond, before + [update], server, member);
      Run([update] + recovery.calls, recovery.escaped)
    else Run([update], Escapes(o, {}))
  }

  /** `_delete`: remove the server port, then the member or the server; `NotFound` ends the run quietly. */
  function DeleteRun(respond: (seq<Call>, Call) -> Outcome, before: seq<Call>, port: Call, second: Call): Run {
    var o := respond(before, port);
    if o != Ok then Run([port], Escapes(o, {NotFound}))
    else Run([port, second], Escapes(respond(before + [port], second), {NotFound}))
  }

  /**
   * The create policy: the server is always created first; an `Exists` or
   * `AddressSpecifiedIsInUse` from it still leads to the member create;
   * `Exists` never escapes; an escaping `AddressSpecifiedIsInUse` can only
   * come from the member create.
   */
  lemma CreatePolicy(respond: (seq<Call>, Call) -> Outcome, before: seq<Call>, server: Call, member: Call)
    ensures var run := CreateRun(respond, before, server, member);
      && 1 <= |run.calls| <= 2 && run.calls[0] == server
      && (|run.calls| == 2 <==> respond(before, server) in {Ok, Exists, AddrInUse})
      && (|run.calls| == 2 ==> run.calls[1] == member)
      && run.escaped != Some(Exists)
      && (run.escaped == Some(AddrInUse) ==> |run.calls| == 2)
      && (run.escaped.None? <==> respond(before, server) in {Ok, Exists, AddrInUse} && respond(before + [server], member) in {Ok, Exists})
  {
  }

  /**
   * The update policy: only `NotFound` triggers the recovery, which issues
   * exactly the calls of `_create` and lets whatever `_create` lets escape;
   * a `NotFound` during recovery is not recovered from a second time.
   */
  lemma UpdateSelfHeals(respond: (seq<Call>, Call) -> Outcome, before: seq<Call>, update: Call, server: Call, member: Call)
    ensures var run := UpdateRun(respond, before, update, server, member);
      var recovery := CreateRun(respond, before + [update], server, member);
      && run.calls[0] == update
      && (respond(before, update) == NotFound ==> run.calls[1..] == recovery.calls && run.escaped == recovery.escaped)
      && (respond(before, update) == NotFound && respond(before + [update], server) == NotFound ==> run.escaped == Some(NotFound))
      && (respond(before, update) != NotFound ==> run.calls == [update] && (run.escaped.None? <==> respond(before, update) == Ok))
  {
  }

  /**
   * The delete policy: the port goes first, at most one more call follows,
   * `NotFound` never escapes, and a `NotFound` on the port stops the run.
   * Every other error, from either call, escapes as it is.
   */
  lemma DeletePolicy(respond: (seq<Call>, Call) -> Outcome, before: seq<Call>, port: Call, second: Call)
    ensures var run := DeleteRun(respond, before, port, second);
      && 1 <= |run.calls| <= 2 && run.calls[0] == port
      && (|run.calls| == 2 <==> respond(before, port) == Ok)
      && (|run.calls| == 2 ==> run.calls[1] == second)
      && run.escaped != Some(NotFound)
      && (run.escaped.None? <==> (respond(before, port) in {Ok, NotFound}
            && (respond(before, port) == Ok ==> respond(before + [port], second) in {Ok, NotFound})))
      && (respond(before, port) !in {Ok, NotFound} ==> run.escaped == Some(respond(before, port)))
      && (respond(before, port) == Ok && respond(before + [port], second) !in {Ok, NotFound} ==> run.escaped == Some(respond(before + [port], second)))
  {
  }

  /** Every call of a member run carries `DOWN` exactly when the member is administratively down. */
  lemma StatusFollowsAdminState(useUuid: bool, m: Member, look: Lookups, dev: DeviceConfig)
    ensures ServerCreateCall(useUuid, m, look, dev).status == Down <==> !m.adminStateUp
    ensures MemberCreateCall(useUuid, m, look).status == Down <==> !m.adminStateUp
    ensures MemberUpdateCall(useUuid, m, look).status == Down <==> !m.adminStateUp
  {
  }

  // ---------------------------------------------------------------------
  // The handler methods
  // ---------------------------------------------------------------------

  /**
   * The server arguments and templates of `_create`, assembled step by step:
   * it mirrors the in-place mutation of `server_args` and the template lookup,
   * and is proved equal to the value-level `ServerArgs` and `ServerTemplates`.
   */
  method BuildServerArgs(meta: Dict, dev: DeviceConfig) returns (wrapped: Dict, serverTemplates: Option<Value>)
    ensures wrapped == ServerArgs(meta, dev) && serverTemplates == ServerTemplates(dev)
  {
    var serverArgs := meta;
    if dev.connLimit.Some? {
      serverArgs := serverArgs["conn-limit" := dev.connLimit.value];
    }
    if dev.connResume.Some? {
      serverArgs := serverArgs["conn-resume" := dev.connResume.value];
    }
    wrapped := map["server" := Obj(serverArgs)];
    serverTemplates := None;
    if dev.templates.Some? && dev.templates.value != map[] {
      serverTemplates := if "server" in dev.templates.value then Some(dev.templates.value["server"]) else None;
    }
  }

  /** `_create`: the server arguments are built up in place, then the two creates are issued. */
  method CreateOnDevice(c: Client, useUuid: bool, m: Member, look: Lookups, dev: DeviceConfig) returns (escaped: Option<Outcome>)
    modifies c
    ensures var run := CreateRun(c.respond, old(c.trace), ServerCreateCall(useUuid, m, look, dev), MemberCreateCall(useUuid, m, look));
      c.trace == old(c.trace) + run.calls && escaped == run.escaped
  {
    var serverIp := look.serverIp;
    var serverName := ServerName(useUuid, m, look);
    var status := Up;
    if !m.adminStateUp {
      status := Down;
    }

    var wrapped, serverTemplates := BuildServerArgs(look.serverMeta, dev);
    var server := ServerCreate(serverName, serverIp, status, serverTemplates, wrapped);
    var member := MemberCreate(look.pool, serverName, m.protocolPort, status, map["member" := Obj(look.memberMeta)]);
    assert server == ServerCreateCall(useUuid, m, look, dev) && member == MemberCreateCall(useUuid, m, look);

    var o := c.Send(server);
    if o != Ok && o != Exists && o != AddrInUse {
      return Some(o);
    }
    o := c.Send(member);
    escaped := if o == Ok || o == Exists then None else Some(o);
  }

  /** `create`: `_create`, then the plumbing hook when nothing escaped. */
  method Create(c: Client, hooks: Plumbing.PlumbingHooks, useUuid: bool, m: Member, look: Lookups, dev: DeviceConfig) returns (escaped: Option<Outcome>)
    modifies c
    ensures var run := CreateRun(c.respond, old(c.trace), ServerCreateCall(useUuid, m, look, dev), MemberCreateCall(useUuid, m, look));
      c.trace == old(c.trace) + run.calls && escaped == run.escaped
  {
    escaped := CreateOnDevice(c, useUuid, m, look, dev);
    if escaped.None? {
      hooks.AfterMemberCreate();
    }
  }

  /** `update`: update the pool member, falling back to `_create` on `NotFound`. */
  method Update(c: Client, hooks: Plumbing.PlumbingHooks, useUuid: bool, m: Member, look: Lookups, dev: DeviceConfig) returns (escaped: Option<Outcome>)
    modifies c
    ensures var run := UpdateRun(c.respond, old(c.trace), MemberUpdateCall(useUuid, m, look), ServerCreateCall(useUuid, m, look, dev), MemberCreateCall(useUuid, m, look));
      c.trace == old(c.trace) + run.calls && escaped == run.escaped
  {
    var serverName := ServerName(useUuid, m, look);
    var status := Up;
    if !m.adminStateUp {
      status := Down;
    }
    var o := c.Send(MemberUpdate(look.pool, serverName, m.protocolPort, status, map["member" := Obj(look.memberMeta)]));
    if o == NotFound {
      escaped := CreateOnDevice(c, useUuid, m, look, dev);
    } else {
      escaped := if o == Ok then None else Some(o);
    }
    if escaped.None? {
      hooks.AfterMemberUpdate();
    }
  }

  /** `_delete`: remove the server port, then the member or the whole server, absorbing `NotFound`. */
  method DeleteOnDevice(c: Client, hooks: Plumbing.PlumbingHooks, useUuid: bool, m: Member, look: Lookups) returns (escaped: Option<Outcome>)
    modifies c
    ensures var run := DeleteRun(c.respond, old(c.trace), ServerPortDelete(ServerName(useUuid, m, look), m.protocolPort, "TCP"), SecondDeleteCall(useUuid, m, look));
      c.trace == old(c.trace) + run.calls && escaped == run.escaped
  {
    var serverName := ServerName(useUuid, m, look);
    escaped := None;
    var o := c.Send(ServerPortDelete(serverName, m.protocolPort, "TCP"));
    if o == Ok {
      if look.memberCount > 1 {
        o := c.Send(MemberDelete(look.pool, serverName, m.protocolPort));
      } else {
        o := c.Send(ServerDelete(serverName));
      }
    }
    if o != Ok && o != NotFound {
      return Some(o);
    }
    hooks.AfterMemberDelete();
  }

  /** The counters `stats` returns when reading them failed. */
  const ZeroStats: Dict := map["servers_up" := Num(0), "servers_down" := Num(0), "servers_disable" := Num(0), "servers_total" := Num(0)]

  /**
   * `stats`: the appliance's reply (None: anything in the block raised).
   * It never fails: on failure all four server counters are zero.
   */
  function Stats(reply: Option<Dict>): (r: Dict)
    ensures reply.None? ==> r.Keys == {"servers_up", "servers_down", "servers_disable", "servers_total"} && forall k :: k in r ==> r[k] == Num(0)
    ensures reply.Some? ==> r == reply.value
  {
    match reply
    case None => ZeroStats
    case Some(stats) => stats
  }
}
