/**
 * The service registry: a table from protocol to the instance a started
 * plugin published under it, with the id of the plugin that owns the entry.
 */
module Services {
  import opened Common

  /** A protocol (interface or class) is an opaque name here. */
  type Protocol = string

  /** A service instance is identified by name. */
  type Instance = string

  /**
   * A plugin attribute flagged `service=True`: the instance it holds, the
   * type it is declared with, and the `service_protocol=` override if any.
   */
  datatype ServiceDecl = ServiceDecl(attribute: string, valueType: Protocol, protocolOverride: Option<Protocol>, instance: Instance)

  /** A plugin attribute declared `Service(P)`: it reads the registry's instance for protocol P. */
  datatype ServiceRef = ServiceRef(attribute: string, protocol: Protocol)

  /** The protocol of the `Service(P)` attribute named `attribute`, or None when it is not one. */
  function RefOf(refs: seq<ServiceRef>, attribute: string): (r: Option<Protocol>)
    ensures r.None? <==> forall i :: 0 <= i < |refs| ==> refs[i].attribute != attribute
    ensures r.Some? ==> ServiceRef(attribute, r.value) in refs
    decreases |refs|
  {
    if refs == [] then None
    else if refs[0].attribute == attribute then Some(refs[0].protocol)
    else
      var r := RefOf(refs[1..], attribute);
      assert forall i :: 1 <= i < |refs| ==> refs[i] == refs[1..][i - 1];
      r
  }

  datatype Registration = Registration(instance: Instance, owner: string)

  type Registry = map<Protocol, Registration>

  /** The protocol a service is registered under: the override when given, else its declared type. */
  function ProtocolOf(d: ServiceDecl): (p: Protocol)
    ensures d.protocolOverride.Some? ==> p == d.protocolOverride.value
    ensures d.protocolOverride.None? ==> p == d.valueType
  {
    d.protocolOverride.GetOr(d.valueType)
  }

  function Protocols(ds: seq<ServiceDecl>): set<Protocol>
  {
    set d | d in ds :: ProtocolOf(d)
  }

  /**
   * Registers every service of plugin `owner`, in declaration order; an
   * entry under the same protocol is replaced.
   */
  function Register(reg: Registry, owner: string, ds: seq<ServiceDecl>): Registry
    decreases |ds|
  {
    if ds == [] then reg
    else Register(reg[ProtocolOf(ds[0]) := Registration(ds[0].instance, owner)], owner, ds[1..])
  }

  /**
   * Registration adds exactly the protocols of the plugin's services, all
   * owned by the plugin, and leaves every other entry as it was.
   */
  lemma {:induction false} RegisterEffect(reg: Registry, owner: string, ds: seq<ServiceDecl>)
    ensures Register(reg, owner, ds).Keys == reg.Keys + Protocols(ds)
    ensures forall k :: k in reg && k !in Protocols(ds) ==> Register(reg, owner, ds)[k] == reg[k]
    ensures forall k :: k in Protocols(ds) ==> Register(reg, owner, ds)[k].owner == owner
    decreases |ds|
  {
    if ds != [] {
      assert Protocols(ds) == {ProtocolOf(ds[0])} + Protocols(ds[1..]) by {
        assert ds == [ds[0]] + ds[1..];
      }
      RegisterEffect(reg[ProtocolOf(ds[0]) := Registration(ds[0].instance, owner)], owner, ds[1..]);
    }
  }

  /** Removes every entry owned by `owner`; nothing else changes. */
  function Unregister(reg: Registry, owner: string): (r: Registry)
    ensures forall k :: k in r <==> k in reg && reg[k].owner != owner
    ensures forall k :: k in r ==> r[k] == reg[k]
  {
    map k | k in reg && reg[k].owner != owner :: reg[k]
  }

  /** Removes every entry owned by any of `owners`. */
  function RemoveOwners(reg: Registry, owners: set<string>): (r: Registry)
    ensures forall k :: k in r <==> k in reg && reg[k].owner !in owners
    ensures forall k :: k in r ==> r[k] == reg[k]
  {
    map k | k in reg && reg[k].owner !in owners :: reg[k]
  }

  /** `get_service(protocol)`: the registered instance, or None; absence is not an error. */
  function Lookup(reg: Registry, protocol: Protocol): Option<Instance>
  {
    if protocol in reg then Some(reg[protocol].instance) else None
  }

  /**
   * After registration, a service is found under its protocol unless a
   * later service of the same plugin takes that protocol over.
   */
  lemma {:induction false} RegisterThenLookup(reg: Registry, owner: string, ds: seq<ServiceDecl>, i: nat)
    requires i < |ds|
    requires forall j :: i < j < |ds| ==> ProtocolOf(ds[j]) != ProtocolOf(ds[i])
    ensures Lookup(Register(reg, owner, ds), ProtocolOf(ds[i])) == Some(ds[i].instance)
    decreases |ds|
  {
    var reg1 := reg[ProtocolOf(ds[0]) := Registration(ds[0].instance, owner)];
    if i == 0 {
      RegisterEffect(reg1, owner, ds[1..]);
      assert forall j :: 0 <= j < |ds[1..]| ==> ds[1..][j] == ds[j + 1];
      assert ProtocolOf(ds[0]) !in Protocols(ds[1..]);
    } else {
      assert forall j :: i - 1 < j < |ds[1..]| ==> ds[1..][j] == ds[j + 1];
      RegisterThenLookup(reg1, owner, ds[1..], i - 1);
    }
  }

  /** Unregistering a plugin removes what it registered, together with the entries its registration replaced. */
  lemma UnregisterAfterRegister(reg: Registry, owner: string, ds: seq<ServiceDecl>)
    ensures Unregister(Register(reg, owner, ds), owner) == Unregister(reg, owner) - Protocols(ds)
  {
    RegisterEffect(reg, owner, ds);
  }

  /** Unregistering one owner and then a set of owners removes the entries of all of them. */
  lemma RemoveOwnersAfterUnregister(reg: Registry, owner: string, owners: set<string>)
    ensures RemoveOwners(Unregister(reg, owner), owners) == RemoveOwners(reg, {owner} + owners)
  {
  }

  /**
   * The registry keeps one entry per protocol: when a second plugin
   * registers a protocol the first already holds, unregistering the second
   * leaves nothing under that protocol, though the first still publishes it.
   */
  lemma LaterRegistrationShadows(reg: Registry, first: string, d1: ServiceDecl, second: string, d2: ServiceDecl)
    requires ProtocolOf(d1) == ProtocolOf(d2) && first != second
    ensures Lookup(Register(Register(reg, first, [d1]), second, [d2]), ProtocolOf(d1)) == Some(d2.instance)
    ensures Lookup(Unregister(Register(Register(reg, first, [d1]), second, [d2]), second), ProtocolOf(d1)) == None
  {
    var reg1 := Register(reg, first, [d1]);
    RegisterEffect(reg1, second, [d2]);
    RegisterThenLookup(reg1, second, [d2], 0);
    assert Protocols([d2]) == {ProtocolOf(d2)};
  }

  /** Removing no owner changes nothing. */
  lemma RemoveNoOwners(reg: Registry)
    ensures RemoveOwners(reg, {}) == reg
  {
  }

  /**
   * A service declared with `service_protocol=P` is found under P and not
   * under its own type, when nothing else was registered under that type.
   */
  lemma ProtocolOverride(reg: Registry, owner: string, d: ServiceDecl)
    requires d.protocolOverride.Some? && d.protocolOverride.value != d.valueType
    requires d.valueType !in reg
    ensures Lookup(Register(reg, owner, [d]), d.protocolOverride.value) == Some(d.instance)
    ensures Lookup(Register(reg, owner, [d]), d.valueType) == None
  {
    RegisterThenLookup(reg, owner, [d], 0);
    RegisterEffect(reg, owner, [d]);
    assert Protocols([d]) == {d.protocolOverride.value};
  }
}
