/** What a node publishes about itself: internal/app/coordinator_types.go. */
module Topology {
  import opened Prelude

  datatype Role = Coordinator | Client | Relay | Subnode | OtherRole(name: string)

  datatype Candidate = Candidate(address: string, expiresAt: Time)

  datatype Service = Service(
    nodeId: string, name: string, segment: string,
    candidates: seq<Candidate>, uuid: string, pin: string)

  datatype Advertisement = Advertisement(endpoint: string, pin: string, priority: int)

  datatype Node = Node(
    id: string, name: string, role: Role, segment: string, network: string, identityKey: string,
    services: seq<Service>, relay: Option<Advertisement>, upstream: string, lastSeen: Time)

  /** The first service of the name, None if there is none. */
  ghost predicate IsFirstService(services: seq<Service>, name: string, found: Option<Service>) {
    if found.None? then forall i :: 0 <= i < |services| ==> services[i].name != name
    else exists i :: 0 <= i < |services| && services[i] == found.value && found.value.name == name &&
                     forall j :: 0 <= j < i ==> services[j].name != name
  }

  method FindService(services: seq<Service>, name: string) returns (found: Option<Service>)
    ensures IsFirstService(services, name, found)
  {
    for i := 0 to |services|
      invariant forall j :: 0 <= j < i ==> services[j].name != name
    {
      if services[i].name == name {
        return Some(services[i]);
      }
    }
    found := None;
  }
}
