/**
 Port resolution and the EndpointSlice body: pkg/director/service_director.go, lines 968-1022
 and 1042-1129. Both fail closed.
 */
module Routing {
  import opened Wrappers
  import opened Kube
  import opened Selection

  /** net.ParseIP(ip) != nil && To4() == nil; which strings it accepts plays no part in this model. */
  const ParsesAsIPv6: string -> bool

  // ---------- Named ports ----------

  /** The first container port of this name. */
  function FirstInContainer(ports: seq<ContainerPort>, name: string): Option<int> {
    if ports == [] then None
    else if ports[0].name == name then Some(ports[0].containerPort)
    else FirstInContainer(ports[1..], name)
  }

  /** The first port of this name, container by container. */
  function FirstNamed(containers: seq<seq<ContainerPort>>, name: string): Option<int> {
    if containers == [] then None
    else
      var here := FirstInContainer(containers[0], name);
      if here.Some? then here else FirstNamed(containers[1..], name)
  }

  function ResolveNamedPort(pod: Pod, name: string): (r: Result<int, string>)
    ensures r.Success? <==> FirstNamed(pod.containers, name).Some? && FirstNamed(pod.containers, name).value > 0
  {
    match FirstNamed(pod.containers, name)
    case None => Failure("named port not found")
    case Some(n) => if n <= 0 then Failure("invalid port number") else Success(n)
  }

  // ---------- Service ports ----------

  function ResolvePort(port: ServicePort, leader: Option<Pod>): Result<ServicePort, string> {
    match port.targetPort
    case Number(_) => Success(port)
    case Named(name) =>
      if leader.None? then Failure("no leader pod available")
      else
        var r := ResolveNamedPort(leader.value, name);
        if r.Failure? then Failure(r.error) else Success(port.(targetPort := Number(r.value)))
  }

  /** resolveServicePorts: every port, or an error. */
  function ResolvePorts(ports: seq<ServicePort>, leader: Option<Pod>): Result<seq<ServicePort>, string> {
    if ports == [] then Success([])
    else
      var first := ResolvePort(ports[0], leader);
      if first.Failure? then Failure(first.error)
      else
        var rest := ResolvePorts(ports[1..], leader);
        if rest.Failure? then rest else Success([first.value] + rest.value)
  }

  predicate Resolvable(ports: seq<ServicePort>, leader: Option<Pod>) {
    ResolvePorts(ports, leader).Success?
  }

  /** One resolved port: all fields kept but the target, which is now the number it stands for. */
  ghost predicate ResolvedFrom(resolved: ServicePort, port: ServicePort, leader: Option<Pod>) {
    && resolved == port.(targetPort := resolved.targetPort)
    && resolved.targetPort.Number?
    && match port.targetPort
       case Number(n) => resolved.targetPort.number == n
       case Named(name) =>
         && leader.Some?
         && FirstNamed(leader.value.containers, name) == Some(resolved.targetPort.number)
         && resolved.targetPort.number > 0
  }

  /** What resolving one port takes: a number, or a leader whose first port of that name is positive. */
  ghost predicate CanResolve(port: ServicePort, leader: Option<Pod>) {
    port.targetPort.Named? ==>
      && leader.Some?
      && FirstNamed(leader.value.containers, port.targetPort.name).Some?
      && FirstNamed(leader.value.containers, port.targetPort.name).value > 0
  }

  /**
   All or nothing: resolution succeeds exactly when each port can be resolved, and then keeps
   length, order, name and protocol; each named target is the first match's positive number.
   */
  lemma {:induction false} ResolutionIsAllOrNothing(ports: seq<ServicePort>, leader: Option<Pod>)
    ensures var r := ResolvePorts(ports, leader);
            && (r.Success? <==> forall p :: p in ports ==> CanResolve(p, leader))
            && (r.Success? ==>
                  && |r.value| == |ports|
                  && forall i :: 0 <= i < |ports| ==> ResolvedFrom(r.value[i], ports[i], leader))
  {
    if ports != [] {
      ResolutionIsAllOrNothing(ports[1..], leader);
      assert ports[0] in ports && forall p :: p in ports <==> p == ports[0] || p in ports[1..];
      var r := ResolvePorts(ports, leader);
      if r.Success? {
        forall i | 0 <= i < |ports| ensures ResolvedFrom(r.value[i], ports[i], leader) {
          if i > 0 { assert ports[1..][i - 1] == ports[i]; }
        }
      }
    }
  }

  // ---------- The slice body ----------

  predicate AllNumbered(ports: seq<ServicePort>) {
    forall i :: 0 <= i < |ports| ==> ports[i].targetPort.Number?
  }

  function EndpointPorts(ports: seq<ServicePort>): (r: seq<EndpointPort>)
    requires AllNumbered(ports)
    ensures |r| == |ports|
  {
    seq(|ports|, i requires 0 <= i < |ports| =>
      EndpointPort(if ports[i].name != "" then Some(ports[i].name) else None, ports[i].targetPort.number, ports[i].protocol))
  }

  predicate Addressed(leader: Option<Pod>) {
    leader.Some? && leader.value.podIP != ""
  }

  /** The one endpoint: the leader's address and reference, or a record with neither. */
  function LeaderEndpoint(leader: Option<Pod>): Endpoint {
    var ready := leader.Some? && ReportsReady(leader.value);
    if Addressed(leader) then
      var pod := leader.value;
      Endpoint([pod.podIP], ready, if pod.nodeName != "" then Some(pod.nodeName) else None,
               Some(TargetRef("Pod", pod.key, pod.uid)))
    else Endpoint([], ready, None, None)
  }

  function LeaderBody(leader: Option<Pod>, ports: seq<ServicePort>): SliceBody
    requires AllNumbered(ports)
  {
    SliceBody(if Addressed(leader) && ParsesAsIPv6(leader.value.podIP) then IPv6 else IPv4,
              [LeaderEndpoint(leader)], EndpointPorts(ports))
  }

  /** The branch for an unresolved named target, line 1060, is never reached. */
  lemma ResolvedPortsAreNumbered(ports: seq<ServicePort>, leader: Option<Pod>)
    requires Resolvable(ports, leader)
    ensures AllNumbered(ResolvePorts(ports, leader).value)
  {
    ResolutionIsAllOrNothing(ports, leader);
  }
}
