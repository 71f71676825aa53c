/** The inventory service's ledger of external ports and leased IP addresses: reservations come and go, deployments
    mark them allocated, the IP operator reports usage.  Unsigned arithmetic is 64 bits wide and wraps. */
module Inventory {
  import opened Market

  const M := 0x1_0000_0000_0000_0000

  type Uint = x: nat | x < M

  function Add(a: Uint, b: Uint): Uint { (a + b) % M }

  function Sub(a: Uint, b: Uint): Uint { (a - b) % M }

  type SequenceNumber = x: nat | x < 0x1_0000_0000

  datatype Kind = SharedHTTP | RandomPort | LeasedIP

  datatype Endpoint = Endpoint(kind: Kind, number: SequenceNumber)

  /** A resource group: its name and the endpoints of each of its resource units. */
  datatype Group = Group(name: string, units: seq<seq<Endpoint>>)

  /** `ips` is the number of leased IPs the group asks for, `inPlace` says that the deployment is, and so its ports are
      taken. */
  datatype Reservation = Reservation(order: OrderID, group: Group, ips: Uint, inPlace: bool, confirmed: bool)

  // ---- Counting ----

  function PortsIn(es: seq<Endpoint>): nat {
    if es == [] then 0 else PortsIn(es[..|es| - 1]) + if es[|es| - 1].kind.RandomPort? then 1 else 0
  }

  function Ports(units: seq<seq<Endpoint>>): nat {
    if units == [] then 0 else Ports(units[..|units| - 1]) + PortsIn(units[|units| - 1])
  }

  /** The external ports of the allocated reservations. */
  function PortSum(rs: seq<Reservation>): nat {
    if rs == [] then 0 else PortSum(rs[..|rs| - 1]) + Held(rs[|rs| - 1])
  }

  function Held(r: Reservation): nat {
    if r.inPlace then Ports(r.group.units) else 0
  }

  /** The leased IPs reserved and not yet confirmed. */
  function IPSum(rs: seq<Reservation>): nat {
    if rs == [] then 0 else IPSum(rs[..|rs| - 1]) + Owed(rs[|rs| - 1])
  }

  function Owed(r: Reservation): nat {
    if r.confirmed then 0 else r.ips
  }

  ghost function Numbers(units: seq<seq<Endpoint>>): set<SequenceNumber> {
    set i, j | 0 <= i < |units| && 0 <= j < |units[i]| && units[i][j].kind.LeasedIP? :: units[i][j].number
  }

  lemma {:induction false} FewNumbers(s: set<SequenceNumber>, n: nat)
    requires forall x | x in s :: x < n
    ensures |s| <= n
  {
    if n > 0 {
      var last: int := n - 1;
      if exists x | x in s :: x == last {
        var x :| x in s && x == last;
        FewNumbers(s - {x}, n - 1);
        assert |s| == |s - {x}| + 1;
      } else {
        FewNumbers(s, n - 1);
      }
    } else {
      assert s == {};
    }
  }

  /** The numbers of one unit's leased-IP endpoints, added to those found so far. */
  method AddNumbers(found: set<SequenceNumber>, es: seq<Endpoint>) returns (all: set<SequenceNumber>)
    ensures all == found + set k | 0 <= k < |es| && es[k].kind.LeasedIP? :: es[k].number
  {
    all := found;
    var j := 0;
    while j < |es|
      invariant 0 <= j <= |es|
      invariant all == found + set k | 0 <= k < j && es[k].kind.LeasedIP? :: es[k].number
    {
      if es[j].kind.LeasedIP? {
        all := all + {es[j].number};
      }
      j := j + 1;
    }
  }

  /** A group asks for one leased IP per sequence number its leased-IP endpoints name. */
  method EndpointQuantity(g: Group) returns (n: Uint)
    ensures n == |Numbers(g.units)|
  {
    var found: set<SequenceNumber> := {};
    var i := 0;
    while i < |g.units|
      invariant 0 <= i <= |g.units|
      invariant found == Numbers(g.units[..i])
    {
      found := AddNumbers(found, g.units[i]);
      i := i + 1;
      NumbersAdd(g.units[..i]);
      assert g.units[..i][..i - 1] == g.units[..i - 1];
    }
    assert g.units[..i] == g.units;
    FewNumbers(found, 0x1_0000_0000);
    n := |found|;
  }

  lemma NumbersAdd(units: seq<seq<Endpoint>>)
    requires units != []
    ensures var es := units[|units| - 1];
            Numbers(units) == Numbers(units[..|units| - 1])
                              + set k | 0 <= k < |es| && es[k].kind.LeasedIP? :: es[k].number
  {}

  /** Counts a reservation's external ports, in unsigned arithmetic. */
  method CountEndpoints(r: Reservation) returns (count: Uint)
    ensures count == Ports(r.group.units) % M
  {
    count := 0;
    var units := r.group.units;
    var i := 0;
    while i < |units|
      invariant 0 <= i <= |units|
      invariant count == Ports(units[..i]) % M
    {
      var es := units[i];
      var j := 0;
      while j < |es|
        invariant 0 <= j <= |es|
        invariant count == (Ports(units[..i]) + PortsIn(es[..j])) % M
      {
        assert es[..j + 1][..j] == es[..j];
        if es[j].kind.RandomPort? {
          count := Add(count, 1);
        }
        j := j + 1;
      }
      assert es[..j] == es && units[..i + 1][..i] == units[..i];
      i := i + 1;
    }
    assert units[..i] == units;
  }

  method CountReservedIPs(rs: seq<Reservation>) returns (reserved: Uint)
    ensures reserved == IPSum(rs) % M
  {
    reserved := 0;
    var i := 0;
    while i < |rs|
      invariant 0 <= i <= |rs|
      invariant reserved == IPSum(rs[..i]) % M
    {
      assert rs[..i + 1][..i] == rs[..i];
      if !rs[i].confirmed {
        reserved := Add(reserved, rs[i].ips);
      }
      i := i + 1;
    }
    assert rs[..i] == rs;
  }

  /** What is left of the total, or nothing; neither subtraction goes below zero. */
  method AvailableLeasedIPs(total: Uint, inUse: Uint, reserved: Uint) returns (r: Uint)
    ensures r == if inUse + reserved <= total then total - inUse - reserved else 0
  {
    if inUse >= total {
      return 0;
    }
    var available: Uint := total - inUse;
    if reserved >= available {
      return 0;
    }
    return available - reserved;
  }

  // ---- The loop's state and steps ----

  /** The ports left, the reservations, and the IP operator's last word on total and used addresses. */
  datatype State = State(ports: Uint, rs: seq<Reservation>, total: Uint, inUse: Uint)

  function FirstOf(rs: seq<Reservation>, order: OrderID, name: Option<string>): (i: nat)
    ensures i <= |rs|
    ensures i < |rs| ==> Matches(rs[i], order, name)
    ensures forall k | 0 <= k < i :: !Matches(rs[k], order, name)
  {
    if rs == [] then 0
    else
      var i := FirstOf(rs[..|rs| - 1], order, name);
      if i < |rs| - 1 || Matches(rs[|rs| - 1], order, name) then i else |rs|
  }

  predicate Matches(r: Reservation, order: OrderID, name: Option<string>) {
    r.order == order && (name.Some? ==> r.group.name == name.value)
  }

  function MarkAllocated(s: State, i: nat, deployed: bool): State
    requires i < |s.rs|
  {
    if s.rs[i].inPlace == deployed then s
    else
      var c := Ports(s.rs[i].group.units) % M;
      s.(rs := s.rs[i := s.rs[i].(inPlace := deployed)], ports := if deployed then Sub(s.ports, c) else Add(s.ports, c))
  }

  function OnDeployment(s: State, order: OrderID, name: string, deployed: bool): State {
    var i := FirstOf(s.rs, order, Some(name));
    if i < |s.rs| then MarkAllocated(s, i, deployed) else s
  }

  function Remove(s: State, i: nat): State
    requires i < |s.rs|
  {
    s.(rs := s.rs[..i] + s.rs[i + 1..],
       ports := if s.rs[i].inPlace then Add(s.ports, Ports(s.rs[i].group.units) % M) else s.ports)
  }

  function OnUnreserve(s: State, order: OrderID): State {
    var i := FirstOf(s.rs, order, None);
    if i < |s.rs| then Remove(s, i) else s
  }

  function NewReservation(order: OrderID, g: Group, ips: Uint): Reservation {
    Reservation(order, g, ips, false, false)
  }

  /** `ips` is the group's quantity, `ipClient` whether an IP operator is configured, `fits` the inventory's word. */
  predicate Accepts(s: State, ips: Uint, ipClient: bool, fits: bool) {
    && fits
    && (ips != 0 ==> ipClient && s.inUse + IPSum(s.rs) % M + ips <= s.total)
  }

  /** Why a reservation is refused. */
  datatype Refusal = NoLeasedIPs | InsufficientIPs | NoCapacity

  /** The reason, in the order the reasons are looked for, if there is one. */
  function RefusalOf(s: State, ips: Uint, ipClient: bool, fits: bool): (why: Option<Refusal>)
    ensures why.None? <==> Accepts(s, ips, ipClient, fits)
  {
    if ips != 0 && !ipClient then Some(NoLeasedIPs)
    else if ips != 0 && s.inUse + IPSum(s.rs) % M + ips > s.total then Some(InsufficientIPs)
    else if !fits then Some(NoCapacity)
    else None
  }

  function OnReserve(s: State, order: OrderID, g: Group, ips: Uint, ipClient: bool, fits: bool): State {
    if Accepts(s, ips, ipClient, fits)
    then s.(rs := s.rs + [NewReservation(order, g, ips).(confirmed := ips == 0)])
    else s
  }

  function Confirm(rs: seq<Reservation>, order: OrderID): seq<Reservation> {
    var i := FirstOf(rs, order, None);
    if i < |rs| then rs[i := rs[i].(confirmed := true)] else rs
  }

  function ConfirmAll(rs: seq<Reservation>, orders: seq<OrderID>): seq<Reservation> {
    if orders == [] then rs else Confirm(ConfirmAll(rs, orders[..|orders| - 1]), orders[|orders| - 1])
  }

  function OnUsage(s: State, total: Uint, inUse: Uint, confirmed: seq<OrderID>): State {
    State(s.ports, ConfirmAll(s.rs, confirmed), total, inUse)
  }

  class Service {
    const quantity: Uint
    const ipClient: bool
    var availableExternalPorts: Uint
    var reservations: seq<Reservation>
    var total: Uint
    var inUse: Uint

    ghost function View(): State
      reads this
    {
      State(availableExternalPorts, reservations, total, inUse)
    }

    constructor (quantity: Uint, ipClient: bool, deployments: seq<(OrderID, Group)>)
      ensures this.quantity == quantity && this.ipClient == ipClient && View() == Init(quantity, deployments)
    {
      this.quantity, this.ipClient := quantity, ipClient;
      availableExternalPorts, total, inUse := quantity, 0, 0;
      var rs: seq<Reservation> := [];
      var i := 0;
      while i < |deployments|
        invariant 0 <= i <= |deployments|
        invariant rs == InitialReservations(deployments[..i])
      {
        var ips := EndpointQuantity(deployments[i].1);
        rs := rs + [NewReservation(deployments[i].0, deployments[i].1, ips)];
        assert deployments[..i + 1][..i] == deployments[..i];
        i := i + 1;
      }
      assert deployments[..i] == deployments;
      reservations := rs;
    }

    method OnClusterDeployment(order: OrderID, name: string, deployed: bool)
      modifies this
      ensures View() == OnDeployment(old(View()), order, name, deployed)
    {
      var i := 0;
      while i < |reservations|
        invariant 0 <= i <= |reservations| && View() == old(View())
        invariant forall k | 0 <= k < i :: !Matches(reservations[k], order, Some(name))
      {
        var res := reservations[i];
        if res.order != order || res.group.name != name {
          i := i + 1;
          continue;
        }
        assert i == FirstOf(reservations, order, Some(name));
        SetAllocated(i, deployed);
        return;
      }
    }

    method SetAllocated(i: nat, deployed: bool)
      requires i < |reservations|
      modifies this
      ensures View() == MarkAllocated(old(View()), i, deployed)
    {
      var res := reservations[i];
      reservations := reservations[i := res.(inPlace := deployed)];
      if deployed != res.inPlace {
        var count := CountEndpoints(res);
        if deployed {
          availableExternalPorts := Sub(availableExternalPorts, count);
        } else {
          availableExternalPorts := Add(availableExternalPorts, count);
        }
      }
    }

    method HandleRequest(order: OrderID, g: Group, fits: bool) returns (why: Option<Refusal>, ghost ips: Uint)
      modifies this
      ensures ips == |Numbers(g.units)|
      ensures why == RefusalOf(old(View()), ips, ipClient, fits)
      ensures View() == OnReserve(old(View()), order, g, ips, ipClient, fits)
    {
      var n := EndpointQuantity(g);
      ips := n;
      var res := NewReservation(order, g, n);
      if n != 0 {
        if !ipClient {
          return Some(NoLeasedIPs), n;
        }
        var reserved := CountReservedIPs(reservations);
        var available := AvailableLeasedIPs(total, inUse, reserved);
        if n > available {
          return Some(InsufficientIPs), n;
        }
      } else {
        res := res.(confirmed := true);
      }
      if !fits {
        return Some(NoCapacity), n;
      }
      reservations := reservations + [res];
      return None, n;
    }

    method Unreserve(order: OrderID) returns (found: bool)
      modifies this
      ensures View() == OnUnreserve(old(View()), order)
      ensures found <==> exists i | 0 <= i < |old(reservations)| :: old(reservations)[i].order == order
    {
      var i := 0;
      while i < |reservations|
        invariant 0 <= i <= |reservations| && View() == old(View())
        invariant forall k | 0 <= k < i :: !Matches(reservations[k], order, None)
      {
        var res := reservations[i];
        if res.order != order {
          i := i + 1;
          continue;
        }
        assert i == FirstOf(reservations, order, None);
        reservations := reservations[..i] + reservations[i + 1..];
        if res.inPlace {
          var count := CountEndpoints(res);
          availableExternalPorts := Add(availableExternalPorts, count);
        }
        return true;
      }
      return false;
    }

    /** The IP operator's usage report, with the orders whose addresses it confirms. */
    method OnCheckResult(newTotal: Uint, newInUse: Uint, confirmed: seq<OrderID>)
      modifies this
      ensures View() == OnUsage(old(View()), newTotal, newInUse, confirmed)
    {
      total, inUse := newTotal, newInUse;
      var n := 0;
      while n < |confirmed|
        invariant 0 <= n <= |confirmed|
        invariant reservations == ConfirmAll(old(reservations), confirmed[..n])
        invariant (availableExternalPorts, total, inUse) == (old(availableExternalPorts), newTotal, newInUse)
      {
        assert confirmed[..n + 1][..n] == confirmed[..n];
        ConfirmFirst(confirmed[n]);
        n := n + 1;
      }
      assert confirmed[..n] == confirmed;
    }

    method ConfirmFirst(order: OrderID)
      modifies this`reservations
      ensures reservations == Confirm(old(reservations), order)
    {
      var i := 0;
      while i < |reservations|
        invariant 0 <= i <= |reservations| && reservations == old(reservations)
        invariant forall k | 0 <= k < i :: !Matches(reservations[k], order, None)
      {
        if reservations[i].order == order {
          assert i == FirstOf(reservations, order, None);
          reservations := reservations[i := reservations[i].(confirmed := true)];
          return;
        }
        i := i + 1;
      }
    }
  }

  // ---- Runs ----

  ghost function InitialReservations(ds: seq<(OrderID, Group)>): seq<Reservation> {
    if ds == [] then []
    else
      var d := ds[|ds| - 1];
      InitialReservations(ds[..|ds| - 1]) + [NewReservation(d.0, d.1, Quantity(d.1))]
  }

  ghost function Quantity(g: Group): Uint {
    FewNumbers(Numbers(g.units), 0x1_0000_0000);
    |Numbers(g.units)|
  }

  ghost function Init(quantity: Uint, ds: seq<(OrderID, Group)>): State {
    State(quantity, InitialReservations(ds), 0, 0)
  }

  datatype Event =
    | Deployment(order: OrderID, name: string, deployed: bool)
    | Reserve(order: OrderID, g: Group, ipClient: bool, fits: bool)
    | UnreserveOrder(order: OrderID)
    | Usage(total: Uint, inUse: Uint, confirmed: seq<OrderID>)

  ghost function Step(s: State, e: Event): State {
    match e
    case Deployment(order, name, deployed) => OnDeployment(s, order, name, deployed)
    case Reserve(order, g, ipClient, fits) => OnReserve(s, order, g, Quantity(g), ipClient, fits)
    case UnreserveOrder(order) => OnUnreserve(s, order)
    case Usage(total, inUse, confirmed) => OnUsage(s, total, inUse, confirmed)
  }

  ghost function Run(s: State, es: seq<Event>): State {
    if es == [] then s else Step(Run(s, es[..|es| - 1]), es[|es| - 1])
  }

  // ---- Ports ----

  lemma {:induction false} PortSumUpdate(rs: seq<Reservation>, i: nat, r: Reservation)
    requires i < |rs|
    ensures PortSum(rs[i := r]) == PortSum(rs) - Held(rs[i]) + Held(r)
  {
    var t, n := rs[i := r], |rs| - 1;
    if i < n {
      PortSumUpdate(rs[..n], i, r);
      assert t[..n] == rs[..n][i := r];
    } else {
      assert t[..n] == rs[..n];
    }
  }

  lemma {:induction false} PortSumRemove(rs: seq<Reservation>, i: nat)
    requires i < |rs|
    ensures PortSum(rs[..i] + rs[i + 1..]) == PortSum(rs) - Held(rs[i])
  {
    var t, n := rs[..i] + rs[i + 1..], |rs| - 1;
    if i < n {
      PortSumRemove(rs[..n], i);
      assert t[..n - 1] == rs[..n][..i] + rs[..n][i + 1..];
    } else {
      assert t == rs[..n];
    }
  }

  lemma {:induction false} ConfirmPorts(rs: seq<Reservation>, order: OrderID)
    ensures PortSum(Confirm(rs, order)) == PortSum(rs)
  {
    var i := FirstOf(rs, order, None);
    if i < |rs| {
      PortSumUpdate(rs, i, rs[i].(confirmed := true));
    }
  }

  lemma {:induction false} ConfirmAllPorts(rs: seq<Reservation>, orders: seq<OrderID>)
    ensures PortSum(ConfirmAll(rs, orders)) == PortSum(rs)
  {
    if orders != [] {
      ConfirmAllPorts(rs, orders[..|orders| - 1]);
      ConfirmPorts(ConfirmAll(rs, orders[..|orders| - 1]), orders[|orders| - 1]);
    }
  }

  /** The ports left and those taken, together, modulo two to the 64. */
  ghost function AllPorts(s: State): Uint {
    (s.ports + PortSum(s.rs)) % M
  }

  lemma TakePorts(p: Uint, c: nat, sum: nat)
    ensures (Sub(p, c % M) + (sum + c)) % M == (p + sum) % M
  {}

  lemma GivePorts(p: Uint, c: nat, sum: nat)
    requires c <= sum
    ensures (Add(p, c % M) + (sum - c)) % M == (p + sum) % M
  {}

  lemma MarkBalances(s: State, i: nat, deployed: bool)
    requires i < |s.rs|
    ensures AllPorts(MarkAllocated(s, i, deployed)) == AllPorts(s)
  {
    var r := s.rs[i].(inPlace := deployed);
    PortSumUpdate(s.rs, i, r);
    if deployed {
      TakePorts(s.ports, Ports(r.group.units), PortSum(s.rs));
    } else if s.rs[i].inPlace {
      PortSumUpdate(s.rs[i := r], i, s.rs[i]);
      GivePorts(s.ports, Ports(r.group.units), PortSum(s.rs));
    }
  }

  lemma RemoveBalances(s: State, i: nat)
    requires i < |s.rs|
    ensures AllPorts(Remove(s, i)) == AllPorts(s)
  {
    PortSumRemove(s.rs, i);
    if s.rs[i].inPlace {
      GivePorts(s.ports, Ports(s.rs[i].group.units), PortSum(s.rs));
    }
  }

  lemma ReserveAddsNone(s: State, order: OrderID, g: Group, ips: Uint, ipClient: bool, fits: bool)
    ensures AllPorts(OnReserve(s, order, g, ips, ipClient, fits)) == AllPorts(s)
  {}

  lemma StepBalances(s: State, e: Event)
    ensures AllPorts(Step(s, e)) == AllPorts(s)
  {
    match e
    case Deployment(order, name, deployed) =>
      var i := FirstOf(s.rs, order, Some(name));
      if i < |s.rs| {
        MarkBalances(s, i, deployed);
      }
    case Reserve(order, g, ipClient, fits) => ReserveAddsNone(s, order, g, Quantity(g), ipClient, fits);
    case UnreserveOrder(order) =>
      var i := FirstOf(s.rs, order, None);
      if i < |s.rs| {
        RemoveBalances(s, i);
      }
    case Usage(total, inUse, confirmed) => ConfirmAllPorts(s.rs, confirmed);
  }

  /** In every run, the ports left and those of the allocated reservations add up to the configured quantity, modulo
      two to the 64. */
  lemma {:induction false} PortsAlwaysBalance(quantity: Uint, ds: seq<(OrderID, Group)>, es: seq<Event>)
    ensures AllPorts(Run(Init(quantity, ds), es)) == quantity
  {
    if es == [] {
      NoneAllocated(ds);
    } else {
      PortsAlwaysBalance(quantity, ds, es[..|es| - 1]);
      StepBalances(Run(Init(quantity, ds), es[..|es| - 1]), es[|es| - 1]);
    }
  }

  lemma {:induction false} NoneAllocated(ds: seq<(OrderID, Group)>)
    ensures PortSum(InitialReservations(ds)) == 0
  {
    if ds != [] {
      NoneAllocated(ds[..|ds| - 1]);
      var rs := InitialReservations(ds);
      assert rs[..|rs| - 1] == InitialReservations(ds[..|ds| - 1]);
    }
  }

  /** So while the allocated reservations fit the quantity, the count never wrapped: it is the exact difference. */
  lemma {:induction false} PortsExact(quantity: Uint, ds: seq<(OrderID, Group)>, es: seq<Event>)
    ensures var s := Run(Init(quantity, ds), es);
            s.ports + PortSum(s.rs) == quantity <==> PortSum(s.rs) <= quantity
  {
    PortsAlwaysBalance(quantity, ds, es);
  }

  // ---- Leased IPs ----

  lemma {:induction false} IPSumUpdate(rs: seq<Reservation>, i: nat, r: Reservation)
    requires i < |rs|
    ensures IPSum(rs[i := r]) == IPSum(rs) - Owed(rs[i]) + Owed(r)
  {
    var t, n := rs[i := r], |rs| - 1;
    if i < n {
      IPSumUpdate(rs[..n], i, r);
      assert t[..n] == rs[..n][i := r];
    } else {
      assert t[..n] == rs[..n];
    }
  }

  lemma {:induction false} IPSumRemove(rs: seq<Reservation>, i: nat)
    requires i < |rs|
    ensures IPSum(rs[..i] + rs[i + 1..]) == IPSum(rs) - Owed(rs[i])
  {
    var t, n := rs[..i] + rs[i + 1..], |rs| - 1;
    if i < n {
      IPSumRemove(rs[..n], i);
      assert t[..n - 1] == rs[..n][..i] + rs[..n][i + 1..];
    } else {
      assert t == rs[..n];
    }
  }

  lemma {:induction false} ConfirmAllIPs(rs: seq<Reservation>, orders: seq<OrderID>)
    ensures IPSum(ConfirmAll(rs, orders)) <= IPSum(rs)
  {
    if orders != [] {
      var front := ConfirmAll(rs, orders[..|orders| - 1]);
      ConfirmAllIPs(rs, orders[..|orders| - 1]);
      var i := FirstOf(front, orders[|orders| - 1], None);
      if i < |front| {
        IPSumUpdate(front, i, front[i].(confirmed := true));
      }
    }
  }

  /** A reservation accepted with leased IPs leaves the addresses used and those reserved and unconfirmed, as the
      service counts them, within the total. */
  lemma AcceptedFits(s: State, order: OrderID, g: Group, ipClient: bool, fits: bool)
    requires Quantity(g) != 0 && Accepts(s, Quantity(g), ipClient, fits)
    ensures var t := Step(s, Reserve(order, g, ipClient, fits));
            && t.inUse + IPSum(t.rs) % M <= t.total
            && IPSum(t.rs) == IPSum(s.rs) + Quantity(g)
  {}

  lemma StepIPs(s: State, e: Event)
    requires IPSum(s.rs) < M
    ensures IPSum(Step(s, e).rs) < M
  {
    match e
    case Deployment(order, name, deployed) =>
      var i := FirstOf(s.rs, order, Some(name));
      if i < |s.rs| {
        IPSumUpdate(s.rs, i, s.rs[i].(inPlace := deployed));
      }
    case Reserve(order, g, ipClient, fits) =>
      var t := Step(s, e);
      if t != s {
        assert t.rs[..|t.rs| - 1] == s.rs;
      }
    case UnreserveOrder(order) =>
      var i := FirstOf(s.rs, order, None);
      if i < |s.rs| {
        IPSumRemove(s.rs, i);
      }
    case Usage(total, inUse, confirmed) => ConfirmAllIPs(s.rs, confirmed);
  }

  lemma {:induction false} RunIPs(s: State, es: seq<Event>)
    requires IPSum(s.rs) < M
    ensures IPSum(Run(s, es).rs) < M
  {
    if es != [] {
      RunIPs(s, es[..|es| - 1]);
      StepIPs(Run(s, es[..|es| - 1]), es[|es| - 1]);
    }
  }

  /** In every run that starts with fewer than two to the 64 leased IPs, the service's count of them never wraps, and
      after every accepted reservation with leased IPs the true sum of used and unconfirmed addresses is within the
      total. */
  lemma {:induction false} LeasedIPsNeverOversold(quantity: Uint, ds: seq<(OrderID, Group)>, es: seq<Event>,
                                                  order: OrderID, g: Group, ipClient: bool, fits: bool)
    requires IPSum(InitialReservations(ds)) < M
    ensures IPSum(Run(Init(quantity, ds), es).rs) < M
    ensures var s := Run(Init(quantity, ds), es);
            var t := Step(s, Reserve(order, g, ipClient, fits));
            Quantity(g) != 0 && Accepts(s, Quantity(g), ipClient, fits) ==> t.inUse + IPSum(t.rs) <= t.total
  {
    RunIPs(Init(quantity, ds), es);
    var s := Run(Init(quantity, ds), es);
    if Quantity(g) != 0 && Accepts(s, Quantity(g), ipClient, fits) {
      StepIPs(s, Reserve(order, g, ipClient, fits));
      AcceptedFits(s, order, g, ipClient, fits);
    }
  }

  // ---- Each order's reservations ----

  /** An order's reservations, oldest first. */
  function OfOrder(rs: seq<Reservation>, o: OrderID): seq<Reservation> {
    if rs == [] then []
    else OfOrder(rs[..|rs| - 1], o) + if rs[|rs| - 1].order == o then [rs[|rs| - 1]] else []
  }

  lemma {:induction false} OfOrderConcat(a: seq<Reservation>, b: seq<Reservation>, o: OrderID)
    ensures OfOrder(a + b, o) == OfOrder(a, o) + OfOrder(b, o)
  {
    if b == [] {
      assert a + b == a;
    } else {
      var n := |b| - 1;
      OfOrderConcat(a, b[..n], o);
      assert (a + b)[..|a + b| - 1] == a + b[..n];
    }
  }

  lemma {:induction false} OfOrderSplit(rs: seq<Reservation>, i: nat, r: Reservation, o: OrderID)
    requires i < |rs|
    ensures var before, after := OfOrder(rs[..i], o), OfOrder(rs[i + 1..], o);
            && OfOrder(rs, o) == before + (if rs[i].order == o then [rs[i]] else []) + after
            && OfOrder(rs[i := r], o) == before + (if r.order == o then [r] else []) + after
            && OfOrder(rs[..i] + rs[i + 1..], o) == before + after
  {
    OfOrderAround(rs[..i], rs[i], rs[i + 1..], o);
    OfOrderAround(rs[..i], r, rs[i + 1..], o);
    OfOrderConcat(rs[..i], rs[i + 1..], o);
    assert rs == rs[..i] + [rs[i]] + rs[i + 1..] && rs[i := r] == rs[..i] + [r] + rs[i + 1..];
  }

  lemma {:induction false} OfOrderAround(a: seq<Reservation>, r: Reservation, b: seq<Reservation>, o: OrderID)
    ensures OfOrder(a + [r] + b, o) == OfOrder(a, o) + (if r.order == o then [r] else []) + OfOrder(b, o)
  {
    OfOrderConcat(a + [r], b, o);
    OfOrderConcat(a, [r], o);
    assert [r][..0] == [];
  }

  ghost predicate NoneNamed(list: seq<Reservation>, name: string) {
    forall j | 0 <= j < |list| :: list[j].group.name != name
  }

  lemma {:induction false} NoneMatch(rs: seq<Reservation>, o: OrderID, name: Option<string>)
    requires forall k | 0 <= k < |rs| :: !Matches(rs[k], o, name)
    ensures if name.Some? then NoneNamed(OfOrder(rs, o), name.value) else OfOrder(rs, o) == []
  {
    if rs != [] {
      assert !Matches(rs[|rs| - 1], o, name);
      NoneMatch(rs[..|rs| - 1], o, name);
    }
  }

  /** Where in an order's reservations the first of the group is, if there is one. */
  function FirstNamed(list: seq<Reservation>, name: string): (i: nat)
    ensures i <= |list|
  {
    if list == [] || list[0].group.name == name then 0 else 1 + FirstNamed(list[1..], name)
  }

  lemma {:induction false} FirstNamedIs(list: seq<Reservation>, name: string, p: nat)
    requires p <= |list| && NoneNamed(list[..p], name)
    requires p < |list| ==> list[p].group.name == name
    ensures FirstNamed(list, name) == p
  {
    if p > 0 {
      assert list[..p][0] == list[0] && list[1..][..p - 1] == list[..p][1..];
      FirstNamedIs(list[1..], name, p - 1);
    }
  }

  /** An order's reservations after an event, given whether a reservation is accepted. */
  ghost function NextOfOrder(list: seq<Reservation>, o: OrderID, e: Event, accepted: bool): seq<Reservation> {
    match e
    case Deployment(order, name, deployed) =>
      var i := FirstNamed(list, name);
      if order == o && i < |list| then list[i := list[i].(inPlace := deployed)] else list
    case Reserve(order, g, _, _) =>
      if order == o && accepted then list + [Reservation(o, g, Quantity(g), false, Quantity(g) == 0)] else list
    case UnreserveOrder(order) => if order == o && list != [] then list[1..] else list
    case Usage(_, _, confirmed) => ConfirmOldest(list, o in confirmed)
  }

  /** The first of the group, among the order's reservations and among all. */
  lemma {:induction false} FirstPlaced(rs: seq<Reservation>, o: OrderID, name: string)
    ensures var i, list := FirstOf(rs, o, Some(name)), OfOrder(rs, o);
            if i == |rs| then FirstNamed(list, name) == |list|
            else FirstNamed(list, name) == |OfOrder(rs[..i], o)| < |list|
  {
    var i := FirstOf(rs, o, Some(name));
    var before := OfOrder(rs[..i], o);
    NoneMatch(rs[..i], o, Some(name));
    if i < |rs| {
      OfOrderSplit(rs, i, rs[i], o);
      assert OfOrder(rs, o)[..|before|] == before;
    } else {
      assert rs[..i] == rs && before[..|before|] == before;
    }
    FirstNamedIs(OfOrder(rs, o), name, |before|);
  }

  lemma MarkedIs(before: seq<Reservation>, r: Reservation, after: seq<Reservation>, t: Reservation)
    ensures (before + [r] + after)[|before| := t] == before + [t] + after
  {}

  lemma {:induction false} OwnDeployment(rs: seq<Reservation>, i: nat, t: Reservation, o: OrderID, name: string)
    requires i < |rs| && i == FirstOf(rs, o, Some(name)) && t.order == o
    ensures var list := OfOrder(rs, o);
            var p := FirstNamed(list, name);
            p < |list| && list[p] == rs[i] && OfOrder(rs[i := t], o) == list[p := t]
  {
    FirstPlaced(rs, o, name);
    OfOrderSplit(rs, i, t, o);
    MarkedIs(OfOrder(rs[..i], o), rs[i], OfOrder(rs[i + 1..], o), t);
  }

  lemma {:induction false} DeploymentFollows(s: State, o: OrderID, name: string, deployed: bool, other: OrderID)
    ensures OfOrder(OnDeployment(s, o, name, deployed).rs, other) ==
            NextOfOrder(OfOrder(s.rs, other), other, Deployment(o, name, deployed), false)
  {
    var i := FirstOf(s.rs, o, Some(name));
    if i == |s.rs| {
      FirstPlaced(s.rs, o, name);
    } else if other == o {
      OwnDeployment(s.rs, i, s.rs[i].(inPlace := deployed), o, name);
    } else {
      OfOrderSplit(s.rs, i, s.rs[i].(inPlace := deployed), other);
    }
  }

  lemma {:induction false} NoneBefore(rs: seq<Reservation>, o: OrderID)
    ensures OfOrder(rs[..FirstOf(rs, o, None)], o) == []
  {
    NoneMatch(rs[..FirstOf(rs, o, None)], o, None);
  }

  lemma {:induction false} UnreserveFollows(s: State, o: OrderID, other: OrderID)
    ensures OfOrder(OnUnreserve(s, o).rs, other) ==
            NextOfOrder(OfOrder(s.rs, other), other, UnreserveOrder(o), false)
  {
    var i := FirstOf(s.rs, o, None);
    NoneBefore(s.rs, o);
    if i < |s.rs| { OfOrderSplit(s.rs, i, s.rs[i], other); } else { assert s.rs[..i] == s.rs; }
  }

  ghost function ConfirmOldest(list: seq<Reservation>, named: bool): seq<Reservation> {
    if named && list != [] then list[0 := list[0].(confirmed := true)] else list
  }

  lemma {:induction false} ConfirmFollows(rs: seq<Reservation>, o: OrderID, other: OrderID)
    ensures OfOrder(Confirm(rs, o), other) == ConfirmOldest(OfOrder(rs, other), o == other)
  {
    var i := FirstOf(rs, o, None);
    NoneBefore(rs, o);
    if i < |rs| { OfOrderSplit(rs, i, rs[i].(confirmed := true), other); } else { assert rs[..i] == rs; }
  }

  lemma ConfirmTwice(list: seq<Reservation>, a: bool, b: bool)
    ensures ConfirmOldest(ConfirmOldest(list, a), b) == ConfirmOldest(list, a || b)
  {}

  lemma {:induction false} UsageFollows(rs: seq<Reservation>, orders: seq<OrderID>, other: OrderID)
    ensures OfOrder(ConfirmAll(rs, orders), other) == ConfirmOldest(OfOrder(rs, other), other in orders)
  {
    if orders != [] {
      var front, o := orders[..|orders| - 1], orders[|orders| - 1];
      UsageFollows(rs, front, other);
      ConfirmFollows(ConfirmAll(rs, front), o, other);
      ConfirmTwice(OfOrder(rs, other), other in front, o == other);
      assert orders == front + [o];
    }
  }

  /** The reservation is accepted: the inventory agrees and it asks for no address, or there is an IP operator and the
      addresses used, those unconfirmed and its own fit the total. */
  ghost predicate Fits(s: State, g: Group, ipClient: bool, fits: bool) {
    var n := |Numbers(g.units)|;
    fits && (n == 0 || (ipClient && s.inUse + IPSum(s.rs) + n <= s.total))
  }

  lemma {:induction false} ReserveFollows(s: State, e: Event, other: OrderID)
    requires e.Reserve? && IPSum(s.rs) < M
    ensures OfOrder(Step(s, e).rs, other) ==
            NextOfOrder(OfOrder(s.rs, other), other, e, Fits(s, e.g, e.ipClient, e.fits))
  {
    var t := Step(s, e);
    if Fits(s, e.g, e.ipClient, e.fits) { assert t.rs[..|s.rs|] == s.rs; }
  }

  lemma {:induction false} StepFollows(s: State, e: Event, o: OrderID)
    requires IPSum(s.rs) < M
    ensures OfOrder(Step(s, e).rs, o) ==
            NextOfOrder(OfOrder(s.rs, o), o, e, e.Reserve? && Fits(s, e.g, e.ipClient, e.fits))
  {
    match e
    case Deployment(order, name, deployed) => DeploymentFollows(s, order, name, deployed, o);
    case Reserve(_, _, _, _) => ReserveFollows(s, e, o);
    case UnreserveOrder(order) => UnreserveFollows(s, order, o);
    case Usage(_, _, confirmed) => UsageFollows(s.rs, confirmed, o);
  }

  /** An order's reservations as the events alone leave them. */
  ghost function History(quantity: Uint, ds: seq<(OrderID, Group)>, es: seq<Event>, o: OrderID): seq<Reservation> {
    if es == [] then OfOrder(InitialReservations(ds), o)
    else
      var front, e := es[..|es| - 1], es[|es| - 1];
      NextOfOrder(History(quantity, ds, front, o), o, e,
                  e.Reserve? && Fits(Run(Init(quantity, ds), front), e.g, e.ipClient, e.fits))
  }

  /** In every run that starts with fewer than two to the 64 leased IPs each order's reservations are a queue of their
      own that no other order's events touch: a reservation accepted joins at the end, a release takes the oldest, a
      usage report that names the order confirms the oldest, and a deployment event marks the oldest of its group. */
  lemma {:induction false} OrdersKeptApart(quantity: Uint, ds: seq<(OrderID, Group)>, es: seq<Event>, o: OrderID)
    requires IPSum(InitialReservations(ds)) < M
    ensures OfOrder(Run(Init(quantity, ds), es).rs, o) == History(quantity, ds, es, o)
  {
    if es != [] {
      var front := es[..|es| - 1];
      OrdersKeptApart(quantity, ds, front, o);
      RunIPs(Init(quantity, ds), front);
      StepFollows(Run(Init(quantity, ds), front), es[|es| - 1], o);
    }
  }

  /** In every run the addresses left are counted from the last usage report. */
  lemma {:induction false} UsageIsLast(quantity: Uint, ds: seq<(OrderID, Group)>, es: seq<Event>)
    ensures var s := Run(Init(quantity, ds), es); (s.total, s.inUse) == LastUsage(es)
  {
    if es != [] { UsageIsLast(quantity, ds, es[..|es| - 1]); }
  }

  ghost function LastUsage(es: seq<Event>): (Uint, Uint) {
    if es == [] then (0, 0)
    else if es[|es| - 1].Usage? then (es[|es| - 1].total, es[|es| - 1].inUse)
    else LastUsage(es[..|es| - 1])
  }

  /** In every run that starts with fewer than two to the 64 leased IPs, a reservation is added, not deployed yet and
      with its addresses to confirm if it asks for any, if and only if the inventory agrees and it either asks for no
      address, or there is an IP operator and the addresses used, those unconfirmed and its own fit the total. */
  lemma {:induction false} ReserveAddsIff(quantity: Uint, ds: seq<(OrderID, Group)>, es: seq<Event>, order: OrderID,
                                          g: Group, ipClient: bool, fits: bool)
    requires IPSum(InitialReservations(ds)) < M
    ensures var s := Run(Init(quantity, ds), es);
            var t := Run(Init(quantity, ds), es + [Reserve(order, g, ipClient, fits)]);
            var n := Quantity(g);
            && (t.ports, t.total, t.inUse) == (s.ports, s.total, s.inUse)
            && t.rs == s.rs + if Fits(s, g, ipClient, fits) then [Reservation(order, g, n, false, n == 0)] else []
  {
    assert (es + [Reserve(order, g, ipClient, fits)])[..|es|] == es;
    RunIPs(Init(quantity, ds), es);
  }

  /** The places of the endpoints that take an external port. */
  ghost function PortPlaces(es: seq<Endpoint>): set<nat> {
    set j: nat | j < |es| && es[j].kind == RandomPort
  }

  /** A unit takes one external port for each endpoint of that kind, and none for any other. */
  lemma {:induction false} PortsAreCounted(es: seq<Endpoint>)
    ensures PortsIn(es) == |PortPlaces(es)|
  {
    if es != [] {
      var n: nat := |es| - 1;
      PortsAreCounted(es[..n]);
      assert PortPlaces(es) == PortPlaces(es[..n]) + if es[n].kind == RandomPort then {n} else {};
    }
  }
}
