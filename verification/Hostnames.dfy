/** The hostname service: one store of hostnames, each held for one deployment group, that reserve, prepare-transfer
    and release requests change one at a time. */
module Hostnames {
  import opened Market

  /** What a hostname is held for. */
  datatype HostID = HostID(owner: string, dseq: nat, gseq: nat)

  type Store = map<string, HostID>

  datatype Result<+T> = Ok(value: T) | NotAllowed(hostname: string)

  // ---- What the requests mean ----

  /** No hostname of the list is held by another owner. */
  ghost predicate Free(store: Store, hosts: seq<string>, owner: string) {
    forall h | h in hosts && h in store :: store[h].owner == owner
  }

  /** One of the names, which another owner holds. */
  ghost predicate TakenBy(store: Store, hosts: seq<string>, owner: string, h: string) {
    h in hosts && h in store && store[h].owner != owner
  }

  /** Held for another deployment group. */
  predicate HeldElsewhere(store: Store, id: HostID, h: string) {
    h in store && store[h] != id
  }

  function Withheld(store: Store, id: HostID, hosts: seq<string>): seq<string> {
    if hosts == [] then []
    else
      var h := hosts[|hosts| - 1];
      Withheld(store, id, hosts[..|hosts| - 1]) + if HeldElsewhere(store, id, h) then [h] else []
  }

  /** The store after a reservation: what is requested and not withheld is held for `id`, the rest it held is gone. */
  ghost function Reserved(store: Store, id: HostID, hosts: seq<string>): Store {
    map h | h in store.Keys + Elements(hosts) && (h in hosts || store[h] != id) ::
      if HeldElsewhere(store, id, h) then store[h] else id
  }

  ghost function Prepared(store: Store, id: HostID, hosts: seq<string>): Store {
    map h | h in store :: if h in hosts then id else store[h]
  }

  ghost function Released(store: Store, id: HostID): Store {
    map h | h in store && store[h] != id :: store[h]
  }

  ghost function Elements(hosts: seq<string>): set<string> {
    set h | h in hosts
  }

  // ---- Blocked names, letter case ----

  const SEPARATOR := '.'

  predicate HasSuffix(s: string, suffix: string) {
    |suffix| <= |s| && s[|s| - |suffix|..] == suffix
  }

  /** A configured name blocks itself; one that starts with a separator blocks its domain, and the domain's own name. */
  predicate BlockedBy(name: string, h: string) {
    if name != "" && name[0] == SEPARATOR then h == name[1..] || HasSuffix(h, name) else h == name
  }

  ghost predicate Blocked(names: seq<string>, h: string) {
    exists i | 0 <= i < |names| :: BlockedBy(names[i], h)
  }

  function LowerChar(c: char): char {
    if 'A' <= c <= 'Z' then c - 'A' + 'a' else c
  }

  function Lower(s: string): string {
    seq(|s|, i requires 0 <= i < |s| => LowerChar(s[i]))
  }

  function LowerEach(hosts: seq<string>): seq<string> {
    seq(|hosts|, i requires 0 <= i < |hosts| => Lower(hosts[i]))
  }

  // ---- The service ----

  class Service {
    var inUse: Store
    const blockedHostnames: seq<string>
    const blockedDomains: seq<string>
    ghost const names: seq<string>

    /** The two lists block what the configured names block. */
    ghost predicate Valid() {
      forall h: string :: Blocked(names, h) <==> InLists(blockedHostnames, blockedDomains, h)
    }

    constructor (names: seq<string>, initial: Store)
      ensures inUse == initial && this.names == names && Valid()
    {
      this.names := names;
      inUse := initial;
      var hostnames: seq<string>, domains: seq<string> := [], [];
      var i := 0;
      while i < |names|
        invariant 0 <= i <= |names|
        invariant hostnames == Bare(names[..i]) && domains == Domains(names[..i])
      {
        assert names[..i + 1][..i] == names[..i];
        if |names[i]| != 0 && names[i][0] == SEPARATOR {
          domains := domains + [names[i]];
          hostnames := hostnames + [names[i][1..]];
        } else {
          hostnames := hostnames + [names[i]];
        }
        i := i + 1;
      }
      assert names[..i] == names;
      blockedHostnames := hostnames;
      blockedDomains := domains;
      forall h: string ensures Blocked(names, h) <==> InLists(hostnames, domains, h) {
        ListsBlock(names, h);
      }
    }

    method IsHostnameBlocked(h: string) returns (blocked: bool)
      requires Valid()
      ensures blocked <==> Blocked(names, h)
    {
      if h in blockedHostnames {
        return true;
      }
      var i := 0;
      while i < |blockedDomains|
        invariant 0 <= i <= |blockedDomains|
        invariant forall k | 0 <= k < i :: !HasSuffix(h, blockedDomains[k])
      {
        if HasSuffix(h, blockedDomains[i]) {
          return true;
        }
        i := i + 1;
      }
      return false;
    }

    method LowerNames(hosts: seq<string>) returns (lower: seq<string>)
      ensures lower == LowerEach(hosts)
    {
      lower := [];
      var i := 0;
      while i < |hosts|
        invariant 0 <= i <= |hosts|
        invariant lower == LowerEach(hosts[..i])
      {
        lower := lower + [Lower(hosts[i])];
        i := i + 1;
      }
      assert hosts[..i] == hosts;
    }

    /** The first of the names that is blocked, if one is. */
    method FirstBlocked(hosts: seq<string>) returns (r: Option<string>)
      requires Valid()
      ensures r.None? <==> forall h | h in hosts :: !Blocked(names, h)
    {
      var i := 0;
      while i < |hosts|
        invariant 0 <= i <= |hosts|
        invariant forall k | 0 <= k < i :: !Blocked(names, hosts[k])
      {
        var blocked := IsHostnameBlocked(hosts[i]);
        if blocked {
          return Some(hosts[i]);
        }
        i := i + 1;
      }
      return None;
    }

    method ReserveHostnames(hosts: seq<string>, id: HostID) returns (r: Result<seq<string>>)
      requires Valid()
      modifies this
      ensures r.Ok? <==> Allowed(names, old(inUse), hosts, id.owner)
      ensures r.Ok? ==> inUse == Reserved(old(inUse), id, LowerEach(hosts))
      ensures r.Ok? ==> r.value == Withheld(old(inUse), id, LowerEach(hosts))
      ensures !r.Ok? ==> inUse == old(inUse)
    {
      var lower := LowerNames(hosts);
      var blocked := FirstBlocked(lower);
      if blocked.Some? {
        return NotAllowed(blocked.value);
      }
      r := Reserve(lower, id);
    }

    method CanReserveHostnames(hosts: seq<string>, owner: string) returns (r: Result<()>)
      requires Valid()
      ensures r.Ok? <==> Allowed(names, inUse, hosts, owner)
    {
      var lower := LowerNames(hosts);
      var blocked := FirstBlocked(lower);
      if blocked.Some? {
        return NotAllowed(blocked.value);
      }
      r := CanReserve(lower, owner);
    }

    /** Passes the names on as they are: neither lower-cased nor checked against the blocked ones. */
    method PrepareHostnamesForTransfer(hosts: seq<string>, id: HostID) returns (r: Result<()>)
      modifies this
      ensures r.Ok? <==> Free(old(inUse), hosts, id.owner)
      ensures inUse == if r.Ok? then Prepared(old(inUse), id, hosts) else old(inUse)
    {
      r := Prepare(hosts, id);
    }

    // ---- The loop's handlers ----

    method CanReserve(hosts: seq<string>, owner: string) returns (r: Result<()>)
      ensures r.Ok? <==> Free(inUse, hosts, owner)
      ensures r.NotAllowed? ==> TakenBy(inUse, hosts, owner, r.hostname)
    {
      var i := 0;
      while i < |hosts|
        invariant 0 <= i <= |hosts|
        invariant Free(inUse, hosts[..i], owner)
      {
        var h := hosts[i];
        if h in inUse && inUse[h].owner != owner {
          return NotAllowed(h);
        }
        i := i + 1;
        assert hosts[..i] == hosts[..i - 1] + [h];
      }
      assert hosts[..i] == hosts;
      return Ok(());
    }

    /** The names the request may not take yet, or the error that a name is another owner's. */
    method CheckRequest(hosts: seq<string>, id: HostID) returns (r: Result<seq<string>>)
      ensures r.Ok? <==> Free(inUse, hosts, id.owner)
      ensures r.NotAllowed? ==> TakenBy(inUse, hosts, id.owner, r.hostname)
      ensures r.Ok? ==> r.value == Withheld(inUse, id, hosts)
    {
      var withheld := [];
      var i := 0;
      while i < |hosts|
        invariant 0 <= i <= |hosts|
        invariant Free(inUse, hosts[..i], id.owner)
        invariant withheld == Withheld(inUse, id, hosts[..i])
      {
        var h := hosts[i];
        assert hosts[..i + 1][..i] == hosts[..i];
        if h in inUse {
          if inUse[h].owner != id.owner {
            return NotAllowed(h);
          }
          if inUse[h] != id {
            withheld := withheld + [h];
          }
        }
        i := i + 1;
        assert hosts[..i] == hosts[..i - 1] + [h];
      }
      assert hosts[..i] == hosts;
      return Ok(withheld);
    }

    /** The names held for `id` that are not kept; the map may yield its entries in any order. */
    method HeldFor(id: HostID, keep: seq<string>) returns (found: set<string>)
      ensures found == set h | h in inUse && inUse[h] == id && h !in keep
    {
      found := {};
      var rest := inUse.Keys;
      while rest != {}
        invariant rest <= inUse.Keys
        invariant found == set h | h in inUse.Keys - rest && inUse[h] == id && h !in keep
      {
        var h :| h in rest;
        rest := rest - {h};
        if h in keep {
          continue;
        }
        if inUse[h] == id {
          found := found + {h};
        }
      }
    }

    method Take(id: HostID, hosts: seq<string>, withheld: seq<string>)
      modifies this
      ensures inUse == old(inUse) + map h | h in Elements(hosts) && h !in withheld :: id
    {
      var i := 0;
      while i < |hosts|
        invariant 0 <= i <= |hosts|
        invariant inUse == old(inUse) + map h | h in Elements(hosts[..i]) && h !in withheld :: id
      {
        assert Elements(hosts[..i + 1]) == Elements(hosts[..i]) + {hosts[i]};
        if hosts[i] !in withheld {
          inUse := inUse[hosts[i] := id];
        }
        i := i + 1;
      }
      assert hosts[..i] == hosts;
    }

    method Reserve(hosts: seq<string>, id: HostID) returns (r: Result<seq<string>>)
      modifies this
      ensures r.Ok? <==> Free(old(inUse), hosts, id.owner)
      ensures r.NotAllowed? ==> TakenBy(old(inUse), hosts, id.owner, r.hostname)
      ensures r.Ok? ==> inUse == Reserved(old(inUse), id, hosts) && r.value == Withheld(old(inUse), id, hosts)
      ensures !r.Ok? ==> inUse == old(inUse)
    {
      r := CheckRequest(hosts, id);
      if !r.Ok? {
        return;
      }
      var removed := HeldFor(id, hosts);
      ghost var store := inUse;
      Take(id, hosts, r.value);
      inUse := inUse - removed;
      ReservedIs(store, id, hosts, removed);
    }

    method Prepare(hosts: seq<string>, id: HostID) returns (r: Result<()>)
      modifies this
      ensures r.Ok? <==> Free(old(inUse), hosts, id.owner)
      ensures r.NotAllowed? ==> TakenBy(old(inUse), hosts, id.owner, r.hostname)
      ensures inUse == if r.Ok? then Prepared(old(inUse), id, hosts) else old(inUse)
    {
      var toChange: seq<string> := [];
      var i := 0;
      while i < |hosts|
        invariant 0 <= i <= |hosts| && inUse == old(inUse)
        invariant Free(inUse, hosts[..i], id.owner)
        invariant Elements(toChange) == Elements(hosts[..i]) * inUse.Keys
      {
        var h := hosts[i];
        assert Elements(hosts[..i + 1]) == Elements(hosts[..i]) + {h};
        if h in inUse {
          if inUse[h].owner != id.owner {
            return NotAllowed(h);
          }
          assert Elements(toChange + [h]) == Elements(toChange) + {h};
          toChange := toChange + [h];
        }
        i := i + 1;
        assert hosts[..i] == hosts[..i - 1] + [h];
      }
      assert hosts[..i] == hosts;
      Take(id, toChange, []);
      PreparedIs(old(inUse), id, hosts, toChange);
      return Ok(());
    }

    method Release(id: HostID)
      modifies this
      ensures inUse == Released(old(inUse), id)
    {
      var removed := HeldFor(id, []);
      inUse := inUse - removed;
    }
  }

  /** None of the names, lower-cased, is blocked. */
  ghost predicate NoneBlocked(names: seq<string>, hosts: seq<string>) {
    forall h | h in LowerEach(hosts) :: !Blocked(names, h)
  }

  /** What the service demands of a request: its lower-cased names are neither blocked nor another owner's. */
  ghost predicate Allowed(names: seq<string>, store: Store, hosts: seq<string>, owner: string) {
    NoneBlocked(names, hosts) && Free(store, LowerEach(hosts), owner)
  }

  function Bare(names: seq<string>): seq<string> {
    if names == [] then []
    else
      var n := names[|names| - 1];
      Bare(names[..|names| - 1]) + [if n != "" && n[0] == SEPARATOR then n[1..] else n]
  }

  function Domains(names: seq<string>): seq<string> {
    if names == [] then []
    else
      var n := names[|names| - 1];
      Domains(names[..|names| - 1]) + if n != "" && n[0] == SEPARATOR then [n] else []
  }

  ghost predicate InLists(hostnames: seq<string>, domains: seq<string>, h: string) {
    h in hostnames || exists i | 0 <= i < |domains| :: HasSuffix(h, domains[i])
  }

  /** The two lists built from the configured names block exactly what those names say. */
  lemma {:induction false} ListsBlock(names: seq<string>, h: string)
    ensures Blocked(names, h) <==> InLists(Bare(names), Domains(names), h)
  {
    if names != [] {
      var front, n := names[..|names| - 1], names[|names| - 1];
      ListsBlock(front, h);
      BlockedLast(names, h);
      ListsLast(Bare(front), Domains(front), n, h);
    }
  }

  lemma BlockedLast(names: seq<string>, h: string)
    requires names != []
    ensures Blocked(names, h) <==> Blocked(names[..|names| - 1], h) || BlockedBy(names[|names| - 1], h)
  {}

  lemma ListsLast(hostnames: seq<string>, domains: seq<string>, n: string, h: string)
    ensures var dotted := n != "" && n[0] == SEPARATOR;
            InLists(hostnames + [if dotted then n[1..] else n], domains + (if dotted then [n] else []), h)
            <==> InLists(hostnames, domains, h) || BlockedBy(n, h)
  {
    var more := domains + [n];
    if n != "" && n[0] == SEPARATOR {
      if exists i | 0 <= i < |domains| :: HasSuffix(h, domains[i]) {
        var i :| 0 <= i < |domains| && HasSuffix(h, domains[i]);
        assert more[i] == domains[i];
      }
      assert more[|domains|] == n;
    } else {
      assert domains + [] == domains;
    }
  }

  lemma {:induction false} WithheldIs(store: Store, id: HostID, hosts: seq<string>, h: string)
    ensures h in Withheld(store, id, hosts) <==> h in hosts && HeldElsewhere(store, id, h)
  {
    if hosts != [] {
      var front, last := hosts[..|hosts| - 1], hosts[|hosts| - 1];
      WithheldIs(store, id, front, h);
      assert hosts == front + [last];
    }
  }

  lemma {:induction false} ReservedIs(store: Store, id: HostID, hosts: seq<string>, removed: set<string>)
    requires removed == set h | h in store && store[h] == id && h !in hosts
    ensures (store + map h | h in Elements(hosts) && h !in Withheld(store, id, hosts) :: id) - removed
         == Reserved(store, id, hosts)
  {
    forall h ensures h in Withheld(store, id, hosts) <==> h in hosts && HeldElsewhere(store, id, h) {
      WithheldIs(store, id, hosts, h);
    }
  }

  lemma PreparedIs(store: Store, id: HostID, hosts: seq<string>, toChange: seq<string>)
    requires Elements(toChange) == Elements(hosts) * store.Keys
    ensures store + (map h | h in Elements(toChange) && h !in [] :: id) == Prepared(store, id, hosts)
  {}

  // ---- One request ----

  /** A successful reservation leaves `id` holding exactly the names requested and not withheld, and every name held for
      another as it was; what it withholds is what is held elsewhere. */
  lemma {:induction false} ReserveExact(store: Store, id: HostID, hosts: seq<string>, h: string, other: HostID)
    ensures var t := Reserved(store, id, hosts);
            && ((h in t && t[h] == id) <==> h in hosts && h !in Withheld(store, id, hosts))
            && (other != id ==> ((h in t && t[h] == other) <==> (h in store && store[h] == other)))
  {
    WithheldIs(store, id, hosts, h);
    assert h in hosts ==> h in Elements(hosts);
  }

  /** Reserving right after a successful prepare withholds nothing and changes no owner. */
  lemma {:induction false} PrepareThenReserve(store: Store, id: HostID, hosts: seq<string>)
    requires Free(store, hosts, id.owner)
    ensures var t := Prepared(store, id, hosts);
            && Free(t, hosts, id.owner)
            && Withheld(t, id, hosts) == []
            && forall h | h in hosts :: h in Reserved(t, id, hosts) && Reserved(t, id, hosts)[h] == id
  {
    var t := Prepared(store, id, hosts);
    NoneWithheld(t, id, hosts);
    forall h | h in hosts ensures h in Reserved(t, id, hosts) && Reserved(t, id, hosts)[h] == id {
      assert h in Elements(hosts);
    }
  }

  lemma {:induction false} NoneWithheld(store: Store, id: HostID, hosts: seq<string>)
    ensures Withheld(store, id, hosts) == [] <==> forall h | h in hosts :: !HeldElsewhere(store, id, h)
  {
    if hosts != [] {
      NoneWithheld(store, id, hosts[..|hosts| - 1]);
      assert hosts == hosts[..|hosts| - 1] + [hosts[|hosts| - 1]];
    }
  }

  // ---- Any sequence of requests ----

  datatype Request =
    | ReserveFor(hosts: seq<string>, id: HostID)
    | PrepareFor(hosts: seq<string>, id: HostID)
    | ReleaseOf(id: HostID)

  ghost function Apply(store: Store, r: Request): Store {
    match r
    case ReserveFor(hosts, id) => if Free(store, hosts, id.owner) then Reserved(store, id, hosts) else store
    case PrepareFor(hosts, id) => if Free(store, hosts, id.owner) then Prepared(store, id, hosts) else store
    case ReleaseOf(id) => Released(store, id)
  }

  ghost function Run(store: Store, rs: seq<Request>): Store {
    if rs == [] then store else Apply(Run(store, rs[..|rs| - 1]), rs[|rs| - 1])
  }

  /** Held after every one of the requests. */
  ghost predicate HeldThroughout(store: Store, rs: seq<Request>, h: string) {
    forall k | 0 <= k <= |rs| :: h in Run(store, rs[..k])
  }

  lemma ApplyKeepsOwner(store: Store, r: Request, h: string)
    requires h in store && h in Apply(store, r)
    ensures Apply(store, r)[h].owner == store[h].owner
  {}

  /** Over any requests, a hostname held all the way keeps its owner. */
  lemma {:induction false} OwnerNeverChanges(store: Store, rs: seq<Request>, h: string)
    requires HeldThroughout(store, rs, h)
    ensures h in store && h in Run(store, rs) && Run(store, rs)[h].owner == store[h].owner
  {
    assert rs[..|rs|] == rs && rs[..0] == [];
    assert h in Run(store, rs[..0]) && h in Run(store, rs[..|rs|]);
    if rs != [] {
      var front := rs[..|rs| - 1];
      forall k | 0 <= k <= |front| ensures h in Run(store, front[..k]) {
        assert front[..k] == rs[..k];
      }
      OwnerNeverChanges(store, front, h);
      ApplyKeepsOwner(Run(store, front), rs[|rs| - 1], h);
    }
  }

  // ---- Preparing and reserving through the service ----

  /** The law "reserving right after preparing withholds nothing", through the service: after a successful prepare the
      same names can be reserved, none withheld, exactly when none of them is blocked, which a prepare does not look at,
      and each one's lower-case form is free, already held for `id`, or itself among the names prepared, since a prepare
      does not lower-case. */
  lemma {:induction false} ServicePrepareThenReserve(names: seq<string>, store: Store, id: HostID, hosts: seq<string>)
    requires Free(store, hosts, id.owner)
    ensures var t := Prepared(store, id, hosts);
            (Allowed(names, t, hosts, id.owner) && Withheld(t, id, LowerEach(hosts)) == [])
            <==>
            && NoneBlocked(names, hosts)
            && forall l | l in LowerEach(hosts) && l in store :: l in hosts || store[l] == id
  {
    NoneWithheld(Prepared(store, id, hosts), id, LowerEach(hosts));
  }

  /** So for lower-case names it holds exactly when none of them is blocked. */
  lemma {:induction false} LowerCaseNamesPrepare(names: seq<string>, store: Store, id: HostID, hosts: seq<string>)
    requires Free(store, hosts, id.owner) && LowerEach(hosts) == hosts
    ensures var t := Prepared(store, id, hosts);
            Allowed(names, t, hosts, id.owner) && Withheld(t, id, LowerEach(hosts)) == []
            <==> NoneBlocked(names, hosts)
  {
    ServicePrepareThenReserve(names, store, id, hosts);
  }

  /** It fails for a name with a capital whose lower-case form the same owner holds for another group: the prepare
      succeeds and changes nothing, and the reservation withholds the name. */
  lemma CapitalNameWithheld()
    ensures var first, id := HostID("owner", 1, 1), HostID("owner", 2, 1);
            var store: Store := map["a.b" := first];
            && Free(store, ["A.b"], id.owner)
            && Prepared(store, id, ["A.b"]) == store
            && Withheld(store, id, LowerEach(["A.b"])) == ["a.b"]
  {
    assert LowerChar('A') == 'a' && LowerChar('.') == '.' && LowerChar('b') == 'b';
    assert Lower("A.b") == "a.b";
    assert LowerEach(["A.b"]) == ["a.b"];
    assert Withheld(map["a.b" := HostID("owner", 1, 1)], HostID("owner", 2, 1), []) == [];
  }

  /** And for a blocked name: nothing is held, the prepare succeeds, and the reservation is refused. */
  lemma BlockedNamePrepared(id: HostID)
    ensures var store: Store := map[];
            && Free(store, ["bad"], id.owner)
            && !Allowed(["bad"], Prepared(store, id, ["bad"]), ["bad"], id.owner)
  {
    assert Lower("bad") == "bad";
    assert LowerEach(["bad"])[0] == "bad";
    assert BlockedBy(["bad"][0], "bad");
    assert "bad" in LowerEach(["bad"]) && Blocked(["bad"], "bad");
  }

  // ---- Who holds a name ----

  /** Who holds the name after a request that is granted, given who did before. */
  ghost function NextHolder(was: Option<HostID>, r: Request, h: string): Option<HostID> {
    match r
    case ReserveFor(hosts, id) =>
      if h in hosts then if was.Some? then was else Some(id)
      else if was == Some(id) then None
      else was
    case PrepareFor(hosts, id) => if h in hosts && was.Some? then Some(id) else was
    case ReleaseOf(id) => if was == Some(id) then None else was
  }

  /** Who holds the name after some requests to an empty store.  A request is granted if none of its names is held by
      another owner then; a release always is. */
  ghost function Holder(rs: seq<Request>, h: string): Option<HostID>
    decreases |rs|, 0
  {
    if rs == [] then None
    else
      var front, r := rs[..|rs| - 1], rs[|rs| - 1];
      if Granted(front, r) then NextHolder(Holder(front, h), r, h) else Holder(front, h)
  }

  ghost predicate Granted(rs: seq<Request>, r: Request)
    decreases |rs|, 2
  {
    r.ReleaseOf? || forall h | h in r.hosts :: OwnedBy(rs, h, r.id.owner)
  }

  ghost predicate OwnedBy(rs: seq<Request>, h: string, owner: string)
    decreases |rs|, 1
  {
    Holder(rs, h).Some? ==> Holder(rs, h).value.owner == owner
  }

  ghost function HolderIn(store: Store, h: string): Option<HostID> {
    if h in store then Some(store[h]) else None
  }

  lemma ReservedHolder(store: Store, hosts: seq<string>, id: HostID, h: string)
    ensures HolderIn(Reserved(store, id, hosts), h) == NextHolder(HolderIn(store, h), ReserveFor(hosts, id), h)
  {
    assert h in hosts <==> h in Elements(hosts);
  }

  /** Over any requests the store holds each name for exactly the group that the requests granted call for: the first to
      reserve it until that group releases it or reserves without it, or the last to prepare its transfer. */
  lemma {:induction false} HeldExactly(rs: seq<Request>, h: string)
    ensures HolderIn(Run(map[], rs), h) == Holder(rs, h)
    decreases |rs|, 0
  {
    if rs != [] {
      var front, r := rs[..|rs| - 1], rs[|rs| - 1];
      var store := Run(map[], front);
      HeldExactly(front, h);
      GrantedIff(front, r);
      if r.ReserveFor? { ReservedHolder(store, r.hosts, r.id, h); }
    }
  }

  lemma {:induction false} GrantedIff(rs: seq<Request>, r: Request)
    ensures !r.ReleaseOf? ==> (Granted(rs, r) <==> Free(Run(map[], rs), r.hosts, r.id.owner))
    decreases |rs|, 1
  {
    if !r.ReleaseOf? {
      forall h | h in r.hosts ensures HolderIn(Run(map[], rs), h) == Holder(rs, h) {
        HeldExactly(rs, h);
      }
    }
  }
}
