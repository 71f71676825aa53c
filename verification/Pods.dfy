/** A node's accounting of what its pods take: CPU, memory with memory-backed volumes, ephemeral storage and GPUs, kept
    up to date from pod events and recomputed whenever the pod watch restarts.  The four amounts are kept alike, so the
    state machine and the statements about it take the resource as a parameter. */
module Pods {
  import opened Maps
  import opened Market

  datatype Resource = Cpu | Mem | Ephemeral | Gpu

  /** What a container's requests can name. */
  datatype RequestName =
    | CPU
    | Memory
    | EphemeralStorage
    | NvidiaGPU
    | NvidiaPGPU
    | AMDGPU
    | OtherRequest(name: string)

  type Requests = map<RequestName, int>

  datatype ConditionKind = PodScheduled | OtherCondition(name: string)

  datatype Condition = Condition(kind: ConditionKind, isTrue: bool)

  /** A volume; `EmptyDir` says whether memory backs it and what limits it, if anything does. */
  datatype Volume = EmptyDir(inMemory: bool, limit: Option<int>) | OtherVolume

  /** A pod by its namespaced name, with the requests of each of its containers. */
  datatype Pod = Pod(key: string, conditions: seq<Condition>, containers: seq<Requests>, volumes: seq<Volume>)

  // ---- What a pod takes ----

  function Get(m: Requests, n: RequestName): int {
    if n in m then m[n] else 0
  }

  /** What one container's requests take of a resource; three names stand for GPUs. */
  function Requested(m: Requests, r: Resource): int {
    match r
    case Cpu => Get(m, CPU)
    case Mem => Get(m, Memory)
    case Ephemeral => Get(m, EphemeralStorage)
    case Gpu => Get(m, NvidiaGPU) + Get(m, NvidiaPGPU) + Get(m, AMDGPU)
  }

  function VolumeSize(v: Volume): int {
    if v.EmptyDir? && v.inMemory && v.limit.Some? then v.limit.value else 0
  }

  function VolumeSizes(vs: seq<Volume>): int {
    if vs == [] then 0 else VolumeSizes(vs[..|vs| - 1]) + VolumeSize(vs[|vs| - 1])
  }

  /** A container's requests and, for memory, all of the pod's memory-backed volumes. */
  function ContainerUsage(m: Requests, vs: seq<Volume>, r: Resource): int {
    Requested(m, r) + if r.Mem? then VolumeSizes(vs) else 0
  }

  function ContainersUsage(cs: seq<Requests>, vs: seq<Volume>, r: Resource): int {
    if cs == [] then 0 else ContainersUsage(cs[..|cs| - 1], vs, r) + ContainerUsage(cs[|cs| - 1], vs, r)
  }

  function Usage(p: Pod, r: Resource): int {
    ContainersUsage(p.containers, p.volumes, r)
  }

  /** The first condition about scheduling decides. */
  predicate Scheduled(cs: seq<Condition>) {
    cs != [] && if cs[0].kind.PodScheduled? then cs[0].isTrue else Scheduled(cs[1..])
  }

  // ---- The node's state, for one resource ----

  /** The amount allocated, the pods recorded, and the listing they were last recomputed from. */
  datatype State = State(taken: int, pods: map<string, Pod>, listing: seq<Pod>)

  function Record(pods: map<string, Pod>, p: Pod): map<string, Pod> {
    if Scheduled(p.conditions) then pods[p.key := p] else pods
  }

  /** The pods a listing leaves recorded: the last scheduled one of each name. */
  function ListedPods(list: seq<Pod>): map<string, Pod> {
    if list == [] then map[] else Record(ListedPods(list[..|list| - 1]), list[|list| - 1])
  }

  /** What the scheduled pods of a listing take, each counted. */
  function ListedUsage(list: seq<Pod>, r: Resource): int {
    if list == [] then 0
    else
      var p := list[|list| - 1];
      ListedUsage(list[..|list| - 1], r) + if Scheduled(p.conditions) then Usage(p, r) else 0
  }

  function Listed(list: seq<Pod>, r: Resource): State {
    State(ListedUsage(list, r), ListedPods(list), list)
  }

  function OnSeen(s: State, p: Pod, r: Resource): State {
    if p.key !in s.pods && Scheduled(p.conditions)
    then s.(taken := s.taken + Usage(p, r), pods := s.pods[p.key := p])
    else s
  }

  function OnDeleted(s: State, key: string, r: Resource): State {
    if key in s.pods then s.(taken := s.taken - Usage(s.pods[key], r), pods := s.pods - {key}) else s
  }

  datatype Event = Seen(p: Pod) | Deleted(key: string) | Restarted(list: seq<Pod>)

  function Step(s: State, e: Event, r: Resource): State {
    match e
    case Seen(p) => OnSeen(s, p, r)
    case Deleted(key) => OnDeleted(s, key, r)
    case Restarted(list) => Listed(list, r)
  }

  /** The state after a first listing and any events. */
  function Run(list: seq<Pod>, es: seq<Event>, r: Resource): State {
    if es == [] then Listed(list, r) else Step(Run(list, es[..|es| - 1], r), es[|es| - 1], r)
  }

  // ---- The node's monitor ----

  class Monitor {
    var cpu: int
    var memory: int
    var ephemeral: int
    var gpu: int
    var currPods: map<string, Pod>
    ghost var listing: seq<Pod>

    function Allocated(r: Resource): int
      reads this
    {
      match r
      case Cpu => cpu
      case Mem => memory
      case Ephemeral => ephemeral
      case Gpu => gpu
    }

    ghost function View(r: Resource): State
      reads this
    {
      State(Allocated(r), currPods, listing)
    }

    constructor (list: seq<Pod>)
      ensures forall r: Resource :: View(r) == Listed(list, r)
    {
      cpu, memory, ephemeral, gpu, currPods, listing := 0, 0, 0, 0, map[], [];
      new;
      RestartPodsWatcher(list);
    }

    /** Adds one container's requests; the map may yield them in any order. */
    method AddRequests(m: Requests)
      modifies this`cpu, this`memory, this`ephemeral, this`gpu
      ensures forall r: Resource :: Allocated(r) == old(Allocated(r)) + Requested(m, r)
    {
      var rest := m.Keys;
      while rest != {}
        invariant rest <= m.Keys
        invariant cpu == old(cpu) + Requested(m - rest, Cpu)
        invariant memory == old(memory) + Requested(m - rest, Mem)
        invariant ephemeral == old(ephemeral) + Requested(m - rest, Ephemeral)
        invariant gpu == old(gpu) + Requested(m - rest, Gpu)
      {
        var name :| name in rest;
        rest := rest - {name};
        OneMore(m, rest, name);
        match name
        case CPU => cpu := cpu + m[name];
        case Memory => memory := memory + m[name];
        case EphemeralStorage => ephemeral := ephemeral + m[name];
        case NvidiaGPU => gpu := gpu + m[name];
        case NvidiaPGPU => gpu := gpu + m[name];
        case AMDGPU => gpu := gpu + m[name];
        case OtherRequest(_) =>
      }
      assert m - rest == m;
    }

    method AddVolumes(vs: seq<Volume>)
      modifies this`memory
      ensures memory == old(memory) + VolumeSizes(vs)
    {
      var i := 0;
      while i < |vs|
        invariant 0 <= i <= |vs|
        invariant memory == old(memory) + VolumeSizes(vs[..i])
      {
        var v := vs[i];
        assert vs[..i + 1][..i] == vs[..i];
        i := i + 1;
        if !v.EmptyDir? || !v.inMemory || v.limit.None? {
          continue;
        }
        memory := memory + v.limit.value;
      }
      assert vs[..i] == vs;
    }

    method AddPod(p: Pod)
      modifies this`cpu, this`memory, this`ephemeral, this`gpu
      ensures forall r: Resource :: Allocated(r) == old(Allocated(r)) + Usage(p, r)
    {
      var i := 0;
      while i < |p.containers|
        invariant 0 <= i <= |p.containers|
        invariant forall r: Resource ::
                    Allocated(r) == old(Allocated(r)) + ContainersUsage(p.containers[..i], p.volumes, r)
      {
        OneContainer(p.containers, p.volumes, i);
        AddRequests(p.containers[i]);
        AddVolumes(p.volumes);
        i := i + 1;
      }
      assert p.containers[..i] == p.containers;
    }

    /** Subtracts one container's requests.  `negative` says whether a result went below zero on the way, which the
        source reports as an error. */
    method SubRequests(m: Requests) returns (negative: bool)
      modifies this`cpu, this`memory, this`ephemeral, this`gpu
      ensures forall r: Resource :: Allocated(r) == old(Allocated(r)) - Requested(m, r)
      ensures NonNegative(m) && (forall r: Resource :: old(Allocated(r)) >= Requested(m, r)) ==> !negative
    {
      negative := false;
      var rest := m.Keys;
      ghost var covered := NonNegative(m) && forall r: Resource :: Allocated(r) >= Requested(m, r);
      assert covered ==> (cpu >= Requested(m, Cpu) && memory >= Requested(m, Mem)
                          && ephemeral >= Requested(m, Ephemeral) && gpu >= Requested(m, Gpu)) by {
        assert covered ==> (Allocated(Cpu) >= Requested(m, Cpu) && Allocated(Mem) >= Requested(m, Mem)
                            && Allocated(Ephemeral) >= Requested(m, Ephemeral) && Allocated(Gpu) >= Requested(m, Gpu));
      }
      while rest != {}
        invariant rest <= m.Keys
        invariant cpu == old(cpu) - Requested(m - rest, Cpu)
        invariant memory == old(memory) - Requested(m - rest, Mem)
        invariant ephemeral == old(ephemeral) - Requested(m - rest, Ephemeral)
        invariant gpu == old(gpu) - Requested(m - rest, Gpu)
        invariant covered ==> !negative
      {
        var name :| name in rest;
        rest := rest - {name};
        OneMore(m, rest, name);
        RestBound(m, rest);
        var q := m[name];
        match name
        case CPU =>
          cpu := cpu - q;
          negative := negative || cpu < 0;
        case Memory =>
          memory := memory - q;
          negative := negative || memory < 0;
        case EphemeralStorage =>
          ephemeral := ephemeral - q;
          negative := negative || ephemeral < 0;
        case NvidiaGPU =>
          gpu := gpu - q;
          negative := negative || gpu < 0;
        case NvidiaPGPU =>
          gpu := gpu - q;
          negative := negative || gpu < 0;
        case AMDGPU =>
          gpu := gpu - q;
          negative := negative || gpu < 0;
        case OtherRequest(_) =>
      }
      assert m - rest == m;
    }

    method SubVolumes(vs: seq<Volume>) returns (negative: bool)
      modifies this`memory
      ensures memory == old(memory) - VolumeSizes(vs)
      ensures NonNegativeVolumes(vs) && old(memory) >= VolumeSizes(vs) ==> !negative
    {
      negative := false;
      var i := 0;
      while i < |vs|
        invariant 0 <= i <= |vs|
        invariant memory == old(memory) - VolumeSizes(vs[..i])
        invariant NonNegativeVolumes(vs) && old(memory) >= VolumeSizes(vs) ==> !negative
      {
        var v := vs[i];
        assert vs[..i + 1][..i] == vs[..i];
        i := i + 1;
        if NonNegativeVolumes(vs) { VolumesGrow(vs, i); }
        if !v.EmptyDir? || !v.inMemory || v.limit.None? {
          continue;
        }
        memory := memory - v.limit.value;
        negative := negative || memory < 0;
      }
      assert vs[..i] == vs;
    }

    method SubPod(p: Pod) returns (negative: bool)
      modifies this`cpu, this`memory, this`ephemeral, this`gpu
      ensures forall r: Resource :: Allocated(r) == old(Allocated(r)) - Usage(p, r)
      ensures NonNegativePod(p) && (forall r: Resource :: old(Allocated(r)) >= Usage(p, r)) ==> !negative
    {
      negative := false;
      var i := 0;
      ghost var covered := NonNegativePod(p) && forall r: Resource :: Allocated(r) >= Usage(p, r);
      while i < |p.containers|
        invariant 0 <= i <= |p.containers|
        invariant forall r: Resource ::
                    Allocated(r) == old(Allocated(r)) - ContainersUsage(p.containers[..i], p.volumes, r)
        invariant covered ==> !negative
      {
        var below := SubContainer(p, i, covered);
        negative := negative || below;
        i := i + 1;
      }
      assert p.containers[..i] == p.containers;
    }

    method SubContainer(p: Pod, i: nat, ghost covered: bool) returns (negative: bool)
      requires i < |p.containers|
      requires covered ==> NonNegativePod(p) && forall r: Resource ::
                 Allocated(r) + ContainersUsage(p.containers[..i], p.volumes, r) >= Usage(p, r)
      modifies this`cpu, this`memory, this`ephemeral, this`gpu
      ensures forall r: Resource :: Allocated(r) + ContainersUsage(p.containers[..i + 1], p.volumes, r)
                                 == old(Allocated(r)) + ContainersUsage(p.containers[..i], p.volumes, r)
      ensures covered ==> !negative
    {
      OneContainer(p.containers, p.volumes, i);
      if covered {
        VolumesGrow(p.volumes, 0);
        forall r: Resource
          ensures Allocated(r) >= Requested(p.containers[i], r) + if r.Mem? then VolumeSizes(p.volumes) else 0
        {
          UsageGrows(p.containers, p.volumes, i + 1, r);
        }
        assert Allocated(Mem) >= Requested(p.containers[i], Mem) + VolumeSizes(p.volumes);
      }
      negative := SubRequests(p.containers[i]);
      assert Allocated(Mem) == memory;
      var below := SubVolumes(p.volumes);
      negative := negative || below;
    }

    method RestartPodsWatcher(list: seq<Pod>)
      modifies this
      ensures forall r: Resource :: View(r) == Listed(list, r)
    {
      cpu, memory, ephemeral, gpu := 0, 0, 0, 0;
      currPods, listing := map[], list;
      var i := 0;
      while i < |list|
        invariant 0 <= i <= |list|
        invariant forall r: Resource :: Allocated(r) == ListedUsage(list[..i], r)
        invariant currPods == ListedPods(list[..i]) && listing == list
      {
        var p := list[i];
        assert list[..i + 1][..i] == list[..i];
        i := i + 1;
        if !Scheduled(p.conditions) {
          continue;
        }
        AddPod(p);
        currPods := currPods[p.key := p];
      }
      assert list[..i] == list;
    }

    /** A pod added or modified. */
    method OnPodSeen(p: Pod)
      modifies this
      ensures forall r: Resource :: View(r) == OnSeen(old(View(r)), p, r)
    {
      if p.key !in currPods && Scheduled(p.conditions) {
        currPods := currPods[p.key := p];
        AddPod(p);
      }
    }

    /** A pod deleted: what was recorded for it is subtracted, and never goes negative where requests are not. */
    method OnPodDeleted(key: string) returns (negative: bool)
      modifies this
      ensures forall r: Resource :: View(r) == OnDeleted(old(View(r)), key, r)
      ensures (forall r: Resource :: Accounted(old(View(r)), r)) && AllNonNegative(old(currPods), old(listing)) ==>
                !negative
    {
      if key !in currPods {
        return false;
      }
      var p := currPods[key];
      if (forall r: Resource :: Accounted(View(r), r)) && AllNonNegative(currPods, listing) {
        forall r: Resource ensures Allocated(r) >= Usage(p, r) {
          assert Accounted(View(r), r);
          CoversEach(View(r), key, r);
        }
      }
      negative := SubPod(p);
      currPods := currPods - {key};
    }
  }

  lemma OneContainer(cs: seq<Requests>, vs: seq<Volume>, i: nat)
    requires i < |cs|
    ensures forall r: Resource :: ContainersUsage(cs[..i + 1], vs, r)
                               == ContainersUsage(cs[..i], vs, r) + ContainerUsage(cs[i], vs, r)
  {
    assert cs[..i + 1][..i] == cs[..i];
  }

  lemma OneMore(m: Requests, rest: set<RequestName>, name: RequestName)
    requires name in m && name !in rest
    ensures forall n :: Get(m - rest, n) == Get(m - (rest + {name}), n) + if n == name then m[name] else 0
  {}

  lemma RestBound(m: Requests, rest: set<RequestName>)
    ensures NonNegative(m) ==> forall r: Resource :: Requested(m, r) >= Requested(m - rest, r)
  {}

  // ---- Non-negative requests ----

  ghost predicate NonNegative(m: Requests) {
    forall n | n in m :: m[n] >= 0
  }

  ghost predicate NonNegativeVolumes(vs: seq<Volume>) {
    forall i | 0 <= i < |vs| :: VolumeSize(vs[i]) >= 0
  }

  ghost predicate NonNegativePod(p: Pod) {
    && (forall i | 0 <= i < |p.containers| :: NonNegative(p.containers[i]))
    && NonNegativeVolumes(p.volumes)
  }

  ghost predicate NonNegativePods(list: seq<Pod>) {
    forall i | 0 <= i < |list| :: NonNegativePod(list[i])
  }

  ghost predicate AllNonNegative(pods: map<string, Pod>, listing: seq<Pod>) {
    (forall k | k in pods :: NonNegativePod(pods[k])) && NonNegativePods(listing)
  }

  lemma {:induction false} VolumesGrow(vs: seq<Volume>, i: nat)
    requires i <= |vs| && NonNegativeVolumes(vs)
    ensures 0 <= VolumeSizes(vs[..i]) <= VolumeSizes(vs)
    decreases |vs|
  {
    if i == |vs| {
      assert vs[..i] == vs;
      if i > 0 { VolumesGrow(vs[..i - 1], i - 1); }
    } else {
      var front := vs[..|vs| - 1];
      assert front[..i] == vs[..i];
      VolumesGrow(front, i);
    }
  }

  lemma {:induction false} UsageGrows(cs: seq<Requests>, vs: seq<Volume>, i: nat, r: Resource)
    requires i <= |cs| && NonNegativeVolumes(vs) && forall k | 0 <= k < |cs| :: NonNegative(cs[k])
    ensures 0 <= ContainersUsage(cs[..i], vs, r) <= ContainersUsage(cs, vs, r)
    decreases |cs|
  {
    VolumesGrow(vs, |vs|);
    assert vs[..|vs|] == vs;
    if i == |cs| {
      assert cs[..i] == cs;
      if i > 0 { UsageGrows(cs[..i - 1], vs, i - 1, r); }
    } else {
      var front := cs[..|cs| - 1];
      assert front[..i] == cs[..i];
      UsageGrows(front, vs, i, r);
    }
  }

  lemma PodUsageNonNegative(p: Pod, r: Resource)
    requires NonNegativePod(p)
    ensures Usage(p, r) >= 0
  {
    UsageGrows(p.containers, p.volumes, |p.containers|, r);
    assert p.containers[..|p.containers|] == p.containers;
  }

  // ---- Sums over the recorded pods ----

  ghost function Takes(pods: map<string, Pod>, r: Resource): map<string, int> {
    map k | k in pods :: Usage(pods[k], r)
  }

  /** What the recorded pods take together. */
  ghost function Sum(pods: map<string, Pod>, r: Resource): int {
    Total(Takes(pods, r))
  }

  lemma SumRemove(pods: map<string, Pod>, k: string, r: Resource)
    requires k in pods
    ensures Sum(pods, r) == Sum(pods - {k}, r) + Usage(pods[k], r)
  {
    TotalRemove(Takes(pods, r), k);
    assert Takes(pods - {k}, r) == Takes(pods, r) - {k};
  }

  lemma SumInsert(pods: map<string, Pod>, p: Pod, r: Resource)
    ensures Sum(pods[p.key := p], r) == Sum(pods - {p.key}, r) + Usage(p, r)
  {
    TotalInsert(Takes(pods, r), p.key, Usage(p, r));
    assert Takes(pods[p.key := p], r) == Takes(pods, r)[p.key := Usage(p, r)];
    assert Takes(pods - {p.key}, r) == Takes(pods, r) - {p.key};
  }

  lemma {:induction false} SumNonNegative(pods: map<string, Pod>, r: Resource)
    requires forall k | k in pods :: NonNegativePod(pods[k])
    ensures Sum(pods, r) >= 0
    decreases |pods|
  {
    if pods == map[] {
      assert Takes(pods, r) == map[];
    } else {
      var k :| k in pods;
      SumRemove(pods, k, r);
      RemoveShrinks(pods, k);
      SumNonNegative(pods - {k}, r);
      PodUsageNonNegative(pods[k], r);
    }
  }

  // ---- The accounting equation ----

  /** What pods of a listing take that a later pod of the same name in it replaces. */
  function Shadowed(list: seq<Pod>, r: Resource): int {
    if list == [] then 0
    else
      var front, p := list[..|list| - 1], list[|list| - 1];
      Shadowed(front, r)
      + if Scheduled(p.conditions) && p.key in ListedPods(front) then Usage(ListedPods(front)[p.key], r) else 0
  }

  /** What is allocated is the sum over the recorded pods, and what the last listing counted twice. */
  ghost predicate Accounted(s: State, r: Resource) {
    s.taken == Sum(s.pods, r) + Shadowed(s.listing, r)
  }

  lemma {:induction false} ListedAccounted(list: seq<Pod>, r: Resource)
    ensures Accounted(Listed(list, r), r)
  {
    if list == [] {
      assert Takes(map[], r) == map[];
    } else {
      var front, p := list[..|list| - 1], list[|list| - 1];
      ListedAccounted(front, r);
      var pods := ListedPods(front);
      if Scheduled(p.conditions) {
        SumInsert(pods, p, r);
        if p.key in pods { SumRemove(pods, p.key, r); } else { assert pods - {p.key} == pods; }
      }
    }
  }

  lemma StepAccounted(s: State, e: Event, r: Resource)
    requires Accounted(s, r)
    ensures Accounted(Step(s, e, r), r)
  {
    match e
    case Seen(p) =>
      SumInsert(s.pods, p, r);
      if p.key !in s.pods { assert s.pods - {p.key} == s.pods; }
    case Deleted(key) => if key in s.pods { SumRemove(s.pods, key, r); }
    case Restarted(list) => ListedAccounted(list, r);
  }

  lemma {:induction false} RunAccounted(list: seq<Pod>, es: seq<Event>, r: Resource)
    ensures Accounted(Run(list, es, r), r)
  {
    if es == [] {
      ListedAccounted(list, r);
    } else {
      RunAccounted(list, es[..|es| - 1], r);
      StepAccounted(Run(list, es[..|es| - 1], r), es[|es| - 1], r);
    }
  }

  // ---- Theorems about every run ----

  /** A listing names no scheduled pod twice, as the cluster's API promises. */
  ghost predicate Distinct(list: seq<Pod>) {
    forall i, j | 0 <= i < j < |list| && Scheduled(list[i].conditions) && Scheduled(list[j].conditions) ::
      list[i].key != list[j].key
  }

  lemma {:induction false} ListedFrom(list: seq<Pod>, k: string) returns (i: nat)
    requires k in ListedPods(list)
    ensures i < |list| && Scheduled(list[i].conditions) && list[i].key == k
  {
    i := |list| - 1;
    if !(Scheduled(list[i].conditions) && list[i].key == k) {
      i := ListedFrom(list[..i], k);
    }
  }

  lemma {:induction false} DistinctShadowsNone(list: seq<Pod>, r: Resource)
    requires Distinct(list)
    ensures Shadowed(list, r) == 0
  {
    if list != [] {
      var front, p := list[..|list| - 1], list[|list| - 1];
      DistinctShadowsNone(front, r);
      if Scheduled(p.conditions) && p.key in ListedPods(front) {
        var i := ListedFrom(front, p.key);
      }
    }
  }

  lemma {:induction false} ListingIs(list: seq<Pod>, es: seq<Event>, r: Resource)
    ensures Run(list, es, r).listing == LastListing(list, es)
  {
    if es != [] {
      ListingIs(list, es[..|es| - 1], r);
    }
  }

  function LastListing(list: seq<Pod>, es: seq<Event>): seq<Pod> {
    if es == [] then list
    else if es[|es| - 1].Restarted? then es[|es| - 1].list
    else LastListing(list, es[..|es| - 1])
  }

  /** After any pod events and restarts, of which the last listed no scheduled pod twice, each of the four amounts is
      the sum over the recorded pods. */
  lemma {:induction false} AllocatedIsSum(list: seq<Pod>, es: seq<Event>, r: Resource)
    requires Distinct(LastListing(list, es))
    ensures var s := Run(list, es, r); s.taken == Sum(s.pods, r)
  {
    RunAccounted(list, es, r);
    ListingIs(list, es, r);
    DistinctShadowsNone(LastListing(list, es), r);
  }

  /** Without that promise of the API, it is exactly when the pods replaced within the last listing took nothing. */
  lemma {:induction false} AllocatedIsSumIff(list: seq<Pod>, es: seq<Event>, r: Resource)
    ensures var s := Run(list, es, r); s.taken == Sum(s.pods, r) <==> Shadowed(LastListing(list, es), r) == 0
  {
    RunAccounted(list, es, r);
    ListingIs(list, es, r);
  }

  lemma {:induction false} ShadowedNonNegative(list: seq<Pod>, r: Resource)
    requires NonNegativePods(list)
    ensures Shadowed(list, r) >= 0
    ensures forall k | k in ListedPods(list) :: NonNegativePod(ListedPods(list)[k])
  {
    if list != [] {
      var front, p := list[..|list| - 1], list[|list| - 1];
      ShadowedNonNegative(front, r);
      if p.key in ListedPods(front) {
        PodUsageNonNegative(ListedPods(front)[p.key], r);
      }
    }
  }

  /** What is allocated covers each recorded pod. */
  lemma CoversEach(s: State, key: string, r: Resource)
    requires Accounted(s, r) && AllNonNegative(s.pods, s.listing) && key in s.pods
    ensures s.taken >= Usage(s.pods[key], r)
  {
    SumRemove(s.pods, key, r);
    SumNonNegative(s.pods - {key}, r);
    ShadowedNonNegative(s.listing, r);
  }

  ghost predicate NonNegativeEvent(e: Event) {
    match e
    case Seen(p) => NonNegativePod(p)
    case Deleted(_) => true
    case Restarted(list) => NonNegativePods(list)
  }

  ghost predicate NonNegativeRun(list: seq<Pod>, es: seq<Event>) {
    NonNegativePods(list) && forall i | 0 <= i < |es| :: NonNegativeEvent(es[i])
  }

  lemma {:induction false} RunNonNegative(list: seq<Pod>, es: seq<Event>, r: Resource)
    requires NonNegativeRun(list, es)
    ensures AllNonNegative(Run(list, es, r).pods, Run(list, es, r).listing)
  {
    if es == [] {
      ShadowedNonNegative(list, r);
    } else {
      RunNonNegative(list, es[..|es| - 1], r);
      var e := es[|es| - 1];
      assert NonNegativeEvent(e);
      if e.Restarted? { ShadowedNonNegative(e.list, r); }
    }
  }

  /** With non-negative requests, in every run what is allocated covers every recorded pod, so that no deletion can take
      an amount below zero. */
  lemma {:induction false} DeletionNeverNegative(list: seq<Pod>, es: seq<Event>, key: string, r: Resource)
    requires NonNegativeRun(list, es) && key in Run(list, es, r).pods
    ensures var s := Run(list, es, r);
            s.taken >= Usage(s.pods[key], r) && OnDeleted(s, key, r).taken >= 0
  {
    RunAccounted(list, es, r);
    RunNonNegative(list, es, r);
    CoversEach(Run(list, es, r), key, r);
  }

  // ---- Which pods are recorded ----

  /** The pod's first condition about scheduling is there and true. */
  ghost predicate SaidScheduled(cs: seq<Condition>, i: nat) {
    i < |cs| && cs[i] == Condition(PodScheduled, true) && forall k | 0 <= k < i :: !cs[k].kind.PodScheduled?
  }

  lemma {:induction false} ScheduledIff(cs: seq<Condition>)
    ensures Scheduled(cs) <==> exists i: nat :: SaidScheduled(cs, i)
  {
    if cs != [] {
      if cs[0].kind.PodScheduled? {
        assert cs[0].isTrue <==> SaidScheduled(cs, 0);
      } else {
        ScheduledIff(cs[1..]);
        if i: nat :| SaidScheduled(cs[1..], i) {
          forall k | 0 <= k < i + 1 ensures !cs[k].kind.PodScheduled? {
            assert k > 0 ==> cs[k] == cs[1..][k - 1];
          }
          assert SaidScheduled(cs, i + 1);
        }
        if i: nat :| SaidScheduled(cs, i) {
          assert forall k | 0 <= k < i - 1 :: cs[1..][k] == cs[k + 1];
          assert SaidScheduled(cs[1..], i - 1);
        }
      }
    }
  }

  /** The last scheduled pod of that name in a listing. */
  ghost predicate LastListed(list: seq<Pod>, key: string, i: nat) {
    && i < |list| && list[i].key == key && Scheduled(list[i].conditions)
    && forall k | i < k < |list| :: !(list[k].key == key && Scheduled(list[k].conditions))
  }

  lemma {:induction false} ListedIff(list: seq<Pod>, key: string, i: nat)
    ensures key in ListedPods(list) ==> exists k: nat :: LastListed(list, key, k)
    ensures LastListed(list, key, i) ==> key in ListedPods(list) && ListedPods(list)[key] == list[i]
  {
    if list != [] {
      var n := |list| - 1;
      var front, p := list[..n], list[n];
      ListedIff(front, key, i);
      if p.key == key && Scheduled(p.conditions) {
        assert LastListed(list, key, n);
      } else {
        assert i < n ==> (LastListed(list, key, i) <==> LastListed(front, key, i));
        if k: nat :| LastListed(front, key, k) {
          assert LastListed(list, key, k);
        }
      }
    }
  }

  /** The pod on record under a name: the first one seen scheduled since it was last deleted or listed anew. */
  ghost function OnRecord(list: seq<Pod>, es: seq<Event>, key: string): Option<Pod> {
    if es == [] then ListedUnder(list, key)
    else
      var was := OnRecord(list, es[..|es| - 1], key);
      match es[|es| - 1]
      case Seen(p) => if was.None? && p.key == key && Scheduled(p.conditions) then Some(p) else was
      case Deleted(k) => if k == key then None else was
      case Restarted(listed) => ListedUnder(listed, key)
  }

  ghost function ListedUnder(list: seq<Pod>, key: string): Option<Pod> {
    if i: nat :| LastListed(list, key, i) then Some(list[i]) else None
  }

  lemma {:induction false} ListedUnderIs(list: seq<Pod>, key: string)
    ensures ListedUnder(list, key) == if key in ListedPods(list) then Some(ListedPods(list)[key]) else None
  {
    ListedIff(list, key, 0);
    if i: nat :| LastListed(list, key, i) {
      forall k: nat ensures LastListed(list, key, k) ==> key in ListedPods(list) && ListedPods(list)[key] == list[k] {
        ListedIff(list, key, k);
      }
    }
  }

  /** In every run exactly those pods are on record: under each name the first one seen scheduled, as it was then, since
      a pod of that name was last deleted or the watch restarted, and after a restart the last one listed scheduled. */
  lemma {:induction false} RecordedExactly(list: seq<Pod>, es: seq<Event>, key: string, r: Resource)
    ensures var pods := Run(list, es, r).pods;
            OnRecord(list, es, key) == if key in pods then Some(pods[key]) else None
  {
    if es == [] {
      ListedUnderIs(list, key);
    } else {
      RecordedExactly(list, es[..|es| - 1], key, r);
      if es[|es| - 1].Restarted? { ListedUnderIs(es[|es| - 1].list, key); }
    }
  }

  /** What a request's name counts towards: GPUs under three names, and nothing for a name not known. */
  ghost predicate CountsFor(n: RequestName, r: Resource) {
    match r
    case Cpu => n == CPU
    case Mem => n == Memory
    case Ephemeral => n == EphemeralStorage
    case Gpu => n == NvidiaGPU || n == NvidiaPGPU || n == AMDGPU
  }

  ghost function Counted(m: Requests, r: Resource): map<RequestName, int> {
    map n | n in m && CountsFor(n, r) :: m[n]
  }

  /** What a container takes of a resource is the sum of its requests that count towards it. */
  lemma {:induction false} RequestedIsTotal(m: Requests, r: Resource)
    ensures Requested(m, r) == Total(Counted(m, r))
    decreases |m|
  {
    if m == map[] {
      assert Counted(m, r) == map[];
    } else {
      var n :| n in m;
      RemoveShrinks(m, n);
      RequestedIsTotal(m - {n}, r);
      RequestedOne(m, n, r);
      CountedOne(m, n, r);
    }
  }

  lemma RequestedOne(m: Requests, n: RequestName, r: Resource)
    requires n in m
    ensures Requested(m, r) == Requested(m - {n}, r) + if CountsFor(n, r) then m[n] else 0
  {
    OneMore(m, {}, n);
    assert m - {} == m && m - ({} + {n}) == m - {n};
  }

  lemma CountedOne(m: Requests, n: RequestName, r: Resource)
    requires n in m
    ensures Total(Counted(m, r)) == Total(Counted(m - {n}, r)) + if CountsFor(n, r) then m[n] else 0
  {
    if CountsFor(n, r) {
      TotalRemove(Counted(m, r), n);
      assert Counted(m - {n}, r) == Counted(m, r) - {n};
    } else {
      assert Counted(m - {n}, r) == Counted(m, r);
    }
  }
}
