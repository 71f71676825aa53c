/** The service that fetches and caches auditors' signatures of the provider's attributes: requests wait for a fetch,
    results are cached and answer everyone waiting, and the cache is trimmed after every result. */
module AttributeCache {
  import opened Maps
  import opened Market

  /** An auditor's signed attribute lists. */
  type Signatures = seq<seq<string>>

  datatype Entry = Entry(value: Signatures, at: int)

  type Cache = map<string, Entry>

  /** A request by its number, for an auditor. */
  datatype Request = Request(serial: nat, auditor: string)

  datatype Answer = Value(value: Signatures) | FetchError

  datatype Reply = Reply(request: Request, answer: Answer)

  const MAX_ENTRIES := 50000
  const TARGET := MAX_ENTRIES / 2

  // ---- Sizes ----

  function Attributes(v: Signatures): nat {
    if v == [] then 0 else Attributes(v[..|v| - 1]) + |v[|v| - 1]|
  }

  method ProviderAttrSize(v: Signatures) returns (size: nat)
    ensures size == Attributes(v)
  {
    size := 0;
    var i := 0;
    while i < |v|
      invariant 0 <= i <= |v|
      invariant size == Attributes(v[..i])
    {
      assert v[..i + 1][..i] == v[..i];
      size := size + |v[i]|;
      i := i + 1;
    }
    assert v[..i] == v;
  }

  ghost function Sizes(c: Cache): map<string, int> {
    map k | k in c :: Attributes(c[k].value)
  }

  /** The attributes cached, all auditors together. */
  ghost function Size(c: Cache): int {
    Total(Sizes(c))
  }

  lemma SizeRemove(c: Cache, k: string)
    requires k in c
    ensures Size(c) == Size(c - {k}) + Attributes(c[k].value)
  {
    TotalRemove(Sizes(c), k);
    assert Sizes(c - {k}) == Sizes(c) - {k};
  }

  lemma SizeOfNone()
    ensures Size(map[]) == 0
  {
    assert Sizes(map[]) == map[];
  }

  lemma {:induction false} SizeNonNegative(c: Cache)
    ensures Size(c) >= 0
    decreases |c|
  {
    if c == map[] {
      SizeOfNone();
    } else {
      var k :| k in c;
      SizeRemove(c, k);
      RemoveShrinks(c, k);
      SizeNonNegative(c - {k});
    }
  }

  lemma SizeWithout(c: Cache, k: string)
    ensures Size(c - {k}) <= Size(c)
  {
    if k in c { SizeRemove(c, k); } else { assert c - {k} == c; }
  }

  lemma SizeInsert(c: Cache, k: string, e: Entry)
    ensures Size(c[k := e]) <= Size(c) + Attributes(e.value)
  {
    SizeRemove(c[k := e], k);
    assert c[k := e] - {k} == c - {k};
    SizeWithout(c, k);
  }

  // ---- Trimming ----

  predicate Expired(e: Entry, now: int, ttl: int) {
    now - e.at > ttl
  }

  ghost function Fresh(c: Cache, now: int, ttl: int): Cache {
    map k | k in c && !Expired(c[k], now, ttl) :: c[k]
  }

  ghost function Restrict(c: Cache, keys: set<string>): Cache {
    map k | k in c && k in keys :: c[k]
  }

  /** The entries a prune removes: as many, in whatever order the map yields them, as it takes to reach the target, or
      all. */
  ghost predicate Prune(c: Cache, removed: set<string>) {
    && removed <= c.Keys
    && (Size(Restrict(c, removed)) >= TARGET || removed == c.Keys)
    && (removed == {} || exists k :: FellShort(c, removed, k))
  }

  /** Without this entry the removed ones would not reach the target. */
  ghost predicate FellShort(c: Cache, removed: set<string>, k: string) {
    k in removed && Size(Restrict(c, removed - {k})) < TARGET
  }

  /** A trimmed cache: the fresh entries, and of those a prune's worth fewer if they are too many. */
  ghost predicate Trimmed(c: Cache, now: int, ttl: int, removed: set<string>) {
    if Size(Fresh(c, now, ttl)) > MAX_ENTRIES then Prune(Fresh(c, now, ttl), removed) else removed == {}
  }

  lemma {:induction false} SizeSplit(c: Cache, keys: set<string>)
    requires keys <= c.Keys
    ensures Size(c) == Size(Restrict(c, keys)) + Size(c - keys)
    decreases |keys|
  {
    if keys == {} {
      SizeOfNone();
      assert Restrict(c, keys) == map[] && c - keys == c;
    } else {
      var k :| k in keys;
      SizeSplit(c, keys - {k});
      SizeRemove(Restrict(c, keys), k);
      SizeRemove(c - (keys - {k}), k);
      assert Restrict(c, keys) - {k} == Restrict(c, keys - {k});
      assert c - (keys - {k}) - {k} == c - keys;
    }
  }

  lemma FreshSmaller(c: Cache, now: int, ttl: int)
    ensures Size(Fresh(c, now, ttl)) <= Size(c)
  {
    var keys := Fresh(c, now, ttl).Keys;
    SizeSplit(c, keys);
    SizeNonNegative(c - keys);
    assert Restrict(c, keys) == Fresh(c, now, ttl);
  }

  /** If a cache within its limit takes a result of at most half of that, a trim brings it back within the limit,
      whatever it prunes. */
  lemma TrimBounds(c: Cache, now: int, ttl: int, removed: set<string>)
    requires Size(c) <= MAX_ENTRIES + TARGET && Trimmed(c, now, ttl, removed)
    ensures Size(Fresh(c, now, ttl) - removed) <= MAX_ENTRIES
  {
    var live := Fresh(c, now, ttl);
    FreshSmaller(c, now, ttl);
    if Size(live) > MAX_ENTRIES {
      SizeSplit(live, removed);
      if removed == live.Keys {
        SizeOfNone();
        assert live - removed == map[];
      }
    } else {
      assert live - removed == live;
    }
  }

  // ---- The loop's state and steps ----

  /** The cache, the requests waiting by auditor, and a record: the fetches in flight by auditor, the requests received,
      the answers sent. */
  datatype State = State(
    data: Cache,
    pending: map<string, seq<Request>>,
    fetches: multiset<string>,
    received: seq<Request>,
    replies: seq<Reply>)

  function Waiting(s: State, auditor: string): seq<Request> {
    if auditor in s.pending then s.pending[auditor] else []
  }

  function AnswerAll(rs: seq<Request>, a: Answer): seq<Reply> {
    seq(|rs|, i requires 0 <= i < |rs| => Reply(rs[i], a))
  }

  predicate Usable(s: State, auditor: string, now: int, ttl: int) {
    auditor in s.data && now - s.data[auditor].at < ttl
  }

  function OnRequest(s: State, auditor: string, now: int, ttl: int): State {
    var r := Request(|s.received|, auditor);
    if Usable(s, auditor, now, ttl)
    then s.(received := s.received + [r], replies := s.replies + [Reply(r, Value(s.data[auditor].value))])
    else s.(received := s.received + [r], pending := s.pending[auditor := Waiting(s, auditor) + [r]],
            fetches := s.fetches + multiset{auditor})
  }

  /** The requests waiting for the auditor are answered, and a fetch of it is over. */
  function Settle(s: State, auditor: string, a: Answer): State {
    s.(replies := s.replies + AnswerAll(Waiting(s, auditor), a), pending := s.pending - {auditor},
       fetches := s.fetches - multiset{auditor})
  }

  ghost function OnResult(s: State, auditor: string, v: Signatures, at: int, now: int, ttl: int,
                          removed: set<string>): State {
    var c := s.data[auditor := Entry(v, at)];
    Settle(s, auditor, Value(v)).(data := Fresh(c, now, ttl) - removed)
  }

  datatype Event =
    | Asked(auditor: string, now: int)
    | Fetched(auditor: string, v: Signatures, at: int, now: int, removed: set<string>)
    | Failed(auditor: string)
    | Purged(auditor: string)

  /** A result comes only of a fetch in flight; `at` is the clock when it is stored and `now` when the cache is trimmed,
      and `removed` is a choice the trim could make. */
  ghost predicate Enabled(s: State, e: Event, ttl: int) {
    match e
    case Asked(_, _) => true
    case Fetched(auditor, v, at, now, removed) =>
      s.fetches[auditor] > 0 && Trimmed(s.data[auditor := Entry(v, at)], now, ttl, removed)
    case Failed(auditor) => s.fetches[auditor] > 0
    case Purged(_) => true
  }

  ghost function Step(s: State, e: Event, ttl: int): State {
    if !Enabled(s, e, ttl) then s
    else match e
      case Asked(auditor, now) => OnRequest(s, auditor, now, ttl)
      case Fetched(auditor, v, at, now, removed) => OnResult(s, auditor, v, at, now, ttl, removed)
      case Failed(auditor) => Settle(s, auditor, FetchError)
      case Purged(auditor) => s.(data := s.data - {auditor})
  }

  function Init(): State {
    State(map[], map[], multiset{}, [], [])
  }

  ghost function Run(es: seq<Event>, ttl: int): State {
    if es == [] then Init() else Step(Run(es[..|es| - 1], ttl), es[|es| - 1], ttl)
  }

  // ---- The service ----

  class Service {
    const ttl: int
    var data: Cache
    var pending: map<string, seq<Request>>
    var inProgress: set<string>
    var received: seq<Request>
    var replies: seq<Reply>
    ghost var fetches: multiset<string>

    ghost function View(): State
      reads this
    {
      State(data, pending, fetches, received, replies)
    }

    /** Between two cases of the loop the fields are a state of some run, and nothing was ever entered in
        `inProgress`, so that every request that has to wait starts a fetch. */
    ghost predicate Valid()
      reads this
    {
      Reachable(View(), ttl) && inProgress == {}
    }

    /** What every state of the service between two cases has in it: as many fetches in flight, at least, as requests
        waiting for the auditor, and each of them received for it. */
    lemma WaitersAreFetched(auditor: string)
      requires Valid()
      ensures auditor in pending ==> |pending[auditor]| <= fetches[auditor]
      ensures auditor in pending ==> forall i | 0 <= i < |pending[auditor]| :: pending[auditor][i].auditor == auditor
    {
      var es: seq<Event> :| View() == Run(es, ttl);
      RunHomed(es, ttl);
      assert auditor in pending ==> pending[auditor] == Waiting(View(), auditor);
    }

    constructor (ttl: int)
      ensures this.ttl == ttl && Valid() && View() == Init()
    {
      this.ttl := ttl;
      data, pending, inProgress := map[], map[], {};
      received, replies, fetches := [], [], multiset{};
      new;
      assert View() == Run([], ttl);
    }

    method HandleRequest(auditor: string, now: int)
      requires Valid()
      modifies this
      ensures Valid() && View() == Step(old(View()), Asked(auditor, now), ttl)
    {
      ReachableStep(View(), Asked(auditor, now), ttl);
      var r := Request(|received|, auditor);
      received := received + [r];
      var start := AddRequest(r, now);
      if start {
        MaybeStart(auditor);
      }
    }

    /** Answers from the cache, or queues the request and says so. */
    method AddRequest(r: Request, now: int) returns (start: bool)
      modifies this`replies, this`pending
      ensures start <==> !Usable(old(View()), r.auditor, now, ttl)
      ensures !start ==> pending == old(pending) && replies == old(replies) + [Reply(r, Value(data[r.auditor].value))]
      ensures start ==> replies == old(replies)
      ensures start ==> pending == old(pending)[r.auditor := Waiting(old(View()), r.auditor) + [r]]
    {
      if r.auditor in data {
        var elapsed := now - data[r.auditor].at;
        if elapsed < ttl {
          replies := replies + [Reply(r, Value(data[r.auditor].value))];
          return false;
        }
      }
      var list := if r.auditor in pending then pending[r.auditor] else [];
      pending := pending[r.auditor := list + [r]];
      return true;
    }

    method MaybeStart(auditor: string)
      modifies this`fetches
      ensures fetches == if Waiting(old(View()), auditor) != [] && auditor !in inProgress
                         then old(fetches) + multiset{auditor} else old(fetches)
    {
      if auditor !in pending || |pending[auditor]| == 0 {
        return;
      }
      if auditor in inProgress {
        return;
      }
      fetches := fetches + multiset{auditor};
    }

    method Answer(rs: seq<Request>, a: Answer)
      modifies this`replies
      ensures replies == old(replies) + AnswerAll(rs, a)
    {
      var i := 0;
      while i < |rs|
        invariant 0 <= i <= |rs|
        invariant replies == old(replies) + AnswerAll(rs[..i], a)
      {
        replies := replies + [Reply(rs[i], a)];
        i := i + 1;
        assert AnswerAll(rs[..i], a) == AnswerAll(rs[..i - 1], a) + [Reply(rs[i - 1], a)];
      }
      assert rs[..i] == rs;
    }

    /** Answers the requests waiting for the auditor: a fetch of it is over. */
    method SettleAll(auditor: string, a: Answer)
      modifies this`pending, this`replies, this`fetches
      ensures View() == Settle(old(View()), auditor, a)
    {
      var waiting := if auditor in pending then pending[auditor] else [];
      pending := pending - {auditor};
      Answer(waiting, a);
      fetches := fetches - multiset{auditor};
    }

    /** A fetch failed. */
    method FailAllPending(auditor: string)
      requires Valid() && fetches[auditor] > 0
      modifies this`pending, this`replies, this`fetches
      ensures Valid() && View() == Step(old(View()), Failed(auditor), ttl)
    {
      ReachableStep(View(), Failed(auditor), ttl);
      SettleAll(auditor, FetchError);
    }

    /** A fetch brought a result; `removed` is what the trim happened to prune. */
    method CompleteAllPending(auditor: string, v: Signatures, at: int, now: int) returns (ghost removed: set<string>)
      requires Valid() && fetches[auditor] > 0
      modifies this`pending, this`replies, this`fetches, this`data
      ensures Enabled(old(View()), Fetched(auditor, v, at, now, removed), ttl)
      ensures Valid() && View() == Step(old(View()), Fetched(auditor, v, at, now, removed), ttl)
    {
      ghost var s := View();
      SettleAll(auditor, Value(v));
      removed := Store(auditor, v, at, now);
      ReachableStep(s, Fetched(auditor, v, at, now, removed), ttl);
    }

    method Store(auditor: string, v: Signatures, at: int, now: int) returns (ghost removed: set<string>)
      modifies this`data
      ensures Trimmed(old(data)[auditor := Entry(v, at)], now, ttl, removed)
      ensures data == Fresh(old(data)[auditor := Entry(v, at)], now, ttl) - removed
    {
      data := data[auditor := Entry(v, at)];
      removed := TrimCache(now);
    }

    method PurgeAuditor(auditor: string)
      requires Valid()
      modifies this`data
      ensures Valid() && View() == Step(old(View()), Purged(auditor), ttl)
    {
      ReachableStep(View(), Purged(auditor), ttl);
      data := data - {auditor};
    }

    /** The entries that expired, and the size of the others. */
    method FindExpired(now: int) returns (expired: set<string>, size: nat)
      ensures data - expired == Fresh(data, now, ttl)
      ensures size == Size(Fresh(data, now, ttl))
    {
      expired, size := {}, 0;
      var rest := data.Keys;
      assert Fresh(Restrict(data, rest), now, ttl) == Fresh(data, now, ttl);
      while rest != {}
        invariant rest <= data.Keys
        invariant expired == set k | k in data.Keys - rest && Expired(data[k], now, ttl)
        invariant size + Size(Fresh(Restrict(data, rest), now, ttl)) == Size(Fresh(data, now, ttl))
      {
        var k :| k in rest;
        FreshStep(data, rest, k, now, ttl);
        rest := rest - {k};
        if now - data[k].at > ttl {
          expired := expired + {k};
        } else {
          var n := ProviderAttrSize(data[k].value);
          size := size + n;
        }
      }
      SizeOfNone();
      assert Fresh(Restrict(data, rest), now, ttl) == map[];
    }

    /** Enough entries to prune, in the order the map happens to yield them. */
    method ChoosePruned() returns (removed: set<string>)
      ensures Prune(data, removed)
    {
      removed := {};
      var size := 0;
      var rest := data.Keys;
      ghost var last := "";
      SizeOfNone();
      assert Restrict(data, removed) == map[];
      while rest != {}
        invariant rest <= data.Keys && removed == data.Keys - rest
        invariant size == Size(Restrict(data, removed)) && size < TARGET
        invariant removed == {} || FellShort(data, removed, last)
      {
        var k :| k in rest;
        rest := rest - {k};
        var n := ProviderAttrSize(data[k].value);
        RestrictStep(data, removed, k);
        assert removed + {k} - {k} == removed;
        removed := removed + {k};
        size := size + n;
        last := k;
        assert FellShort(data, removed, last);
        if size >= TARGET {
          break;
        }
      }
      assert removed == {} || FellShort(data, removed, last);
    }

    method TrimCache(now: int) returns (ghost removed: set<string>)
      modifies this`data
      ensures Trimmed(old(data), now, ttl, removed)
      ensures data == Fresh(old(data), now, ttl) - removed
    {
      removed := {};
      var expired, size := FindExpired(now);
      data := data - expired;
      if size <= MAX_ENTRIES {
        return;
      }
      var pruned := ChoosePruned();
      removed := pruned;
      data := data - pruned;
    }
  }

  lemma FreshStep(c: Cache, rest: set<string>, k: string, now: int, ttl: int)
    requires rest <= c.Keys && k in rest
    ensures Size(Fresh(Restrict(c, rest), now, ttl))
         == Size(Fresh(Restrict(c, rest - {k}), now, ttl))
            + if Expired(c[k], now, ttl) then 0 else Attributes(c[k].value)
  {
    var with, without := Fresh(Restrict(c, rest), now, ttl), Fresh(Restrict(c, rest - {k}), now, ttl);
    if Expired(c[k], now, ttl) {
      assert with == without;
    } else {
      SizeRemove(with, k);
      assert with - {k} == without;
    }
  }

  lemma RestrictStep(c: Cache, keys: set<string>, k: string)
    requires k in c && k !in keys
    ensures Size(Restrict(c, keys + {k})) == Size(Restrict(c, keys)) + Attributes(c[k].value)
  {
    SizeRemove(Restrict(c, keys + {k}), k);
    assert Restrict(c, keys + {k}) - {k} == Restrict(c, keys);
  }

  // ---- The cache in every run ----

  /** Every result fetched has at most `n` attributes. */
  ghost predicate ResultsAtMost(es: seq<Event>, n: nat) {
    forall i | 0 <= i < |es| && es[i].Fetched? :: Attributes(es[i].v) <= n
  }

  /** In every run whose results have at most half that limit, whatever the order of the map, the cache holds at most
      its limit. */
  lemma {:induction false} CacheBounded(es: seq<Event>, ttl: int)
    requires ResultsAtMost(es, TARGET)
    ensures Size(Run(es, ttl).data) <= MAX_ENTRIES
  {
    if es == [] {
      SizeOfNone();
    } else {
      CacheBounded(es[..|es| - 1], ttl);
      var s, e := Run(es[..|es| - 1], ttl), es[|es| - 1];
      match e
      case Fetched(auditor, v, at, now, removed) =>
        SizeInsert(s.data, auditor, Entry(v, at));
        if Enabled(s, e, ttl) {
          TrimBounds(s.data[auditor := Entry(v, at)], now, ttl, removed);
        }
      case Purged(auditor) => SizeWithout(s.data, auditor);
      case _ =>
    }
  }

  // ---- Where the cached entries come from ----

  /** The event is a result for the auditor. */
  ghost predicate Brings(s: State, e: Event, ttl: int, auditor: string) {
    e.Fetched? && e.auditor == auditor && Enabled(s, e, ttl)
  }

  /** An entry comes of a result, or was there before. */
  lemma StepCaches(s: State, e: Event, ttl: int, auditor: string)
    requires auditor in Step(s, e, ttl).data
    ensures if Brings(s, e, ttl, auditor) then Step(s, e, ttl).data[auditor] == Entry(e.v, e.at)
            else e != Purged(auditor) && auditor in s.data && Step(s, e, ttl).data[auditor] == s.data[auditor]
  {}

  /** Where in a run the auditor's latest result came in, unless it was purged since. */
  ghost function Latest(es: seq<Event>, ttl: int, auditor: string): (i: Option<nat>)
    ensures i.Some? ==> i.value < |es| && es[i.value].Fetched? && es[i.value].auditor == auditor
  {
    if es == [] then None
    else
      var n := |es| - 1;
      if Brings(Run(es[..n], ttl), es[n], ttl, auditor) then Some(n)
      else if es[n] == Purged(auditor) then None
      else Latest(es[..n], ttl, auditor)
  }

  /** In every run each cached entry is its auditor's latest result, not purged since. */
  lemma {:induction false} CachedIsLatest(es: seq<Event>, ttl: int, auditor: string)
    requires auditor in Run(es, ttl).data
    ensures var i := Latest(es, ttl, auditor);
            i.Some? && Run(es, ttl).data[auditor] == Entry(es[i.value].v, es[i.value].at)
  {
    var n := |es| - 1;
    var s := Run(es[..n], ttl);
    StepCaches(s, es[n], ttl, auditor);
    if !Brings(s, es[n], ttl, auditor) { CachedIsLatest(es[..n], ttl, auditor); }
  }

  /** In every run, right after a result came in, each cached entry is its auditor's latest result, not purged since,
      and no older than the time to live. */
  lemma {:induction false} CacheFreshAfterResult(es: seq<Event>, e: Event, ttl: int, auditor: string)
    requires e.Fetched? && Enabled(Run(es, ttl), e, ttl) && auditor in Run(es + [e], ttl).data
    ensures var i := Latest(es + [e], ttl, auditor);
            i.Some? && e.now - (es + [e])[i.value].at <= ttl
  {
    CachedIsLatest(es + [e], ttl, auditor);
    assert (es + [e])[..|es|] == es;
  }

  lemma {:induction false} PurgedHasNone(es: seq<Event>, more: seq<Event>, auditor: string, ttl: int)
    requires forall e | e in more :: !(e.Fetched? && e.auditor == auditor)
    ensures Latest(es + [Purged(auditor)] + more, ttl, auditor).None?
  {
    var all := es + [Purged(auditor)] + more;
    if more == [] {
      assert all[|all| - 1] == Purged(auditor);
    } else {
      var front := more[..|more| - 1];
      PurgedHasNone(es, front, auditor, ttl);
      assert all[..|all| - 1] == es + [Purged(auditor)] + front && all[|all| - 1] == more[|more| - 1];
    }
  }

  /** A purge is kept: in no continuation does an auditor's entry come back before another result of its own, so that a
      request for it waits for a fetch. */
  lemma {:induction false} PurgeIsKept(es: seq<Event>, more: seq<Event>, auditor: string, ttl: int, now: int)
    requires forall e | e in more :: !(e.Fetched? && e.auditor == auditor)
    ensures var s := Run(es + [Purged(auditor)] + more, ttl);
            auditor !in s.data && Waiting(OnRequest(s, auditor, now, ttl), auditor) != []
  {
    PurgedHasNone(es, more, auditor, ttl);
    if auditor in Run(es + [Purged(auditor)] + more, ttl).data {
      CachedIsLatest(es + [Purged(auditor)] + more, ttl, auditor);
    }
  }

  ghost predicate Asks(e: Event, auditor: string) {
    e.Asked? && e.auditor == auditor
  }

  /** Neither cached nor being fetched. */
  ghost predicate Gone(s: State, auditor: string) {
    auditor !in s.data && s.fetches[auditor] == 0
  }

  lemma GoneStep(s: State, e: Event, auditor: string, ttl: int)
    requires Gone(s, auditor) && !Asks(e, auditor)
    ensures Gone(Step(s, e, ttl), auditor)
  {}

  lemma {:induction false} GoneRun(es: seq<Event>, more: seq<Event>, auditor: string, ttl: int)
    requires Gone(Run(es, ttl), auditor) && forall e | e in more :: !Asks(e, auditor)
    ensures Gone(Run(es + more, ttl), auditor)
  {
    if more == [] {
      assert es + more == es;
    } else {
      var front := more[..|more| - 1];
      GoneRun(es, front, auditor, ttl);
      GoneStep(Run(es + front, ttl), more[|more| - 1], auditor, ttl);
      assert (es + more)[..|es + more| - 1] == es + front;
    }
  }

  /** Some time at which every entry has expired. */
  lemma {:induction false} AllExpire(c: Cache, ttl: int) returns (now: int)
    ensures forall k | k in c :: Expired(c[k], now, ttl)
    decreases |c|
  {
    now := 0;
    if c != map[] {
      var k :| k in c;
      var t := AllExpire(c - {k}, ttl);
      now := if t > c[k].at + ttl then t else c[k].at + ttl + 1;
      forall j | j in c ensures Expired(c[j], now, ttl) {
        assert j != k ==> Expired((c - {k})[j], t, ttl);
      }
    }
  }

  /** A fetch in flight can bring an entry back. */
  lemma FetchBringsBack(s: State, auditor: string, ttl: int) returns (e: Event)
    requires ttl >= 0 && s.fetches[auditor] > 0
    ensures e.Fetched? && auditor in Step(s, e, ttl).data
  {
    var now := AllExpire(s.data, ttl);
    var c := s.data[auditor := Entry([], now)];
    assert Fresh(c, now, ttl) == map[auditor := Entry([], now)];
    SizeOfNone();
    SizeAdd(map[], auditor, Entry([], now));
    e := Fetched(auditor, [], now, now, {});
  }

  /** With nobody asking for the auditor again, a purge holds in every continuation if and only if no fetch of the
      auditor was in flight when it came: the result of one that was is cached after it. */
  lemma {:induction false} PurgeHoldsIff(es: seq<Event>, auditor: string, ttl: int)
    requires ttl >= 0
    ensures (forall more: seq<Event> | (forall e | e in more :: !Asks(e, auditor)) ::
               auditor !in Run(es + [Purged(auditor)] + more, ttl).data)
            <==> Run(es, ttl).fetches[auditor] == 0
  {
    var purged := es + [Purged(auditor)];
    assert purged[..|es|] == es;
    var s := Run(purged, ttl);
    if Run(es, ttl).fetches[auditor] == 0 {
      forall more: seq<Event> | (forall e | e in more :: !Asks(e, auditor))
        ensures auditor !in Run(purged + more, ttl).data
      {
        GoneRun(purged, more, auditor, ttl);
      }
    } else {
      var e := FetchBringsBack(s, auditor, ttl);
      assert (purged + [e])[..|purged|] == purged;
      assert auditor in Run(purged + [e], ttl).data;
    }
  }

  /** Such a run: asked for, purged, and cached again by the fetch. */
  lemma {:induction false} PurgeUndone(auditor: string, v: Signatures, ttl: int)
    requires ttl >= 0 && Attributes(v) <= MAX_ENTRIES
    ensures var es := [Asked(auditor, 0), Purged(auditor), Fetched(auditor, v, 0, 0, {})];
            Run(es, ttl).data == map[auditor := Entry(v, 0)]
  {
    var c: Cache := map[auditor := Entry(v, 0)];
    var one, two := [Asked(auditor, 0)], [Asked(auditor, 0), Purged(auditor)];
    var es := [Asked(auditor, 0), Purged(auditor), Fetched(auditor, v, 0, 0, {})];
    assert es[..2] == two && two[..1] == one && one[..0] == [];
    AskFetches(Run([], ttl), auditor, ttl);
    SizeOfNone();
    SizeAdd(map[], auditor, Entry(v, 0));
    assert Run(one, ttl) == Step(Run([], ttl), Asked(auditor, 0), ttl);
    assert Run(two, ttl).fetches == Run(one, ttl).fetches;
    assert Run(two, ttl).data == map[] && map[][auditor := Entry(v, 0)] == c;
    assert Fresh(c, 0, ttl) == c;
    ResultCaches(Run(two, ttl), auditor, v, ttl, {});
  }

  // ---- The limit is tight ----

  lemma SizeAdd(c: Cache, k: string, e: Entry)
    requires k !in c
    ensures Size(c[k := e]) == Size(c) + Attributes(e.value)
  {
    SizeRemove(c[k := e], k);
    assert c[k := e] - {k} == c;
  }

  lemma PruneOne(c: Cache, k: string)
    requires k in c && Attributes(c[k].value) >= TARGET
    ensures Prune(c, {k})
  {
    SizeOfNone();
    SizeAdd(map[], k, c[k]);
    assert Restrict(c, {k}) == map[k := c[k]];
    assert Restrict(c, {k} - {k}) == map[];
    assert FellShort(c, {k}, k);
  }

  /** A full cache with an entry of half the limit, a result of one attribute more than that for another auditor, and a
      prune that happens on that entry first, leave one attribute too many. */
  lemma {:induction false} OneMoreOverflows(c: Cache, k: string, auditor: string, v: Signatures, now: int, ttl: int)
    requires Size(c) == MAX_ENTRIES && k in c && Attributes(c[k].value) == TARGET && ttl >= 0
    requires auditor !in c && Attributes(v) == TARGET + 1 && forall j | j in c :: !Expired(c[j], now, ttl)
    ensures var full := c[auditor := Entry(v, now)];
            Trimmed(full, now, ttl, {k}) && Size(Fresh(full, now, ttl) - {k}) == MAX_ENTRIES + 1
  {
    var full := c[auditor := Entry(v, now)];
    SizeAdd(c, auditor, Entry(v, now));
    SizeRemove(full, k);
    assert Fresh(full, now, ttl) == full;
    PruneOne(full, k);
  }

  function Block(n: nat): Signatures {
    [seq(n, _ => "")]
  }

  lemma BlockSize(n: nat)
    ensures Attributes(Block(n)) == n
  {
    assert Block(n)[..0] == [];
  }

  /** Asks for an auditor and gets the result, at time zero. */
  function Exchange(auditor: string, v: Signatures, removed: set<string>): seq<Event> {
    [Asked(auditor, 0), Fetched(auditor, v, 0, 0, removed)]
  }

  lemma AskFetches(s: State, auditor: string, ttl: int)
    requires auditor !in s.data
    ensures var t := Step(s, Asked(auditor, 0), ttl); t.data == s.data && t.fetches[auditor] > 0
  {}

  lemma ResultCaches(s: State, auditor: string, v: Signatures, ttl: int, removed: set<string>)
    requires s.fetches[auditor] > 0 && Trimmed(s.data[auditor := Entry(v, 0)], 0, ttl, removed)
    ensures Step(s, Fetched(auditor, v, 0, 0, removed), ttl).data
         == Fresh(s.data[auditor := Entry(v, 0)], 0, ttl) - removed
  {}

  lemma {:induction false} ExchangeCaches(es: seq<Event>, ttl: int, auditor: string, v: Signatures,
                                          removed: set<string>)
    requires auditor !in Run(es, ttl).data && Trimmed(Run(es, ttl).data[auditor := Entry(v, 0)], 0, ttl, removed)
    ensures Run(es + Exchange(auditor, v, removed), ttl).data
         == Fresh(Run(es, ttl).data[auditor := Entry(v, 0)], 0, ttl) - removed
  {
    var all := es + Exchange(auditor, v, removed);
    var mid := es + [Asked(auditor, 0)];
    assert all[..|all| - 1] == mid && mid[..|mid| - 1] == es;
    AskFetches(Run(es, ttl), auditor, ttl);
    ResultCaches(Run(mid, ttl), auditor, v, ttl, removed);
  }

  lemma {:induction false} ResultsJoin(es: seq<Event>, auditor: string, v: Signatures, removed: set<string>, n: nat)
    requires ResultsAtMost(es, n) && Attributes(v) <= n
    ensures ResultsAtMost(es + Exchange(auditor, v, removed), n)
  {}

  /** Some run whose results have at most `n` attributes leaves this cache. */
  ghost predicate Reaches(c: Cache, ttl: int, n: nat) {
    exists es: seq<Event> :: ResultsAtMost(es, n) && Run(es, ttl).data == c
  }

  lemma {:induction false} ReachesNext(c: Cache, ttl: int, n: nat, auditor: string, v: Signatures, removed: set<string>)
    requires Reaches(c, ttl, n) && auditor !in c && Attributes(v) <= n
    requires Trimmed(c[auditor := Entry(v, 0)], 0, ttl, removed)
    ensures Reaches(Fresh(c[auditor := Entry(v, 0)], 0, ttl) - removed, ttl, n)
  {
    var es :| ResultsAtMost(es, n) && Run(es, ttl).data == c;
    ExchangeCaches(es, ttl, auditor, v, removed);
    ResultsJoin(es, auditor, v, removed, n);
  }

  ghost predicate AllNow(c: Cache) {
    forall k | k in c :: c[k].at == 0
  }

  /** A result that fits is added. */
  lemma {:induction false} ReachesLarger(c: Cache, ttl: int, n: nat, auditor: string, v: Signatures)
    requires ttl >= 0 && AllNow(c) && Reaches(c, ttl, n) && auditor !in c && Attributes(v) <= n
    requires Size(c) + Attributes(v) <= MAX_ENTRIES
    ensures Reaches(c[auditor := Entry(v, 0)], ttl, n)
    ensures Size(c[auditor := Entry(v, 0)]) == Size(c) + Attributes(v)
  {
    var d := c[auditor := Entry(v, 0)];
    SizeAdd(c, auditor, Entry(v, 0));
    assert Fresh(d, 0, ttl) == d && d - {} == d;
    ReachesNext(c, ttl, n, auditor, v, {});
  }

  lemma NothingReached(ttl: int, n: nat)
    ensures Reaches(map[], ttl, n)
  {
    assert ResultsAtMost([], n) && Run([], ttl).data == map[];
  }

  /** Two results of half the limit fill the cache. */
  lemma TwoHalvesFill(half: Signatures, ttl: int, n: nat, a: string, b: string) returns (two: Cache)
    requires ttl >= 0 && Attributes(half) == TARGET <= n && a != b
    ensures two == map[a := Entry(half, 0), b := Entry(half, 0)]
    ensures Reaches(two, ttl, n) && Size(two) == MAX_ENTRIES
  {
    NothingReached(ttl, n);
    SizeOfNone();
    ReachesLarger(map[], ttl, n, a, half);
    two := map[a := Entry(half, 0)];
    ReachesLarger(two, ttl, n, b, half);
    two := two[b := Entry(half, 0)];
  }

  /** And one of one attribute more overflows it. */
  lemma {:induction false} ThirdOverflows(two: Cache, more: Signatures, ttl: int, a: string, x: string)
    requires ttl >= 0 && Attributes(more) == TARGET + 1 && AllNow(two)
    requires Reaches(two, ttl, TARGET + 1) && Size(two) == MAX_ENTRIES
    requires a in two && Attributes(two[a].value) == TARGET && x !in two
    ensures var over := Fresh(two[x := Entry(more, 0)], 0, ttl) - {a};
            Reaches(over, ttl, TARGET + 1) && Size(over) == MAX_ENTRIES + 1
  {
    OneMoreOverflows(two, a, x, more, 0, ttl);
    ReachesNext(two, ttl, TARGET + 1, x, more, {a});
  }

  /** Half the limit is the largest size of a result the limit stands: some run whose results have at most one attribute
      more leaves the cache over it. */
  lemma {:induction false} LimitIsTight(ttl: int)
    requires ttl >= 0
    ensures exists es: seq<Event> :: ResultsAtMost(es, TARGET + 1) && Size(Run(es, ttl).data) == MAX_ENTRIES + 1
  {
    BlockSize(TARGET);
    BlockSize(TARGET + 1);
    assert "a"[0] != "b"[0] && "b"[0] != "c"[0] && "a"[0] != "c"[0];
    var two := TwoHalvesFill(Block(TARGET), ttl, TARGET + 1, "a", "b");
    ThirdOverflows(two, Block(TARGET + 1), ttl, "a", "c");
    var over := Fresh(two["c" := Entry(Block(TARGET + 1), 0)], 0, ttl) - {"a"};
    var es: seq<Event> :| ResultsAtMost(es, TARGET + 1) && Run(es, ttl).data == over;
  }

  // ---- Requests in every run ----

  ghost function Replied(rs: seq<Reply>): seq<Request> {
    seq(|rs|, i requires 0 <= i < |rs| => rs[i].request)
  }

  /** A request is answered or waiting as often as it was received. */
  ghost predicate Conserved(s: State, r: Request) {
    multiset(Replied(s.replies))[r] + multiset(Waiting(s, r.auditor))[r] == multiset(s.received)[r]
  }

  /** Every request waits with its auditor, the received ones are numbered, and an auditor with requests waiting has at
      least as many fetches in flight. */
  ghost predicate Homed(s: State) {
    && (forall a, i | 0 <= i < |Waiting(s, a)| :: Waiting(s, a)[i].auditor == a)
    && (forall i | 0 <= i < |s.received| :: s.received[i].serial == i)
    && (forall a: string :: |Waiting(s, a)| <= s.fetches[a])
  }

  lemma RepliedConcat(a: seq<Reply>, b: seq<Reply>)
    ensures Replied(a + b) == Replied(a) + Replied(b)
  {}

  lemma RequestConserves(s: State, auditor: string, now: int, ttl: int, r: Request)
    requires Conserved(s, r)
    ensures Conserved(OnRequest(s, auditor, now, ttl), r)
  {
    var x := Request(|s.received|, auditor);
    if Usable(s, auditor, now, ttl) {
      var a := Reply(x, Value(s.data[auditor].value));
      RepliedConcat(s.replies, [a]);
      assert Replied([a]) == [x];
    }
  }

  lemma SettleConserves(s: State, auditor: string, a: Answer, r: Request)
    requires Conserved(s, r) && Homed(s)
    ensures Conserved(Settle(s, auditor, a), r)
  {
    var rs := Waiting(s, auditor);
    RepliedConcat(s.replies, AnswerAll(rs, a));
    assert Replied(AnswerAll(rs, a)) == rs;
    assert r.auditor != auditor ==> r !in rs;
  }

  lemma RequestHomed(s: State, auditor: string, now: int, ttl: int)
    requires Homed(s)
    ensures Homed(OnRequest(s, auditor, now, ttl))
  {
    var t := OnRequest(s, auditor, now, ttl);
    forall a: string
      ensures |Waiting(t, a)| <= t.fetches[a]
      ensures forall i | 0 <= i < |Waiting(t, a)| :: Waiting(t, a)[i].auditor == a
    {
      assert |Waiting(s, a)| <= s.fetches[a];
    }
  }

  lemma SettleHomed(s: State, auditor: string, a: Answer)
    requires Homed(s)
    ensures Homed(Settle(s, auditor, a))
  {
    var t := Settle(s, auditor, a);
    forall b: string
      ensures |Waiting(t, b)| <= t.fetches[b]
      ensures forall i | 0 <= i < |Waiting(t, b)| :: Waiting(t, b)[i].auditor == b
    {
      assert |Waiting(s, b)| <= s.fetches[b];
    }
  }

  lemma {:induction false} RunHomed(es: seq<Event>, ttl: int)
    ensures Homed(Run(es, ttl))
  {
    if es != [] {
      RunHomed(es[..|es| - 1], ttl);
      var s, e := Run(es[..|es| - 1], ttl), es[|es| - 1];
      StepHomed(s, e, ttl);
    }
  }

  lemma StepHomed(s: State, e: Event, ttl: int)
    requires Homed(s)
    ensures Homed(Step(s, e, ttl))
  {
    match e
    case Asked(auditor, now) => RequestHomed(s, auditor, now, ttl);
    case Fetched(auditor, v, at, now, removed) => ResultHomed(s, auditor, v, at, now, ttl, removed);
    case Failed(auditor) => SettleHomed(s, auditor, FetchError);
    case Purged(auditor) => DataFree(s, s.data - {auditor});
  }

  lemma ResultHomed(s: State, auditor: string, v: Signatures, at: int, now: int, ttl: int, removed: set<string>)
    requires Homed(s)
    ensures Homed(OnResult(s, auditor, v, at, now, ttl, removed))
  {
    SettleHomed(s, auditor, Value(v));
    DataFree(Settle(s, auditor, Value(v)), Fresh(s.data[auditor := Entry(v, at)], now, ttl) - removed);
  }

  lemma DataFree(s: State, c: Cache)
    ensures Homed(s) ==> Homed(s.(data := c))
    ensures forall r: Request :: Conserved(s, r) ==> Conserved(s.(data := c), r)
  {
    assert forall a: string :: Waiting(s.(data := c), a) == Waiting(s, a);
  }

  lemma StepConserves(s: State, e: Event, ttl: int, r: Request)
    requires Homed(s) && Conserved(s, r)
    ensures Conserved(Step(s, e, ttl), r)
  {
    match e
    case Asked(auditor, now) => RequestConserves(s, auditor, now, ttl, r);
    case Fetched(auditor, v, at, now, removed) =>
      SettleConserves(s, auditor, Value(v), r);
      DataFree(Settle(s, auditor, Value(v)), Fresh(s.data[auditor := Entry(v, at)], now, ttl) - removed);
    case Failed(auditor) => SettleConserves(s, auditor, FetchError, r);
    case Purged(auditor) => DataFree(s, s.data - {auditor});
  }

  lemma {:induction false} RunConserves(es: seq<Event>, ttl: int, r: Request)
    ensures Conserved(Run(es, ttl), r)
  {
    if es != [] {
      RunHomed(es[..|es| - 1], ttl);
      RunConserves(es[..|es| - 1], ttl, r);
      StepConserves(Run(es[..|es| - 1], ttl), es[|es| - 1], ttl, r);
    }
  }

  lemma {:induction false} ReceivedOnce(received: seq<Request>, r: Request)
    requires forall i | 0 <= i < |received| :: received[i].serial == i
    ensures multiset(received)[r] <= 1
    ensures r.serial >= |received| ==> multiset(received)[r] == 0
  {
    if received != [] {
      var n := |received| - 1;
      ReceivedOnce(received[..n], r);
      assert received == received[..n] + [received[n]];
    }
  }

  /** In every run, duplicate fetches included, each request received is answered once or waiting once, not both, and no
      other is answered. */
  lemma {:induction false} AnsweredAtMostOnce(es: seq<Event>, ttl: int, r: Request)
    ensures var s := Run(es, ttl);
            multiset(Replied(s.replies))[r] + multiset(Waiting(s, r.auditor))[r] == if r in s.received then 1 else 0
  {
    RunHomed(es, ttl);
    RunConserves(es, ttl, r);
    ReceivedOnce(Run(es, ttl).received, r);
  }

  /** In every run a request that waits has a fetch of its auditor in flight, and the fetch's end answers it: with the
      result, or with the failure. */
  lemma {:induction false} WaitingIsFetched(es: seq<Event>, ttl: int, auditor: string, e: Event)
    requires Waiting(Run(es, ttl), auditor) != []
    ensures Run(es, ttl).fetches[auditor] > 0
    ensures (e.Failed? || e.Fetched?) && e.auditor == auditor && Enabled(Run(es, ttl), e, ttl) ==>
              && Waiting(Step(Run(es, ttl), e, ttl), auditor) == []
              && forall r | r in Waiting(Run(es, ttl), auditor) ::
                   Reply(r, if e.Failed? then FetchError else Value(e.v)) in Step(Run(es, ttl), e, ttl).replies
  {
    RunHomed(es, ttl);
    var s := Run(es, ttl);
    if e.Failed? { SettleReplies(s, auditor, FetchError); }
    if e.Fetched? { SettleReplies(s, auditor, Value(e.v)); }
  }

  lemma SettleReplies(s: State, auditor: string, a: Answer)
    ensures forall r | r in Waiting(s, auditor) :: Reply(r, a) in Settle(s, auditor, a).replies
  {
    var rs := Waiting(s, auditor);
    forall r | r in rs ensures Reply(r, a) in AnswerAll(rs, a) {
      var k :| 0 <= k < |rs| && rs[k] == r;
      assert AnswerAll(rs, a)[k] == Reply(r, a);
    }
  }

  // ---- What the answers are ----

  /** A request for the auditor at this time can be answered with the auditor's latest result. */
  ghost predicate Young(es: seq<Event>, ttl: int, auditor: string, now: int) {
    && auditor in Run(es, ttl).data
    && var i := Latest(es, ttl, auditor);
       i.Some? && now - es[i.value].at < ttl
  }

  /** The answers an event gives. */
  ghost function Answers(es: seq<Event>, ttl: int, e: Event): seq<Reply> {
    var s := Run(es, ttl);
    if !Enabled(s, e, ttl) then []
    else match e
      case Asked(auditor, now) =>
        if Young(es, ttl, auditor, now)
        then [Reply(Request(|s.received|, auditor), Value(es[Latest(es, ttl, auditor).value].v))] else []
      case Fetched(auditor, v, _, _, _) => AnswerAll(Waiting(s, auditor), Value(v))
      case Failed(auditor) => AnswerAll(Waiting(s, auditor), FetchError)
      case Purged(_) => []
  }

  /** In every run a request is answered at once if and only if its auditor's latest result, not purged since, is still
      cached and younger than the time to live, and then with that result; a result that comes in answers everyone who
      waits for its auditor with just that result, and a failure with the error. */
  lemma {:induction false} AnsweredExactly(es: seq<Event>, ttl: int, e: Event)
    ensures Run(es + [e], ttl).replies == Run(es, ttl).replies + Answers(es, ttl, e)
  {
    assert (es + [e])[..|es|] == es;
    if e.Asked? && e.auditor in Run(es, ttl).data { CachedIsLatest(es, ttl, e.auditor); }
  }

  /** Which event, and which result before it, an answer comes of. */
  ghost predicate ComesOf(es: seq<Event>, ttl: int, a: Reply, j: nat)
    requires j < |es|
  {
    match a.answer
    case FetchError => es[j] == Failed(a.request.auditor)
    case Value(v) =>
      || (es[j].Fetched? && es[j].auditor == a.request.auditor && es[j].v == v)
      || (&& es[j].Asked? && es[j].auditor == a.request.auditor && Young(es[..j], ttl, a.request.auditor, es[j].now)
          && es[Latest(es[..j], ttl, a.request.auditor).value].v == v)
  }

  ghost predicate Explained(es: seq<Event>, ttl: int, a: Reply) {
    exists j | 0 <= j < |es| :: ComesOf(es, ttl, a, j)
  }

  lemma ComesStays(es: seq<Event>, e: Event, ttl: int, a: Reply)
    requires Explained(es, ttl, a)
    ensures Explained(es + [e], ttl, a)
  {
    var j :| 0 <= j < |es| && ComesOf(es, ttl, a, j);
    assert (es + [e])[..j] == es[..j] && (es + [e])[j] == es[j];
    assert ComesOf(es + [e], ttl, a, j);
  }

  lemma {:induction false} AnswersExplained(es: seq<Event>, ttl: int, e: Event, k: nat)
    requires k < |Answers(es, ttl, e)|
    ensures Explained(es + [e], ttl, Answers(es, ttl, e)[k])
  {
    RunHomed(es, ttl);
    var a := Answers(es, ttl, e)[k];
    assert (es + [e])[..|es|] == es && (es + [e])[|es|] == e;
    if e.Asked? { assert (es + [e])[Latest(es, ttl, e.auditor).value] == es[Latest(es, ttl, e.auditor).value]; }
    assert ComesOf(es + [e], ttl, a, |es|);
  }

  /** In every run each value sent is that of a result fetched for the request's own auditor: the one that came in then,
      or for a request answered at once the latest before it, not purged since and younger than the time to live; and
      each error comes of a failed fetch of that auditor. */
  lemma {:induction false} EveryAnswerExplained(es: seq<Event>, ttl: int, i: nat)
    requires i < |Run(es, ttl).replies|
    ensures Explained(es, ttl, Run(es, ttl).replies[i])
  {
    if es != [] {
      var front, e := es[..|es| - 1], es[|es| - 1];
      AnsweredExactly(front, ttl, e);
      assert front + [e] == es;
      var n := |Run(front, ttl).replies|;
      if i < n {
        EveryAnswerExplained(front, ttl, i);
        ComesStays(front, e, ttl, Run(es, ttl).replies[i]);
      } else {
        AnswersExplained(front, ttl, e, i - n);
      }
    }
  }

  // ---- What is cached, waiting and being fetched ----

  /** The `j`th event is a result that came in. */
  ghost predicate CameIn(es: seq<Event>, ttl: int, j: nat)
    requires j < |es|
  {
    es[j].Fetched? && Enabled(Run(es[..j], ttl), es[j], ttl)
  }

  /** The result that came in `i`th outlived every trim since, the one it came with included: it had not expired by then
      and was not pruned. */
  ghost predicate Survives(es: seq<Event>, ttl: int, auditor: string, i: nat)
    requires i < |es| && es[i].Fetched?
  {
    forall j | i <= j < |es| && CameIn(es, ttl, j) :: es[j].now - es[i].at <= ttl && auditor !in es[j].removed
  }

  lemma {:induction false} SurvivesNext(es: seq<Event>, e: Event, ttl: int, auditor: string, i: nat)
    requires i < |es| && es[i].Fetched?
    ensures Survives(es + [e], ttl, auditor, i) <==>
            && Survives(es, ttl, auditor, i)
            && (e.Fetched? && Enabled(Run(es, ttl), e, ttl) ==> e.now - es[i].at <= ttl && auditor !in e.removed)
  {
    var all := es + [e];
    assert all[..|es|] == es && all[|es|] == e && all[i] == es[i];
    assert forall j | 0 <= j < |es| :: all[..j] == es[..j] && all[j] == es[j];
    assert forall j: nat | j < |es| :: CameIn(all, ttl, j) <==> CameIn(es, ttl, j);
    assert CameIn(all, ttl, |es|) <==> e.Fetched? && Enabled(Run(es, ttl), e, ttl);
    if Survives(all, ttl, auditor, i) {
      forall j | i <= j < |es| && CameIn(es, ttl, j) ensures es[j].now - es[i].at <= ttl && auditor !in es[j].removed {
        assert CameIn(all, ttl, j);
      }
    }
  }

  /** In every run an auditor is cached if and only if a result for it came in, it was not purged since the latest, and
      that one has outlived every trim since. */
  lemma {:induction false} CachedIff(es: seq<Event>, ttl: int, auditor: string)
    ensures auditor in Run(es, ttl).data <==>
            var i := Latest(es, ttl, auditor); i.Some? && Survives(es, ttl, auditor, i.value)
  {
    if es != [] {
      var front, e := es[..|es| - 1], es[|es| - 1];
      var s, was := Run(front, ttl), Latest(front, ttl, auditor);
      assert front + [e] == es;
      CachedIff(front, ttl, auditor);
      if auditor in s.data { CachedIsLatest(front, ttl, auditor); }
      StepCachedIff(s, e, ttl, auditor);
      if Brings(s, e, ttl, auditor) {
        NewSurvives(front, e, ttl, auditor);
      } else if was.Some? {
        SurvivesNext(front, e, ttl, auditor, was.value);
      }
    }
  }

  lemma StepCachedIff(s: State, e: Event, ttl: int, auditor: string)
    ensures auditor in Step(s, e, ttl).data <==>
            if Brings(s, e, ttl, auditor) then e.now - e.at <= ttl && auditor !in e.removed
            else
              && auditor in s.data && e != Purged(auditor)
              && (e.Fetched? && Enabled(s, e, ttl) ==> e.now - s.data[auditor].at <= ttl && auditor !in e.removed)
  {}

  lemma {:induction false} NewSurvives(es: seq<Event>, e: Event, ttl: int, auditor: string)
    requires Brings(Run(es, ttl), e, ttl, auditor)
    ensures Survives(es + [e], ttl, auditor, |es|) <==> e.now - e.at <= ttl && auditor !in e.removed
  {
    var all := es + [e];
    assert all[..|es|] == es && all[|es|] == e;
    assert CameIn(all, ttl, |es|);
  }

  /** In every run a request not answered at once waits, with a fetch of its own started; the end of a fetch leaves
      nobody waiting for its auditor; and nothing else changes who waits or what is fetched. */
  lemma {:induction false} WaitsExactly(es: seq<Event>, ttl: int, e: Event, auditor: string)
    requires Enabled(Run(es, ttl), e, ttl)
    ensures var s, t := Run(es, ttl), Run(es + [e], ttl);
            if !e.Purged? && e.auditor == auditor then
              if e.Asked? then
                if Young(es, ttl, auditor, e.now) then
                  Waiting(t, auditor) == Waiting(s, auditor) && t.fetches[auditor] == s.fetches[auditor]
                else
                  && Waiting(t, auditor) == Waiting(s, auditor) + [Request(|s.received|, auditor)]
                  && t.fetches[auditor] == s.fetches[auditor] + 1
              else Waiting(t, auditor) == [] && t.fetches[auditor] == s.fetches[auditor] - 1
            else Waiting(t, auditor) == Waiting(s, auditor) && t.fetches[auditor] == s.fetches[auditor]
  {
    assert (es + [e])[..|es|] == es;
    if e.Asked? && e.auditor in Run(es, ttl).data { CachedIsLatest(es, ttl, e.auditor); }
  }

  // ---- Reachable states ----

  ghost predicate Reachable(s: State, ttl: int) {
    exists es: seq<Event> :: s == Run(es, ttl)
  }

  lemma ReachableStep(s: State, e: Event, ttl: int)
    requires Reachable(s, ttl)
    ensures Reachable(Step(s, e, ttl), ttl)
  {
    var es :| s == Run(es, ttl);
    assert (es + [e])[..|es|] == es;
    assert Step(s, e, ttl) == Run(es + [e], ttl);
  }
}
