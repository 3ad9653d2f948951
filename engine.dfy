/** The reconciliation engine, `informAPI`: for each hostname in order, find
    the zone of its root domain (through a per-batch cache filled lazily),
    look up the hostname's record, and update it when found or create it
    otherwise; the first failure ends the batch and nothing is rolled back.
    `Reconcile` is the engine as a function of the provider's state;
    `InformApi` is the loop of the source, proved to compute it. */
module Engine {
  import opened Types
  import opened Domain
  import opened Provider

  /** `ip.includes(".")`: the poor man's IPv4 check. */
  predicate IsIpv4(ip: string) {
    '.' in ip
  }

  /** The record type of every hostname of a batch, chosen from the text of
      the IP alone. */
  function RecordType(ip: string): (t: string)
    ensures t == "A" <==> '.' in ip
    ensures t == "AAAA" <==> '.' !in ip
  {
    RrType(IsIpv4(ip))
  }

  /** Where a batch stands: how it ended so far, the zone cache, the provider. */
  datatype Run = Run(outcome: Result<()>, cache: map<string, Zone>, store: Store)

  /** Lines 197-201: the cached zone of a root domain, or a `findZone` call
      for it. */
  function ZoneStep(cache: map<string, Zone>, st: Store, root: string): (reply: (Result<Zone>, Store))
    ensures root in cache ==> reply == (Ok(cache[root]), st)
    ensures root !in cache ==> reply == FindZoneReply(st, root)
  {
    if root in cache then (Ok(cache[root]), st) else FindZoneReply(st, root)
  }

  /** Lines 202-206 for a hostname whose zone is known: `findRecord`, then
      `updateRecord` when it resolves and `createRecord` when it rejects. */
  function RecordStep(st: Store, zone: Zone, hostname: string, ip: string, proxied: bool): (w: (Result<()>, Store))
    ensures w.1.zones == st.zones && w.1.rejected == st.rejected
    ensures |st.log| + 1 <= |w.1.log| <= |st.log| + 2
    ensures w.1.log[..|st.log| + 1] == st.log + [FindRecordCall(zone.id, hostname)]
    ensures |w.1.log| == |st.log| + 2 ==> IsWrite(w.1.log[|st.log| + 1], RecordType(ip), ip, proxied)
  {
    var found := FindRecordReply(st, zone, hostname, IsIpv4(ip));
    var written :=
      if found.0.Ok? then UpdateRecordReply(found.1, found.0.value, ip, proxied)
      else CreateRecordReply(found.1, zone, hostname, ip, IsIpv4(ip), proxied);
    (if written.0.Ok? then Ok(()) else Err(written.0.error), written.1)
  }

  /** One iteration of the loop, for one hostname; a failed zone lookup
      ends it before any record call. */
  function ReconcileHost(cache: map<string, Zone>, st: Store, hostname: string, ip: string, proxied: bool): (run: Run)
    ensures run.store.zones == st.zones && run.store.rejected == st.rejected
    ensures st.log <= run.store.log
    ensures run.outcome.Ok? ==>
      && ZoneStep(cache, st, RootDomain(hostname)).0.Ok?
      && run.cache == cache[RootDomain(hostname) := ZoneStep(cache, st, RootDomain(hostname)).0.value]
    ensures ZoneStep(cache, st, RootDomain(hostname)).0.Err? ==>
      run == Run(Err(ZoneNotFound(RootDomain(hostname))), cache, st.(log := st.log + [FindZoneCall(RootDomain(hostname))]))
  {
    var root := RootDomain(hostname);
    var zoneReply := ZoneStep(cache, st, root);
    if zoneReply.0.Err? then Run(Err(zoneReply.0.error), cache, zoneReply.1)
    else
      var w := RecordStep(zoneReply.1, zoneReply.0.value, hostname, ip, proxied);
      Run(w.0, cache[root := zoneReply.0.value], w.1)
  }

  /** The calls of a record step: no `findZone`, and writes only of the
      batch's type, IP and flag. */
  lemma RecordStepCalls(st: Store, zone: Zone, hostname: string, ip: string, proxied: bool)
    ensures var added := RecordStep(st, zone, hostname, ip, proxied).1.log[|st.log|..];
      ZoneLookups(added) == [] && WritesUse(added, RecordType(ip), ip, proxied)
  {
    var w := RecordStep(st, zone, hostname, ip, proxied);
    var added := w.1.log[|st.log|..];
    var n := |st.log|;
    forall i | 0 <= i < |added|
      ensures !added[i].FindZoneCall?
      ensures added[i].CreateRecordCall? || added[i].UpdateRecordCall? ==> IsWrite(added[i], RecordType(ip), ip, proxied)
    {
      assert added[i] == w.1.log[n + i];
      if i == 0 {
        assert w.1.log[n] == w.1.log[..n + 1][n];
      }
    }
    NoZoneLookups(added);
  }

  /** The calls of one hostname hold a `findZone` exactly when its root
      domain is not cached yet. */
  lemma HostZoneLookups(cache: map<string, Zone>, st: Store, hostname: string, ip: string, proxied: bool)
    ensures ZoneLookups(ReconcileHost(cache, st, hostname, ip, proxied).store.log[|st.log|..]) ==
      if RootDomain(hostname) in cache then [] else [RootDomain(hostname)]
  {
    var root := RootDomain(hostname);
    var zoneReply := ZoneStep(cache, st, root);
    var run := ReconcileHost(cache, st, hostname, ip, proxied);
    assert zoneReply.1.log == st.log + ZoneCalls(root, root in cache);
    if zoneReply.0.Ok? {
      var w := RecordStep(zoneReply.1, zoneReply.0.value, hostname, ip, proxied);
      RecordStepCalls(zoneReply.1, zoneReply.0.value, hostname, ip, proxied);
      assert run.store == w.1;
      ZoneThenRecordCalls(st.log, zoneReply.1.log, w.1.log, root, root in cache);
    } else {
      assert run.store == zoneReply.1;
      ZoneThenRecordCalls(st.log, zoneReply.1.log, zoneReply.1.log, root, root in cache);
    }
  }

  /** The `findZone` call of a root that is not cached. */
  function ZoneCalls(root: string, cached: bool): seq<Call> {
    if cached then [] else [FindZoneCall(root)]
  }

  /** The zone calls, then record calls without a lookup: the lookups are
      those of the zone calls. */
  lemma ZoneThenRecordCalls(before: seq<Call>, middle: seq<Call>, after: seq<Call>, root: string, cached: bool)
    requires middle == before + ZoneCalls(root, cached)
    requires middle <= after && ZoneLookups(after[|middle|..]) == []
    ensures ZoneLookups(after[|before|..]) == if cached then [] else [root]
  {
    var first := ZoneCalls(root, cached);
    assert middle[|before|..] == first;
    SliceSplit(before, middle, after);
    ZoneLookupsAppend(first, after[|middle|..]);
    if !cached {
      assert first[..0] == [];
    }
  }

  /** The calls of one hostname write only records of the batch's type, with
      the IP and the flag. */
  lemma HostWrites(cache: map<string, Zone>, st: Store, hostname: string, ip: string, proxied: bool)
    ensures WritesUse(ReconcileHost(cache, st, hostname, ip, proxied).store.log[|st.log|..], RecordType(ip), ip, proxied)
  {
    var root := RootDomain(hostname);
    var zoneReply := ZoneStep(cache, st, root);
    var run := ReconcileHost(cache, st, hostname, ip, proxied);
    assert zoneReply.1.log == st.log + ZoneCalls(root, root in cache);
    if zoneReply.0.Ok? {
      var w := RecordStep(zoneReply.1, zoneReply.0.value, hostname, ip, proxied);
      RecordStepCalls(zoneReply.1, zoneReply.0.value, hostname, ip, proxied);
      assert run.store == w.1;
      ZoneThenRecordWrites(st.log, zoneReply.1.log, w.1.log, root, root in cache, RecordType(ip), ip, proxied);
    } else {
      assert run.store == zoneReply.1;
      ZoneThenRecordWrites(st.log, zoneReply.1.log, zoneReply.1.log, root, root in cache, RecordType(ip), ip, proxied);
    }
  }

  /** The zone calls, then record calls that write with the type, content
      and flag: every write uses them. */
  lemma ZoneThenRecordWrites(before: seq<Call>, middle: seq<Call>, after: seq<Call>, root: string, cached: bool,
                             rrType: string, ip: string, proxied: bool)
    requires middle == before + ZoneCalls(root, cached)
    requires middle <= after && WritesUse(after[|middle|..], rrType, ip, proxied)
    ensures WritesUse(after[|before|..], rrType, ip, proxied)
  {
    var first := ZoneCalls(root, cached);
    assert middle[|before|..] == first;
    SliceSplit(before, middle, after);
    WritesUseAppend(first, after[|middle|..], rrType, ip, proxied);
  }

  /** What `c` adds to `a` is what `b` adds, then what `c` adds to `b`. */
  lemma SliceSplit<T>(a: seq<T>, b: seq<T>, c: seq<T>)
    requires a <= b <= c
    ensures c[|a|..] == b[|a|..] + c[|b|..]
  {
  }

  /** A non-empty sequence is its front followed by its last element. */
  lemma InitLast<T>(s: seq<T>)
    requires s != []
    ensures s[..|s| - 1] + [s[|s| - 1]] == s
  {
  }

  /** Prepending `findZone` calls adds no write. */
  lemma WritesUseAppend(a: seq<Call>, b: seq<Call>, rrType: string, ip: string, proxied: bool)
    requires forall i :: 0 <= i < |a| ==> a[i].FindZoneCall?
    requires WritesUse(b, rrType, ip, proxied)
    ensures WritesUse(a + b, rrType, ip, proxied)
  {
    forall i | 0 <= i < |a + b|
      ensures (a + b)[i] == if i < |a| then a[i] else b[i - |a|]
    {
    }
  }

  /** One hostname's work keeps the record ids distinct and below the next
      id. */
  lemma HostKeepsWellFormed(cache: map<string, Zone>, st: Store, hostname: string, ip: string, proxied: bool)
    requires WellFormed(st)
    ensures WellFormed(ReconcileHost(cache, st, hostname, ip, proxied).store)
  {
    var zoneReply := ZoneStep(cache, st, RootDomain(hostname));
    if zoneReply.0.Ok? {
      var found := FindRecordReply(zoneReply.1, zoneReply.0.value, hostname, IsIpv4(ip));
      if found.0.Ok? {
        UpdateKeepsWellFormed(found.1, found.0.value, ip, proxied);
      } else {
        CreateKeepsWellFormed(found.1, zoneReply.0.value, hostname, ip, IsIpv4(ip), proxied);
      }
    }
  }

  /** The work for one hostname, from the zone cache and the provider's
      state so far. */
  type Step = (map<string, Zone>, Store, string) -> Run

  /** The engine's step for a batch with this IP and flag. */
  function HostStep(ip: string, proxied: bool): Step {
    (cache: map<string, Zone>, st: Store, hostname: string) => ReconcileHost(cache, st, hostname, ip, proxied)
  }

  /** A batch as a left fold of a step over the hostnames that stops at the
      first failure, starting from an empty cache. */
  function Fold(step: Step, st: Store, hostnames: seq<string>): Run
    decreases |hostnames|
  {
    if hostnames == [] then Run(Ok(()), map[], st)
    else
      var previous := Fold(step, st, hostnames[..|hostnames| - 1]);
      if previous.outcome.Err? then previous
      else step(previous.cache, previous.store, hostnames[|hostnames| - 1])
  }

  /** The batch `informAPI` runs over `hostnames`. */
  function Reconcile(st: Store, hostnames: seq<string>, ip: string, proxied: bool): Run {
    Fold(HostStep(ip, proxied), st, hostnames)
  }

  /** One more hostname after a successful prefix is one more step. */
  lemma FoldSnoc(step: Step, st: Store, hostnames: seq<string>, i: nat)
    requires i < |hostnames| && Fold(step, st, hostnames[..i]).outcome.Ok?
    ensures var previous := Fold(step, st, hostnames[..i]);
      Fold(step, st, hostnames[..i + 1]) == step(previous.cache, previous.store, hostnames[i])
  {
    assert hostnames[..i + 1][..i] == hostnames[..i];
  }

  // ---- Failure ends the batch ----

  /** Once a prefix of the batch has failed, the rest of the batch changes
      nothing: the result is that of the prefix. */
  lemma {:induction false} FailureIsFinal(step: Step, st: Store, hostnames: seq<string>, k: nat)
    requires k <= |hostnames|
    requires Fold(step, st, hostnames[..k]).outcome.Err?
    ensures Fold(step, st, hostnames) == Fold(step, st, hostnames[..k])
    decreases |hostnames|
  {
    if k < |hostnames| {
      var init := hostnames[..|hostnames| - 1];
      assert init[..k] == hostnames[..k];
      FailureIsFinal(step, st, init, k);
    } else {
      assert hostnames[..k] == hostnames;
    }
  }

  /** When the zone lookup for the first hostname fails, the batch ends
      there: the provider has seen that one `findZone` call and nothing
      else. */
  lemma FirstZoneFailureEndsBatch(st: Store, hostnames: seq<string>, ip: string, proxied: bool)
    requires |hostnames| >= 1 && FindZoneReply(st, RootDomain(hostnames[0])).0.Err?
    ensures var root := RootDomain(hostnames[0]);
      Reconcile(st, hostnames, ip, proxied) == Run(Err(ZoneNotFound(root)), map[], st.(log := st.log + [FindZoneCall(root)]))
  {
    var step := HostStep(ip, proxied);
    assert hostnames[..1][..0] == [];
    assert Fold(step, st, hostnames[..1]) == ReconcileHost(map[], st, hostnames[0], ip, proxied);
    FailureIsFinal(step, st, hostnames, 1);
  }

  /** A failed batch is the successful processing of the hostnames before
      some index `i`, whose changes stay, followed by the failing work on
      hostname `i`; no later hostname is touched. */
  lemma {:induction false} FirstFailureAborts(step: Step, st: Store, hostnames: seq<string>)
    requires Fold(step, st, hostnames).outcome.Err?
    ensures exists i ::
      && 0 <= i < |hostnames|
      && Fold(step, st, hostnames[..i]).outcome.Ok?
      && Fold(step, st, hostnames) == step(Fold(step, st, hostnames[..i]).cache, Fold(step, st, hostnames[..i]).store, hostnames[i])
    decreases |hostnames|
  {
    var n := |hostnames|;
    var init := hostnames[..n - 1];
    if Fold(step, st, init).outcome.Err? {
      FirstFailureAborts(step, st, init);
      var i :| 0 <= i < |init| && Fold(step, st, init[..i]).outcome.Ok? &&
        Fold(step, st, init) == step(Fold(step, st, init[..i]).cache, Fold(step, st, init[..i]).store, init[i]);
      assert init[..i] == hostnames[..i];
    } else {
      assert Fold(step, st, hostnames[..n - 1]).outcome.Ok?;
    }
  }

  // ---- What the batch keeps ----

  /** `after` is `before` with calls appended and nothing else of the
      account changed. */
  predicate Extends(before: Store, after: Store) {
    after.zones == before.zones && after.rejected == before.rejected && before.log <= after.log
  }

  /** A step only appends calls and keeps the store well formed. */
  ghost predicate KeepsFrame(step: Step) {
    forall cache: map<string, Zone>, st: Store, hostname: string :: Extends(st, step(cache, st, hostname).store)
      && (WellFormed(st) ==> WellFormed(step(cache, st, hostname).store))
  }

  /** A fold of a step that keeps the frame keeps it too. */
  lemma {:induction false} FoldFrame(step: Step, st: Store, hostnames: seq<string>)
    requires KeepsFrame(step)
    ensures Extends(st, Fold(step, st, hostnames).store)
    ensures WellFormed(st) ==> WellFormed(Fold(step, st, hostnames).store)
    decreases |hostnames|
  {
    if hostnames != [] {
      FoldFrame(step, st, hostnames[..|hostnames| - 1]);
    }
  }

  /** The engine's step keeps the frame. */
  lemma HostStepKeepsFrame(ip: string, proxied: bool)
    ensures KeepsFrame(HostStep(ip, proxied))
  {
    forall cache: map<string, Zone>, st: Store, hostname: string
      ensures Extends(st, HostStep(ip, proxied)(cache, st, hostname).store)
      ensures WellFormed(st) ==> WellFormed(HostStep(ip, proxied)(cache, st, hostname).store)
    {
      if WellFormed(st) {
        HostKeepsWellFormed(cache, st, hostname, ip, proxied);
      }
    }
  }

  /** A batch never changes the account's zones or the provider's failure
      schedule, only appends to the call log, and keeps record ids distinct
      and below the next id. */
  lemma ReconcileFrame(st: Store, hostnames: seq<string>, ip: string, proxied: bool)
    ensures var after := Reconcile(st, hostnames, ip, proxied).store;
      && after.zones == st.zones && after.rejected == st.rejected && st.log <= after.log
      && (WellFormed(st) ==> WellFormed(after))
  {
    HostStepKeepsFrame(ip, proxied);
    FoldFrame(HostStep(ip, proxied), st, hostnames);
  }

  // ---- The zone cache: one `findZone` per distinct root domain ----

  /** The names looked up with `findZone`, in call order. */
  function ZoneLookups(log: seq<Call>): seq<string>
    decreases |log|
  {
    if log == [] then []
    else ZoneLookups(log[..|log| - 1]) + (if log[|log| - 1].FindZoneCall? then [log[|log| - 1].name] else [])
  }

  /** The lookups of two call sequences in a row are those of each in turn. */
  lemma {:induction false} ZoneLookupsAppend(a: seq<Call>, b: seq<Call>)
    ensures ZoneLookups(a + b) == ZoneLookups(a) + ZoneLookups(b)
    decreases |b|
  {
    if b != [] {
      var b' := b[..|b| - 1];
      assert (a + b)[..|a + b| - 1] == a + b';
      ZoneLookupsAppend(a, b');
    } else {
      assert a + b == a;
    }
  }

  /** Calls without `findZone` look nothing up. */
  lemma {:induction false} NoZoneLookups(calls: seq<Call>)
    requires forall k :: 0 <= k < |calls| ==> !calls[k].FindZoneCall?
    ensures ZoneLookups(calls) == []
    decreases |calls|
  {
    if calls != [] {
      NoZoneLookups(calls[..|calls| - 1]);
    }
  }

  /** The root domain of each hostname, in order. */
  function Roots(hostnames: seq<string>): (r: seq<string>)
    ensures |r| == |hostnames|
    decreases |hostnames|
  {
    if hostnames == [] then [] else Roots(hostnames[..|hostnames| - 1]) + [RootDomain(hostnames[|hostnames| - 1])]
  }

  /** The `i`-th root is the root domain of the `i`-th hostname. */
  lemma {:induction false} RootsElementwise(hostnames: seq<string>)
    ensures forall i :: 0 <= i < |hostnames| ==> Roots(hostnames)[i] == RootDomain(hostnames[i])
    decreases |hostnames|
  {
    if hostnames != [] {
      var init := hostnames[..|hostnames| - 1];
      RootsElementwise(init);
      forall i | 0 <= i < |hostnames| - 1
        ensures Roots(hostnames)[i] == RootDomain(hostnames[i])
      {
        assert Roots(hostnames)[i] == Roots(init)[i];
        assert init[i] == hostnames[i];
      }
    }
  }

  /** Each element of `xs` once, in order of first occurrence. */
  function FirstOccurrences(xs: seq<string>): seq<string>
    decreases |xs|
  {
    if xs == [] then []
    else
      var init := FirstOccurrences(xs[..|xs| - 1]);
      if xs[|xs| - 1] in init then init else init + [xs[|xs| - 1]]
  }

  /** The first occurrences hold exactly the elements of the list. */
  lemma {:induction false} FirstOccurrencesMembers(xs: seq<string>)
    ensures forall x :: x in FirstOccurrences(xs) <==> x in xs
    decreases |xs|
  {
    if xs != [] {
      var init := xs[..|xs| - 1];
      FirstOccurrencesMembers(init);
      assert xs == init + [xs[|xs| - 1]];
    }
  }

  /** No element occurs twice. */
  predicate Distinct(s: seq<string>) {
    forall i, j :: 0 <= i < j < |s| ==> s[i] != s[j]
  }

  /** No element occurs twice among the first occurrences. */
  lemma {:induction false} FirstOccurrencesDistinct(xs: seq<string>)
    ensures Distinct(FirstOccurrences(xs))
    decreases |xs|
  {
    if xs != [] {
      var init, x := xs[..|xs| - 1], xs[|xs| - 1];
      FirstOccurrencesDistinct(init);
      var r0 := FirstOccurrences(init);
      assert xs == init + [x];
      if x !in r0 {
        var r := r0 + [x];
        forall i, j | 0 <= i < j < |r|
          ensures r[i] != r[j]
        {
          assert r[i] == r0[i];
          if j == |r0| {
            assert r[j] == x;
          } else {
            assert r[j] == r0[j];
          }
        }
      }
    }
  }

  /** A step calls `findZone` once for its hostname's root domain when it is
      not cached, never otherwise, and on success caches that root and no
      other. */
  ghost predicate LooksUpUncached(step: Step) {
    forall cache: map<string, Zone>, st: Store, hostname: string ::
      && st.log <= step(cache, st, hostname).store.log
      && ZoneLookups(step(cache, st, hostname).store.log[|st.log|..]) == (if RootDomain(hostname) in cache then [] else [RootDomain(hostname)])
      && (step(cache, st, hostname).outcome.Ok? ==> step(cache, st, hostname).cache.Keys == cache.Keys + {RootDomain(hostname)})
  }

  /** One more element is a new first occurrence exactly when it is new. */
  lemma {:induction false} FirstOccurrencesSnoc(xs: seq<string>, x: string)
    ensures FirstOccurrences(xs + [x]) == if x in FirstOccurrences(xs) then FirstOccurrences(xs) else FirstOccurrences(xs) + [x]
  {
    assert (xs + [x])[..|xs|] == xs;
  }

  /** After a successful fold the cache holds exactly the roots seen. */
  lemma {:induction false} FoldCachedRoots(step: Step, st: Store, hostnames: seq<string>)
    requires LooksUpUncached(step)
    ensures var run := Fold(step, st, hostnames);
      run.outcome.Ok? ==> forall d :: d in run.cache <==> d in Roots(hostnames)
    decreases |hostnames|
  {
    if hostnames != [] {
      var n := |hostnames|;
      var init := hostnames[..n - 1];
      FoldCachedRoots(step, st, init);
      assert Roots(hostnames) == Roots(init) + [RootDomain(hostnames[n - 1])];
    }
  }

  /** A prefix of the distinct roots stays one when a hostname is added. */
  lemma LookupsStayPrefix(lookups: seq<string>, hostnames: seq<string>, hostname: string)
    requires lookups <= FirstOccurrences(Roots(hostnames))
    ensures lookups <= FirstOccurrences(Roots(hostnames + [hostname]))
  {
    assert (hostnames + [hostname])[..|hostnames|] == hostnames;
    FirstOccurrencesSnoc(Roots(hostnames), RootDomain(hostname));
  }

  /** One more step after lookups of the distinct roots so far, with those
      roots cached, looks up the distinct roots of one more hostname. */
  lemma LookupsAfterStep(step: Step, st: Store, previous: Run, hostnames: seq<string>, hostname: string)
    requires LooksUpUncached(step)
    requires st.log <= previous.store.log
    requires ZoneLookups(previous.store.log[|st.log|..]) == FirstOccurrences(Roots(hostnames))
    requires forall d :: d in previous.cache <==> d in Roots(hostnames)
    ensures var run := step(previous.cache, previous.store, hostname);
      && st.log <= run.store.log
      && ZoneLookups(run.store.log[|st.log|..]) == FirstOccurrences(Roots(hostnames + [hostname]))
  {
    var run := step(previous.cache, previous.store, hostname);
    var roots, root := Roots(hostnames), RootDomain(hostname);
    assert (hostnames + [hostname])[..|hostnames|] == hostnames;
    assert Roots(hostnames + [hostname]) == roots + [root];
    SliceSplit(st.log, previous.store.log, run.store.log);
    var before, added := previous.store.log[|st.log|..], run.store.log[|previous.store.log|..];
    ZoneLookupsAppend(before, added);
    FirstOccurrencesSnoc(roots, root);
    FirstOccurrencesMembers(roots);
  }

  /** A fold of a step that looks up only uncached roots looks up a prefix
      of the distinct roots, and all of them when it succeeds. */
  lemma {:induction false} FoldZoneLookups(step: Step, st: Store, hostnames: seq<string>)
    requires LooksUpUncached(step)
    ensures var run := Fold(step, st, hostnames);
      && st.log <= run.store.log
      && ZoneLookups(run.store.log[|st.log|..]) <= FirstOccurrences(Roots(hostnames))
      && (run.outcome.Ok? ==> ZoneLookups(run.store.log[|st.log|..]) == FirstOccurrences(Roots(hostnames)))
    decreases |hostnames|
  {
    if hostnames == [] {
      assert st.log[|st.log|..] == [];
    } else {
      var n := |hostnames|;
      var init, last := hostnames[..n - 1], hostnames[n - 1];
      var previous := Fold(step, st, init);
      FoldZoneLookups(step, st, init);
      InitLast(hostnames);
      if previous.outcome.Ok? {
        FoldCachedRoots(step, st, init);
        LookupsAfterStep(step, st, previous, init, last);
      } else {
        LookupsStayPrefix(ZoneLookups(previous.store.log[|st.log|..]), init, last);
      }
    }
  }

  /** The engine's step looks up only uncached roots. */
  lemma HostStepLooksUpUncached(ip: string, proxied: bool)
    ensures LooksUpUncached(HostStep(ip, proxied))
  {
    forall cache: map<string, Zone>, st: Store, hostname: string
      ensures var run := HostStep(ip, proxied)(cache, st, hostname);
        && st.log <= run.store.log
        && ZoneLookups(run.store.log[|st.log|..]) == (if RootDomain(hostname) in cache then [] else [RootDomain(hostname)])
        && (run.outcome.Ok? ==> run.cache.Keys == cache.Keys + {RootDomain(hostname)})
    {
      HostZoneLookups(cache, st, hostname, ip, proxied);
    }
  }

  /** `findZone` is called at most once per distinct root domain, in order of
      first occurrence: the lookups of any batch are a prefix of the distinct
      roots, all of them when the batch succeeds, and the cache then holds
      exactly those roots. */
  lemma ZoneLookupOncePerRoot(st: Store, hostnames: seq<string>, ip: string, proxied: bool)
    ensures var run := Reconcile(st, hostnames, ip, proxied);
      && st.log <= run.store.log
      && ZoneLookups(run.store.log[|st.log|..]) <= FirstOccurrences(Roots(hostnames))
      && (run.outcome.Ok? ==> ZoneLookups(run.store.log[|st.log|..]) == FirstOccurrences(Roots(hostnames)))
      && (run.outcome.Ok? ==> forall d :: d in run.cache <==> d in Roots(hostnames))
    ensures var run := Reconcile(st, hostnames, ip, proxied);
      Distinct(ZoneLookups(run.store.log[|st.log|..]))
  {
    HostStepLooksUpUncached(ip, proxied);
    FoldZoneLookups(HostStep(ip, proxied), st, hostnames);
    FoldCachedRoots(HostStep(ip, proxied), st, hostnames);
    FirstOccurrencesDistinct(Roots(hostnames));
  }

  // ---- Create or update ----

  /** Every write of a batch uses the batch's one record type, the IP as
      content and the requested flag. */
  predicate WritesUse(calls: seq<Call>, rrType: string, ip: string, proxied: bool) {
    forall i :: 0 <= i < |calls| && (calls[i].CreateRecordCall? || calls[i].UpdateRecordCall?) ==> IsWrite(calls[i], rrType, ip, proxied)
  }

  /** A `createRecord` or `updateRecord` call with the type, content and
      flag. */
  predicate IsWrite(c: Call, rrType: string, ip: string, proxied: bool) {
    (c.CreateRecordCall? || c.UpdateRecordCall?) && c.rrType == rrType && c.content == ip && c.proxied == proxied
  }

  /** Every write of a step uses the type, the content and the flag. */
  ghost predicate WritesOnly(step: Step, rrType: string, ip: string, proxied: bool) {
    forall cache: map<string, Zone>, st: Store, hostname: string ::
      st.log <= step(cache, st, hostname).store.log && WritesUse(step(cache, st, hostname).store.log[|st.log|..], rrType, ip, proxied)
  }

  /** A fold of such a step writes only with them too. */
  lemma {:induction false} FoldWrites(step: Step, st: Store, hostnames: seq<string>, rrType: string, ip: string, proxied: bool)
    requires WritesOnly(step, rrType, ip, proxied)
    ensures var run := Fold(step, st, hostnames);
      st.log <= run.store.log && WritesUse(run.store.log[|st.log|..], rrType, ip, proxied)
    decreases |hostnames|
  {
    if hostnames == [] {
      assert st.log[|st.log|..] == [];
    } else {
      var n := |hostnames|;
      var previous := Fold(step, st, hostnames[..n - 1]);
      FoldWrites(step, st, hostnames[..n - 1], rrType, ip, proxied);
      if previous.outcome.Ok? {
        var run := step(previous.cache, previous.store, hostnames[n - 1]);
        var before := previous.store.log[|st.log|..];
        var added := run.store.log[|previous.store.log|..];
        SliceSplit(st.log, previous.store.log, run.store.log);
        forall i | 0 <= i < |before + added|
          ensures (before + added)[i] == if i < |before| then before[i] else added[i - |before|]
        {
        }
      }
    }
  }

  /** The engine's step writes only the batch's type, IP and flag. */
  lemma HostStepWritesOnly(ip: string, proxied: bool)
    ensures WritesOnly(HostStep(ip, proxied), RecordType(ip), ip, proxied)
  {
    forall cache: map<string, Zone>, st: Store, hostname: string
      ensures var run := HostStep(ip, proxied)(cache, st, hostname);
        st.log <= run.store.log && WritesUse(run.store.log[|st.log|..], RecordType(ip), ip, proxied)
    {
      HostWrites(cache, st, hostname, ip, proxied);
    }
  }

  /** A whole batch writes records of one type only, the one chosen from
      the IP, always with the IP as content and the requested flag. */
  lemma OneRecordTypePerBatch(st: Store, hostnames: seq<string>, ip: string, proxied: bool)
    ensures var run := Reconcile(st, hostnames, ip, proxied);
      st.log <= run.store.log && WritesUse(run.store.log[|st.log|..], RecordType(ip), ip, proxied)
  {
    HostStepWritesOnly(ip, proxied);
    FoldWrites(HostStep(ip, proxied), st, hostnames, RecordType(ip), ip, proxied);
  }

  /** The decision for one hostname whose zone is known, against the records
      the provider holds: with a record of the name and the batch's type the
      engine updates the first such record (a PATCH, no POST); with no record
      of the name, or when the lookup is refused, it creates one (a POST, no
      PATCH); with records of the name but none of the type the lookup
      resolves to `undefined` and the update throws a TypeError before any
      request. */
  lemma CreateOrUpdate(st: Store, zone: Zone, hostname: string, ip: string, proxied: bool)
    ensures var t := RecordType(ip);
      var w := RecordStep(st, zone, hostname, ip, proxied);
      var lookup := st.log + [FindRecordCall(zone.id, hostname)];
      var named := exists i :: 0 <= i < |st.records| && InZoneNamed(st.records[i], zone.id, hostname);
      && (Accepts(st) && FirstMatch(st.records, zone.id, hostname, t).Some? ==>
            var x := FirstMatch(st.records, zone.id, hostname, t).value;
            w.1.log == lookup + [UpdateRecordCall(zone.id, x.id, hostname, t, ip, proxied)])
      && ((!Accepts(st) || !named) ==>
            w.1.log == lookup + [CreateRecordCall(zone.id, hostname, t, ip, proxied)])
      && (Accepts(st) && named && FirstMatch(st.records, zone.id, hostname, t).None? ==>
            w.0 == Err(HostError("TypeError")) && w.1 == st.(log := lookup))
  {
    var found := FindRecordReply(st, zone, hostname, IsIpv4(ip));
    if found.0.Ok? && found.0.value.Some? {
      var x := found.0.value.value;
      assert x.zoneId == zone.id && x.name == hostname && x.rrType == RecordType(ip);
    }
  }

  // ---- What a successful batch leaves behind ----

  /** The records hold one in the zone with the name, the type, the content
      and the flag. */
  predicate Resolves(records: seq<DnsRecord>, zoneId: string, hostname: string, rrType: string, ip: string, proxied: bool) {
    exists x :: x in records && x.zoneId == zoneId && x.name == hostname && x.rrType == rrType && x.content == ip && x.proxied == proxied
  }

  /** Rewriting the found record to the IP and flag makes its name resolve. */
  lemma RewriteResolves(records: seq<DnsRecord>, k: nat, ip: string, proxied: bool)
    requires k < |records|
    ensures var x := records[k];
      Resolves(Rewrite(records, x.id, ip, proxied), x.zoneId, x.name, x.rrType, ip, proxied)
  {
    var r := Rewrite(records, records[k].id, ip, proxied);
    assert r[k] in r;
  }

  /** A rewrite to the IP and flag leaves every record that already has them
      as it was. */
  lemma RewriteKeepsResolves(records: seq<DnsRecord>, id: nat, zoneId: string, hostname: string, rrType: string, ip: string, proxied: bool)
    requires Resolves(records, zoneId, hostname, rrType, ip, proxied)
    ensures Resolves(Rewrite(records, id, ip, proxied), zoneId, hostname, rrType, ip, proxied)
  {
    var r := Rewrite(records, id, ip, proxied);
    var y :| y in records && y.zoneId == zoneId && y.name == hostname && y.rrType == rrType && y.content == ip && y.proxied == proxied;
    var j :| 0 <= j < |records| && records[j] == y;
    assert r[j] == y;
    assert r[j] in r;
  }

  /** A successful record step leaves the hostname resolving to the IP in
      the zone, and keeps every earlier resolution to the same IP and flag. */
  lemma RecordStepResolves(st: Store, zone: Zone, hostname: string, ip: string, proxied: bool)
    ensures var w := RecordStep(st, zone, hostname, ip, proxied);
      var t := RecordType(ip);
      w.0.Ok? ==>
        && Resolves(w.1.records, zone.id, hostname, t, ip, proxied)
        && (forall z, h :: Resolves(st.records, z, h, t, ip, proxied) ==> Resolves(w.1.records, z, h, t, ip, proxied))
  {
    var w := RecordStep(st, zone, hostname, ip, proxied);
    var t := RecordType(ip);
    var found := FindRecordReply(st, zone, hostname, IsIpv4(ip));
    if w.0.Ok? {
      if found.0.Ok? {
        var x := found.0.value.value;
        var k :| 0 <= k < |st.records| && st.records[k] == x;
        assert w.1.records == Rewrite(st.records, x.id, ip, proxied);
        RewriteResolves(st.records, k, ip, proxied);
        forall z, h | Resolves(st.records, z, h, t, ip, proxied)
          ensures Resolves(w.1.records, z, h, t, ip, proxied)
        {
          RewriteKeepsResolves(st.records, x.id, z, h, t, ip, proxied);
        }
      } else {
        var created := DnsRecord(st.nextId, zone.id, hostname, t, ip, proxied);
        assert w.1.records == st.records + [created];
        assert created in w.1.records;
      }
    }
  }

  /** The cached zones are the account's first zones of those names. */
  predicate CacheFaithful(cache: map<string, Zone>, zones: seq<Zone>) {
    forall d :: d in cache ==> FirstZoneNamed(zones, d) == Some(cache[d])
  }

  /** What a successful step leaves behind: the cache only grows, the
      hostname's root is cached, the hostname resolves in the cached zone,
      and earlier resolutions stay. */
  ghost predicate ResolvedBy(cache: map<string, Zone>, st: Store, hostname: string, run: Run, rrType: string, ip: string, proxied: bool) {
    && (forall d :: d in cache ==> d in run.cache && run.cache[d] == cache[d])
    && RootDomain(hostname) in run.cache
    && Resolves(run.store.records, run.cache[RootDomain(hostname)].id, hostname, rrType, ip, proxied)
    && (forall z, h :: Resolves(st.records, z, h, rrType, ip, proxied) ==> Resolves(run.store.records, z, h, rrType, ip, proxied))
  }

  /** Every successful step leaves what `ResolvedBy` describes. */
  ghost predicate ResolvesEach(step: Step, rrType: string, ip: string, proxied: bool) {
    forall cache: map<string, Zone>, st: Store, hostname: string :: step(cache, st, hostname).outcome.Ok? ==>
      ResolvedBy(cache, st, hostname, step(cache, st, hostname), rrType, ip, proxied)
  }

  /** Every hostname's root is cached and the hostname resolves in the
      cached zone. */
  ghost predicate AllResolved(run: Run, hostnames: seq<string>, rrType: string, ip: string, proxied: bool) {
    forall i :: 0 <= i < |hostnames| ==>
      && RootDomain(hostnames[i]) in run.cache
      && Resolves(run.store.records, run.cache[RootDomain(hostnames[i])].id, hostnames[i], rrType, ip, proxied)
  }

  /** After a successful fold of such a step every hostname resolves in the
      zone cached for its root. */
  lemma {:induction false} FoldResolves(step: Step, st: Store, hostnames: seq<string>, rrType: string, ip: string, proxied: bool)
    requires ResolvesEach(step, rrType, ip, proxied)
    ensures var run := Fold(step, st, hostnames);
      run.outcome.Ok? ==> AllResolved(run, hostnames, rrType, ip, proxied)
    decreases |hostnames|
  {
    if hostnames != [] {
      var n := |hostnames|;
      var init, last := hostnames[..n - 1], hostnames[n - 1];
      var previous := Fold(step, st, init);
      FoldResolves(step, st, init, rrType, ip, proxied);
      if previous.outcome.Ok? {
        var run := step(previous.cache, previous.store, last);
        if run.outcome.Ok? {
          assert ResolvedBy(previous.cache, previous.store, last, run, rrType, ip, proxied);
          ResolvedAfterStep(previous, run, init, last, rrType, ip, proxied);
          InitLast(hostnames);
        }
      }
    }
  }

  /** One more resolved hostname, with the cache grown and the earlier
      resolutions kept, extends the resolved prefix. */
  lemma ResolvedAfterStep(previous: Run, run: Run, hostnames: seq<string>, hostname: string, rrType: string, ip: string, proxied: bool)
    requires AllResolved(previous, hostnames, rrType, ip, proxied)
    requires ResolvedBy(previous.cache, previous.store, hostname, run, rrType, ip, proxied)
    ensures AllResolved(run, hostnames + [hostname], rrType, ip, proxied)
  {
    var all := hostnames + [hostname];
    forall i | 0 <= i < |all|
      ensures RootDomain(all[i]) in run.cache
      ensures Resolves(run.store.records, run.cache[RootDomain(all[i])].id, all[i], rrType, ip, proxied)
    {
      if i < |hostnames| {
        assert all[i] == hostnames[i];
      }
    }
  }

  /** A successful step caches only the account's first zone of a name. */
  ghost predicate KeepsCacheFaithful(step: Step) {
    forall cache: map<string, Zone>, st: Store, hostname: string ::
      CacheFaithful(cache, st.zones) && step(cache, st, hostname).outcome.Ok? ==> CacheFaithful(step(cache, st, hostname).cache, st.zones)
  }

  /** A successful fold of such a step leaves a faithful cache. */
  lemma {:induction false} FoldCacheFaithful(step: Step, st: Store, hostnames: seq<string>)
    requires KeepsFrame(step) && KeepsCacheFaithful(step)
    ensures Fold(step, st, hostnames).outcome.Ok? ==> CacheFaithful(Fold(step, st, hostnames).cache, st.zones)
    decreases |hostnames|
  {
    if hostnames != [] {
      var init := hostnames[..|hostnames| - 1];
      FoldCacheFaithful(step, st, init);
      FoldFrame(step, st, init);
    }
  }

  /** One hostname's successful step leaves what `ResolvedBy` describes, and
      caches only the zone `findZone` returns. */
  lemma HostResolves(cache: map<string, Zone>, st: Store, hostname: string, ip: string, proxied: bool)
    requires ReconcileHost(cache, st, hostname, ip, proxied).outcome.Ok?
    ensures ResolvedBy(cache, st, hostname, ReconcileHost(cache, st, hostname, ip, proxied), RecordType(ip), ip, proxied)
    ensures CacheFaithful(cache, st.zones) ==> CacheFaithful(ReconcileHost(cache, st, hostname, ip, proxied).cache, st.zones)
  {
    var root := RootDomain(hostname);
    var zoneReply := ZoneStep(cache, st, root);
    RecordStepResolves(zoneReply.1, zoneReply.0.value, hostname, ip, proxied);
  }

  /** The engine's step resolves each hostname and keeps the cache faithful. */
  lemma HostStepResolvesEach(ip: string, proxied: bool)
    ensures ResolvesEach(HostStep(ip, proxied), RecordType(ip), ip, proxied)
    ensures KeepsCacheFaithful(HostStep(ip, proxied))
  {
    forall cache: map<string, Zone>, st: Store, hostname: string | HostStep(ip, proxied)(cache, st, hostname).outcome.Ok?
      ensures ResolvedBy(cache, st, hostname, HostStep(ip, proxied)(cache, st, hostname), RecordType(ip), ip, proxied)
      ensures CacheFaithful(cache, st.zones) ==> CacheFaithful(HostStep(ip, proxied)(cache, st, hostname).cache, st.zones)
    {
      HostResolves(cache, st, hostname, ip, proxied);
    }
  }

  /** After a successful batch every hostname has a record of the batch's
      type in the zone found for its root domain, with the IP as content and
      the requested flag, and each cached zone is the account's first zone
      of that name. */
  lemma SuccessfulBatchResolves(st: Store, hostnames: seq<string>, ip: string, proxied: bool)
    ensures var run := Reconcile(st, hostnames, ip, proxied);
      run.outcome.Ok? ==> CacheFaithful(run.cache, st.zones) && AllResolved(run, hostnames, RecordType(ip), ip, proxied)
  {
    HostStepKeepsFrame(ip, proxied);
    HostStepResolvesEach(ip, proxied);
    FoldResolves(HostStep(ip, proxied), st, hostnames, RecordType(ip), ip, proxied);
    FoldCacheFaithful(HostStep(ip, proxied), st, hostnames);
  }

  /** The promise chain of lines 202-208: `findRecord(...).then(update,
      create)`, where a rejected lookup leads to a create and a resolved one
      (even to `undefined`) to an update. */
  method Upsert(cf: Cloudflare, zone: Zone, hostname: string, ip: string, proxied: bool) returns (outcome: Result<()>)
    requires cf.Valid()
    modifies cf
    ensures cf.Valid()
    ensures (outcome, cf.Snapshot()) == RecordStep(old(cf.Snapshot()), zone, hostname, ip, proxied)
  {
    var isIpv4 := IsIpv4(ip);
    var found := cf.FindRecord(zone, hostname, isIpv4);
    var written;
    if found.Ok? {
      written := cf.UpdateRecord(found.value, ip, proxied);
    } else {
      written := cf.CreateRecord(zone, hostname, ip, isIpv4, proxied);
    }
    outcome := if written.Ok? then Ok(()) else Err(written.error);
  }

  /** One iteration of the loop of lines 193-209: the zone from the cache,
      or from `findZone` and then cached, and the record promise chain. */
  method InformHost(cf: Cloudflare, zones: map<string, Zone>, hostname: string, ip: string, proxied: bool)
    returns (outcome: Result<()>, zones': map<string, Zone>)
    requires cf.Valid()
    modifies cf
    ensures cf.Valid()
    ensures Run(outcome, zones', cf.Snapshot()) == ReconcileHost(zones, old(cf.Snapshot()), hostname, ip, proxied)
  {
    var domainName := RootDomain(hostname);
    zones' := zones;
    if domainName !in zones' {
      var zone := cf.FindZone(domainName);
      if zone.Err? {
        outcome := Err(zone.error);
        return;
      }
      zones' := zones'[domainName := zone.value];
    }
    var zone := zones'[domainName];
    assert zones' == zones[domainName := zone];
    assert ZoneStep(zones, old(cf.Snapshot()), domainName) == (Ok(zone), cf.Snapshot());
    outcome := Upsert(cf, zone, hostname, ip, proxied);
  }

  /** `informAPI`: the loop of lines 193-209 over the provider, with the
      zone cache as a local map. */
  method InformApi(cf: Cloudflare, hostnames: seq<string>, ip: string, proxied: bool) returns (outcome: Result<()>)
    requires cf.Valid()
    modifies cf
    ensures cf.Valid()
    ensures outcome == Reconcile(old(cf.Snapshot()), hostnames, ip, proxied).outcome
    ensures cf.Snapshot() == Reconcile(old(cf.Snapshot()), hostnames, ip, proxied).store
  {
    var zones: map<string, Zone> := map[];
    for i := 0 to |hostnames|
      invariant cf.Valid()
      invariant Reconcile(old(cf.Snapshot()), hostnames[..i], ip, proxied) == Run(Ok(()), zones, cf.Snapshot())
    {
      FoldSnoc(HostStep(ip, proxied), old(cf.Snapshot()), hostnames, i);
      var written;
      written, zones := InformHost(cf, zones, hostnames[i], ip, proxied);
      if written.Err? {
        outcome := written;
        FailureIsFinal(HostStep(ip, proxied), old(cf.Snapshot()), hostnames, i + 1);
        return;
      }
    }
    assert hostnames[..|hostnames|] == hostnames;
    outcome := Ok(());
  }
}
