/**
 * The once-per-frame refresh cycle of the UI particle updater, as a pure
 * specification: the calls one cycle makes on the registered particles and
 * attractors, given what the updater can observe of each particle.
 *
 * The cycle has four passes, in this order:
 *   1. Primary     - each live primary whose group is not yet claimed claims
 *                    it and gets UpdateTransformScale then UpdateRenderers;
 *   2. Others      - every live particle gets UpdateTransformScale; it also
 *                    gets UpdateRenderers when it does not share meshes, or
 *                    when it shares meshes and is the first to claim its group;
 *   3. Attraction  - every attractor list entry gets Attract;
 *   4. Bookkeeping - every live particle gets UpdateParticleCount.
 * The claimed-group set is empty at the start of pass 1, carried from pass 1
 * into pass 2, and cleared after pass 2.
 */
module Schedule {

  /** What the updater reads from one registered particle during a cycle. */
  datatype Flags = Flags(
    valid: bool,          // the engine object still exists (`!uip` is false)
    attached: bool,       // it has a canvas (`!uip.canvas` is false)
    groupId: int,
    isPrimary: bool,
    useMeshSharing: bool,
    canSimulate: bool)

  datatype Pass = Primary | Others | Attraction | Bookkeeping

  /** The calls the updater makes on the entities it schedules. */
  datatype Call = UpdateTransformScale | UpdateRenderers | Attract | UpdateParticleCount

  /**
   * One call made during a cycle: in which pass, which call, and the list
   * index of the entity called (a particle index, or an attractor index in
   * the attraction pass).
   */
  datatype Event = Event(pass: Pass, call: Call, target: nat)

  function Rank(p: Pass): nat
  {
    match p
    case Primary => 0
    case Others => 1
    case Attraction => 2
    case Bookkeeping => 3
  }

  /** The order in which one list entry receives its calls within a pass. */
  function CallRank(c: Call): nat
  {
    match c
    case UpdateTransformScale => 0
    case UpdateRenderers => 1
    case Attract => 2
    case UpdateParticleCount => 3
  }

  /**
   * x comes strictly before y: an earlier pass, or the same pass and an
   * entry earlier in the list, or the same entry and an earlier call
   * (UpdateTransformScale before UpdateRenderers).
   */
  predicate Precedes(x: Event, y: Event)
  {
    Rank(x.pass) < Rank(y.pass) ||
    (x.pass == y.pass && (x.target < y.target || (x.target == y.target && CallRank(x.call) < CallRank(y.call))))
  }

  predicate Ordered(evs: seq<Event>)
  {
    forall a, b :: 0 <= a < b < |evs| ==> Precedes(evs[a], evs[b])
  }

  /** Neither destroyed nor detached from its canvas: the particle passes take part. */
  predicate Live(f: Flags)
  {
    f.valid && f.attached
  }

  predicate LivePrimary(f: Flags)
  {
    Live(f) && f.isPrimary
  }

  predicate LiveSharer(f: Flags)
  {
    Live(f) && f.useMeshSharing
  }

  /** fs[i] is the first live primary of its group in list order. */
  predicate ClaimsInPrimaryPass(fs: seq<Flags>, i: nat)
    requires i < |fs|
  {
    LivePrimary(fs[i]) &&
    forall j :: 0 <= j < i ==> !(LivePrimary(fs[j]) && fs[j].groupId == fs[i].groupId)
  }

  /** Some live primary among the first n particles belongs to group g. */
  predicate HasLivePrimary(fs: seq<Flags>, n: nat, g: int)
    requires n <= |fs|
  {
    exists j :: 0 <= j < n && LivePrimary(fs[j]) && fs[j].groupId == g
  }

  /** fs[i] is the first live mesh-sharing particle of its group in list order. */
  predicate FirstLiveSharer(fs: seq<Flags>, i: nat)
    requires i < |fs|
  {
    LiveSharer(fs[i]) &&
    forall j :: 0 <= j < i ==> !(LiveSharer(fs[j]) && fs[j].groupId == fs[i].groupId)
  }

  /** Some live mesh-sharing particle among the first n belongs to group g. */
  predicate HasLiveSharer(fs: seq<Flags>, n: nat, g: int)
    requires n <= |fs|
  {
    exists j :: 0 <= j < n && LiveSharer(fs[j]) && fs[j].groupId == g
  }

  /** The calls made so far in a pass, and the claimed-group set after them. */
  datatype Progress = Progress(events: seq<Event>, claimed: set<int>)

  /** Pass 1 on the particle at index i. */
  function PrimaryStep(f: Flags, i: nat, claimed: set<int>): Progress
  {
    if !f.valid || !f.attached || !f.isPrimary || f.groupId in claimed then
      Progress([], claimed)
    else
      Progress([Event(Primary, UpdateTransformScale, i), Event(Primary, UpdateRenderers, i)],
               claimed + {f.groupId})
  }

  /** Pass 1 over the first n list entries, starting from an empty claimed set: at most two calls per list entry. */
  function PrimaryPass(fs: seq<Flags>, n: nat): (r: Progress)
    requires n <= |fs|
  {
    if n == 0 then Progress([], {})
    else
      var before := PrimaryPass(fs, n - 1);
      var step := PrimaryStep(fs[n - 1], n - 1, before.claimed);
      Progress(before.events + step.events, step.claimed)
  }

  /** Pass 2 on the particle at index i. */
  function OthersStep(f: Flags, i: nat, claimed: set<int>): Progress
  {
    if !f.valid || !f.attached then
      Progress([], claimed)
    else if !f.useMeshSharing then
      Progress([Event(Others, UpdateTransformScale, i), Event(Others, UpdateRenderers, i)], claimed)
    else if f.groupId !in claimed then
      Progress([Event(Others, UpdateTransformScale, i), Event(Others, UpdateRenderers, i)],
               claimed + {f.groupId})
    else
      Progress([Event(Others, UpdateTransformScale, i)], claimed)
  }

  /**
   * Pass 2 over the first n list entries, starting from the claimed set `start`:
   * at most two calls per list entry, and claimed groups stay claimed.
   */
  function OthersPass(fs: seq<Flags>, n: nat, start: set<int>): (r: Progress)
    requires n <= |fs|
  {
    if n == 0 then Progress([], start)
    else
      var before := OthersPass(fs, n - 1, start);
      var step := OthersStep(fs[n - 1], n - 1, before.claimed);
      Progress(before.events + step.events, step.claimed)
  }

  /** Pass 3 over the first m attractors: one Attract each, in list order, with no check. */
  function AttractPass(m: nat): (r: seq<Event>)
  {
    if m == 0 then [] else AttractPass(m - 1) + [Event(Attraction, Attract, m - 1)]
  }

  /** Pass 4 over the first n list entries: at most one call per list entry. */
  function CountPass(fs: seq<Flags>, n: nat): (r: seq<Event>)
    requires n <= |fs|
  {
    if n == 0 then []
    else
      CountPass(fs, n - 1) +
      (if !fs[n - 1].valid || !fs[n - 1].attached then [] else [Event(Bookkeeping, UpdateParticleCount, n - 1)])
  }

  /**
   * The calls of one whole cycle over the particle list entries fs and m
   * attractor list entries: at most five per particle list entry (two in each
   * of passes 1 and 2, one in pass 4) and one per attractor list entry.
   */
  function Cycle(fs: seq<Flags>, m: nat): (r: seq<Event>)
  {
    var first := PrimaryPass(fs, |fs|);
    var others := OthersPass(fs, |fs|, first.claimed);
    first.events + others.events + AttractPass(m) + CountPass(fs, |fs|)
  }

  /** Does the cycle call UpdateRenderers on particle i, in either pass? */
  predicate Rendered(evs: seq<Event>, i: nat)
  {
    Event(Primary, UpdateRenderers, i) in evs || Event(Others, UpdateRenderers, i) in evs
  }

  // ---------------------------------------------------------------------
  // Each pass on its own
  // ---------------------------------------------------------------------

  /** The calls pass 1 makes over the first n particles, described call by call. */
  predicate PrimaryCall(fs: seq<Flags>, n: nat, e: Event)
    requires n <= |fs|
  {
    e.pass == Primary && (e.call == UpdateTransformScale || e.call == UpdateRenderers) &&
    e.target < n && ClaimsInPrimaryPass(fs, e.target)
  }

  /**
   * The calls pass 2 makes over the first n particles when the groups in
   * `start` are already claimed, described call by call.
   */
  predicate OthersCall(fs: seq<Flags>, n: nat, start: set<int>, e: Event)
    requires n <= |fs|
  {
    e.pass == Others && e.target < n && Live(fs[e.target]) &&
    (e.call == UpdateTransformScale ||
     (e.call == UpdateRenderers &&
      (!fs[e.target].useMeshSharing || (fs[e.target].groupId !in start && FirstLiveSharer(fs, e.target)))))
  }

  /** The calls pass 3 makes over the first m attractors, described call by call. */
  predicate AttractCall(m: nat, e: Event)
  {
    e.pass == Attraction && e.call == Attract && e.target < m
  }

  /** The calls pass 4 makes over the first n particles, described call by call. */
  predicate CountCall(fs: seq<Flags>, n: nat, e: Event)
    requires n <= |fs|
  {
    e.pass == Bookkeeping && e.call == UpdateParticleCount && e.target < n && Live(fs[e.target])
  }

  /** Two ordered lists, each element of the first preceding each of the second, append to an ordered list. */
  lemma OrderedAppend(xs: seq<Event>, ys: seq<Event>)
    requires Ordered(xs) && Ordered(ys)
    requires forall x, y :: x in xs && y in ys ==> Precedes(x, y)
    ensures Ordered(xs + ys)
  {
  }

  /** Pass 1 claims exactly the groups that have a live primary. */
  lemma {:induction false} PrimaryPassClaimed(fs: seq<Flags>, n: nat)
    requires n <= |fs|
    ensures forall g :: g in PrimaryPass(fs, n).claimed <==> HasLivePrimary(fs, n, g)
  {
    if n > 0 {
      PrimaryPassClaimed(fs, n - 1);
      var f := fs[n - 1];
      forall g ensures g in PrimaryPass(fs, n).claimed <==> HasLivePrimary(fs, n, g) {
        if HasLivePrimary(fs, n, g) && !HasLivePrimary(fs, n - 1, g) {
          assert LivePrimary(f) && f.groupId == g;
        }
      }
    }
  }

  /**
   * Pass 1 calls UpdateTransformScale and UpdateRenderers on the first live
   * primary of each group and makes no other call.
   */
  lemma {:induction false} PrimaryPassMembers(fs: seq<Flags>, n: nat)
    requires n <= |fs|
    ensures forall e :: e in PrimaryPass(fs, n).events <==> PrimaryCall(fs, n, e)
  {
    if n > 0 {
      PrimaryPassMembers(fs, n - 1);
      PrimaryPassClaimed(fs, n - 1);
      var before := PrimaryPass(fs, n - 1);
      var step := PrimaryStep(fs[n - 1], n - 1, before.claimed);
      assert ClaimsInPrimaryPass(fs, n - 1) <==>
               LivePrimary(fs[n - 1]) && !HasLivePrimary(fs, n - 1, fs[n - 1].groupId);
      forall e ensures e in step.events <==> PrimaryCall(fs, n, e) && e.target == n - 1 {
      }
      forall e ensures e in before.events <==> PrimaryCall(fs, n, e) && e.target < n - 1 {
        assert PrimaryCall(fs, n - 1, e) <==> PrimaryCall(fs, n, e) && e.target < n - 1;
      }
    }
  }

  /** Pass 1 visits the list in order. */
  lemma {:induction false} PrimaryPassOrdered(fs: seq<Flags>, n: nat)
    requires n <= |fs|
    ensures Ordered(PrimaryPass(fs, n).events)
  {
    if n > 0 {
      PrimaryPassOrdered(fs, n - 1);
      PrimaryPassMembers(fs, n - 1);
      var before := PrimaryPass(fs, n - 1);
      var step := PrimaryStep(fs[n - 1], n - 1, before.claimed);
      forall x, y | x in before.events && y in step.events ensures Precedes(x, y) {
        assert PrimaryCall(fs, n - 1, x);
      }
      OrderedAppend(before.events, step.events);
    }
  }

  /** Pass 2 adds to `start` exactly the groups that have a live mesh-sharing member. */
  lemma {:induction false} OthersPassClaimed(fs: seq<Flags>, n: nat, start: set<int>)
    requires n <= |fs|
    ensures forall g :: g in OthersPass(fs, n, start).claimed <==> g in start || HasLiveSharer(fs, n, g)
  {
    if n > 0 {
      OthersPassClaimed(fs, n - 1, start);
      var f := fs[n - 1];
      forall g ensures g in OthersPass(fs, n, start).claimed <==> g in start || HasLiveSharer(fs, n, g) {
        if HasLiveSharer(fs, n, g) && !HasLiveSharer(fs, n - 1, g) {
          assert LiveSharer(f) && f.groupId == g;
        }
      }
    }
  }

  /**
   * Pass 2 calls UpdateTransformScale on every live particle, and
   * UpdateRenderers on every live particle that does not share meshes and on
   * the first live sharer of each group not already claimed in `start`; it
   * makes no other call.
   */
  lemma {:induction false} OthersPassMembers(fs: seq<Flags>, n: nat, start: set<int>)
    requires n <= |fs|
    ensures forall e :: e in OthersPass(fs, n, start).events <==> OthersCall(fs, n, start, e)
  {
    if n > 0 {
      OthersPassMembers(fs, n - 1, start);
      OthersPassClaimed(fs, n - 1, start);
      var before := OthersPass(fs, n - 1, start);
      var f := fs[n - 1];
      var step := OthersStep(f, n - 1, before.claimed);
      if LiveSharer(f) {
        assert FirstLiveSharer(fs, n - 1) <==> !HasLiveSharer(fs, n - 1, f.groupId);
      }
      forall e ensures e in step.events <==> OthersCall(fs, n, start, e) && e.target == n - 1 {
      }
      forall e ensures e in before.events <==> OthersCall(fs, n, start, e) && e.target < n - 1 {
        assert OthersCall(fs, n - 1, start, e) <==> OthersCall(fs, n, start, e) && e.target < n - 1;
      }
    }
  }

  /** Pass 2 visits the list in order. */
  lemma {:induction false} OthersPassOrdered(fs: seq<Flags>, n: nat, start: set<int>)
    requires n <= |fs|
    ensures Ordered(OthersPass(fs, n, start).events)
  {
    if n > 0 {
      OthersPassOrdered(fs, n - 1, start);
      OthersPassMembers(fs, n - 1, start);
      var before := OthersPass(fs, n - 1, start);
      var step := OthersStep(fs[n - 1], n - 1, before.claimed);
      forall x, y | x in before.events && y in step.events ensures Precedes(x, y) {
        assert OthersCall(fs, n - 1, start, x);
      }
      OrderedAppend(before.events, step.events);
    }
  }

  /** Pass 3 over m attractors is one Attract per attractor, in list order, with no check. */
  lemma {:induction false} AttractPassExact(m: nat)
    ensures |AttractPass(m)| == m
    ensures forall j :: 0 <= j < m ==> AttractPass(m)[j] == Event(Attraction, Attract, j)
  {
    if m > 0 {
      AttractPassExact(m - 1);
    }
  }

  /** Pass 3 holds each attractor index below m exactly once and nothing else. */
  lemma {:induction false} AttractPassCounts(m: nat)
    ensures forall e :: multiset(AttractPass(m))[e] == if AttractCall(m, e) then 1 else 0
  {
    if m > 0 {
      AttractPassCounts(m - 1);
      assert AttractPass(m) == AttractPass(m - 1) + [Event(Attraction, Attract, m - 1)];
    }
  }

  /** Pass 4 calls UpdateParticleCount exactly on the live particles, in list order. */
  lemma {:induction false} CountPassSpec(fs: seq<Flags>, n: nat)
    requires n <= |fs|
    ensures forall e :: e in CountPass(fs, n) <==> CountCall(fs, n, e)
    ensures Ordered(CountPass(fs, n))
  {
    if n > 0 {
      CountPassSpec(fs, n - 1);
      var step := if !fs[n - 1].valid || !fs[n - 1].attached then [] else [Event(Bookkeeping, UpdateParticleCount, n - 1)];
      forall e ensures e in CountPass(fs, n - 1) <==> CountCall(fs, n, e) && e.target < n - 1 {
        assert CountCall(fs, n - 1, e) <==> CountCall(fs, n, e) && e.target < n - 1;
      }
      forall x, y | x in CountPass(fs, n - 1) && y in step ensures Precedes(x, y) {
      }
      OrderedAppend(CountPass(fs, n - 1), step);
    }
  }

  // ---------------------------------------------------------------------
  // The whole cycle
  // ---------------------------------------------------------------------

  /**
   * The complete list of calls of one cycle: the pass-1 calls, the pass-2
   * calls with the groups of live primaries already claimed, one Attract
   * per attractor, and the UpdateParticleCount calls; nothing else.
   */
  lemma CycleMembers(fs: seq<Flags>, m: nat)
    ensures forall e :: e in Cycle(fs, m) <==>
              PrimaryCall(fs, |fs|, e) ||
              OthersCall(fs, |fs|, PrimaryPass(fs, |fs|).claimed, e) ||
              AttractCall(m, e) ||
              CountCall(fs, |fs|, e)
  {
    var first := PrimaryPass(fs, |fs|);
    var others := OthersPass(fs, |fs|, first.claimed);
    PrimaryPassMembers(fs, |fs|);
    OthersPassMembers(fs, |fs|, first.claimed);
    AttractPassCounts(m);
    CountPassSpec(fs, |fs|);
    assert Cycle(fs, m) == first.events + others.events + AttractPass(m) + CountPass(fs, |fs|);
    forall e ensures e in AttractPass(m) <==> AttractCall(m, e) {
      assert e in AttractPass(m) <==> e in multiset(AttractPass(m));
    }
  }

  /**
   * The calls one cycle makes on a particle regardless of groups: a
   * destroyed or detached particle gets none; every live particle gets
   * UpdateTransformScale in pass 2 and UpdateParticleCount; a live particle
   * that does not share meshes always gets UpdateRenderers in pass 2.
   */
  lemma CycleLiveCalls(fs: seq<Flags>, m: nat)
    ensures forall e :: e in Cycle(fs, m) && e.pass != Attraction ==>
              e.target < |fs| && Live(fs[e.target])
    ensures forall i :: 0 <= i < |fs| ==>
              (Event(Others, UpdateTransformScale, i) in Cycle(fs, m) <==> Live(fs[i]))
    ensures forall i :: 0 <= i < |fs| ==>
              (Event(Bookkeeping, UpdateParticleCount, i) in Cycle(fs, m) <==> Live(fs[i]))
    ensures forall i :: 0 <= i < |fs| && Live(fs[i]) && !fs[i].useMeshSharing ==>
              Event(Others, UpdateRenderers, i) in Cycle(fs, m)
  {
    CycleMembers(fs, m);
  }

  /**
   * The render calls of one cycle: the first live primary of each group gets
   * UpdateRenderers in pass 1; a live sharer gets it in pass 2 only when it
   * is the first live sharer of a group that has no live primary.
   */
  lemma CycleRenderCalls(fs: seq<Flags>, m: nat)
    ensures forall i :: 0 <= i < |fs| ==>
              (Event(Primary, UpdateRenderers, i) in Cycle(fs, m) <==> ClaimsInPrimaryPass(fs, i))
    ensures forall i :: 0 <= i < |fs| && fs[i].useMeshSharing ==>
              (Event(Others, UpdateRenderers, i) in Cycle(fs, m) <==>
                 FirstLiveSharer(fs, i) && !HasLivePrimary(fs, |fs|, fs[i].groupId))
  {
    CycleMembers(fs, m);
    PrimaryPassClaimed(fs, |fs|);
  }

  /**
   * Deduplication: within one cycle at most one mesh-sharing particle of a
   * group gets UpdateRenderers, whichever pass makes the call.
   */
  lemma SharedRenderAtMostOnce(fs: seq<Flags>, m: nat, i: nat, j: nat)
    requires i < |fs| && j < |fs|
    requires fs[i].useMeshSharing && fs[j].useMeshSharing && fs[i].groupId == fs[j].groupId
    requires Rendered(Cycle(fs, m), i) && Rendered(Cycle(fs, m), j)
    ensures i == j
  {
    CycleRenderCalls(fs, m);
    var cyc := Cycle(fs, m);
    if Event(Primary, UpdateRenderers, i) in cyc {
      assert HasLivePrimary(fs, |fs|, fs[i].groupId);
    }
    if Event(Primary, UpdateRenderers, j) in cyc {
      assert HasLivePrimary(fs, |fs|, fs[j].groupId);
    }
  }

  /** The first index k <= i of a live primary in the group of fs[i]. */
  lemma {:induction false} FirstLivePrimaryExists(fs: seq<Flags>, i: nat)
    requires i < |fs| && LivePrimary(fs[i])
    ensures exists k :: 0 <= k <= i && fs[k].groupId == fs[i].groupId && ClaimsInPrimaryPass(fs, k)
  {
    if !ClaimsInPrimaryPass(fs, i) {
      var j :| 0 <= j < i && LivePrimary(fs[j]) && fs[j].groupId == fs[i].groupId;
      FirstLivePrimaryExists(fs, j);
    } else {
      assert 0 <= i <= i && ClaimsInPrimaryPass(fs, i);
    }
  }

  /** The first index k <= i of a live sharer in the group of fs[i]. */
  lemma {:induction false} FirstLiveSharerExists(fs: seq<Flags>, i: nat)
    requires i < |fs| && LiveSharer(fs[i])
    ensures exists k :: 0 <= k <= i && fs[k].groupId == fs[i].groupId && FirstLiveSharer(fs, k)
  {
    if !FirstLiveSharer(fs, i) {
      var j :| 0 <= j < i && LiveSharer(fs[j]) && fs[j].groupId == fs[i].groupId;
      FirstLiveSharerExists(fs, j);
    } else {
      assert 0 <= i <= i && FirstLiveSharer(fs, i);
    }
  }

  /**
   * Every group with a live mesh-sharing member gets its render work done in
   * the cycle: by its first live primary in pass 1 when it has one, and
   * otherwise by its first live sharer in pass 2.
   */
  lemma SharedGroupRendered(fs: seq<Flags>, m: nat, i: nat)
    requires i < |fs| && LiveSharer(fs[i])
    ensures HasLivePrimary(fs, |fs|, fs[i].groupId) ==>
              exists k :: 0 <= k < |fs| && fs[k].groupId == fs[i].groupId &&
                ClaimsInPrimaryPass(fs, k) && Event(Primary, UpdateRenderers, k) in Cycle(fs, m)
    ensures !HasLivePrimary(fs, |fs|, fs[i].groupId) ==>
              exists k :: 0 <= k < |fs| && fs[k].groupId == fs[i].groupId &&
                FirstLiveSharer(fs, k) && Event(Others, UpdateRenderers, k) in Cycle(fs, m)
  {
    CycleRenderCalls(fs, m);
    if HasLivePrimary(fs, |fs|, fs[i].groupId) {
      var j :| 0 <= j < |fs| && LivePrimary(fs[j]) && fs[j].groupId == fs[i].groupId;
      FirstLivePrimaryExists(fs, j);
    } else {
      FirstLiveSharerExists(fs, i);
    }
  }

  /**
   * Ordering: every pass-1 call precedes every pass-2 call, which precede
   * every Attract, which precede every UpdateParticleCount; within a pass the
   * entries are visited in list order, and an entry's UpdateTransformScale
   * comes before its UpdateRenderers.
   */
  lemma CycleOrdered(fs: seq<Flags>, m: nat)
    ensures Ordered(Cycle(fs, m))
  {
    var first := PrimaryPass(fs, |fs|);
    var others := OthersPass(fs, |fs|, first.claimed);
    var attracts := AttractPass(m);
    var counts := CountPass(fs, |fs|);
    PrimaryPassMembers(fs, |fs|);
    PrimaryPassOrdered(fs, |fs|);
    OthersPassMembers(fs, |fs|, first.claimed);
    OthersPassOrdered(fs, |fs|, first.claimed);
    CountPassSpec(fs, |fs|);
    AttractPassExact(m);
    assert forall y :: y in attracts ==> y.pass == Attraction;
    assert Ordered(attracts);
    OrderedAppend(first.events, others.events);
    forall x, y | x in first.events + others.events && y in attracts ensures Precedes(x, y) {
    }
    OrderedAppend(first.events + others.events, attracts);
    forall x, y | x in first.events + others.events + attracts && y in counts ensures Precedes(x, y) {
    }
    OrderedAppend(first.events + others.events + attracts, counts);
  }

  /**
   * Every attractor list entry gets exactly one Attract per cycle, and nothing
   * else gets one; an attractor registered twice is two entries.
   */
  lemma AttractEachOnce(fs: seq<Flags>, m: nat)
    ensures forall e: Event :: e.call == Attract ==>
              multiset(Cycle(fs, m))[e] == if e.pass == Attraction && e.target < m then 1 else 0
  {
    var first := PrimaryPass(fs, |fs|);
    var others := OthersPass(fs, |fs|, first.claimed);
    var counts := CountPass(fs, |fs|);
    PrimaryPassMembers(fs, |fs|);
    OthersPassMembers(fs, |fs|, first.claimed);
    CountPassSpec(fs, |fs|);
    AttractPassCounts(m);
    assert Cycle(fs, m) == first.events + others.events + AttractPass(m) + counts;
    forall e: Event | e.call == Attract
      ensures multiset(Cycle(fs, m))[e] == if e.pass == Attraction && e.target < m then 1 else 0
    {
      assert e !in first.events && e !in others.events && e !in counts;
      assert multiset(first.events)[e] == 0 && multiset(others.events)[e] == 0 && multiset(counts)[e] == 0;
    }
  }

  /** A strictly ordered list holds no event twice. */
  lemma {:induction false} OrderedOnce(evs: seq<Event>)
    requires Ordered(evs)
    ensures forall e :: multiset(evs)[e] <= 1
  {
    if evs != [] {
      var rest := evs[1..];
      assert evs == [evs[0]] + rest;
      assert Ordered(rest) by {
        forall a, b | 0 <= a < b < |rest| ensures Precedes(rest[a], rest[b]) {
          assert rest[a] == evs[a + 1] && rest[b] == evs[b + 1];
        }
      }
      OrderedOnce(rest);
      assert evs[0] !in rest by {
        forall k | 0 <= k < |rest| ensures rest[k] != evs[0] {
          assert Precedes(evs[0], evs[k + 1]);
        }
      }
    }
  }

  /**
   * No call is made twice on the same list entry in the same pass of a
   * cycle: each live entry gets UpdateTransformScale once in each pass that
   * calls it, and UpdateRenderers at most once per pass. A particle
   * registered twice is two entries and gets each of its calls twice.
   */
  lemma CycleCallsOnce(fs: seq<Flags>, m: nat)
    ensures forall e :: multiset(Cycle(fs, m))[e] <= 1
  {
    CycleOrdered(fs, m);
    OrderedOnce(Cycle(fs, m));
  }

  /**
   * A mesh-sharing particle gets UpdateRenderers at most once per cycle,
   * counting both passes together.
   */
  lemma SharedRenderCount(fs: seq<Flags>, m: nat, i: nat)
    requires i < |fs| && fs[i].useMeshSharing
    ensures multiset(Cycle(fs, m))[Event(Primary, UpdateRenderers, i)] +
            multiset(Cycle(fs, m))[Event(Others, UpdateRenderers, i)] <= 1
  {
    CycleCallsOnce(fs, m);
    CycleRenderCalls(fs, m);
    var cyc := Cycle(fs, m);
    if Event(Primary, UpdateRenderers, i) in cyc {
      assert HasLivePrimary(fs, |fs|, fs[i].groupId);
      assert Event(Others, UpdateRenderers, i) !in cyc;
    }
  }

  /**
   * Within a pass, a particle's UpdateTransformScale call comes before its
   * UpdateRenderers call.
   */
  lemma ScaleBeforeRender(fs: seq<Flags>, m: nat)
    ensures forall a, b ::
              (0 <= a < |Cycle(fs, m)| && 0 <= b < |Cycle(fs, m)| &&
               Cycle(fs, m)[a].call == UpdateTransformScale && Cycle(fs, m)[b].call == UpdateRenderers &&
               Cycle(fs, m)[a].pass == Cycle(fs, m)[b].pass && Cycle(fs, m)[a].target == Cycle(fs, m)[b].target)
              ==> a < b
  {
    CycleOrdered(fs, m);
  }
}
