/**
 * The UI particle updater: a process-wide registry of particles and
 * attractors and the once-per-frame refresh that schedules their work.
 *
 * The calls the updater makes on entities (UpdateTransformScale,
 * UpdateRenderers, Attract, UpdateParticleCount) are foreign; each is recorded
 * as an event appended to the ghost `trace`, so a refresh is specified by the
 * events it appends (module Schedule).
 */
module Updater {
  import opened Schedule
  import opened Groups
  import opened Lists

  /**
   * A UI particle component as the updater sees it. The engine and the
   * component's owner set these fields; the updater only reads them.
   */
  class UIParticle {
    var valid: bool            // false once the engine object is destroyed
    var attached: bool         // the component currently has a canvas
    var groupId: int
    var isPrimary: bool
    var useMeshSharing: bool
    var canSimulate: bool

    function Current(): Flags
      reads this
    {
      Flags(valid, attached, groupId, isPrimary, useMeshSharing, canSimulate)
    }
  }

  /** An attractor component; its Attract call is foreign. */
  class UIParticleAttractor {
    var valid: bool            // false once the engine object is destroyed
  }

  /** What GetRenderer(index) of a particle hands back: that particle's renderer in that slot. */
  datatype Renderer = Renderer(owner: UIParticle, slot: int)

  /** A caller-owned output list of renderers. */
  class RendererList {
    var items: seq<Renderer>

    constructor ()
      ensures items == []
    {
      items := [];
    }
  }

  /** The flags of the registered particles, as they are now. */
  function Snapshot(ps: seq<UIParticle>): (fs: seq<Flags>)
    reads ps
    ensures |fs| == |ps|
    ensures forall i :: 0 <= i < |ps| ==> fs[i] == ps[i].Current()
  {
    if ps == [] then [] else Snapshot(ps[..|ps| - 1]) + [ps[|ps| - 1].Current()]
  }

  lemma AppendAssociates<T>(s: seq<T>, a: seq<T>, b: seq<T>, c: seq<T>, d: seq<T>)
    ensures s + a + b + c + d == s + (a + b + c + d)
  {
  }

  class UIParticleUpdater {
    var particles: seq<UIParticle>
    var attractors: seq<UIParticleAttractor>
    /** Groups whose shared render work is done in the current cycle. */
    var updatedGroupIds: set<int>
    /** The last frame index a refresh ran for. */
    var frameCount: int
    /** Every foreign call made by refreshes so far, in order. */
    ghost var trace: seq<Event>

    /** Between refreshes no group is marked as updated. */
    ghost predicate Valid()
      reads this
    {
      updatedGroupIds == {}
    }

    constructor ()
      ensures Valid()
      ensures particles == [] && attractors == [] && frameCount == 0 && trace == []
    {
      particles := [];
      attractors := [];
      updatedGroupIds := {};
      frameCount := 0;
      trace := [];
    }

    /** The number of registered particles, whether or not they are still live. */
    function UIParticleCount(): nat
      reads this
    {
      |particles|
    }

    /** Appends a live particle; a null or destroyed one is ignored. Duplicates are kept. */
    method RegisterParticle(particle: UIParticle?)
      modifies this
      ensures particles == if particle == null || !particle.valid then old(particles)
                           else old(particles) + [particle]
      ensures UIParticleCount() == old(UIParticleCount()) + (if particle == null || !particle.valid then 0 else 1)
      ensures attractors == old(attractors) && updatedGroupIds == old(updatedGroupIds)
      ensures frameCount == old(frameCount) && trace == old(trace)
    {
      if particle == null || !particle.valid {
        return;
      }
      particles := particles + [particle];
    }

    /** Removes the first registration of a live particle; a null or destroyed one is ignored. */
    method UnregisterParticle(particle: UIParticle?)
      modifies this
      ensures particles == if particle == null || !particle.valid then old(particles)
                           else RemoveFirst(old(particles), particle)
      ensures UIParticleCount() == old(UIParticleCount()) -
                (if particle != null && particle.valid && particle in old(particles) then 1 else 0)
      ensures attractors == old(attractors) && updatedGroupIds == old(updatedGroupIds)
      ensures frameCount == old(frameCount) && trace == old(trace)
    {
      if particle == null || !particle.valid {
        return;
      }
      particles := RemoveFirst(particles, particle);
    }

    /** Appends a live attractor; a null or destroyed one is ignored. Duplicates are kept. */
    method RegisterAttractor(attractor: UIParticleAttractor?)
      modifies this
      ensures attractors == if attractor == null || !attractor.valid then old(attractors)
                            else old(attractors) + [attractor]
      ensures particles == old(particles) && updatedGroupIds == old(updatedGroupIds)
      ensures frameCount == old(frameCount) && trace == old(trace)
    {
      if attractor == null || !attractor.valid {
        return;
      }
      attractors := attractors + [attractor];
    }

    /** Removes the first registration of a live attractor; a null or destroyed one is ignored. */
    method UnregisterAttractor(attractor: UIParticleAttractor?)
      modifies this
      ensures attractors == if attractor == null || !attractor.valid then old(attractors)
                            else RemoveFirst(old(attractors), attractor)
      ensures particles == old(particles) && updatedGroupIds == old(updatedGroupIds)
      ensures frameCount == old(frameCount) && trace == old(trace)
    {
      if attractor == null || !attractor.valid {
        return;
      }
      attractors := RemoveFirst(attractors, attractor);
    }

    /**
     * The per-frame refresh, given the host's current frame index. A second
     * call for the frame last processed does nothing at all; otherwise the
     * frame is recorded and one whole cycle of calls is made, after which no
     * group is marked as updated.
     */
    method Refresh(frame: int)
      requires Valid()
      modifies this`frameCount, this`trace, this`updatedGroupIds
      ensures Valid()
      ensures particles == old(particles) && attractors == old(attractors)
      ensures frameCount == frame
      ensures trace == old(trace) + (if frame == old(frameCount) then []
                                     else Cycle(old(Snapshot(particles)), |attractors|))
    {
      ghost var fs := Snapshot(particles);
      if frameCount == frame {
        return;
      }
      frameCount := frame;
      assert Snapshot(particles) == fs;

      ghost var start := trace;
      ghost var first := PrimaryPass(fs, |fs|);
      ghost var others := OthersPass(fs, |fs|, first.claimed);
      ghost var attracts := AttractPass(|attractors|);
      ghost var counts := CountPass(fs, |fs|);
      assert Cycle(fs, |attractors|) == first.events + others.events + attracts + counts;

      RefreshPrimaries();
      assert trace == start + first.events && updatedGroupIds == first.claimed;
      RefreshOthers();
      assert trace == start + first.events + others.events;
      updatedGroupIds := {};
      assert Snapshot(particles) == fs;
      RefreshAttractors();
      assert trace == start + first.events + others.events + attracts;
      RefreshParticleCounts();
      assert trace == start + first.events + others.events + attracts + counts;
      AppendAssociates(start, first.events, others.events, attracts, counts);
    }

    /** Pass 1 of Refresh: each live primary claims its group unless an earlier one did. */
    method RefreshPrimaries()
      requires updatedGroupIds == {}
      modifies this`trace, this`updatedGroupIds
      ensures trace == old(trace) + PrimaryPass(old(Snapshot(particles)), |particles|).events
      ensures updatedGroupIds == PrimaryPass(old(Snapshot(particles)), |particles|).claimed
      ensures Snapshot(particles) == old(Snapshot(particles))
    {
      ghost var fs := Snapshot(particles);
      ghost var start := trace;
      for i := 0 to |particles|
        invariant trace == start + PrimaryPass(fs, i).events
        invariant updatedGroupIds == PrimaryPass(fs, i).claimed
      {
        var uip := particles[i];
        if !uip.valid || !uip.attached || !uip.isPrimary || uip.groupId in updatedGroupIds {
          continue;
        }
        updatedGroupIds := updatedGroupIds + {uip.groupId};
        trace := trace + [Event(Primary, UpdateTransformScale, i)];
        trace := trace + [Event(Primary, UpdateRenderers, i)];
      }
    }

    /**
     * Pass 2 of Refresh: every live particle, with the shared render work
     * done once per group not claimed yet.
     */
    method RefreshOthers()
      modifies this`trace, this`updatedGroupIds
      ensures trace == old(trace) + OthersPass(old(Snapshot(particles)), |particles|, old(updatedGroupIds)).events
      ensures updatedGroupIds == OthersPass(old(Snapshot(particles)), |particles|, old(updatedGroupIds)).claimed
      ensures Snapshot(particles) == old(Snapshot(particles))
    {
      ghost var fs := Snapshot(particles);
      ghost var start := trace;
      ghost var claimed := updatedGroupIds;
      for i := 0 to |particles|
        invariant trace == start + OthersPass(fs, i, claimed).events
        invariant updatedGroupIds == OthersPass(fs, i, claimed).claimed
      {
        var uip := particles[i];
        if !uip.valid || !uip.attached {
          continue;
        }
        trace := trace + [Event(Others, UpdateTransformScale, i)];
        if !uip.useMeshSharing {
          trace := trace + [Event(Others, UpdateRenderers, i)];
        } else if uip.groupId !in updatedGroupIds {
          updatedGroupIds := updatedGroupIds + {uip.groupId};
          trace := trace + [Event(Others, UpdateRenderers, i)];
        }
      }
    }

    /** Pass 3 of Refresh: Attract on every registered attractor, with no check. */
    method RefreshAttractors()
      modifies this`trace
      ensures trace == old(trace) + AttractPass(|attractors|)
      ensures Snapshot(particles) == old(Snapshot(particles))
    {
      ghost var start := trace;
      for j := 0 to |attractors|
        invariant trace == start + AttractPass(j)
      {
        trace := trace + [Event(Attraction, Attract, j)];
      }
    }

    /** Pass 4 of Refresh: UpdateParticleCount on every live particle. */
    method RefreshParticleCounts()
      modifies this`trace
      ensures trace == old(trace) + CountPass(old(Snapshot(particles)), |particles|)
    {
      ghost var fs := Snapshot(particles);
      ghost var start := trace;
      for i := 0 to |particles|
        invariant trace == start + CountPass(fs, i)
      {
        var uip := particles[i];
        if !uip.valid || !uip.attached {
          continue;
        }
        trace := trace + [Event(Bookkeeping, UpdateParticleCount, i)];
      }
    }

    /**
     * Replaces the contents of `results` with the renderer in slot `index` of
     * every registered mesh-sharing particle of group `groupId`, one per
     * particle, in list order.
     */
    method GetGroupedRenderers(groupId: int, index: int, results: RendererList)
      modifies results
      ensures var idx := MatchingIndices(Snapshot(particles), groupId, |particles|);
              |results.items| == |idx| &&
              forall k :: 0 <= k < |idx| ==> results.items[k] == Renderer(particles[idx[k]], index)
    {
      ghost var fs := Snapshot(particles);
      results.items := [];
      for i := 0 to |particles|
        invariant var idx := MatchingIndices(fs, groupId, i);
                  |results.items| == |idx| &&
                  forall k :: 0 <= k < |idx| ==> results.items[k] == Renderer(particles[idx[k]], index)
      {
        var uip := particles[i];
        if uip.useMeshSharing && uip.groupId == groupId {
          results.items := results.items + [Renderer(uip, index)];
        }
      }
    }

    /**
     * The particle that drives mesh-sharing group `groupId`: the first member
     * flagged primary, wherever it stands in the list; failing that the
     * member that can simulate kept by the accumulator (see PrimaryIndex);
     * failing that null. Entries are read without a liveness check.
     */
    method GetPrimary(groupId: int) returns (primary: UIParticle?)
      ensures match PrimaryIndex(Snapshot(particles), groupId)
              case Some(k) => k < |particles| && primary == particles[k]
              case None => primary == null
    {
      ghost var fs := Snapshot(particles);
      ghost var chosen: nat := 0;
      primary := null;
      for i := 0 to |particles|
        invariant forall j :: 0 <= j < i ==> !Candidate(fs[j], groupId, Flagged)
        invariant primary == null ==> forall j :: 0 <= j < i ==> !Candidate(fs[j], groupId, Fallback)
        invariant primary != null ==>
                    chosen < i && primary == particles[chosen] && Candidate(fs[chosen], groupId, Fallback)
        invariant primary != null && primary.valid ==>
                    forall j :: 0 <= j < chosen ==> !Candidate(fs[j], groupId, LiveFallback)
        invariant primary != null && !primary.valid ==>
                    (forall j :: 0 <= j < i ==> !Candidate(fs[j], groupId, LiveFallback)) &&
                    forall j :: chosen < j < i ==> !Candidate(fs[j], groupId, Fallback)
      {
        var uip := particles[i];
        if !uip.useMeshSharing || uip.groupId != groupId {
          continue;
        }
        if uip.isPrimary {
          assert Candidate(fs[i], groupId, Flagged);
          assert FirstCandidate(fs, groupId, Flagged) == Some(i);
          return uip;
        }
        // `!primary` is the engine's truthiness: null or destroyed.
        if (primary == null || !primary.valid) && uip.canSimulate {
          primary := uip;
          chosen := i;
        }
      }
      assert FirstCandidate(fs, groupId, Flagged).None?;
      if primary != null && primary.valid {
        assert Candidate(fs[chosen], groupId, LiveFallback);
        assert FirstCandidate(fs, groupId, LiveFallback) == Some(chosen);
      } else if primary != null {
        assert FirstCandidate(fs, groupId, LiveFallback).None?;
        assert LastCandidate(fs, groupId, Fallback) == Some(chosen);
      }
    }
  }
}
