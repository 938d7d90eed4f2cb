/**
 * Specifications for the two read-only group queries of the updater:
 * collecting the renderers of a mesh-sharing group and picking the particle
 * that drives a group.
 */
module Groups {
  import opened Schedule

  datatype Option<T> = None | Some(value: T)

  /** The membership test both queries use: shares meshes and is in group g. */
  predicate InSharingGroup(f: Flags, g: int)
  {
    f.useMeshSharing && f.groupId == g
  }

  /** The indices of the particles among the first n that are members of sharing group g. */
  function MatchingIndices(fs: seq<Flags>, g: int, n: nat): (idx: seq<nat>)
    requires n <= |fs|
    ensures forall k :: 0 <= k < |idx| ==> idx[k] < n
  {
    if n == 0 then []
    else MatchingIndices(fs, g, n - 1) + (if InSharingGroup(fs[n - 1], g) then [n - 1] else [])
  }

  /**
   * MatchingIndices lists every member of the group among the first n
   * particles exactly once (strictly increasing, so in list order and without
   * repeats) and lists nothing else.
   */
  lemma {:induction false} MatchingIndicesSpec(fs: seq<Flags>, g: int, n: nat)
    requires n <= |fs|
    ensures forall a, b :: 0 <= a < b < |MatchingIndices(fs, g, n)| ==>
              MatchingIndices(fs, g, n)[a] < MatchingIndices(fs, g, n)[b]
    ensures forall i :: 0 <= i < n ==> (i in MatchingIndices(fs, g, n) <==> InSharingGroup(fs[i], g))
  {
    if n > 0 {
      MatchingIndicesSpec(fs, g, n - 1);
    }
  }

  /**
   * Which particle GetPrimary is looking for: a member flagged primary, a
   * member that can simulate, or one that can simulate and still exists.
   */
  datatype Role = Flagged | Fallback | LiveFallback

  predicate Candidate(f: Flags, g: int, role: Role)
  {
    InSharingGroup(f, g) && match role
      case Flagged => f.isPrimary
      case Fallback => f.canSimulate
      case LiveFallback => f.canSimulate && f.valid
  }

  /** The index of the first candidate for the role in list order, if there is one. */
  function FirstCandidate(fs: seq<Flags>, g: int, role: Role): (r: Option<nat>)
    ensures r.Some? ==>
              r.value < |fs| && Candidate(fs[r.value], g, role) &&
              forall j :: 0 <= j < r.value ==> !Candidate(fs[j], g, role)
    ensures r.None? ==> forall j :: 0 <= j < |fs| ==> !Candidate(fs[j], g, role)
  {
    if fs == [] then None
    else if Candidate(fs[0], g, role) then Some(0)
    else
      match FirstCandidate(fs[1..], g, role)
      case None => None
      case Some(k) => Some(k + 1)
  }

  /** The index of the last candidate for the role in list order, if there is one. */
  function LastCandidate(fs: seq<Flags>, g: int, role: Role): (r: Option<nat>)
    ensures r.Some? ==>
              r.value < |fs| && Candidate(fs[r.value], g, role) &&
              forall j :: r.value < j < |fs| ==> !Candidate(fs[j], g, role)
    ensures r.None? ==> forall j :: 0 <= j < |fs| ==> !Candidate(fs[j], g, role)
  {
    if fs == [] then None
    else if Candidate(fs[|fs| - 1], g, role) then Some(|fs| - 1)
    else LastCandidate(fs[..|fs| - 1], g, role)
  }

  /**
   * The index GetPrimary answers with. A member flagged primary wins
   * wherever it stands in the list. Otherwise the fallback is kept only
   * while it still exists: a destroyed fallback tests as absent, so a later
   * member that can simulate replaces it. The answer is then the first
   * member that can simulate and still exists, else the last member that can
   * simulate (a destroyed one), else none.
   */
  function PrimaryIndex(fs: seq<Flags>, g: int): Option<nat>
  {
    match FirstCandidate(fs, g, Flagged)
    case Some(k) => Some(k)
    case None =>
      match FirstCandidate(fs, g, LiveFallback)
      case Some(k) => Some(k)
      case None => LastCandidate(fs, g, Fallback)
  }

  /**
   * The choice is always a member of the group that is flagged primary or
   * can simulate, and there is no choice only when the group has no such
   * member.
   */
  lemma PrimaryIndexMember(fs: seq<Flags>, g: int)
    ensures PrimaryIndex(fs, g).Some? ==>
              PrimaryIndex(fs, g).value < |fs| &&
              (Candidate(fs[PrimaryIndex(fs, g).value], g, Flagged) ||
               Candidate(fs[PrimaryIndex(fs, g).value], g, Fallback))
    ensures PrimaryIndex(fs, g).None? <==>
              forall j :: 0 <= j < |fs| ==> !Candidate(fs[j], g, Flagged) && !Candidate(fs[j], g, Fallback)
  {
  }

  /**
   * When every member of the group that can simulate still exists, the
   * choice is the first member flagged primary, else the first member that
   * can simulate, else none.
   */
  lemma PrimaryIndexAllLive(fs: seq<Flags>, g: int)
    requires forall j :: 0 <= j < |fs| && Candidate(fs[j], g, Fallback) ==> fs[j].valid
    ensures PrimaryIndex(fs, g) ==
              if FirstCandidate(fs, g, Flagged).Some? then FirstCandidate(fs, g, Flagged)
              else FirstCandidate(fs, g, Fallback)
  {
  }
}
