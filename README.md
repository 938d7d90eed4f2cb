# UI particle updater — a verified model

This project models `UIParticleUpdater`, the process-wide scheduler of the
ParticleEffectForUGUI package, in Dafny. The updater keeps:

- a list of registered UI particles and a list of registered attractors;
- a set of group ids whose render work is already done in the current
  frame. Pass 1 claims the group of any live primary, whether or not it
  shares meshes; pass 2 claims the group of the first live sharer;
- the index of the last frame it refreshed.

Once per rendered frame, `Refresh` makes four passes over these lists:

1. The first live primary of each group updates it; later primaries of the
   same group get no pass-1 call.
2. Every live particle updates its transform scale; a primary that ran in
   pass 1 does so a second time. Render work runs once per mesh-sharing group not claimed in pass 1,
   and always for particles that do not share meshes.
3. Every attractor list entry gets Attract, so an attractor registered twice
   runs twice.
4. Every live particle updates its particle count.

Two read-only queries, `GetGroupedRenderers` and `GetPrimary`, serve the
mesh-sharing machinery.

The model has four modules:

- **Updater** (`updater.dfy`) holds the registry and the entities.
  - `UIParticleUpdater` is a class whose fields the methods update in place.
    The lists are `seq` fields, the claimed-group set is a `set<int>` field and
    the frame index is an `int`.
  - A particle is a class (`UIParticle`) with the flags the updater reads.
    Because it is a class, `List.Remove` compares references, and a refresh
    sees each particle's flags as they are at that moment.
  - `UIParticleCount()` is the `uiParticleCount` property.
  - The calls the updater makes on entities belong to the engine. Each one is
    recorded as an `Event` in a ghost `trace`. Each loop of `Refresh` is a
    method with a `for` loop, and that loop is proved against a pure
    description of its pass.
- **Schedule** (`schedule.dfy`) is the pure specification of one refresh
  cycle.
  - It works over a snapshot of the particles' flags (`seq<Flags>`) and the
    number of attractors.
  - For each pass it has a function, a call-by-call characterisation of that
    pass (`PrimaryCall`, `OthersCall`, `AttractCall`, `CountCall`), and lemmas
    connecting the two.
  - Events are ordered strictly: by pass, then by list position, then
    UpdateTransformScale before UpdateRenderers on the same list entry.
  - It also has the cycle-level properties: which particle gets which call,
    at most one render per shared group, every shared group rendered, no
    call made twice on the same list entry in the same pass, pass and call
    ordering, and one `Attract` per attractor
    list entry.
- **Groups** (`groups.dfy`) specifies the two queries: the indices of a
  group's members, and the choice of a group's primary.
- **Lists** (`lists.dfy`) models `List<T>.Remove`: it removes the first
  occurrence and does nothing when the element is absent.

Engine object lifetime is modelled as two flags:

- `valid`: the object still exists. This is the engine's overloaded
  `!uip`.
- `attached`: the particle has a canvas. This is `!uip.canvas`.

A particle is *live* when both flags hold.

`Refresh` takes the host's frame index as a parameter. The field starts at 0,
as a C# static does, so a refresh for frame 0 before any other refresh does
nothing.

## Model

| member | source | states |
|---|---|---|
| Updater.UIParticleUpdater.constructor | Scripts/UIParticleUpdater.cs:9-12 | The registry starts with both lists empty, no group claimed, frame index 0 and no calls made. |
| Updater.UIParticleUpdater.UIParticleCount | Scripts/UIParticleUpdater.cs:14 | The `uiParticleCount` property: the number of registered entries, destroyed ones included. How Register and Unregister change it is stated in their rows. |
| Updater.UIParticleUpdater.RegisterParticle | Scripts/UIParticleUpdater.cs:14-20 | A null or destroyed particle is ignored. Otherwise the particle is appended, duplicates included, and `uiParticleCount` grows by exactly one. No other state changes. |
| Updater.UIParticleUpdater.UnregisterParticle | Scripts/UIParticleUpdater.cs:22-26 | A null or destroyed particle is ignored. Otherwise its first registration is removed, and the count drops by one exactly when it was registered. No other state changes. |
| Updater.UIParticleUpdater.RegisterAttractor | Scripts/UIParticleUpdater.cs:28-32 | A null or destroyed attractor is ignored. Otherwise it is appended. No other state changes. |
| Updater.UIParticleUpdater.UnregisterAttractor | Scripts/UIParticleUpdater.cs:34-38 | A null or destroyed attractor is ignored. Otherwise its first registration is removed. No other state changes. |
| Updater.UIParticleUpdater.Refresh | Scripts/UIParticleUpdater.cs:50-99 | A second refresh for the frame last processed makes no call. Any other refresh records the frame and appends exactly one `Cycle` of calls over the flags the particles had on entry. The registry is unchanged and no group is left claimed. |
| Updater.UIParticleUpdater.RefreshPrimaries | Scripts/UIParticleUpdater.cs:57-65 | The pass-1 loop appends exactly the calls of `PrimaryPass` and leaves exactly its claimed groups in the set. |
| Updater.UIParticleUpdater.RefreshOthers | Scripts/UIParticleUpdater.cs:68-84 | The pass-2 loop, starting from the groups already claimed, appends exactly the calls of `OthersPass` and leaves exactly its claimed groups in the set. |
| Updater.UIParticleUpdater.RefreshAttractors | Scripts/UIParticleUpdater.cs:89 | The pass-3 loop appends exactly `AttractPass` over the registered attractors. |
| Updater.UIParticleUpdater.RefreshParticleCounts | Scripts/UIParticleUpdater.cs:92-98 | The pass-4 loop appends exactly `CountPass` over the registered particles. |
| Updater.UIParticleUpdater.GetGroupedRenderers | Scripts/UIParticleUpdater.cs:101-109 | The output list is replaced by the slot-`index` renderer of each registered mesh-sharing member of the group, one per member, in list order. |
| Updater.UIParticleUpdater.GetPrimary | Scripts/UIParticleUpdater.cs:111-123 | The result is the registered particle at `PrimaryIndex`, or null when that index does not exist. |
| Schedule.PrimaryPass | Scripts/UIParticleUpdater.cs:57-65 | The calls pass 1 makes over the first n particles and the groups it claims, step by step as the loop runs. The lemmas below characterise it. |
| Schedule.OthersPass | Scripts/UIParticleUpdater.cs:68-84 | The calls pass 2 makes over the first n particles, starting from a given claimed set, and the claimed set after them. The lemmas below characterise it. |
| Schedule.AttractPass | Scripts/UIParticleUpdater.cs:89 | The calls pass 3 makes over the first m attractor list entries. |
| Schedule.CountPass | Scripts/UIParticleUpdater.cs:92-98 | The calls pass 4 makes over the first n particles. |
| Schedule.Cycle | Scripts/UIParticleUpdater.cs:56-98 | One whole refresh: the four passes in order, with pass 2 starting from the groups pass 1 claimed. `CycleMembers` and the lemmas after it characterise it. |
| Schedule.PrimaryPassClaimed | Scripts/UIParticleUpdater.cs:57-65 | After pass 1, the claimed groups are exactly the groups that have a live primary. |
| Schedule.PrimaryPassMembers | Scripts/UIParticleUpdater.cs:57-65 | Pass 1 calls UpdateTransformScale and UpdateRenderers on the first live primary of each group, and makes no other call. |
| Schedule.PrimaryPassOrdered | Scripts/UIParticleUpdater.cs:57-65 | Pass 1 visits the particles in list order, and gives each one UpdateTransformScale before UpdateRenderers. |
| Schedule.OthersPassClaimed | Scripts/UIParticleUpdater.cs:68-84 | Pass 2 adds to the claimed set exactly the groups that have a live mesh-sharing member. |
| Schedule.OthersPassMembers | Scripts/UIParticleUpdater.cs:68-84 | Pass 2 calls UpdateTransformScale on every live particle. It calls UpdateRenderers on every live particle that does not share meshes, and on the first live sharer of each group not claimed before the pass. It makes no other call. |
| Schedule.OthersPassOrdered | Scripts/UIParticleUpdater.cs:68-84 | Pass 2 visits the particles in list order, and gives each one UpdateTransformScale before UpdateRenderers. |
| Schedule.AttractPassExact | Scripts/UIParticleUpdater.cs:89 | Pass 3 is one Attract per attractor, in list order, with no check. |
| Schedule.AttractPassCounts | Scripts/UIParticleUpdater.cs:89 | Pass 3 holds each attractor index exactly once and nothing else. |
| Schedule.CountPassSpec | Scripts/UIParticleUpdater.cs:92-98 | Pass 4 calls UpdateParticleCount on exactly the live particles, in list order. |
| Schedule.CycleMembers | Scripts/UIParticleUpdater.cs:56-98 | A cycle's calls are exactly the pass-1 calls, the pass-2 calls with the groups of live primaries already claimed, one Attract per attractor, and the UpdateParticleCount calls. |
| Schedule.CycleLiveCalls | Scripts/UIParticleUpdater.cs:68-98 | A destroyed or detached particle gets no call. Every live particle gets UpdateTransformScale in pass 2 and UpdateParticleCount. A live non-sharing particle always renders in pass 2. |
| Schedule.CycleRenderCalls | Scripts/UIParticleUpdater.cs:57-84 | A particle renders in pass 1 exactly when it is the first live primary of its group. A sharer renders in pass 2 exactly when it is its group's first live sharer and the group has no live primary. |
| Schedule.SharedRenderAtMostOnce | Scripts/UIParticleUpdater.cs:57-84 | Within one cycle, at most one mesh-sharing particle of a group gets UpdateRenderers, in either pass. |
| Schedule.SharedGroupRendered | Scripts/UIParticleUpdater.cs:57-84 | Every group with a live sharer has its render work done. If the group has a live primary, its first live primary does it in pass 1. Otherwise its first live sharer does it in pass 2. |
| Schedule.CycleOrdered | Scripts/UIParticleUpdater.cs:56-98 | All pass-1 calls come before all pass-2 calls, then all Attract calls, then all UpdateParticleCount calls. Within a pass the list entries are visited in list order, and an entry's UpdateTransformScale comes before its UpdateRenderers. |
| Schedule.AttractEachOnce | Scripts/UIParticleUpdater.cs:86-89 | Every attractor list entry gets exactly one Attract per cycle, and nothing else gets one. An attractor registered twice is two entries and gets two calls. |
| Schedule.OrderedOnce | Scripts/UIParticleUpdater.cs:56-98 | A strictly ordered list of calls holds no call twice. |
| Schedule.CycleCallsOnce | Scripts/UIParticleUpdater.cs:56-98 | No call is made twice on the same list entry in the same pass. So each live entry gets UpdateTransformScale once in pass 2, and once more in pass 1 when it is its group's first live primary. A particle registered twice is two entries and gets each of its calls twice. |
| Schedule.SharedRenderCount | Scripts/UIParticleUpdater.cs:57-84 | A mesh-sharing particle gets UpdateRenderers at most once per cycle, counting both passes together. |
| Schedule.ScaleBeforeRender | Scripts/UIParticleUpdater.cs:63-64 | Within a pass, a particle's UpdateTransformScale comes before its UpdateRenderers (also :73-82). |
| Groups.MatchingIndices | Scripts/UIParticleUpdater.cs:104-107 | Every listed index is a registered position. |
| Groups.MatchingIndicesSpec | Scripts/UIParticleUpdater.cs:104-107 | The indices are strictly increasing, so they are in list order with no repeats. A position is listed exactly when its particle shares meshes and is in the group. |
| Groups.FirstCandidate | Scripts/UIParticleUpdater.cs:114-118 | The result is the first position holding a candidate for the role, or none when no position does. |
| Groups.LastCandidate | Scripts/UIParticleUpdater.cs:119 | The result is the last position holding a candidate for the role, or none when no position does. |
| Groups.PrimaryIndex | Scripts/UIParticleUpdater.cs:111-123 | The choice rule of GetPrimary: the first member flagged primary, else the first member that can simulate and still exists, else the last member that can simulate, else none. |
| Groups.PrimaryIndexMember | Scripts/UIParticleUpdater.cs:111-123 | The choice is always a group member that is flagged primary or can simulate. There is no choice exactly when the group has no such member. |
| Groups.PrimaryIndexAllLive | Scripts/UIParticleUpdater.cs:111-123 | When every member that can simulate still exists, the choice is the first member flagged primary, else the first member that can simulate, else none. |
| Lists.IndexOf | Scripts/UIParticleUpdater.cs:25 | The result is the position of the first occurrence. |
| Lists.RemoveFirst | Scripts/UIParticleUpdater.cs:25 | An absent element leaves the list unchanged. Otherwise the list loses one element at the first occurrence: earlier elements keep their index and later ones move up by one. |
| Lists.RemoveFirstDropsOne | Scripts/UIParticleUpdater.cs:25 | Removing drops exactly one copy of the element and no other element. |
| Lists.RemoveAfterAppend | Scripts/UIParticleUpdater.cs:19 | Registering then unregistering an element that was not registered restores the list. If the element was already registered, the earlier copy is removed and the new copy stays last. |

## Left out

- InitializeOnLoad (Scripts/UIParticleUpdater.cs:40-48) is left out. It subscribes `Refresh` to the engine's canvas-render event, which is an engine callback. `Refresh` is modelled as an ordinary method.
- `Time.frameCount` is a clock, so it is the `frame` parameter of `Refresh`.
- The bodies of UpdateTransformScale, UpdateRenderers, Attract, UpdateParticleCount and GetRenderer are not part of this model. The first four are recorded as events. GetRenderer(index) is the value `Renderer(particle, index)`.
- Updater.UIParticleUpdater.Refresh: the model assumes that no call inside a cycle registers or unregisters anything, or changes a particle's flags. The cycle is stated over the flags on entry, so re-entrant changes to the lists during the passes are not modelled.
- Updater.UIParticleUpdater.Refresh: each loop of the source method is a separate method (RefreshPrimaries, RefreshOthers, RefreshAttractors, RefreshParticleCounts). `Refresh` calls them in the source's order.
- Updater.UIParticleUpdater.Refresh: exceptions thrown by the calls on particles and attractors are not modelled. In the program, a throwing UpdateTransformScale or UpdateRenderers (Scripts/UIParticleUpdater.cs:63-64, 73-82) ends the refresh after the frame is recorded (:54) and before the claimed set is cleared (:86). The next refresh then starts pass 1 with those groups still claimed, so their primaries and sharers skip render work for that frame. The model requires an empty claimed set on entry (`Valid()`). Without exceptions this holds after the constructor, the Register/Unregister methods, Refresh and the two queries.
- Updater.UIParticleUpdater.GetGroupedRenderers: a null `results` list, which throws at Scripts/UIParticleUpdater.cs:103, is not modelled. The parameter is a non-null `RendererList`.
- The two queries read flags without a liveness check, as the source does (Scripts/UIParticleUpdater.cs:107, 117). A null entry in the lists cannot occur in the model, because registration ignores null.
- Flags are independent in the model. In the wider package a primary particle also shares meshes. The model does not assume this, so a live primary that does not share meshes still claims its group in pass 1, as the source's pass 1 does.
- GetPrimary tests `!primary` with the engine's truthiness (null or destroyed). So a destroyed fallback is replaced by a later member that can simulate. This refines the plain reading "first member that can simulate". `Groups.PrimaryIndexAllLive` shows that the two agree when no such member is destroyed.
