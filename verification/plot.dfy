/**
 * A claimed plot: owner (absent for a server plot), an insertion-ordered
 * member list, a deny set, settings, merge partners and activity times.
 * The membership and deny operations update the plot in place and report
 * whether anything changed.
 */
module Plots {
  import opened Wrappers
  import opened PlotIds
  import opened Members

  /** Per-plot flags; every field has a default. */
  datatype PlotSettings = PlotSettings(
    pvp: bool,
    mobSpawning: bool,
    weather: bool,
    fixedTime: Option<int>,
    entryMessage: Option<string>,
    exitMessage: Option<string>,
    gameMode: Option<string>)

  /** `PlotSettings.default()`. */
  const DEFAULT_SETTINGS: PlotSettings := PlotSettings(false, false, true, None, None, None, None)

  // ---------------------------------------------------------------------
  // The member list
  // ---------------------------------------------------------------------

  /** Some entry of the list belongs to `u` (Kotlin `members.any { it.uuid == u }`). */
  predicate HasMember(ms: seq<PlotMember>, u: Uuid)
  {
    exists m :: m in ms && m.uuid == u
  }

  /** At most one entry per identity. */
  predicate UniqueUuids(ms: seq<PlotMember>)
  {
    forall i, j :: 0 <= i < j < |ms| ==> ms[i].uuid != ms[j].uuid
  }

  /** Kotlin `members.find { it.uuid == u }`: the first entry of `u`, if any. */
  function FindMember(ms: seq<PlotMember>, u: Uuid): (r: Option<PlotMember>)
    ensures r.None? <==> !HasMember(ms, u)
    ensures r.Some? ==> r.value in ms && r.value.uuid == u
    ensures r.Some? && UniqueUuids(ms) ==> forall m :: m in ms && m.uuid == u ==> m == r.value
  {
    if ms == [] then None
    else if ms[0].uuid == u then Some(ms[0])
    else
      assert forall m :: m in ms[1..] ==> m in ms;
      assert forall m :: m in ms && m.uuid == u ==> m in ms[1..];
      FindMember(ms[1..], u)
  }

  /** Kotlin `members.removeIf { it.uuid == u }`: the list without `u`'s entries, order kept. */
  function WithoutUuid(ms: seq<PlotMember>, u: Uuid): (r: seq<PlotMember>)
    ensures forall m :: m in r <==> m in ms && m.uuid != u
    ensures |r| == |ms| <==> !HasMember(ms, u)
    ensures !HasMember(ms, u) ==> r == ms
    ensures |r| <= |ms|
    ensures UniqueUuids(ms) ==> UniqueUuids(r)
  {
    if ms == [] then []
    else
      var rest := WithoutUuid(ms[1..], u);
      WithoutUuidStep(ms, u, rest);
      if ms[0].uuid == u then rest else [ms[0]] + rest
  }

  /** One step of `WithoutUuid`: dropping or keeping the head carries its properties from the tail to the list. */
  lemma WithoutUuidStep(ms: seq<PlotMember>, u: Uuid, rest: seq<PlotMember>)
    requires ms != []
    requires forall m :: m in rest <==> m in ms[1..] && m.uuid != u
    requires |rest| == |ms| - 1 <==> !HasMember(ms[1..], u)
    requires !HasMember(ms[1..], u) ==> rest == ms[1..]
    requires |rest| <= |ms| - 1
    requires UniqueUuids(ms[1..]) ==> UniqueUuids(rest)
    ensures var r := if ms[0].uuid == u then rest else [ms[0]] + rest;
      && (forall m :: m in r <==> m in ms && m.uuid != u)
      && (|r| == |ms| <==> !HasMember(ms, u))
      && (!HasMember(ms, u) ==> r == ms)
      && |r| <= |ms|
      && (UniqueUuids(ms) ==> UniqueUuids(r))
  {
    assert forall m :: m in ms <==> m == ms[0] || m in ms[1..];
    assert ms == [ms[0]] + ms[1..];
  }

  /** What the repository stores for a plot (the home position is not modelled). */
  datatype PlotRecord = PlotRecord(
    id: PlotId,
    owner: Option<Uuid>,
    members: seq<PlotMember>,
    denied: set<Uuid>,
    settings: PlotSettings,
    alias: Option<string>,
    mergedWith: set<PlotId>,
    createdAt: int,
    lastActivity: int)

  class Plot {
    const id: PlotId
    var owner: Option<Uuid>
    var members: seq<PlotMember>
    var denied: set<Uuid>
    var settings: PlotSettings
    var alias: Option<string>
    var mergedWith: set<PlotId>
    const createdAt: int
    var lastActivity: int

    /** A fresh plot with default settings and no members, denials or merges. */
    constructor (id: PlotId, owner: Option<Uuid>, now: int)
      ensures this.id == id && this.owner == owner
      ensures members == [] && denied == {} && mergedWith == {}
      ensures settings == DEFAULT_SETTINGS && alias == None
      ensures createdAt == now && lastActivity == now
    {
      this.id := id;
      this.owner := owner;
      members := [];
      denied := {};
      settings := DEFAULT_SETTINGS;
      alias := None;
      mergedWith := {};
      createdAt := now;
      lastActivity := now;
    }

    /** The state the repository persists for this plot. */
    function Snapshot(): PlotRecord
      reads this
    {
      PlotRecord(id, owner, members, denied, settings, alias, mergedWith, createdAt, lastActivity)
    }

    predicate IsOwner(u: Uuid)
      reads this
    {
      owner == Some(u)
    }

    /** `members.any`: some entry has the uuid, which is exactly when `getMember` finds one. */
    predicate IsMember(u: Uuid)
      reads this
    {
      HasMember(members, u)
    }

    /** `members.find`: an entry of the list with the uuid, none exactly when no entry has it. */
    function GetMember(u: Uuid): Option<PlotMember>
      reads this
    {
      FindMember(members, u)
    }

    /** `isMember` (`members.any`) holds exactly when `getMember` (`members.find`) finds an entry, which carries the uuid. */
    lemma MemberLookupAgrees(u: Uuid)
      ensures IsMember(u) <==> GetMember(u).Some?
      ensures GetMember(u).Some? ==> GetMember(u).value in members && GetMember(u).value.uuid == u
    {
    }

    /** A server plot has no player owner, so nobody is its owner. */
    predicate IsAdminPlot()
      reads this
      ensures IsAdminPlot() ==> forall u :: !IsOwner(u)
      ensures !IsAdminPlot() ==> IsOwner(owner.value)
    {
      owner == None
    }

    predicate IsDenied(u: Uuid)
      reads this
    {
      u in denied
    }

    /**
     * The owner may build; anyone else exactly when a member entry of theirs
     * grants build access (with one entry per identity, any entry decides).
     */
    predicate CanBuild(u: Uuid)
      reads this
      ensures IsOwner(u) ==> CanBuild(u)
      ensures !IsOwner(u) && CanBuild(u) ==> exists m :: m in members && m.uuid == u && m.trustLevel != Visitor
      ensures UniqueUuids(members) ==>
        (CanBuild(u) <==> IsOwner(u) || exists m :: m in members && m.uuid == u && m.trustLevel != Visitor)
    {
      if IsOwner(u) then true
      else
        var m := GetMember(u);
        m.Some? && m.value.CanBuild()
    }

    /** The owner may use containers; anyone else only as a Trusted member. */
    predicate CanUseContainers(u: Uuid)
      reads this
      ensures CanUseContainers(u) ==> CanBuild(u)
      ensures !IsOwner(u) && CanUseContainers(u) ==> exists m :: m in members && m.uuid == u && m.trustLevel == Trusted
      ensures UniqueUuids(members) ==>
        (CanUseContainers(u) <==> IsOwner(u) || exists m :: m in members && m.uuid == u && m.trustLevel == Trusted)
    {
      if IsOwner(u) then true
      else
        var m := GetMember(u);
        m.Some? && m.value.CanUseContainers()
    }

    /** This plot together with the plots merged into it. */
    function EffectivePlots(): (r: set<PlotId>)
      reads this
      ensures id in r && mergedWith <= r
      ensures forall p :: p in r ==> p == id || p in mergedWith
    {
      {id} + mergedWith
    }

    /** Records activity at time `now`. */
    method Touch(now: int)
      modifies this`lastActivity
      ensures lastActivity == now
    {
      lastActivity := now;
    }

    /**
     * Adds `u` at `trustLevel` unless `u` already has an entry or owns the
     * plot. The deny set is not consulted.
     */
    method AddMember(u: Uuid, trustLevel: TrustLevel, now: int) returns (added: bool)
      modifies this
      ensures added <==> !old(IsMember(u)) && !old(IsOwner(u))
      ensures added ==> members == old(members) + [PlotMember(u, trustLevel, now)] && lastActivity == now
      ensures !added ==> members == old(members) && lastActivity == old(lastActivity)
      ensures old(UniqueUuids(members)) ==> UniqueUuids(members)
      ensures IsMember(u) || IsOwner(u)
      ensures owner == old(owner) && denied == old(denied) && settings == old(settings)
      ensures alias == old(alias) && mergedWith == old(mergedWith)
    {
      if IsMember(u) || IsOwner(u) {
        return false;
      }
      members := members + [PlotMember(u, trustLevel, now)];
      Touch(now);
      added := true;
    }

    /** Removes every entry of `u`; reports whether there was one. */
    method RemoveMember(u: Uuid, now: int) returns (removed: bool)
      modifies this
      ensures removed <==> old(IsMember(u))
      ensures members == WithoutUuid(old(members), u) && !IsMember(u)
      ensures !removed ==> members == old(members)
      ensures lastActivity == if removed then now else old(lastActivity)
      ensures old(UniqueUuids(members)) ==> UniqueUuids(members)
      ensures owner == old(owner) && denied == old(denied) && settings == old(settings)
      ensures alias == old(alias) && mergedWith == old(mergedWith)
    {
      var before := members;
      members := WithoutUuid(members, u);
      removed := |members| != |before|;
      if removed {
        Touch(now);
      }
    }

    /** Denies `u` and evicts any membership of `u`, unless `u` is already denied. */
    method DenyPlayer(u: Uuid, now: int) returns (changed: bool)
      modifies this
      ensures changed <==> !old(IsDenied(u))
      ensures changed ==> denied == old(denied) + {u} && members == WithoutUuid(old(members), u) && lastActivity == now
      ensures !changed ==> denied == old(denied) && members == old(members) && lastActivity == old(lastActivity)
      ensures changed ==> IsDenied(u) && !IsMember(u)
      ensures old(UniqueUuids(members)) ==> UniqueUuids(members)
      ensures owner == old(owner) && settings == old(settings)
      ensures alias == old(alias) && mergedWith == old(mergedWith)
    {
      if IsDenied(u) {
        return false;
      }
      denied := denied + {u};
      members := WithoutUuid(members, u);
      Touch(now);
      changed := true;
    }

    /** Lifts a denial of `u`; reports whether there was one. Members are untouched. */
    method UndenyPlayer(u: Uuid, now: int) returns (changed: bool)
      modifies this
      ensures changed <==> old(IsDenied(u))
      ensures denied == old(denied) - {u} && !IsDenied(u)
      ensures members == old(members)
      ensures lastActivity == if changed then now else old(lastActivity)
      ensures owner == old(owner) && settings == old(settings)
      ensures alias == old(alias) && mergedWith == old(mergedWith)
    {
      changed := u in denied;
      denied := denied - {u};
      if changed {
        Touch(now);
      }
    }
  }

  /**
   * Adding a member does not look at the deny set: a denied identity that is
   * neither owner nor member becomes a member and stays denied.
   */
  method AddMemberIgnoresDenyList(u: Uuid, owner: Uuid, now: int) returns (plot: Plot)
    requires u != owner
    ensures plot.IsDenied(u) && plot.IsMember(u) && plot.CanBuild(u)
  {
    plot := new Plot(PlotId(0, 0), Some(owner), now);
    var denied := plot.DenyPlayer(u, now);
    var added := plot.AddMember(u, Helper, now);
  }
}
