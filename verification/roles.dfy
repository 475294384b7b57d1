/**
 * `updateRankingRoles`: after a DPS update the bot strips the four rank
 * roles from every cached guild member, then grants `TOP 1`, `TOP 2` and
 * `TOP 3` to the members at ranking positions 0, 1 and 2, and `TOP 10` to
 * every member among the first ten. The guild is reduced to its member
 * cache (member id to role names) and the names of its cached roles.
 *
 * Each role call is fire-and-forget and its error is swallowed; the model
 * lets any of them fail, and a failed call changes nothing.
 */
module Roles {
  import opened Ranking
  import opened Store

  type RoleName = string

  const Top1Role: RoleName := "TOP 1"
  const Top2Role: RoleName := "TOP 2"
  const Top3Role: RoleName := "TOP 3"
  const Top10Role: RoleName := "TOP 10"

  const RankRoles: set<RoleName> := {Top1Role, Top2Role, Top3Role, Top10Role}

  /** `guild.members.cache`: each cached member with the names of the roles it holds. */
  type MemberRoles = map<UserId, set<RoleName>>

  /** One call to the role API: the reset of one member, or one grant. */
  datatype RoleOp = RemoveRankRoles(member: UserId) | AddRole(member: UserId, role: RoleName)

  /** All four rank roles are found by name in `guild.roles.cache`. */
  predicate RankRolesExist(guildRoles: set<RoleName>)
  {
    RankRoles <= guildRoles
  }

  /** `if (top1)`: the pick is present and, being a string, not empty. */
  predicate Truthy(pick: Option<UserId>)
  {
    pick.Some? && pick.value != ""
  }

  /** `member.roles.remove([role1, role2, role3, role10])` for every cached member. */
  function ResetAll(cache: MemberRoles, failing: set<RoleOp>): (r: MemberRoles)
    ensures r.Keys == cache.Keys
  {
    map m | m in cache :: if RemoveRankRoles(m) in failing then cache[m] else cache[m] - RankRoles
  }

  /** `guild.members.cache.get(id)?.roles.add(role)`: a no-op for an id not in the cache. */
  function Grant(cache: MemberRoles, id: UserId, role: RoleName, failing: set<RoleOp>): (r: MemberRoles)
    ensures r.Keys == cache.Keys
  {
    if id in cache && AddRole(id, role) !in failing then cache[id := cache[id] + {role}] else cache
  }

  /** `if (top1) ...add(role1)`. */
  function GrantPick(cache: MemberRoles, pick: Option<UserId>, role: RoleName, failing: set<RoleOp>): (r: MemberRoles)
    ensures r.Keys == cache.Keys
  {
    if Truthy(pick) then Grant(cache, pick.value, role, failing) else cache
  }

  /** `for (const id of top10) ...add(role10)`, one grant per id in order. */
  function GrantEach(cache: MemberRoles, ids: seq<UserId>, role: RoleName, failing: set<RoleOp>): (r: MemberRoles)
    ensures r.Keys == cache.Keys
  {
    if ids == [] then cache
    else Grant(GrantEach(cache, ids[..|ids| - 1], role, failing), ids[|ids| - 1], role, failing)
  }

  /** The member cache once `updateRankingRoles` has run with the picks `sel`. */
  function Reassign(cache: MemberRoles, guildRoles: set<RoleName>, sel: Selection, failing: set<RoleOp>): (r: MemberRoles)
    ensures r.Keys == cache.Keys
    ensures !RankRolesExist(guildRoles) ==> r == cache
  {
    if !RankRolesExist(guildRoles) then cache
    else
      var reset := ResetAll(cache, failing);
      var granted := GrantPick(GrantPick(GrantPick(reset, sel.top1, Top1Role, failing), sel.top2, Top2Role, failing), sel.top3, Top3Role, failing);
      GrantEach(granted, sel.top10, Top10Role, failing)
  }

  /**
   * The rank roles the picks give member `m` and whose grant call does not
   * fail: `TOP 1`, `TOP 2`, `TOP 3` when `m` is the truthy first, second or
   * third pick, `TOP 10` when `m` is among the first ten ids.
   */
  function GrantedTo(sel: Selection, m: UserId, failing: set<RoleOp>): (r: set<RoleName>)
    ensures r <= RankRoles
  {
    (if Truthy(sel.top1) && sel.top1.value == m && AddRole(m, Top1Role) !in failing then {Top1Role} else {})
    + (if Truthy(sel.top2) && sel.top2.value == m && AddRole(m, Top2Role) !in failing then {Top2Role} else {})
    + (if Truthy(sel.top3) && sel.top3.value == m && AddRole(m, Top3Role) !in failing then {Top3Role} else {})
    + (if m in sel.top10 && AddRole(m, Top10Role) !in failing then {Top10Role} else {})
  }

  /** The roles member `m` keeps through the reset: all of them when its reset call fails. */
  function KeptThroughReset(held: set<RoleName>, m: UserId, failing: set<RoleOp>): set<RoleName>
  {
    if RemoveRankRoles(m) in failing then held else held - RankRoles
  }

  /** The `TOP 10` loop adds the role to a cached member exactly when its id is listed. */
  lemma {:induction false} GrantEachEffect(cache: MemberRoles, ids: seq<UserId>, role: RoleName, failing: set<RoleOp>, m: UserId)
    requires m in cache
    ensures GrantEach(cache, ids, role, failing)[m]
      == if m in ids && AddRole(m, role) !in failing then cache[m] + {role} else cache[m]
  {
    if ids != [] {
      var init := ids[..|ids| - 1];
      GrantEachEffect(cache, init, role, failing, m);
      assert ids == init + [ids[|ids| - 1]];
    }
  }

  /** The reset loop strips exactly the rank roles from a member, unless its call fails. */
  lemma ResetAllEffect(cache: MemberRoles, failing: set<RoleOp>, m: UserId)
    requires m in cache
    ensures var after := ResetAll(cache, failing)[m];
      && after - RankRoles == cache[m] - RankRoles
      && (RemoveRankRoles(m) in failing ==> after == cache[m])
      && (RemoveRankRoles(m) !in failing ==> after !! RankRoles)
  {
  }

  /** One grant adds the role to the named cached member, unless the call fails, and touches no other member. */
  lemma GrantEffect(cache: MemberRoles, id: UserId, role: RoleName, failing: set<RoleOp>, m: UserId)
    requires m in cache
    ensures Grant(cache, id, role, failing)[m]
      == if m == id && AddRole(m, role) !in failing then cache[m] + {role} else cache[m]
  {
  }

  lemma GrantPickEffect(cache: MemberRoles, pick: Option<UserId>, role: RoleName, failing: set<RoleOp>, m: UserId)
    requires m in cache
    ensures GrantPick(cache, pick, role, failing)[m]
      == if Truthy(pick) && pick.value == m && AddRole(m, role) !in failing then cache[m] + {role} else cache[m]
  {
  }

  /**
   * What each cached member holds afterwards: the roles it kept through the
   * reset, plus the rank roles its position earns whose grant did not fail.
   */
  lemma RolesAfterReassign(cache: MemberRoles, guildRoles: set<RoleName>, sel: Selection, failing: set<RoleOp>, m: UserId)
    requires RankRolesExist(guildRoles) && m in cache
    ensures Reassign(cache, guildRoles, sel, failing)[m]
      == KeptThroughReset(cache[m], m, failing) + GrantedTo(sel, m, failing)
  {
    var reset := ResetAll(cache, failing);
    var g1 := GrantPick(reset, sel.top1, Top1Role, failing);
    var g2 := GrantPick(g1, sel.top2, Top2Role, failing);
    var g3 := GrantPick(g2, sel.top3, Top3Role, failing);
    assert reset[m] == KeptThroughReset(cache[m], m, failing);
    GrantPickEffect(reset, sel.top1, Top1Role, failing, m);
    GrantPickEffect(g1, sel.top2, Top2Role, failing, m);
    GrantPickEffect(g2, sel.top3, Top3Role, failing, m);
    GrantEachEffect(g3, sel.top10, Top10Role, failing, m);
  }

  /** Roles other than the four rank roles are never touched. */
  lemma OtherRolesUntouched(cache: MemberRoles, guildRoles: set<RoleName>, sel: Selection, failing: set<RoleOp>, m: UserId)
    requires m in cache
    ensures Reassign(cache, guildRoles, sel, failing)[m] - RankRoles == cache[m] - RankRoles
  {
    if RankRolesExist(guildRoles) {
      RolesAfterReassign(cache, guildRoles, sel, failing, m);
    }
  }

  /** With no failing call, the rank roles member `m` receives are those its picks give it. */
  lemma GrantedWithoutFailures(sel: Selection, m: UserId)
    ensures var g := GrantedTo(sel, m, {});
      && (Top1Role in g <==> Truthy(sel.top1) && sel.top1.value == m)
      && (Top2Role in g <==> Truthy(sel.top2) && sel.top2.value == m)
      && (Top3Role in g <==> Truthy(sel.top3) && sel.top3.value == m)
      && (Top10Role in g <==> m in sel.top10)
  {
  }

  /**
   * With every call succeeding, each cached member keeps its other roles and
   * holds `TOP 1`, `TOP 2`, `TOP 3` exactly at ranking position 0, 1, 2 and
   * `TOP 10` exactly within the first ten positions.
   */
  lemma RankRolesByPosition(cache: MemberRoles, guildRoles: set<RoleName>, entries: seq<Entry>, m: UserId)
    requires RankRolesExist(guildRoles) && m in cache
    ensures var sorted := SortByDps(entries);
      var held := Reassign(cache, guildRoles, Select(sorted), {})[m];
      && held - RankRoles == cache[m] - RankRoles
      && (Top1Role in held <==> |sorted| > 0 && sorted[0].id == m && m != "")
      && (Top2Role in held <==> |sorted| > 1 && sorted[1].id == m && m != "")
      && (Top3Role in held <==> |sorted| > 2 && sorted[2].id == m && m != "")
      && (Top10Role in held <==> exists k :: 0 <= k < Min(ListingSize, |sorted|) && sorted[k].id == m)
  {
    var sorted := SortByDps(entries);
    var sel := Select(sorted);
    var held := Reassign(cache, guildRoles, sel, {})[m];
    RolesAfterReassign(cache, guildRoles, sel, {}, m);
    assert held == (cache[m] - RankRoles) + GrantedTo(sel, m, {});
    GrantedWithoutFailures(sel, m);
    SelectionPicksPositions(sorted);
    assert m in sel.top10 <==> exists k :: 0 <= k < Min(ListingSize, |sorted|) && sorted[k].id == m by {
      if m in sel.top10 {
        var k :| 0 <= k < |sel.top10| && sel.top10[k] == m;
        assert sorted[k].id == m;
      }
      if exists k :: 0 <= k < Min(ListingSize, |sorted|) && sorted[k].id == m {
        var k :| 0 <= k < Min(ListingSize, |sorted|) && sorted[k].id == m;
        assert sel.top10[k] == m;
      }
    }
  }

  /** `TOP 1`, `TOP 2`, `TOP 3` for ranking positions 0, 1, 2. */
  function PodiumRole(k: nat): RoleName
    requires k < 3
  {
    if k == 0 then Top1Role else if k == 1 then Top2Role else Top3Role
  }

  /**
   * The rank roles overlap: with every call succeeding, a cached member at
   * ranking position 0, 1 or 2 ends with both its podium role and `TOP 10`.
   */
  lemma PodiumHoldsTwoRankRoles(cache: MemberRoles, guildRoles: set<RoleName>, sorted: seq<Entry>, k: nat)
    requires RankRolesExist(guildRoles) && k < 3 && k < |sorted|
    requires sorted[k].id in cache && sorted[k].id != ""
    ensures var held := Reassign(cache, guildRoles, Select(sorted), {})[sorted[k].id];
      PodiumRole(k) in held && Top10Role in held
  {
    var sel := Select(sorted);
    var id := sorted[k].id;
    RolesAfterReassign(cache, guildRoles, sel, {}, id);
    GrantedWithoutFailures(sel, id);
    SelectionPicksPositions(sorted);
    assert k < |sel.top10| && sel.top10[k] == id;
  }

  /** No call in `failing` concerns member `m`. */
  predicate Unaffected(failing: set<RoleOp>, m: UserId)
  {
    forall op :: op in failing ==> op.member != m
  }

  /** A failing call only ever affects the member it was made for. */
  lemma FailuresStayWithTheirMember(cache: MemberRoles, guildRoles: set<RoleName>, sel: Selection, failing: set<RoleOp>, m: UserId)
    requires m in cache && Unaffected(failing, m)
    ensures Reassign(cache, guildRoles, sel, failing)[m] == Reassign(cache, guildRoles, sel, {})[m]
  {
    if RankRolesExist(guildRoles) {
      RolesAfterReassign(cache, guildRoles, sel, failing, m);
      RolesAfterReassign(cache, guildRoles, sel, {}, m);
      assert RemoveRankRoles(m) !in failing;
      assert GrantedTo(sel, m, failing) == GrantedTo(sel, m, {}) by {
        assert AddRole(m, Top1Role) !in failing && AddRole(m, Top2Role) !in failing;
        assert AddRole(m, Top3Role) !in failing && AddRole(m, Top10Role) !in failing;
      }
    }
  }

  /**
   * What a member ends with depends only on its own roles before: other
   * members, and ranked ids missing from the cache, make no difference.
   */
  lemma OutcomeIsPerMember(c1: MemberRoles, c2: MemberRoles, guildRoles: set<RoleName>, sel: Selection, failing: set<RoleOp>, m: UserId)
    requires m in c1 && m in c2 && c1[m] == c2[m]
    ensures Reassign(c1, guildRoles, sel, failing)[m] == Reassign(c2, guildRoles, sel, failing)[m]
  {
    if RankRolesExist(guildRoles) {
      RolesAfterReassign(c1, guildRoles, sel, failing, m);
      RolesAfterReassign(c2, guildRoles, sel, failing, m);
    }
  }

  /**
   * Running the update again with the same ranking, and the same calls
   * failing, changes nothing more.
   */
  lemma ReassignIdempotent(cache: MemberRoles, guildRoles: set<RoleName>, sel: Selection, failing: set<RoleOp>)
    ensures var once := Reassign(cache, guildRoles, sel, failing);
      Reassign(once, guildRoles, sel, failing) == once
  {
    var once := Reassign(cache, guildRoles, sel, failing);
    var twice := Reassign(once, guildRoles, sel, failing);
    if RankRolesExist(guildRoles) {
      forall m | m in once ensures twice[m] == once[m] {
        RolesAfterReassign(cache, guildRoles, sel, failing, m);
        RolesAfterReassign(once, guildRoles, sel, failing, m);
      }
    }
  }

  /** The guild as `updateRankingRoles` sees it. */
  class Guild {
    /** `guild.members.cache`. */
    var members: MemberRoles
    /** The names of the roles in `guild.roles.cache`. */
    var roles: set<RoleName>

    /** The reset loop: every cached member loses the four rank roles. */
    method RemoveRankRolesFromAll(failing: set<RoleOp>)
      modifies this`members
      ensures members == ResetAll(old(members), failing)
    {
      ghost var before := members;
      var pending := members.Keys;
      while pending != {}
        invariant pending <= members.Keys && members.Keys == before.Keys
        invariant forall m :: m in members ==>
          members[m] == if m in pending then before[m] else ResetAll(before, failing)[m]
        decreases pending
      {
        var m :| m in pending;
        if RemoveRankRoles(m) !in failing {
          members := members[m := members[m] - RankRoles];
        }
        pending := pending - {m};
      }
    }

    /** `guild.members.cache.get(id)?.roles.add(role)`. */
    method AddRoleTo(id: UserId, role: RoleName, failing: set<RoleOp>)
      modifies this`members
      ensures members == Grant(old(members), id, role, failing)
    {
      if id in members && AddRole(id, role) !in failing {
        members := members[id := members[id] + {role}];
      }
    }

    /**
     * `updateRankingRoles(guild)` with the store listing `listing`; the calls
     * in `failing` are those whose promise rejects.
     */
    method UpdateRankingRoles(listing: seq<KvEntry>, failing: set<RoleOp>)
      modifies this`members
      ensures members == Reassign(old(members), roles, Select(SortByDps(Entries(listing))), failing)
    {
      var allEntries := CollectEntries(listing);
      var sorted := SortByDps(allEntries);
      var sel := Select(sorted);
      if !RankRolesExist(roles) {
        return;
      }
      RemoveRankRolesFromAll(failing);
      if Truthy(sel.top1) { AddRoleTo(sel.top1.value, Top1Role, failing); }
      if Truthy(sel.top2) { AddRoleTo(sel.top2.value, Top2Role, failing); }
      if Truthy(sel.top3) { AddRoleTo(sel.top3.value, Top3Role, failing); }
      ghost var granted := members;
      var top10 := sel.top10;
      for i := 0 to |top10|
        invariant members == GrantEach(granted, top10[..i], Top10Role, failing)
      {
        assert top10[..i + 1][..i] == top10[..i];
        AddRoleTo(top10[i], Top10Role, failing);
      }
      assert top10[..|top10|] == top10;
    }
  }
}
