/**
 * The `rolesMap` both task modals build from the role list: a `forEach` that assigns
 * `rolesMap[role.id] = role.name` entry by entry.
 */
module RolesMap {
  import opened Api

  /** The map once the loop has visited `roles` in order. */
  function RolesOf(roles: seq<RoleRecord>): map<nat, string>
    decreases |roles|
  {
    if roles == [] then map[]
    else RolesOf(roles[..|roles| - 1])[roles[|roles| - 1].id := roles[|roles| - 1].name]
  }

  method BuildRolesMap(roles: seq<RoleRecord>) returns (m: map<nat, string>)
    ensures m == RolesOf(roles)
  {
    m := map[];
    var i := 0;
    while i < |roles|
      invariant 0 <= i <= |roles|
      invariant m == RolesOf(roles[..i])
    {
      assert roles[..i + 1][..i] == roles[..i];
      m := m[roles[i].id := roles[i].name];
      i := i + 1;
    }
    assert roles[..|roles|] == roles;
  }

  /** The keys are exactly the ids of the list: the loop adds no other key. */
  lemma {:induction false} RolesOfKeys(roles: seq<RoleRecord>)
    ensures RolesOf(roles).Keys == set r | r in roles :: r.id
    decreases |roles|
  {
    if roles != [] {
      var init := roles[..|roles| - 1];
      RolesOfKeys(init);
      assert roles == init + [roles[|roles| - 1]];
      assert (set r | r in roles :: r.id) == (set r | r in init :: r.id) + {roles[|roles| - 1].id};
    }
  }

  /** Each id maps to the name of its last entry: on duplicate ids the later one wins. */
  lemma {:induction false} RolesOfLastWins(roles: seq<RoleRecord>, i: nat)
    requires i < |roles|
    requires forall j :: i < j < |roles| ==> roles[j].id != roles[i].id
    ensures roles[i].id in RolesOf(roles)
    ensures RolesOf(roles)[roles[i].id] == roles[i].name
    decreases |roles|
  {
    if i < |roles| - 1 {
      var init := roles[..|roles| - 1];
      RolesOfLastWins(init, i);
    }
  }

  /** The loop's result for the list, stated without the loop: keys and last-wins values. */
  lemma BuildRolesMapMeaning(roles: seq<RoleRecord>, m: map<nat, string>)
    requires m == RolesOf(roles)
    ensures m.Keys == set r | r in roles :: r.id
    ensures forall i :: 0 <= i < |roles| && (forall j :: i < j < |roles| ==> roles[j].id != roles[i].id) ==>
      roles[i].id in m && m[roles[i].id] == roles[i].name
  {
    RolesOfKeys(roles);
    forall i | 0 <= i < |roles| && (forall j :: i < j < |roles| ==> roles[j].id != roles[i].id)
      ensures roles[i].id in m && m[roles[i].id] == roles[i].name
    {
      RolesOfLastWins(roles, i);
    }
  }
}
