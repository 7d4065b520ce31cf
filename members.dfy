/** A project's embedded `members` list: the `some` test, the `findIndex` search and the
    `push`/`splice` edits of agregarMiembro and removerMiembro. */
module Members {
  import opened Records

  /** `members.some(member => member.user === user)` */
  predicate HasMember(members: seq<Member>, user: Id) {
    exists i :: 0 <= i < |members| && members[i].user == user
  }

  /** No user appears twice in the list. */
  ghost predicate UniqueUsers(members: seq<Member>) {
    forall i, j :: 0 <= i < j < |members| ==> members[i].user != members[j].user
  }

  /** What `members.findIndex(member => member.user === user)` evaluates to:
      the first position holding `user`, or -1 when there is none. */
  function FirstIndex(members: seq<Member>, user: Id): (k: int)
    ensures -1 <= k < |members|
    ensures k == -1 <==> !HasMember(members, user)
    ensures 0 <= k ==> members[k].user == user
    ensures 0 <= k ==> forall j :: 0 <= j < k ==> members[j].user != user
  {
    if |members| == 0 then -1
    else if members[0].user == user then 0
    else
      var k := FirstIndex(members[1..], user);
      assert forall j :: 0 < j < |members| ==> members[j] == members[1..][j - 1];
      if k == -1 then -1 else k + 1
  }

  /** The scan behind `findIndex`, one entry at a time. */
  method FindMemberIndex(members: seq<Member>, user: Id) returns (k: int)
    ensures k == FirstIndex(members, user)
  {
    k := 0;
    while k < |members| && members[k].user != user
      invariant 0 <= k <= |members|
      invariant forall j :: 0 <= j < k ==> members[j].user != user
    {
      k := k + 1;
    }
    if k == |members| {
      k := -1;
    }
  }

  /** `members.splice(k, 1)`: the list without its entry at `k`, the rest in order. */
  function RemoveAt(members: seq<Member>, k: nat): (r: seq<Member>)
    requires k < |members|
    ensures |r| == |members| - 1
    ensures forall j :: 0 <= j < k ==> r[j] == members[j]
    ensures forall j :: k <= j < |r| ==> r[j] == members[j + 1]
    ensures multiset(r) + multiset{members[k]} == multiset(members)
  {
    assert members == members[..k] + [members[k]] + members[k + 1..];
    members[..k] + members[k + 1..]
  }

  /** Appending an entry for a user who is not yet a member (agregarMiembro) keeps the user
      ids distinct and makes that user a member. */
  lemma AppendKeepsUsersUnique(members: seq<Member>, m: Member)
    requires UniqueUsers(members)
    requires !HasMember(members, m.user)
    ensures UniqueUsers(members + [m])
    ensures HasMember(members + [m], m.user)
    ensures |members + [m]| == |members| + 1
  {
    var s := members + [m];
    assert s[|members|].user == m.user;
    forall i, j | 0 <= i < j < |s|
      ensures s[i].user != s[j].user
    {
      if j == |members| {
        assert s[i] == members[i];
      }
    }
  }

  /** Removing any entry keeps the user ids distinct. */
  lemma RemoveKeepsUsersUnique(members: seq<Member>, k: nat)
    requires UniqueUsers(members)
    requires k < |members|
    ensures UniqueUsers(RemoveAt(members, k))
  {
    var r := RemoveAt(members, k);
    forall i, j | 0 <= i < j < |r|
      ensures r[i].user != r[j].user
    {
      var i' := if i < k then i else i + 1;
      var j' := if j < k then j else j + 1;
      assert r[i] == members[i'] && r[j] == members[j'] && i' < j';
    }
  }

  /** In a list without duplicates, removing the first entry of a user (removerMiembro)
      removes the user altogether. */
  lemma RemoveFirstRemovesUser(members: seq<Member>, user: Id)
    requires UniqueUsers(members)
    requires HasMember(members, user)
    ensures FirstIndex(members, user) >= 0
    ensures !HasMember(RemoveAt(members, FirstIndex(members, user)), user)
  {
    var k := FirstIndex(members, user);
    var r := RemoveAt(members, k);
    forall i | 0 <= i < |r|
      ensures r[i].user != user
    {
      var i' := if i < k then i else i + 1;
      assert r[i] == members[i'] && i' != k;
    }
  }

  /** Only the FIRST match is removed: when a list holds a user twice, the user is still a
      member after one removal. */
  lemma RemoveFirstKeepsLaterDuplicate(members: seq<Member>, i: nat, j: nat)
    requires i < j < |members|
    requires members[i].user == members[j].user
    ensures HasMember(RemoveAt(members, FirstIndex(members, members[i].user)), members[i].user)
  {
    var user := members[i].user;
    var k := FirstIndex(members, user);
    assert k <= i;
    var r := RemoveAt(members, k);
    assert r[j - 1] == members[j];
  }

  /** Removing the user just appended gives back the original list: removerMiembro
      undoes agregarMiembro. */
  lemma RemoveUndoesAppend(members: seq<Member>, m: Member)
    requires !HasMember(members, m.user)
    ensures FirstIndex(members + [m], m.user) == |members|
    ensures RemoveAt(members + [m], |members|) == members
  {
    var s := members + [m];
    assert s[|members|].user == m.user;
    assert forall j :: 0 <= j < |members| ==> s[j] == members[j];
    assert s[..|members|] == members;
  }
}
