/** Request sequences against a fresh handler, with the answers the
    endpoints give at each step. */
module Scenarios {
  import opened Models
  import opened Tables
  import opened Parties

  /** A creates a party, B joins with its invite code and sees both members,
      then A kicks B, after which B is in no party. */
  method CreateJoinKick(a: Uuid, b: Uuid, newId: Uuid, random: seq<bv8>)
    returns (seen: nat, afterKick: Result<PartyView>)
    requires a != b && b != NilUuid && |random| == 4
    ensures seen == 2
    ensures afterKick == Err(NotInParty)
  {
    var h := new Handler();
    var created := h.CreateParty(a, newId, random);
    var code := created.value.party.inviteCode;
    assert |code| == 8;
    assert PartiesWithCode(h.parties, code) == {newId};
    assert MemberIds(h.memberships, newId) == {a};
    var joined := h.JoinParty(b, Some(code));
    assert joined.Ok?;
    var mine := h.GetMyParty(b);
    seen := |mine.value.members|;
    var kicked := h.KickMember(a, Some(b));
    assert kicked == Ok(MemberKicked);
    afterKick := h.GetMyParty(b);
  }

  /** When the owner of a two-member party leaves, the party is disbanded:
      the other member is in no party and the party id is no longer found. */
  method OwnerLeaves(a: Uuid, b: Uuid, newId: Uuid, random: seq<bv8>)
    returns (joined: Result<PartyView>, left: Result<Message>, other: Result<PartyView>, byId: Result<PartyView>)
    requires a != b && |random| == 4
    ensures joined.Ok? && |joined.value.members| == 2
    ensures left == Ok(PartyDisbanded)
    ensures other == Err(NotInParty)
    ensures byId == Err(NotFound)
  {
    var h := new Handler();
    var created := h.CreateParty(a, newId, random);
    var code := created.value.party.inviteCode;
    assert |code| == 8;
    assert PartiesWithCode(h.parties, code) == {newId};
    assert MemberIds(h.memberships, newId) == {a};
    joined := h.JoinParty(b, Some(code));
    left := h.LeaveParty(a);
    other := h.GetMyParty(b);
    byId := h.GetPartyByID(Some(newId));
  }
}
