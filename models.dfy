/** The two persisted records of the party service, their role constants and the
    default party size (internal/models/models.go). */
module Models {

  datatype Option<+T> = None | Some(value: T)

  /** A UUID as its 16 raw bytes. */
  type Uuid = s: seq<bv8> | |s| == 16 witness [0, 0, 0, 0, 0, 0, 0, 0, 0, 0, 0, 0, 0, 0, 0, 0]

  /** The all-zero UUID, the zero value of the UUID type. */
  const NilUuid: Uuid := [0, 0, 0, 0, 0, 0, 0, 0, 0, 0, 0, 0, 0, 0, 0, 0]

  /** The size every party is created with. */
  const DefaultMaxSize: nat := 8

  /** The role column of a membership row. */
  datatype Role = Owner | Member {
    /** The string stored in the role column. */
    function Name(): string {
      match this
      case Owner => "owner"
      case Member => "member"
    }
  }

  /** Reads a role column back: only the two role strings denote a role. */
  function ParseRole(s: string): (r: Option<Role>)
    ensures r.Some? <==> s == "owner" || s == "member"
    ensures r.Some? ==> r.value.Name() == s
  {
    if s == Owner.Name() then Some(Owner)
    else if s == Member.Name() then Some(Member)
    else None
  }

  /** Every role survives being written to and read back from the role column. */
  lemma RoleNameRoundTrip(r: Role)
    ensures ParseRole(r.Name()) == Some(r)
  {
    match r
    case Owner =>
    case Member =>
      assert Member.Name() != Owner.Name();
  }

  /** A row of the parties table (timestamps left out). */
  datatype Party = Party(id: Uuid, ownerId: Uuid, inviteCode: string, maxSize: int)

  /** A row of the party_members table (join time left out). */
  datatype PartyMember = PartyMember(partyId: Uuid, accountId: Uuid, role: Role)

  /** A party as the handlers return it: the row together with its has-many
      relation, the membership rows whose party id is the party's id. The
      database returns these rows in no particular order, so they form a set. */
  datatype PartyView = PartyView(party: Party, members: set<PartyMember>)
}
