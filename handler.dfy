/** The party endpoints (internal/parties/handler.go) as transitions of a
    handler that owns the two tables. Every endpoint runs its checks in the
    order the source does and answers with the first one that fails; every
    failing request leaves both tables as they were. */
module Parties {
  import opened Models
  import opened Tables
  import InviteCodes

  /** The error answers of the endpoints. */
  datatype ApiError =
    | InvalidRequest    // the body does not bind
    | SelfTarget        // kick or transfer aimed at the caller
    | InvalidId         // a path id that is not a UUID
    | NotOwner
    | NotInParty
    | InvalidCode
    | NotFound
    | AlreadyInParty
    | PartyFull
    | CreateFailed      // the insert broke a unique constraint
    | RegenerateFailed  // the update broke a unique constraint
    | FetchFailed       // a membership whose party row is missing
  {
    /** The HTTP status of the answer. */
    function Status(): int {
      match this
      case InvalidRequest | SelfTarget | InvalidId => 400
      case NotOwner => 403
      case NotInParty | InvalidCode | NotFound => 404
      case AlreadyInParty | PartyFull => 409
      case CreateFailed | RegenerateFailed | FetchFailed => 500
    }

    /** The `error` field of the answer. */
    function Code(): string {
      match this
      case InvalidRequest | SelfTarget => "invalid_request"
      case InvalidId => "invalid_id"
      case NotOwner => "not_owner"
      case NotInParty => "not_in_party"
      case InvalidCode => "invalid_code"
      case NotFound => "not_found"
      case AlreadyInParty => "already_in_party"
      case PartyFull => "party_full"
      case CreateFailed => "create_failed"
      case RegenerateFailed => "regenerate_failed"
      case FetchFailed => "fetch_failed"
    }
  }

  /** `c` is the error code of a failed database write or read. */
  predicate IsFailureCode(c: string) {
    |c| >= 7 && c[|c| - 7..] == "_failed"
  }

  /** Every error answer is a client error except the failures of the
      database, which are exactly the codes ending in `_failed` and all
      answer 500. */
  lemma ServerErrorsAreFailures(e: ApiError)
    ensures 400 <= e.Status() < 500 || e.Status() == 500
    ensures e.Status() == 500 <==> IsFailureCode(e.Code())
  {
    match e
    case CreateFailed => assert "create_failed"[6..] == "_failed";
    case RegenerateFailed => assert "regenerate_failed"[10..] == "_failed";
    case FetchFailed => assert "fetch_failed"[5..] == "_failed";
    case _ =>
  }

  /** A client can tell the status from the `error` field alone: two
      answers with the same code have the same status. The only code shared
      by two errors is invalid_request, for a body that does not bind and for
      a kick or transfer aimed at the caller. */
  lemma CodeDeterminesStatus(e1: ApiError, e2: ApiError)
    requires e1.Code() == e2.Code()
    ensures e1.Status() == e2.Status()
    ensures e1 == e2 || (e1.Code() == "invalid_request" && e1.Status() == 400)
  {
  }

  datatype Result<T> = Ok(value: T) | Err(error: ApiError)

  /** The `message` answers of leave, kick and disband. */
  datatype Message = LeftParty | MemberKicked | PartyDisbanded {
    function Text(): string {
      match this
      case LeftParty => "Left party"
      case MemberKicked => "Member kicked"
      case PartyDisbanded => "Party disbanded"
    }
  }

  /** The three messages are told apart by their text. */
  lemma MessagesDistinct(m1: Message, m2: Message)
    requires m1.Text() == m2.Text()
    ensures m1 == m2
  {
  }

  /** Binding of `invite_code` with `binding:"required"`: the decoded field,
      or None when the body does not decode (given as None) or the code is
      the empty string. */
  function BindInviteCode(body: Option<string>): Option<string> {
    if body.Some? && body.value != "" then body else None
  }

  /** Binding of `account_id` with `binding:"required"`: the zero UUID is
      rejected like a missing field. */
  function BindAccountId(body: Option<Uuid>): Option<Uuid> {
    if body.Some? && body.value != NilUuid then body else None
  }

  /** Every code the service issues passes the binding of the join request,
      so a join with a real code never answers invalid_request. */
  lemma IssuedCodesBind(random: seq<bv8>)
    requires |random| == 4
    ensures BindInviteCode(Some(InviteCodes.GenerateInviteCode(random))) == Some(InviteCodes.GenerateInviteCode(random))
  {
  }

  class Handler {
    /** The parties table, keyed by id. */
    var parties: PartyTable
    /** The party_members table, keyed by account_id. */
    var memberships: MemberTable

    ghost predicate Valid()
      reads this
    {
      Tables.Valid(parties, memberships)
    }

    /** `account` holds an owner-role membership. */
    ghost predicate IsOwner(account: Uuid)
      reads this
    {
      account in memberships && memberships[account].role == Owner
    }

    /** `target` is a member of the same party as `account`. */
    ghost predicate InSamePartyAs(target: Uuid, account: Uuid)
      reads this
    {
      target in memberships && account in memberships
      && memberships[target].partyId == memberships[account].partyId
    }

    /** Freshly migrated, empty tables. */
    constructor ()
      ensures Valid()
      ensures parties == map[] && memberships == map[]
    {
      parties := map[];
      memberships := map[];
    }

    // ----- Player-facing endpoints -----

    /** POST /parties: a new party owned by the caller, whose only member is
        the caller. `newId` stands for uuid.New() and `random` for the four
        bytes read from crypto/rand. Both rows are inserted in one
        transaction, so an id or invite code already in use leaves nothing
        behind. */
    method CreateParty(caller: Uuid, newId: Uuid, random: seq<bv8>) returns (r: Result<PartyView>)
      requires Valid() && |random| == 4
      modifies this
      ensures Valid()
      ensures r.Err? ==> unchanged(this)
      ensures caller in old(memberships) ==> r == Err(AlreadyInParty)
      ensures (caller !in old(memberships)
               && (newId in old(parties) || PartiesWithCode(old(parties), InviteCodes.GenerateInviteCode(random)) != {}))
              ==> r == Err(CreateFailed)
      ensures r.Ok? <==> caller !in old(memberships) && newId !in old(parties)
                         && PartiesWithCode(old(parties), InviteCodes.GenerateInviteCode(random)) == {}
      ensures r.Ok? ==>
        var party := Party(newId, caller, InviteCodes.GenerateInviteCode(random), DefaultMaxSize);
        var owner := PartyMember(newId, caller, Owner);
        && parties == old(parties)[newId := party]
        && memberships == old(memberships)[caller := owner]
        && r.value == PartyView(party, {owner})
        && GetPartyWithMembers(parties, memberships, newId) == Some(r.value)
    {
      var existing := FindMembership(memberships, caller);
      if existing.Some? {
        return Err(AlreadyInParty);
      }
      var party := Party(newId, caller, InviteCodes.GenerateInviteCode(random), DefaultMaxSize);
      var owner := PartyMember(newId, caller, Owner);
      if newId in parties || PartiesWithCode(parties, party.inviteCode) != {} {
        // the primary key or the unique invite_code index refuses the insert
        return Err(CreateFailed);
      }
      ValidAfterCreate(parties, memberships, party);
      parties := parties[newId := party];
      memberships := memberships[caller := owner];
      r := Ok(PartyView(party, {owner}));
    }

    /** GET /parties/mine: the caller's party with all of its members. */
    function GetMyParty(caller: Uuid): (r: Result<PartyView>)
      reads this
      ensures caller !in memberships ==> r == Err(NotInParty)
      ensures Valid() ==> (r.Ok? <==> caller in memberships)
      ensures r.Ok? ==>
        && caller in memberships && memberships[caller].partyId in parties
        && r.value == PartyView(parties[memberships[caller].partyId], MembersOf(memberships, memberships[caller].partyId))
        && memberships[caller] in r.value.members
      ensures Valid() && r.Ok? ==> WellFormedView(r.value)
    {
      match FindMembership(memberships, caller)
      case None => Err(NotInParty)
      case Some(member) =>
        match GetPartyWithMembers(parties, memberships, member.partyId)
        case None => Err(FetchFailed)
        case Some(view) =>
          FetchedViewWellFormed(parties, memberships, member.partyId);
          Ok(view)
    }

    /** POST /parties/join: the caller joins, as a plain member, the party
        whose invite code is in the body, unless the party is full. */
    method JoinParty(caller: Uuid, body: Option<string>) returns (r: Result<PartyView>)
      requires Valid()
      modifies this
      ensures Valid()
      ensures parties == old(parties)
      ensures r.Err? ==> unchanged(this)
      ensures BindInviteCode(body).None? ==> r == Err(InvalidRequest)
      ensures BindInviteCode(body).Some? && caller in old(memberships) ==> r == Err(AlreadyInParty)
      ensures (BindInviteCode(body).Some? && caller !in old(memberships)
               && PartiesWithCode(old(parties), body.value) == {}) ==> r == Err(InvalidCode)
      ensures forall pid :: BindInviteCode(body).Some? && caller !in old(memberships)
                            && pid in PartiesWithCode(old(parties), body.value) ==>
        if |MemberIds(old(memberships), pid)| >= old(parties)[pid].maxSize then
          r == Err(PartyFull)
        else
          && r.Ok?
          && memberships == old(memberships)[caller := PartyMember(pid, caller, Member)]
          && r.value == PartyView(parties[pid], MembersOf(memberships, pid))
          && |r.value.members| == |MemberIds(old(memberships), pid)| + 1
      ensures r.Ok? ==> WellFormedView(r.value)
    {
      var code := BindInviteCode(body);
      if code.None? {
        return Err(InvalidRequest);
      }
      var existing := FindMembership(memberships, caller);
      if existing.Some? {
        return Err(AlreadyInParty);
      }
      var ids := PartiesWithCode(parties, code.value);
      if ids == {} {
        return Err(InvalidCode);
      }
      var pid :| pid in ids;
      CodeNamesOneParty(parties, code.value);
      assert ids == {pid};
      var party := GetPartyWithMembers(parties, memberships, pid).value;
      MembersCount(memberships, pid);
      if |party.members| >= party.party.maxSize {
        return Err(PartyFull);
      }
      var view := AddMember(pid, caller);
      r := Ok(view);
    }

    /** The insert of a plain membership row that a successful join makes,
        followed by the re-fetch of the party. */
    method AddMember(pid: Uuid, account: Uuid) returns (view: PartyView)
      requires Valid() && pid in parties && account !in memberships
      requires |MemberIds(memberships, pid)| < parties[pid].maxSize
      modifies this
      ensures Valid()
      ensures parties == old(parties)
      ensures memberships == old(memberships)[account := PartyMember(pid, account, Member)]
      ensures view == PartyView(parties[pid], MembersOf(memberships, pid))
      ensures |view.members| == |MemberIds(old(memberships), pid)| + 1
      ensures WellFormedView(view)
    {
      ValidAfterJoin(parties, memberships, pid, account);
      memberships := memberships[account := PartyMember(pid, account, Member)];
      MembersCount(memberships, pid);
      FetchedViewWellFormed(parties, memberships, pid);
      view := GetPartyWithMembers(parties, memberships, pid).value;
    }

    /** POST /parties/leave: a plain member leaves alone; an owner leaving
        disbands the whole party. */
    method LeaveParty(caller: Uuid) returns (r: Result<Message>)
      requires Valid()
      modifies this
      ensures Valid()
      ensures caller !in old(memberships) ==> r == Err(NotInParty) && unchanged(this)
      ensures caller in old(memberships) && old(memberships)[caller].role == Member ==>
        && r == Ok(LeftParty)
        && memberships == old(memberships) - {caller}
        && parties == old(parties)
      ensures caller in old(memberships) && old(memberships)[caller].role == Owner ==>
        && r == Ok(PartyDisbanded)
        && memberships == WithoutParty(old(memberships), old(memberships)[caller].partyId)
        && parties == old(parties) - {old(memberships)[caller].partyId}
      ensures caller !in memberships
    {
      var member := FindMembership(memberships, caller);
      if member.None? {
        return Err(NotInParty);
      }
      if member.value.role == Owner {
        r := Disband(member.value.partyId);
        return;
      }
      ValidAfterRemove(parties, memberships, caller);
      memberships := memberships - {caller};
      r := Ok(LeftParty);
    }

    /** POST /parties/kick: the owner removes another member of the party. */
    method KickMember(caller: Uuid, body: Option<Uuid>) returns (r: Result<Message>)
      requires Valid()
      modifies this
      ensures Valid()
      ensures parties == old(parties)
      ensures r.Err? ==> unchanged(this)
      ensures BindAccountId(body).None? ==> r == Err(InvalidRequest)
      ensures BindAccountId(body) == Some(caller) ==> r == Err(SelfTarget)
      ensures BindAccountId(body).Some? && body.value != caller && !old(IsOwner(caller)) ==> r == Err(NotOwner)
      ensures (BindAccountId(body).Some? && body.value != caller && old(IsOwner(caller))
               && !old(InSamePartyAs(body.value, caller))) ==> r == Err(NotInParty)
      ensures r.Ok? <==> BindAccountId(body).Some? && body.value != caller && old(IsOwner(caller))
                         && old(InSamePartyAs(body.value, caller))
      ensures r.Ok? ==>
        && r.value == MemberKicked
        && old(memberships)[body.value].role == Member
        && memberships == old(memberships) - {body.value}
    {
      var target := BindAccountId(body);
      if target.None? {
        return Err(InvalidRequest);
      }
      if target.value == caller {
        return Err(SelfTarget);
      }
      var member := FindMembership(memberships, caller);
      if member.None? || member.value.role != Owner {
        return Err(NotOwner);
      }
      var kicked := FindMembership(memberships, target.value);
      if kicked.None? || kicked.value.partyId != member.value.partyId {
        return Err(NotInParty);
      }
      OthersAreMembers(parties, memberships, caller, target.value);
      ValidAfterRemove(parties, memberships, target.value);
      memberships := memberships - {target.value};
      r := Ok(MemberKicked);
    }

    /** POST /parties/transfer: the owner hands ownership to another member
        of the party; the two role updates and the owner_id update happen in
        one transaction. */
    method TransferOwnership(caller: Uuid, body: Option<Uuid>) returns (r: Result<PartyView>)
      requires Valid()
      modifies this
      ensures Valid()
      ensures r.Err? ==> unchanged(this)
      ensures BindAccountId(body).None? ==> r == Err(InvalidRequest)
      ensures BindAccountId(body) == Some(caller) ==> r == Err(SelfTarget)
      ensures BindAccountId(body).Some? && body.value != caller && !old(IsOwner(caller)) ==> r == Err(NotOwner)
      ensures (BindAccountId(body).Some? && body.value != caller && old(IsOwner(caller))
               && !old(InSamePartyAs(body.value, caller))) ==> r == Err(NotInParty)
      ensures r.Ok? <==> BindAccountId(body).Some? && body.value != caller && old(IsOwner(caller))
                         && old(InSamePartyAs(body.value, caller))
      ensures r.Ok? ==>
        var pid := old(memberships)[caller].partyId;
        var target := body.value;
        && old(memberships)[target].role == Member
        && memberships == old(memberships)[caller := PartyMember(pid, caller, Member)]
                                          [target := PartyMember(pid, target, Owner)]
        && parties == old(parties)[pid := old(parties)[pid].(ownerId := target)]
        && r.value == PartyView(parties[pid], MembersOf(memberships, pid))
        && r.value.party.ownerId == target
        && WellFormedView(r.value)
    {
      var target := BindAccountId(body);
      if target.None? {
        return Err(InvalidRequest);
      }
      if target.value == caller {
        return Err(SelfTarget);
      }
      var member := FindMembership(memberships, caller);
      if member.None? || member.value.role != Owner {
        return Err(NotOwner);
      }
      var heir := FindMembership(memberships, target.value);
      if heir.None? || heir.value.partyId != member.value.partyId {
        return Err(NotInParty);
      }
      var pid := member.value.partyId;
      OthersAreMembers(parties, memberships, caller, target.value);
      ValidAfterTransfer(parties, memberships, caller, target.value);
      memberships := memberships[caller := PartyMember(pid, caller, Member)];
      memberships := memberships[target.value := PartyMember(pid, target.value, Owner)];
      parties := parties[pid := parties[pid].(ownerId := target.value)];
      FetchedViewWellFormed(parties, memberships, pid);
      r := Ok(GetPartyWithMembers(parties, memberships, pid).value);
    }

    /** DELETE /parties: the owner disbands the party. */
    method DisbandParty(caller: Uuid) returns (r: Result<Message>)
      requires Valid()
      modifies this
      ensures Valid()
      ensures r.Err? ==> unchanged(this)
      ensures caller !in old(memberships) ==> r == Err(NotInParty)
      ensures caller in old(memberships) && old(memberships)[caller].role != Owner ==> r == Err(NotOwner)
      ensures r.Ok? <==> old(IsOwner(caller))
      ensures r.Ok? ==>
        var pid := old(memberships)[caller].partyId;
        && r.value == PartyDisbanded
        && memberships == WithoutParty(old(memberships), pid)
        && parties == old(parties) - {pid}
    {
      var member := FindMembership(memberships, caller);
      if member.None? {
        return Err(NotInParty);
      }
      if member.value.role != Owner {
        return Err(NotOwner);
      }
      r := Disband(member.value.partyId);
    }

    /** POST /parties/invite: the owner replaces the party's invite code with
        the code of `random`. The update touches only that party's row; a
        code held by another party breaks the unique index. */
    method RegenerateInvite(caller: Uuid, random: seq<bv8>) returns (r: Result<string>)
      requires Valid() && |random| == 4
      modifies this
      ensures Valid()
      ensures memberships == old(memberships)
      ensures r.Err? ==> unchanged(this)
      ensures caller !in old(memberships) ==> r == Err(NotInParty)
      ensures caller in old(memberships) && old(memberships)[caller].role != Owner ==> r == Err(NotOwner)
      ensures old(IsOwner(caller)) ==>
        var pid := old(memberships)[caller].partyId;
        var code := InviteCodes.GenerateInviteCode(random);
        if exists q :: q in old(parties) && q != pid && old(parties)[q].inviteCode == code then
          r == Err(RegenerateFailed)
        else
          && r == Ok(code)
          && parties == old(parties)[pid := old(parties)[pid].(inviteCode := code)]
          && PartiesWithCode(parties, code) == {pid}
    {
      var member := FindMembership(memberships, caller);
      if member.None? {
        return Err(NotInParty);
      }
      if member.value.role != Owner {
        return Err(NotOwner);
      }
      var pid := member.value.partyId;
      var code := InviteCodes.GenerateInviteCode(random);
      if exists q :: q in parties && q != pid && parties[q].inviteCode == code {
        // the unique invite_code index refuses the update
        return Err(RegenerateFailed);
      }
      ValidAfterRecode(parties, memberships, pid, code);
      parties := parties[pid := parties[pid].(inviteCode := code)];
      assert PartiesWithCode(parties, code) == {pid};
      r := Ok(code);
    }

    // ----- Internal endpoints -----

    /** GET /internal/parties/:partyId; `path` is None when the path
        parameter is not a UUID. */
    function GetPartyByID(path: Option<Uuid>): (r: Result<PartyView>)
      reads this
      ensures path.None? ==> r == Err(InvalidId)
      ensures path.Some? && path.value !in parties ==> r == Err(NotFound)
      ensures r.Ok? <==> path.Some? && path.value in parties
      ensures r.Ok? ==>
        && r.value.party == parties[path.value]
        && r.value.members == MembersOf(memberships, path.value)
      ensures Valid() && r.Ok? ==> WellFormedView(r.value)
    {
      if path.None? then Err(InvalidId)
      else match GetPartyWithMembers(parties, memberships, path.value)
        case None => Err(NotFound)
        case Some(view) =>
          FetchedViewWellFormed(parties, memberships, path.value);
          Ok(view)
    }

    /** GET /internal/parties/player/:userId: the party of another account. */
    function GetPlayerParty(path: Option<Uuid>): (r: Result<PartyView>)
      reads this
      ensures path.None? ==> r == Err(InvalidId)
      ensures path.Some? && path.value !in memberships ==> r == Err(NotInParty)
      ensures Valid() ==> (r.Ok? <==> path.Some? && path.value in memberships)
      ensures r.Ok? ==>
        && path.Some? && path.value in memberships && memberships[path.value].partyId in parties
        && r.value.party == parties[memberships[path.value].partyId]
        && memberships[path.value] in r.value.members
        && r.value.members == MembersOf(memberships, memberships[path.value].partyId)
      ensures Valid() && r.Ok? ==> WellFormedView(r.value)
    {
      if path.None? then Err(InvalidId) else GetMyParty(path.value)
    }

    // ----- Helpers -----

    /** disbandParty: delete every membership of the party, then the party
        row, in one transaction. */
    method Disband(pid: Uuid) returns (r: Result<Message>)
      requires Valid()
      modifies this
      ensures Valid()
      ensures r == Ok(PartyDisbanded)
      ensures memberships == WithoutParty(old(memberships), pid)
      ensures parties == old(parties) - {pid}
      ensures MembersOf(memberships, pid) == {}
    {
      ValidAfterDisband(parties, memberships, pid);
      memberships := WithoutParty(memberships, pid);
      parties := parties - {pid};
      r := Ok(PartyDisbanded);
    }
  }
}
