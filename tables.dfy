/** The two tables of the party service as values, the lookups the handlers
    run against them, the invariants every handler keeps, and the proof that
    every change the handlers make keeps them.

    The parties table is keyed by its primary key `id`. The party_members
    table is keyed by `account_id`, which the unique index
    idx_party_members_account makes a key (internal/database/database.go:70);
    that each row sits under its own account id is an invariant. */
module Tables {
  import opened Models

  type PartyTable = map<Uuid, Party>
  type MemberTable = map<Uuid, PartyMember>

  /** findMembership: the row whose account_id is `account`, if there is one. */
  function FindMembership(ms: MemberTable, account: Uuid): (r: Option<PartyMember>)
    ensures r.Some? ==> r.value in ms.Values
    ensures RowsKeyed(ms) ==> (r.Some? <==> exists m :: m in ms.Values && m.accountId == account)
    ensures RowsKeyed(ms) && r.Some? ==> r.value.accountId == account
  {
    if account in ms then Some(ms[account]) else None
  }

  /** The accounts whose membership row names party `pid`. */
  function MemberIds(ms: MemberTable, pid: Uuid): set<Uuid> {
    set a | a in ms && ms[a].partyId == pid
  }

  /** The rows of the given accounts. */
  function RowsOf(ms: MemberTable, ids: set<Uuid>): set<PartyMember> {
    set a | a in ids && a in ms :: ms[a]
  }

  /** The has-many relation Party.Members: the rows whose party_id is `pid`. */
  function MembersOf(ms: MemberTable, pid: Uuid): (r: set<PartyMember>)
    ensures forall m :: m in r <==> m in ms.Values && m.partyId == pid
  {
    RowsOf(ms, MemberIds(ms, pid))
  }

  /** getPartyWithMembers: the party row with id `pid` and its members. */
  function GetPartyWithMembers(ps: PartyTable, ms: MemberTable, pid: Uuid): (r: Option<PartyView>)
    ensures r.Some? <==> pid in ps
    ensures r.Some? ==> r.value.party == ps[pid] && r.value.members == MembersOf(ms, pid)
  {
    if pid in ps then Some(PartyView(ps[pid], MembersOf(ms, pid))) else None
  }

  /** The ids of the parties whose invite code is `code`. */
  function PartiesWithCode(ps: PartyTable, code: string): (r: set<Uuid>)
    ensures forall id :: id in r <==> id in ps && ps[id].inviteCode == code
  {
    set id | id in ps && ps[id].inviteCode == code
  }

  /** The membership table after `DELETE ... WHERE party_id = pid`. */
  function WithoutParty(ms: MemberTable, pid: Uuid): (r: MemberTable)
    ensures forall a :: a in r <==> a in ms && ms[a].partyId != pid
    ensures forall a :: a in r ==> r[a] == ms[a]
  {
    map a | a in ms && ms[a].partyId != pid :: ms[a]
  }

  // ----- Invariants -----

  /** id is the primary key of the parties table. */
  ghost predicate PartiesKeyed(ps: PartyTable) {
    forall pid :: pid in ps ==> ps[pid].id == pid
  }

  /** account_id is unique among membership rows: each row sits under its own account. */
  ghost predicate RowsKeyed(ms: MemberTable) {
    forall a :: a in ms ==> ms[a].accountId == a
  }

  /** Every membership row belongs to an existing party. */
  ghost predicate MembersInParties(ps: PartyTable, ms: MemberTable) {
    forall a :: a in ms ==> ms[a].partyId in ps
  }

  /** The owner_id of every party is an owner-role member of that party. */
  ghost predicate OwnerIsMember(ps: PartyTable, ms: MemberTable) {
    forall pid :: pid in ps ==>
      ps[pid].ownerId in ms && ms[ps[pid].ownerId].partyId == pid && ms[ps[pid].ownerId].role == Owner
  }

  /** Every owner-role member is the owner_id of its party. */
  ghost predicate OwnersAreOwnerIds(ps: PartyTable, ms: MemberTable) {
    forall a :: a in ms && ms[a].role == Owner ==> ms[a].partyId in ps && ps[ms[a].partyId].ownerId == a
  }

  /** No party has more members than its max_size. */
  ghost predicate WithinCapacity(ps: PartyTable, ms: MemberTable) {
    forall pid :: pid in ps ==> |MemberIds(ms, pid)| <= ps[pid].maxSize
  }

  /** invite_code is unique across parties. */
  ghost predicate CodesUnique(ps: PartyTable) {
    forall p, q :: p in ps && q in ps && ps[p].inviteCode == ps[q].inviteCode ==> p == q
  }

  /** All invariants of the two tables. */
  ghost predicate Valid(ps: PartyTable, ms: MemberTable) {
    && PartiesKeyed(ps)
    && RowsKeyed(ms)
    && MembersInParties(ps, ms)
    && OwnerIsMember(ps, ms)
    && OwnersAreOwnerIds(ps, ms)
    && WithinCapacity(ps, ms)
    && CodesUnique(ps)
  }

  // ----- What the invariants give -----

  /** Distinct accounts have distinct rows, so a set of accounts has as many
      rows as it has accounts. */
  lemma {:induction false} RowsOfCount(ms: MemberTable, ids: set<Uuid>)
    requires RowsKeyed(ms) && ids <= ms.Keys
    ensures |RowsOf(ms, ids)| == |ids|
  {
    if ids != {} {
      var a :| a in ids;
      var rest := ids - {a};
      RowsOfCount(ms, rest);
      assert RowsOf(ms, ids) == RowsOf(ms, rest) + {ms[a]};
      assert ms[a] !in RowsOf(ms, rest);
    }
  }

  /** A party has as many member rows as member accounts. */
  lemma MembersCount(ms: MemberTable, pid: Uuid)
    requires RowsKeyed(ms)
    ensures |MembersOf(ms, pid)| == |MemberIds(ms, pid)|
  {
    RowsOfCount(ms, MemberIds(ms, pid));
  }

  /** A party has exactly one owner-role member, and it is the party's owner_id. */
  lemma ExactlyOneOwner(ps: PartyTable, ms: MemberTable, pid: Uuid)
    requires Valid(ps, ms) && pid in ps
    ensures (set m | m in MembersOf(ms, pid) && m.role == Owner) == {PartyMember(pid, ps[pid].ownerId, Owner)}
  {
    var owner := PartyMember(pid, ps[pid].ownerId, Owner);
    var owners := set m | m in MembersOf(ms, pid) && m.role == Owner;
    assert ms[ps[pid].ownerId] == owner;
    assert owner in owners;
    forall m | m in owners ensures m == owner {
      var a :| a in ms && ms[a] == m;
    }
  }

  /** An account belongs to at most one party: a row in the members of two
      parties is the same row of the same party. */
  lemma OnePartyPerAccount(ms: MemberTable, p: Uuid, q: Uuid, m: PartyMember, n: PartyMember)
    requires RowsKeyed(ms)
    requires m in MembersOf(ms, p) && n in MembersOf(ms, q) && m.accountId == n.accountId
    ensures p == q && m == n
  {
    var a :| a in ms && ms[a] == m;
    var b :| b in ms && ms[b] == n;
  }

  /** An invite code names at most one party. */
  lemma CodeNamesOneParty(ps: PartyTable, code: string)
    requires CodesUnique(ps)
    ensures |PartiesWithCode(ps, code)| <= 1
  {
    var ids := PartiesWithCode(ps, code);
    if ids != {} {
      var p :| p in ids;
      assert ids == {p};
    }
  }

  /** What a client may rely on in every party the handlers return: all rows
      belong to the party, exactly one of them has role owner and it is the
      party's owner_id, and the party is not over its max_size. */
  ghost predicate WellFormedView(v: PartyView) {
    && (forall m :: m in v.members ==> m.partyId == v.party.id)
    && (set m | m in v.members && m.role == Owner) == {PartyMember(v.party.id, v.party.ownerId, Owner)}
    && |v.members| <= v.party.maxSize
  }

  /** Every party fetched from valid tables is well formed. */
  lemma FetchedViewWellFormed(ps: PartyTable, ms: MemberTable, pid: Uuid)
    ensures Valid(ps, ms) && pid in ps ==> WellFormedView(GetPartyWithMembers(ps, ms, pid).value)
  {
    if Valid(ps, ms) && pid in ps {
      ExactlyOneOwner(ps, ms, pid);
      MembersCount(ms, pid);
    }
  }

  // ----- Every change the handlers make keeps the invariants -----

  /** Inserting a new party together with its owner's row (CreateParty); the
      new party's only member is its owner. */
  lemma ValidAfterCreate(ps: PartyTable, ms: MemberTable, party: Party)
    requires Valid(ps, ms)
    requires party.id !in ps && party.ownerId !in ms && party.maxSize >= 1
    requires PartiesWithCode(ps, party.inviteCode) == {}
    ensures Valid(ps[party.id := party], ms[party.ownerId := PartyMember(party.id, party.ownerId, Owner)])
    ensures MembersOf(ms[party.ownerId := PartyMember(party.id, party.ownerId, Owner)], party.id)
         == {PartyMember(party.id, party.ownerId, Owner)}
  {
    var owner := PartyMember(party.id, party.ownerId, Owner);
    var ps', ms' := ps[party.id := party], ms[party.ownerId := owner];
    assert MemberIds(ms', party.id) == {party.ownerId};
    assert RowsOf(ms', {party.ownerId}) == {owner};
    forall q | q in ps ensures MemberIds(ms', q) == MemberIds(ms, q) {
    }
  }

  /** Inserting a plain member into a party below its max_size (JoinParty);
      the party gains exactly that account. */
  lemma ValidAfterJoin(ps: PartyTable, ms: MemberTable, pid: Uuid, account: Uuid)
    requires Valid(ps, ms) && pid in ps && account !in ms
    requires |MemberIds(ms, pid)| < ps[pid].maxSize
    ensures Valid(ps, ms[account := PartyMember(pid, account, Member)])
    ensures MemberIds(ms[account := PartyMember(pid, account, Member)], pid) == MemberIds(ms, pid) + {account}
  {
    var ms' := ms[account := PartyMember(pid, account, Member)];
    forall q | q in ps ensures MemberIds(ms', q) == if q == pid then MemberIds(ms, q) + {account} else MemberIds(ms, q) {
    }
  }

  /** Deleting a plain member's row (LeaveParty by a member, KickMember). */
  lemma ValidAfterRemove(ps: PartyTable, ms: MemberTable, account: Uuid)
    requires Valid(ps, ms) && account in ms && ms[account].role == Member
    ensures Valid(ps, ms - {account})
  {
    var ms' := ms - {account};
    forall q | q in ps ensures |MemberIds(ms', q)| <= ps[q].maxSize {
      if q == ms[account].partyId {
        assert MemberIds(ms', q) == MemberIds(ms, q) - {account};
      } else {
        assert MemberIds(ms', q) == MemberIds(ms, q);
      }
    }
  }

  /** An owner is the only owner-role member of its party, so any other
      member of that party has role member. */
  lemma OthersAreMembers(ps: PartyTable, ms: MemberTable, owner: Uuid, other: Uuid)
    requires Valid(ps, ms) && owner in ms && ms[owner].role == Owner
    requires other in ms && other != owner && ms[other].partyId == ms[owner].partyId
    ensures ms[other].role == Member
  {
  }

  /** Swapping the roles of the owner and another member of the same party
      and moving owner_id to that member (TransferOwnership). */
  lemma ValidAfterTransfer(ps: PartyTable, ms: MemberTable, owner: Uuid, heir: Uuid)
    requires Valid(ps, ms) && owner in ms && ms[owner].role == Owner
    requires heir in ms && heir != owner && ms[heir].partyId == ms[owner].partyId
    ensures
      var pid := ms[owner].partyId;
      Valid(ps[pid := ps[pid].(ownerId := heir)],
            ms[owner := PartyMember(pid, owner, Member)][heir := PartyMember(pid, heir, Owner)])
  {
    var pid := ms[owner].partyId;
    OthersAreMembers(ps, ms, owner, heir);
    var ms' := ms[owner := PartyMember(pid, owner, Member)][heir := PartyMember(pid, heir, Owner)];
    var ps' := ps[pid := ps[pid].(ownerId := heir)];
    assert ps[pid].ownerId == owner;
    forall q | q in ps' ensures MemberIds(ms', q) == MemberIds(ms, q) {
    }
    assert OwnersAreOwnerIds(ps', ms') by {
      forall a | a in ms' && ms'[a].role == Owner ensures ms'[a].partyId in ps' && ps'[ms'[a].partyId].ownerId == a {
        if a != heir {
          assert a != owner && ms'[a] == ms[a];
        }
      }
    }
    assert OwnerIsMember(ps', ms') by {
      forall q | q in ps' ensures ps'[q].ownerId in ms' && ms'[ps'[q].ownerId].partyId == q && ms'[ps'[q].ownerId].role == Owner {
        if q != pid {
          assert ps[q].ownerId != owner && ps[q].ownerId != heir;
        }
      }
    }
    assert CodesUnique(ps') by {
      forall p, q | p in ps' && q in ps' && ps'[p].inviteCode == ps'[q].inviteCode ensures p == q {
        assert ps'[p].inviteCode == ps[p].inviteCode && ps'[q].inviteCode == ps[q].inviteCode;
      }
    }
  }

  /** Deleting a party's memberships and then the party (disbandParty); no
      account is left in that party. */
  lemma ValidAfterDisband(ps: PartyTable, ms: MemberTable, pid: Uuid)
    requires Valid(ps, ms)
    ensures Valid(ps - {pid}, WithoutParty(ms, pid))
    ensures MemberIds(WithoutParty(ms, pid), pid) == {}
  {
    var ms' := WithoutParty(ms, pid);
    forall q | q in ps && q != pid ensures MemberIds(ms', q) == MemberIds(ms, q) {
    }
  }

  /** Giving a party a code that no other party holds (RegenerateInvite). */
  lemma ValidAfterRecode(ps: PartyTable, ms: MemberTable, pid: Uuid, code: string)
    requires Valid(ps, ms) && pid in ps
    requires forall q :: q in ps && ps[q].inviteCode == code ==> q == pid
    ensures Valid(ps[pid := ps[pid].(inviteCode := code)], ms)
  {
    var ps' := ps[pid := ps[pid].(inviteCode := code)];
    forall p, q | p in ps' && q in ps' && ps'[p].inviteCode == ps'[q].inviteCode ensures p == q {
      if p != pid && q != pid {
        assert ps'[p] == ps[p] && ps'[q] == ps[q];
        assert p == q;
      }
    }
  }
}
