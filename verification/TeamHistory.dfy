/** What every run of the team's writers keeps. */
module TeamHistory {
  import opened Rows
  import opened Team

  // ---------------------------------------------------------------------------------------------
  // One owner

  /** Exactly one owner row for each company: the company's owner, at the highest level. */
  ghost predicate OneOwner(t: Teams) {
    && (forall c | c in t.companies :: Seat(c, t.companies[c]) in t.members && t.members[Seat(c, t.companies[c])] == Member(Owner, MAX_LEVEL))
    && (forall seat | seat in t.members :: seat.company in t.companies)
    && (forall seat | seat in t.members && t.members[seat].role == Owner :: seat.user == t.companies[seat.company])
  }

  /** At most one invitation for each address of a company. */
  ghost predicate OneInviteEach(t: Teams) {
    && (forall i | i in t.invites :: i < t.unused && t.invites[i].company in t.companies)
    && (forall i, j | i in t.invites && j in t.invites && t.invites[i].company == t.invites[j].company && t.invites[i].email == t.invites[j].email :: i == j)
  }

  /** A person is one member of the company, and no member is two persons. */
  ghost predicate PersonsAreMembers(t: Teams) {
    && (forall p | p in t.principals :: p < t.unused && t.principals[p].company in t.companies)
    && (forall p | p in t.principals :: t.principals[p].kind == Person <==> t.principals[p].user.Some?)
    && (forall p | p in t.principals && t.principals[p].user.Some? :: Seat(t.principals[p].company, t.principals[p].user.value) in t.members)
    && (forall p, q | p in t.principals && q in t.principals && t.principals[p].company == t.principals[q].company
          && t.principals[p].user == t.principals[q].user && t.principals[p].user.Some? :: p == q)
  }

  ghost predicate AddressesResolve(t: Teams) {
    forall b | b in t.identities :: t.identities[b] in t.principals && t.principals[t.identities[b]].company == b.company
  }

  ghost predicate Kept(t: Teams) {
    OneOwner(t) && OneInviteEach(t) && PersonsAreMembers(t) && AddressesResolve(t)
  }

  lemma EnrolKeepsPersons(t: Teams, c: CompanyId, user: UserId, email: Email)
    requires PersonsAreMembers(t) && AddressesResolve(t) && c in t.companies && Seat(c, user) in t.members
    ensures var r := Enrolled(t, c, user, email); r.Some? ==> PersonsAreMembers(r.value)
  {
  }

  lemma EnrolKeepsAddresses(t: Teams, c: CompanyId, user: UserId, email: Email)
    requires PersonsAreMembers(t) && AddressesResolve(t)
    ensures var r := Enrolled(t, c, user, email); r.Some? ==>
      && AddressesResolve(r.value) && r.value.unused >= t.unused
      && r.value == t.(principals := r.value.principals, identities := r.value.identities, unused := r.value.unused)
  {
  }

  /** The seats of a new company, or of a new or changed member. */
  lemma SeatKeepsPersons(t: Teams, companies: map<CompanyId, UserId>, seat: Seat, m: Member, invites: map<InviteId, Invite>)
    requires PersonsAreMembers(t) && AddressesResolve(t) && t.companies.Keys <= companies.Keys
    ensures var t' := t.(companies := companies, members := t.members[seat := m], invites := invites);
      PersonsAreMembers(t') && AddressesResolve(t')
  {
  }

  lemma FoundingKeeps(t: Teams, user: UserId, c: CompanyId)
    requires Kept(t)
    ensures Kept(CreateCompany(t, user, c).teams)
    ensures user in t.accounts && c !in t.companies ==> CreateCompany(t, user, c).answer == Done
  {
    if user in t.accounts && c !in t.companies {
      var companies := t.companies[c := user];
      var t1 := t.(companies := companies, members := t.members[Seat(c, user) := Member(Owner, MAX_LEVEL)]);
      SeatKeepsPersons(t, companies, Seat(c, user), Member(Owner, MAX_LEVEL), t.invites);
      EnrolKeepsPersons(t1, c, user, t.accounts[user].email);
      EnrolKeepsAddresses(t1, c, user, t.accounts[user].email);
      assert !HasPrincipal(t1, c, user);
      assert OneOwner(t1);
    }
  }

  /** An invitation written where no other is for its address. */
  lemma WritingAnInviteKeeps(t: Teams, i: InviteId, invite: Invite, unused: nat)
    requires Kept(t) && i < unused && t.unused <= unused && invite.company in t.companies
    requires forall j | j in t.invites && IsFor(t, j, invite.company, invite.email) :: j == i
    ensures Kept(t.(invites := t.invites[i := invite], unused := unused))
  {
    var t' := t.(invites := t.invites[i := invite], unused := unused);
    assert forall j | j in t.invites && j != i :: !IsFor(t, j, invite.company, invite.email);
    assert OneInviteEach(t');
  }

  lemma InvitingKeeps(t: Teams, actor: UserId, c: CompanyId, email: Email, role: InviteRole, level: Level)
    requires Kept(t)
    ensures Kept(CreateInvite(t, actor, c, email, role, level, Known(t, c, email)).teams)
  {
    var known := Known(t, c, email);
    var invite := Invite(c, email, role, level, Pending);
    if CreateInvite(t, actor, c, email, role, level, known).answer == Done {
      WritingAnInviteKeeps(t, if known.Some? then known.value else t.unused, invite, if known.Some? then t.unused else t.unused + 1);
    }
  }

  lemma RewritingKeeps(t: Teams, actor: UserId, c: CompanyId, i: InviteId, email: Email, role: Option<InviteRole>, level: Option<Level>)
    requires Kept(t)
    ensures Kept(UpdateInvite(t, actor, c, i, email, role, level).teams)
  {
    var r := UpdateInvite(t, actor, c, i, email, role, level);
    if r.answer == Done {
      WritingAnInviteKeeps(t, i, r.teams.invites[i], t.unused);
    }
  }

  lemma LevellingInviteKeeps(t: Teams, actor: UserId, c: CompanyId, i: InviteId, level: Level)
    requires Kept(t)
    ensures Kept(SetInviteLevel(t, actor, c, i, level).teams)
  {
    var r := SetInviteLevel(t, actor, c, i, level);
    if r.answer == Done {
      WritingAnInviteKeeps(t, i, r.teams.invites[i], t.unused);
    }
  }

  lemma DecliningKeeps(t: Teams, i: InviteId, user: UserId, email: Email)
    requires Kept(t)
    ensures Kept(Decline(t, i, user, email).teams)
  {
    var r := Decline(t, i, user, email);
    if r.teams != t {
      WritingAnInviteKeeps(t, i, r.teams.invites[i], t.unused);
    }
  }

  lemma DeletingKeeps(t: Teams, i: InviteId)
    requires Kept(t)
    ensures Kept(DeleteInvite(t, i).teams)
  {
    assert OneInviteEach(DeleteInvite(t, i).teams);
  }

  lemma SeatingKeeps(t: Teams, op: Op)
    requires Kept(t) && (op.LevellingMember? || op.Promoting?)
    ensures Kept(Step(t, op).teams)
  {
    var t', seat := Step(t, op).teams, Seat(op.company, op.user);
    if t' != t {
      assert t' == t.(members := t.members[seat := t'.members[seat]]);
      SeatKeepsPersons(t, t.companies, seat, t'.members[seat], t.invites);
    }
  }

  /** The rows an acceptance writes before the principal. */
  function Seated(t: Teams, i: InviteId, user: UserId): Teams
    requires i in t.invites
  {
    var seat := Seat(t.invites[i].company, user);
    t.(invites := t.invites[i := t.invites[i].(status := Accepted)],
       members := t.members[seat := Joined(MemberAt(t, seat), t.invites[i])])
  }

  lemma SeatingKeepsTheTeam(t: Teams, i: InviteId, user: UserId)
    requires Kept(t) && i in t.invites
    ensures Kept(Seated(t, i, user))
  {
    var invite, seat := t.invites[i], Seat(t.invites[i].company, user);
    SeatKeepsPersons(t, t.companies, seat, Joined(MemberAt(t, seat), invite), t.invites[i := invite.(status := Accepted)]);
    assert OneOwner(Seated(t, i, user)) && OneInviteEach(Seated(t, i, user));
  }

  lemma EnrolKeeps(t: Teams, c: CompanyId, user: UserId, email: Email)
    requires Kept(t) && c in t.companies && Seat(c, user) in t.members
    ensures Enrolled(t, c, user, email).Some? ==> Kept(Enrolled(t, c, user, email).value)
  {
    EnrolKeepsPersons(t, c, user, email);
    EnrolKeepsAddresses(t, c, user, email);
  }

  lemma AcceptingKeeps(t: Teams, i: InviteId, user: UserId, email: Email)
    requires Kept(t)
    ensures Kept(Accept(t, i, user, email).teams)
  {
    if Accept(t, i, user, email).teams != t {
      SeatingKeepsTheTeam(t, i, user);
      EnrolKeeps(Seated(t, i, user), t.invites[i].company, user, email);
    }
  }

  lemma RemovingKeeps(t: Teams, c: CompanyId, user: UserId)
    requires Kept(t)
    ensures Kept(RemoveMember(t, c, user).teams)
  {
  }

  lemma OutsiderKeeps(t: Teams, c: CompanyId, email: Email)
    requires Kept(t) && c in t.companies
    ensures Kept(AsOutsider(t, c, email))
  {
    var t' := AsOutsider(t, c, email);
    assert PersonsAreMembers(t') && AddressesResolve(t');
  }

  lemma AddressMoveKeeps(t: Teams, box: Mailbox, p: PrincipalId)
    requires Kept(t) && p in t.principals && t.principals[p].company == box.company
    ensures Kept(t.(identities := t.identities[box := p]))
  {
    var t' := t.(identities := t.identities[box := p]);
    assert OneOwner(t') && OneInviteEach(t') && PersonsAreMembers(t') && AddressesResolve(t');
  }

  lemma RekeyKeeps(t: Teams, c: CompanyId, p: PrincipalId, user: UserId, former: Email, name: Email)
    requires Kept(t)
    ensures Kept(Rekey(t, c, p, user, former, name).teams)
  {
    if Rekey(t, c, p, user, former, name).answer == Done {
      var t1 := if Mailbox(c, former) in t.identities && t.identities[Mailbox(c, former)] == p then AsOutsider(t, c, former) else t;
      assert c in t.companies && p < t.unused;
      OutsiderKeeps(t, c, former);
      AddressMoveKeeps(t1, Mailbox(c, name), p);
    }
  }

  lemma StepKeeps(t: Teams, op: Op)
    requires Kept(t)
    ensures Kept(Step(t, op).teams)
  {
    match op
    case SetAccount(user, account) =>
    case Observing(c, email) =>
      if c in t.companies {
        OutsiderKeeps(t, c, email);
      }
    case Rekeying(c, p, user, former, name) => RekeyKeeps(t, c, p, user, former, name);
    case Found(user, c) => FoundingKeeps(t, user, c);
    case Inviting(actor, c, email, role, level) => InvitingKeeps(t, actor, c, email, role, level);
    case Rewriting(actor, c, i, email, role, level) => RewritingKeeps(t, actor, c, i, email, role, level);
    case LevellingMember(_, _, _, _) => SeatingKeeps(t, op);
    case LevellingInvite(actor, c, i, level) => LevellingInviteKeeps(t, actor, c, i, level);
    case Deleting(i) => DeletingKeeps(t, i);
    case Accepting(i, user, email) => AcceptingKeeps(t, i, user, email);
    case Declining(i, user, email) => DecliningKeeps(t, i, user, email);
    case Promoting(_, _, _) => SeatingKeeps(t, op);
    case Removing(c, user) => RemovingKeeps(t, c, user);
  }

  /**
   From any team state that has them, every run keeps exactly one owner row for each company, the
   company's owner at level nine; one invitation for an address; and a person principal for members
   only, one each. The empty state has them.
   */
  lemma {:induction false} EveryRunKeepsTheTeam(t: Teams, ops: seq<Op>)
    requires Kept(t)
    ensures Kept(Run(t, ops))
    decreases |ops|
  {
    if ops != [] {
      EveryRunKeepsTheTeam(t, ops[..|ops| - 1]);
      StepKeeps(Run(t, ops[..|ops| - 1]), ops[|ops| - 1]);
    }
  }

  lemma RunsFromNothingKeepTheTeam(ops: seq<Op>)
    ensures Kept(NoTeams()) && Kept(Run(NoTeams(), ops))
  {
    EveryRunKeepsTheTeam(NoTeams(), ops);
  }

  // ---------------------------------------------------------------------------------------------
  // Acceptance

  /**
   Acceptance gives a new member the invitation's role and level, changes only the role of a member
   who is not the owner, leaves an owner as they were, and touches no other seat or invitation.
   */
  lemma AcceptanceSeatsOne(t: Teams, i: InviteId, user: UserId, email: Email)
    requires i in t.invites && t.invites[i].status == Pending && Accept(t, i, user, email).answer == Done
    ensures var t', invite := Accept(t, i, user, email).teams, t.invites[i];
      var seat := Seat(invite.company, user);
      && t'.members.Keys == t.members.Keys + {seat}
      && t'.members[seat].role == (if seat in t.members && t.members[seat].role == Owner then Owner
                                   else if invite.role == InviteAdmin then Admin else Plain)
      && t'.members[seat].level == (if seat in t.members then t.members[seat].level else invite.level)
      && (forall other | other in t.members && other != seat :: t'.members[other] == t.members[other])
      && t'.invites == t.invites[i := invite.(status := Accepted)]
  {
    var t1 := t.(invites := t.invites[i := t.invites[i].(status := Accepted)],
                 members := t.members[Seat(t.invites[i].company, user) := Joined(MemberAt(t, Seat(t.invites[i].company, user)), t.invites[i])]);
    EnrolKeepsSeats(t1, t.invites[i].company, user, email);
  }

  lemma EnrolKeepsSeats(t: Teams, c: CompanyId, user: UserId, email: Email)
    ensures var r := Enrolled(t, c, user, email); r.Some? ==> r.value.members == t.members && r.value.invites == t.invites && r.value.accounts == t.accounts
  {
  }

  /** After acceptance the account is a person of the company and holds its address. */
  lemma AcceptanceMakesAPerson(t: Teams, i: InviteId, user: UserId, email: Email)
    requires Kept(t) && i in t.invites && t.invites[i].status == Pending && Accept(t, i, user, email).answer == Done
    ensures var t', box := Accept(t, i, user, email).teams, Mailbox(t.invites[i].company, email);
      && box in t'.identities && t'.identities[box] in t'.principals
      && t'.principals[t'.identities[box]] == Principal(t.invites[i].company, Person, Some(user))
  {
    var c := t.invites[i].company;
    var t1 := t.(invites := t.invites[i := t.invites[i].(status := Accepted)],
                 members := t.members[Seat(c, user) := Joined(MemberAt(t, Seat(c, user)), t.invites[i])]);
    EnrolGivesTheAddress(t1, c, user, email);
  }

  lemma EnrolGivesTheAddress(t: Teams, c: CompanyId, user: UserId, email: Email)
    requires AddressesResolve(t)
    ensures var r, box := Enrolled(t, c, user, email), Mailbox(c, email); r.Some? ==>
      && box in r.value.identities && r.value.identities[box] in r.value.principals
      && r.value.principals[r.value.identities[box]] == Principal(c, Person, Some(user))
  {
  }

  /** An outsider the company already knew by the address becomes the person, and stays the same principal. */
  lemma AcceptancePromotesTheOutsider(t: Teams, i: InviteId, user: UserId, email: Email, p: PrincipalId)
    requires Kept(t) && i in t.invites && t.invites[i].status == Pending && VerifiedAddress(t, user, email) && t.invites[i].email == email
    requires Mailbox(t.invites[i].company, email) in t.identities && t.identities[Mailbox(t.invites[i].company, email)] == p
    requires t.principals[p].kind == External
    ensures var r, c := Accept(t, i, user, email), t.invites[i].company;
      if HasPrincipal(t, c, user) then r == Outcome(t, Refused(Conflict))
      else r.answer == Done && r.teams.principals == t.principals[p := Principal(c, Person, Some(user))] && r.teams.identities == t.identities
  {
    var c := t.invites[i].company;
    var t1 := Seated(t, i, user);
    assert HasPrincipal(t1, c, user) <==> HasPrincipal(t, c, user);
    assert t.principals[p].company == c;
  }

  /** Accepting again answers the same and changes nothing. */
  lemma AcceptingAgainIsANoOp(t: Teams, i: InviteId, user: UserId, email: Email)
    requires Accept(t, i, user, email).answer == Done
    ensures var once := Accept(t, i, user, email);
      Accept(once.teams, i, user, email) == once
  {
    if t.invites[i].status == Pending {
      AcceptanceSeatsOne(t, i, user, email);
      var c := t.invites[i].company;
      var t1 := t.(invites := t.invites[i := t.invites[i].(status := Accepted)],
                   members := t.members[Seat(c, user) := Joined(MemberAt(t, Seat(c, user)), t.invites[i])]);
      EnrolKeepsSeats(t1, c, user, email);
    }
  }

  // ---------------------------------------------------------------------------------------------
  // Who may write what

  predicate IsOwner(t: Teams, actor: UserId, c: CompanyId) {
    actor in t.accounts && c in t.companies && t.companies[c] == actor
  }

  /** An admin whose own level covers both the level that is and the one that is wanted. */
  predicate IsAdminAbove(t: Teams, actor: UserId, c: CompanyId, current: Level, wanted: Level) {
    && actor in t.accounts && c in t.companies && Seat(c, actor) in t.members
    && t.members[Seat(c, actor)].role == Admin
    && current <= t.members[Seat(c, actor)].level && wanted <= t.members[Seat(c, actor)].level
  }

  /** All but one invitation is as it was. */
  ghost predicate OneInviteWritten(t: Teams, t': Teams, i: InviteId, invite: Invite) {
    && i in t'.invites && t'.invites[i] == invite
    && (forall j | j != i :: (j in t'.invites <==> j in t.invites) && (j in t.invites ==> t'.invites[j] == t.invites[j]))
    && t'.members == t.members && t'.principals == t.principals && t'.identities == t.identities && t'.companies == t.companies
  }

  /**
   An invitation is written exactly when the owner asks and it is not for the owner's own address, and
   then it is the address's one invitation, open, with the role and level asked for.
   */
  lemma OnlyTheOwnerInvites(t: Teams, actor: UserId, c: CompanyId, email: Email, role: InviteRole, level: Level)
    requires Kept(t)
    ensures var r := Step(t, Inviting(actor, c, email, role, level));
      && (r.answer == Done <==> IsOwner(t, actor, c) && t.accounts[actor].email != email)
      && (r.answer != Done ==> r.teams == t)
      && (r.answer == Done ==>
            exists i :: OneInviteWritten(t, r.teams, i, Invite(c, email, role, level, Pending)) && (i in t.invites ==> IsFor(t, i, c, email)))
  {
    var r, known := Step(t, Inviting(actor, c, email, role, level)), Known(t, c, email);
    if r.answer == Done {
      var i := if known.Some? then known.value else t.unused;
      assert OneInviteWritten(t, r.teams, i, Invite(c, email, role, level, Pending));
    }
  }

  /** An open invitation is rewritten exactly when the owner asks for an address that is free and not the owner's. */
  lemma OnlyTheOwnerRewrites(t: Teams, actor: UserId, c: CompanyId, i: InviteId, email: Email, role: Option<InviteRole>, level: Option<Level>)
    requires Kept(t)
    ensures var r := UpdateInvite(t, actor, c, i, email, role, level);
      && (r.answer == Done <==>
            && IsOwner(t, actor, c) && t.accounts[actor].email != email
            && i in t.invites && t.invites[i].company == c && t.invites[i].status == Pending
            && (forall j | IsFor(t, j, c, email) :: j == i))
      && (r.answer != Done ==> r.teams == t)
      && (r.answer == Done ==> OneInviteWritten(t, r.teams, i,
            Invite(c, email, if role.Some? then role.value else t.invites[i].role,
                   if level.Some? then level.value else t.invites[i].level, Pending)))
  {
  }

  /** A member's level changes exactly when the member is not the owner and the actor is, or is an admin at or above both levels. */
  lemma LevelsChangeExactlyWithAuthority(t: Teams, actor: UserId, c: CompanyId, user: UserId, level: Level)
    requires Kept(t)
    ensures var r, seat := SetMemberLevel(t, actor, c, user, level), Seat(c, user);
      && (r.answer == Done <==>
            && seat in t.members && user != t.companies[c]
            && (IsOwner(t, actor, c) || IsAdminAbove(t, actor, c, t.members[seat].level, level)))
      && (r.answer != Done ==> r.teams == t)
      && (r.answer == Done ==> r.teams == t.(members := t.members[seat := Member(t.members[seat].role, level)]))
  {
    assert c in t.companies && Seat(c, actor) in t.members ==> (t.members[Seat(c, actor)].role == Owner <==> actor == t.companies[c]);
    assert Seat(c, user) in t.members ==> c in t.companies && (t.members[Seat(c, user)].role == Owner <==> user == t.companies[c]);
  }

  /** So does an open invitation's. */
  lemma InviteLevelsChangeExactlyWithAuthority(t: Teams, actor: UserId, c: CompanyId, i: InviteId, level: Level)
    requires Kept(t)
    ensures var r := SetInviteLevel(t, actor, c, i, level);
      && (r.answer == Done <==>
            && i in t.invites && t.invites[i].company == c && t.invites[i].status == Pending
            && (IsOwner(t, actor, c) || IsAdminAbove(t, actor, c, t.invites[i].level, level)))
      && (r.answer != Done ==> r.teams == t)
      && (r.answer == Done ==> OneInviteWritten(t, r.teams, i, t.invites[i].(level := level)))
  {
    assert c in t.companies && Seat(c, actor) in t.members ==> (t.members[Seat(c, actor)].role == Owner <==> actor == t.companies[c]);
  }

  /** A role is written for any member but the owner, and only the role. */
  lemma RolesAreForMembers(t: Teams, c: CompanyId, user: UserId, role: InviteRole)
    requires Kept(t)
    ensures var r, seat := UpdateRole(t, c, user, role), Seat(c, user);
      && (r.answer == Done <==> seat in t.members && user != t.companies[c])
      && r.teams == (if r.answer == Done
                     then t.(members := t.members[seat := Member(if role == InviteAdmin then Admin else Plain, t.members[seat].level)])
                     else t)
  {
    assert Seat(c, user) in t.members ==> c in t.companies && (t.members[Seat(c, user)].role == Owner <==> user == t.companies[c]);
  }

  /** Declining closes only one's own open invitation, and answers the same again. */
  lemma DecliningIsOnesOwn(t: Teams, i: InviteId, user: UserId, email: Email)
    ensures var r, own := Decline(t, i, user, email), VerifiedAddress(t, user, email) && i in t.invites && t.invites[i].email == email;
      && (r.answer == Done <==> own && t.invites[i].status != Accepted)
      && (own && t.invites[i].status == Pending ==> OneInviteWritten(t, r.teams, i, t.invites[i].(status := Declined)))
      && (!own || t.invites[i].status != Pending ==> r.teams == t)
      && (r.answer == Done ==> Decline(r.teams, i, user, email) == r)
  {
  }

  // ---------------------------------------------------------------------------------------------
  // Every change has a cause

  function InviteAt(t: Teams, i: InviteId): Option<Invite> {
    if i in t.invites then Some(t.invites[i]) else None
  }

  predicate IsOpenFor(t: Teams, i: InviteId, user: UserId, email: Email) {
    i in t.invites && t.invites[i].status == Pending && t.invites[i].email == email && VerifiedAddress(t, user, email)
  }

  predicate NotTheOwners(t: Teams, seat: Seat) {
    seat.company in t.companies && t.companies[seat.company] != seat.user
  }

  /** Whether the step may change a seat, and is made by someone who may. */
  predicate MayChangeSeat(t: Teams, op: Op, seat: Seat) {
    match op
    case Found(user, c) => seat == Seat(c, user) && user in t.accounts && c !in t.companies
    case LevellingMember(actor, c, user, level) =>
      && seat == Seat(c, user) && seat in t.members && NotTheOwners(t, seat)
      && (IsOwner(t, actor, c) || IsAdminAbove(t, actor, c, t.members[seat].level, level))
    case Accepting(i, user, email) =>
      IsOpenFor(t, i, user, email) && seat == Seat(t.invites[i].company, user) && NotTheOwners(t, seat)
    case Promoting(c, user, _) => seat == Seat(c, user) && seat in t.members && NotTheOwners(t, seat)
    case Removing(c, user) => seat == Seat(c, user) && seat in t.members && NotTheOwners(t, seat)
    case _ => false
  }

  predicate MayChangeInvite(t: Teams, op: Op, i: InviteId) {
    match op
    case Inviting(actor, c, email, _, _) =>
      IsOwner(t, actor, c) && t.accounts[actor].email != email && (i in t.invites ==> IsFor(t, i, c, email))
    case Rewriting(actor, c, j, email, _, _) =>
      i == j && IsOwner(t, actor, c) && t.accounts[actor].email != email && i in t.invites && t.invites[i].status == Pending
    case LevellingInvite(actor, c, j, level) =>
      && i == j && i in t.invites && t.invites[i].status == Pending
      && (IsOwner(t, actor, c) || IsAdminAbove(t, actor, c, t.invites[i].level, level))
    case Deleting(j) => i == j
    case Accepting(j, user, email) => i == j && IsOpenFor(t, i, user, email)
    case Declining(j, user, email) => i == j && IsOpenFor(t, i, user, email)
    case _ => false
  }

  predicate WritesSeats(op: Op) {
    op.LevellingMember? || op.Promoting? || op.Removing? || op.Accepting? || op.Found?
  }

  lemma OtherStepsKeepSeats(t: Teams, op: Op)
    requires !WritesSeats(op)
    ensures Step(t, op).teams.members == t.members
  {
  }

  lemma RemovingHasACause(t: Teams, c: CompanyId, user: UserId, seat: Seat)
    requires OneOwner(t) && MemberAt(RemoveMember(t, c, user).teams, seat) != MemberAt(t, seat)
    ensures seat == Seat(c, user) && seat in t.members && NotTheOwners(t, seat)
  {
    assert Seat(c, user) in t.members ==> c in t.companies && (t.members[Seat(c, user)].role == Owner <==> user == t.companies[c]);
  }

  lemma SeatStepHasACause(t: Teams, op: Op, seat: Seat)
    requires Kept(t) && MemberAt(Step(t, op).teams, seat) != MemberAt(t, seat) && !op.Accepting? && !op.Found?
    ensures MayChangeSeat(t, op, seat)
  {
    if !WritesSeats(op) {
      OtherStepsKeepSeats(t, op);
    } else if op.LevellingMember? {
      LevelsChangeExactlyWithAuthority(t, op.actor, op.company, op.user, op.level);
    } else if op.Promoting? {
      RolesAreForMembers(t, op.company, op.user, op.role);
    } else {
      RemovingHasACause(t, op.company, op.user, seat);
    }
  }

  lemma JoiningHasACause(t: Teams, op: Op, seat: Seat)
    requires Kept(t) && MemberAt(Step(t, op).teams, seat) != MemberAt(t, seat) && (op.Accepting? || op.Found?)
    ensures MayChangeSeat(t, op, seat)
  {
    if op.Accepting? {
      if Step(t, op).answer == Done && t.invites[op.invite].status == Pending {
        AcceptanceSeatsOne(t, op.invite, op.user, op.email);
      }
    } else if op.user in t.accounts {
      FoundingKeepsSeats(t, op.user, op.company);
    }
  }

  lemma InvitingHasACause(t: Teams, op: Op, i: InviteId)
    requires Kept(t) && InviteAt(Step(t, op).teams, i) != InviteAt(t, i) && op.Inviting?
    ensures MayChangeInvite(t, op, i)
  {
    var r, known := Step(t, op), Known(t, op.company, op.email);
    OnlyTheOwnerInvites(t, op.actor, op.company, op.email, op.role, op.level);
    assert r.teams.invites == t.invites[(if known.Some? then known.value else t.unused) := Invite(op.company, op.email, op.role, op.level, Pending)];
  }

  lemma OwnersAndAdminsHaveACause(t: Teams, op: Op, i: InviteId)
    requires Kept(t) && InviteAt(Step(t, op).teams, i) != InviteAt(t, i) && (op.Rewriting? || op.LevellingInvite?)
    ensures MayChangeInvite(t, op, i)
  {
    if op.Rewriting? {
      OnlyTheOwnerRewrites(t, op.actor, op.company, op.invite, op.email, op.newRole, op.newLevel);
    } else {
      InviteLevelsChangeExactlyWithAuthority(t, op.actor, op.company, op.invite, op.level);
    }
  }

  lemma InviteStepHasACause(t: Teams, op: Op, i: InviteId)
    requires Kept(t) && InviteAt(Step(t, op).teams, i) != InviteAt(t, i) && !op.Accepting? && !op.Found?
    ensures MayChangeInvite(t, op, i)
  {
    if op.Inviting? {
      InvitingHasACause(t, op, i);
    } else if op.Rewriting? || op.LevellingInvite? {
      OwnersAndAdminsHaveACause(t, op, i);
    }
  }

  lemma AnsweringHasACause(t: Teams, op: Op, i: InviteId)
    requires Kept(t) && InviteAt(Step(t, op).teams, i) != InviteAt(t, i) && (op.Accepting? || op.Found?)
    ensures MayChangeInvite(t, op, i)
  {
    if op.Accepting? {
      if Step(t, op).answer == Done && t.invites[op.invite].status == Pending {
        AcceptanceSeatsOne(t, op.invite, op.user, op.email);
      }
    } else if op.user in t.accounts {
      FoundingKeepsSeats(t, op.user, op.company);
    }
  }

  lemma LastStepHasACause(t: Teams, ops: seq<Op>, seat: Seat, i: InviteId)
    requires Kept(t) && ops != []
    ensures var s, op := Run(t, ops[..|ops| - 1]), ops[|ops| - 1];
      && (MemberAt(Run(t, ops), seat) != MemberAt(s, seat) ==> MayChangeSeat(s, op, seat))
      && (InviteAt(Run(t, ops), i) != InviteAt(s, i) ==> MayChangeInvite(s, op, i))
  {
    var s, op := Run(t, ops[..|ops| - 1]), ops[|ops| - 1];
    EveryRunKeepsTheTeam(t, ops[..|ops| - 1]);
    StepHasACause(s, op, seat, i);
  }

  lemma StepHasACause(t: Teams, op: Op, seat: Seat, i: InviteId)
    requires Kept(t)
    ensures MemberAt(Step(t, op).teams, seat) != MemberAt(t, seat) ==> MayChangeSeat(t, op, seat)
    ensures InviteAt(Step(t, op).teams, i) != InviteAt(t, i) ==> MayChangeInvite(t, op, i)
  {
    var t' := Step(t, op).teams;
    if MemberAt(t', seat) != MemberAt(t, seat) {
      if op.Accepting? || op.Found? {
        JoiningHasACause(t, op, seat);
      } else {
        SeatStepHasACause(t, op, seat);
      }
    }
    if InviteAt(t', i) != InviteAt(t, i) {
      if op.Accepting? || op.Found? {
        AnsweringHasACause(t, op, i);
      } else {
        InviteStepHasACause(t, op, i);
      }
    }
  }

  /** Step `k` of a run may change the seat, or the invitation. */
  predicate SeatCausedAt(t: Teams, ops: seq<Op>, seat: Seat, k: nat) {
    k < |ops| && MayChangeSeat(Run(t, ops[..k]), ops[k], seat)
  }

  predicate InviteCausedAt(t: Teams, ops: seq<Op>, i: InviteId, k: nat) {
    k < |ops| && MayChangeInvite(Run(t, ops[..k]), ops[k], i)
  }

  lemma CausedInFront(t: Teams, ops: seq<Op>, seat: Seat, i: InviteId, k: nat)
    requires k < |ops| - 1
    ensures SeatCausedAt(t, ops[..|ops| - 1], seat, k) <==> SeatCausedAt(t, ops, seat, k)
    ensures InviteCausedAt(t, ops[..|ops| - 1], i, k) <==> InviteCausedAt(t, ops, i, k)
  {
    assert ops[..|ops| - 1][..k] == ops[..k];
  }

  /** A seat that a run leaves other than it found it was changed by a step that may change it, made by someone who may. */
  lemma {:induction false} EverySeatChangeHasACause(t: Teams, ops: seq<Op>, seat: Seat) returns (k: nat)
    requires Kept(t) && MemberAt(Run(t, ops), seat) != MemberAt(t, seat)
    ensures SeatCausedAt(t, ops, seat, k)
    decreases |ops|
  {
    var front := ops[..|ops| - 1];
    if MemberAt(Run(t, front), seat) != MemberAt(t, seat) {
      k := EverySeatChangeHasACause(t, front, seat);
      CausedInFront(t, ops, seat, 0, k);
    } else {
      k := |ops| - 1;
      LastStepHasACause(t, ops, seat, 0);
    }
  }

  /** And so was an invitation. */
  lemma {:induction false} EveryInviteChangeHasACause(t: Teams, ops: seq<Op>, i: InviteId) returns (k: nat)
    requires Kept(t) && InviteAt(Run(t, ops), i) != InviteAt(t, i)
    ensures InviteCausedAt(t, ops, i, k)
    decreases |ops|
  {
    var front := ops[..|ops| - 1];
    if InviteAt(Run(t, front), i) != InviteAt(t, i) {
      k := EveryInviteChangeHasACause(t, front, i);
      CausedInFront(t, ops, Seat(0, 0), i, k);
    } else {
      k := |ops| - 1;
      LastStepHasACause(t, ops, Seat(0, 0), i);
    }
  }

  /** The step that a seat's role and level can come from. */
  predicate Gives(t: Teams, op: Op, seat: Seat, m: Member) {
    match op
    case Found(user, c) => seat == Seat(c, user) && m == Member(Owner, 9)
    case Accepting(i, user, email) =>
      && IsOpenFor(t, i, user, email) && seat == Seat(t.invites[i].company, user)
      && (m.role == Admin <==> t.invites[i].role == InviteAdmin) && (m.role == Plain <==> t.invites[i].role == InvitePlain)
      && m.level == (if seat in t.members then t.members[seat].level else t.invites[i].level)
    case Promoting(c, user, role) =>
      && seat == Seat(c, user) && seat in t.members && m.level == t.members[seat].level
      && (m.role == Admin <==> role == InviteAdmin) && (m.role == Plain <==> role == InvitePlain)
    case LevellingMember(_, c, user, level) =>
      seat == Seat(c, user) && seat in t.members && m == Member(t.members[seat].role, level)
    case _ => false
  }

  lemma StepGives(t: Teams, op: Op, seat: Seat)
    requires Kept(t) && seat in Step(t, op).teams.members && MemberAt(Step(t, op).teams, seat) != MemberAt(t, seat)
    ensures Gives(t, op, seat, Step(t, op).teams.members[seat])
  {
    StepHasACause(t, op, seat, 0);
    match op
    case Accepting(i, user, email) =>
      if t.invites[i].status == Pending {
        AcceptanceSeatsOne(t, i, user, email);
        assert seat in t.members ==> (t.members[seat].role == Owner <==> seat.user == t.companies[seat.company]);
      }
    case Found(user, c) => FoundingKeepsSeats(t, user, c);
    case Promoting(c, user, role) => RolesAreForMembers(t, c, user, role);
    case LevellingMember(actor, c, user, level) => LevelsChangeExactlyWithAuthority(t, actor, c, user, level);
    case _ =>
  }

  lemma LastStepGives(t: Teams, ops: seq<Op>, seat: Seat)
    requires Kept(t) && ops != [] && seat in Run(t, ops).members
    requires MemberAt(Run(t, ops), seat) != MemberAt(Run(t, ops[..|ops| - 1]), seat)
    ensures Gives(Run(t, ops[..|ops| - 1]), ops[|ops| - 1], seat, Run(t, ops).members[seat])
  {
    EveryRunKeepsTheTeam(t, ops[..|ops| - 1]);
    StepGives(Run(t, ops[..|ops| - 1]), ops[|ops| - 1], seat);
  }

  /**
   What a member is at the end of a run, if not what it was at the start, comes from one step of it:
   the founder's seat, an accepted invitation's role and level, a role that was written, or a level
   that was assigned; and nothing after that step has changed the seat.
   */
  lemma {:induction false} EverySeatComesFromAStep(t: Teams, ops: seq<Op>, seat: Seat) returns (k: nat)
    requires Kept(t) && seat in Run(t, ops).members && MemberAt(Run(t, ops), seat) != MemberAt(t, seat)
    ensures k < |ops| && Gives(Run(t, ops[..k]), ops[k], seat, Run(t, ops).members[seat])
    decreases |ops|
  {
    var front := ops[..|ops| - 1];
    if MemberAt(Run(t, front), seat) == MemberAt(Run(t, ops), seat) {
      k := EverySeatComesFromAStep(t, front, seat);
      assert front[..k] == ops[..k];
    } else {
      k := |ops| - 1;
      LastStepGives(t, ops, seat);
    }
  }

  predicate IsAdmin(t: Teams, seat: Seat) {
    seat in t.members && t.members[seat].role == Admin
  }

  predicate MakesAdmin(t: Teams, op: Op, seat: Seat) {
    || (op.Accepting? && IsOpenFor(t, op.invite, op.user, op.email) && t.invites[op.invite].role == InviteAdmin
        && seat == Seat(t.invites[op.invite].company, op.user))
    || (op.Promoting? && op.role == InviteAdmin && seat == Seat(op.company, op.user))
  }

  lemma MadeAdmin(t: Teams, op: Op, seat: Seat, m: Member)
    requires Gives(t, op, seat, m) && m.role == Admin && !IsAdmin(t, seat)
    ensures MakesAdmin(t, op, seat)
  {
  }

  /** An admin whom a run made was made one by an accepted invitation as admin, or by a role written as admin. */
  lemma {:induction false} EveryAdminWasMadeOne(t: Teams, ops: seq<Op>, seat: Seat) returns (k: nat)
    requires Kept(t) && IsAdmin(Run(t, ops), seat) && !IsAdmin(t, seat)
    ensures k < |ops| && MakesAdmin(Run(t, ops[..k]), ops[k], seat)
    decreases |ops|
  {
    var front := ops[..|ops| - 1];
    if IsAdmin(Run(t, front), seat) {
      k := EveryAdminWasMadeOne(t, front, seat);
      assert front[..k] == ops[..k];
    } else {
      k := |ops| - 1;
      LastStepGives(t, ops, seat);
      MadeAdmin(Run(t, front), ops[k], seat, Run(t, ops).members[seat]);
    }
  }

  // ---------------------------------------------------------------------------------------------
  // Closed invitations

  predicate ReopensOrDeletes(op: Op, i: InviteId, invite: Invite) {
    (op.Inviting? && op.company == invite.company && op.email == invite.email) || op == Deleting(i)
  }

  lemma ClosedThroughJoining(t: Teams, op: Op, i: InviteId)
    requires i in t.invites && t.invites[i].status != Pending && (op.Accepting? || op.Found?)
    ensures i in Step(t, op).teams.invites && Step(t, op).teams.invites[i] == t.invites[i]
  {
    if op.Accepting? {
      if Step(t, op).answer == Done && t.invites[op.invite].status == Pending {
        AcceptanceSeatsOne(t, op.invite, op.user, op.email);
      }
    } else if op.user in t.accounts {
      FoundingKeepsSeats(t, op.user, op.company);
    }
  }

  lemma FoundingKeepsSeats(t: Teams, user: UserId, c: CompanyId)
    requires user in t.accounts
    ensures var t' := CreateCompany(t, user, c).teams;
      t'.invites == t.invites && (t' != t ==> t'.members == t.members[Seat(c, user) := Member(Owner, MAX_LEVEL)])
  {
    var t1 := t.(companies := t.companies[c := user], members := t.members[Seat(c, user) := Member(Owner, MAX_LEVEL)]);
    EnrolKeepsSeats(t1, c, user, t.accounts[user].email);
  }

  lemma ClosedStaysClosed(t: Teams, op: Op, i: InviteId)
    requires i in t.invites && i < t.unused && t.invites[i].status != Pending && !ReopensOrDeletes(op, i, t.invites[i])
    ensures i in Step(t, op).teams.invites && Step(t, op).teams.invites[i] == t.invites[i]
  {
    if op.Accepting? || op.Found? {
      ClosedThroughJoining(t, op, i);
    }
  }

  /** A closed invitation changes only by being created again or deleted. */
  lemma {:induction false} ClosedInvitesStand(t: Teams, ops: seq<Op>, i: InviteId)
    requires Kept(t) && i in t.invites && t.invites[i].status != Pending
    requires forall k | 0 <= k < |ops| :: !ReopensOrDeletes(ops[k], i, t.invites[i])
    ensures Kept(Run(t, ops)) && i in Run(t, ops).invites && Run(t, ops).invites[i] == t.invites[i]
    decreases |ops|
  {
    if ops != [] {
      ClosedInvitesStand(t, ops[..|ops| - 1], i);
      StepKeeps(Run(t, ops[..|ops| - 1]), ops[|ops| - 1]);
      ClosedStaysClosed(Run(t, ops[..|ops| - 1]), ops[|ops| - 1], i);
    }
  }

  // ---------------------------------------------------------------------------------------------
  // Removal

  lemma StepDeletesNobody(t: Teams, op: Op)
    ensures t.principals.Keys <= Step(t, op).teams.principals.Keys
    ensures t.identities.Keys <= Step(t, op).teams.identities.Keys
  {
  }

  /** No run deletes a principal or an identity. */
  lemma {:induction false} NobodyIsErased(t: Teams, ops: seq<Op>)
    ensures t.principals.Keys <= Run(t, ops).principals.Keys && t.identities.Keys <= Run(t, ops).identities.Keys
    decreases |ops|
  {
    if ops != [] {
      NobodyIsErased(t, ops[..|ops| - 1]);
      StepDeletesNobody(Run(t, ops[..|ops| - 1]), ops[|ops| - 1]);
    }
  }

  /** Removal makes the member's principal an outsider, which keeps its addresses, and empties the seat. */
  lemma RemovalDemotes(t: Teams, c: CompanyId, user: UserId, p: PrincipalId)
    requires Kept(t) && Seat(c, user) in t.members && p in t.principals && t.principals[p].company == c && t.principals[p].user == Some(user)
    ensures var t' := RemoveMember(t, c, user).teams;
      if user == t.companies[c] then t' == t
      else
        && t'.principals == t.principals[p := Principal(c, External, None)] && t'.identities == t.identities
        && t'.members == t.members - {Seat(c, user)} && t'.invites == t.invites
  {
    assert t.members[Seat(c, user)].role == Owner <==> user == t.companies[c];
  }

  // ---------------------------------------------------------------------------------------------
  // Levels

  /** No one but the owner, and no open invitation, is above `top` in this company. */
  ghost predicate Capped(t: Teams, c: CompanyId, top: Level) {
    && (forall seat | seat in t.members && seat.company == c && t.members[seat].role != Owner :: t.members[seat].level <= top)
    && (forall i | i in t.invites && t.invites[i].company == c && t.invites[i].status == Pending :: t.invites[i].level <= top)
  }

  /** The owner of this company has a hand in the step. */
  predicate ByOwner(t: Teams, op: Op, c: CompanyId) {
    && (op.Inviting? || op.Rewriting? || op.LevellingMember? || op.LevellingInvite?)
    && op.company == c && c in t.companies && op.actor == t.companies[c]
  }

  lemma LevellingMemberStaysCapped(t: Teams, op: Op, c: CompanyId, top: Level)
    requires Kept(t) && Capped(t, c, top) && c in t.companies && !ByOwner(t, op, c) && op.LevellingMember?
    ensures Capped(Step(t, op).teams, c, top)
  {
    var t', seat := Step(t, op).teams, Seat(op.company, op.user);
    if t' != t && op.company == c {
      assert t.members[Seat(c, op.actor)].role == Admin;
      assert t' == t.(members := t.members[seat := t.members[seat].(level := op.level)]);
    }
  }

  lemma LevellingInviteStaysCapped(t: Teams, op: Op, c: CompanyId, top: Level)
    requires Kept(t) && Capped(t, c, top) && c in t.companies && !ByOwner(t, op, c) && op.LevellingInvite?
    ensures Capped(Step(t, op).teams, c, top)
  {
    var t' := Step(t, op).teams;
    if t' != t && op.company == c {
      assert t.members[Seat(c, op.actor)].role == Admin;
    }
  }

  lemma InvitingStaysCapped(t: Teams, op: Op, c: CompanyId, top: Level)
    requires Kept(t) && Capped(t, c, top) && c in t.companies && !ByOwner(t, op, c) && op.Inviting?
    ensures Capped(Step(t, op).teams, c, top)
  {
    if Step(t, op).teams != t {
      assert t.members[Seat(op.company, op.actor)].role == Owner;
    }
  }

  lemma RewritingStaysCapped(t: Teams, op: Op, c: CompanyId, top: Level)
    requires Kept(t) && Capped(t, c, top) && c in t.companies && !ByOwner(t, op, c) && op.Rewriting?
    ensures Capped(Step(t, op).teams, c, top)
  {
    if Step(t, op).teams != t {
      assert t.members[Seat(op.company, op.actor)].role == Owner;
    }
  }

  lemma OthersStayCapped(t: Teams, op: Op, c: CompanyId, top: Level)
    requires Kept(t) && Capped(t, c, top) && c in t.companies
    requires op.Deleting? || op.Declining? || op.Promoting? || op.Removing? || op.SetAccount? || op.Observing? || op.Rekeying?
    ensures Capped(Step(t, op).teams, c, top)
  {
  }

  lemma JoiningStaysCapped(t: Teams, op: Op, c: CompanyId, top: Level)
    requires Kept(t) && Capped(t, c, top) && c in t.companies && (op.Accepting? || op.Found?)
    ensures Capped(Step(t, op).teams, c, top)
  {
    if op.Accepting? {
      if Step(t, op).answer == Done && t.invites[op.invite].status == Pending {
        AcceptanceSeatsOne(t, op.invite, op.user, op.email);
      }
    } else if op.user in t.accounts {
      FoundingKeepsSeats(t, op.user, op.company);
    }
  }

  lemma StepKeepsCompanies(t: Teams, op: Op, c: CompanyId)
    requires c in t.companies
    ensures c in Step(t, op).teams.companies && Step(t, op).teams.companies[c] == t.companies[c]
  {
  }

  /**
   Levels rise only by the owner's hand: in any run in which the owner assigns none, no member and no
   open invitation comes to stand above the highest there was, whatever the admins do.
   */
  lemma {:induction false} OnlyTheOwnerRaisesTheTop(t: Teams, ops: seq<Op>, c: CompanyId, top: Level)
    requires Kept(t) && Capped(t, c, top) && c in t.companies
    requires forall k | 0 <= k < |ops| :: !ByOwner(t, ops[k], c)
    ensures Kept(Run(t, ops)) && Capped(Run(t, ops), c, top) && c in Run(t, ops).companies && Run(t, ops).companies[c] == t.companies[c]
    decreases |ops|
  {
    if ops != [] {
      var front, op := ops[..|ops| - 1], ops[|ops| - 1];
      OnlyTheOwnerRaisesTheTop(t, front, c, top);
      var s := Run(t, front);
      StepKeeps(s, op);
      StepKeepsCompanies(s, op, c);
      assert !ByOwner(t, op, c);
      if op.Accepting? || op.Found? {
        JoiningStaysCapped(s, op, c, top);
      } else if op.Inviting? {
        InvitingStaysCapped(s, op, c, top);
      } else if op.Rewriting? {
        RewritingStaysCapped(s, op, c, top);
      } else if op.LevellingMember? {
        LevellingMemberStaysCapped(s, op, c, top);
      } else if op.LevellingInvite? {
        LevellingInviteStaysCapped(s, op, c, top);
      } else {
        OthersStayCapped(s, op, c, top);
      }
    }
  }
}
