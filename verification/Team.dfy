/**
 A company's team: its owner, members, invitations, and the principals that members act as.

 Every writer is one transaction under its locks, so it is one step, and a refusal changes nothing.
 Addresses are compared without regard to case, so an address here stands for all its spellings.
 Random identifiers are the next ones nobody has.
 */
module Team {
  import opened Rows

  type UserId = nat
  type CompanyId = nat
  type InviteId = nat
  type PrincipalId = nat
  type Email = nat

  const MAX_LEVEL := 9

  type Level = n: nat | n <= 9

  datatype Role = Owner | Admin | Plain
  datatype InviteRole = InviteAdmin | InvitePlain

  function Granted(role: InviteRole): Role {
    match role
    case InviteAdmin => Admin
    case InvitePlain => Plain
  }

  datatype Account = Account(email: Email, verified: bool)
  datatype Seat = Seat(company: CompanyId, user: UserId)
  datatype Member = Member(role: Role, level: Level)
  datatype Status = Pending | Accepted | Declined
  datatype Invite = Invite(company: CompanyId, email: Email, role: InviteRole, level: Level, status: Status)
  datatype Kind = Person | Agent | External | SystemActor
  datatype Principal = Principal(company: CompanyId, kind: Kind, user: Option<UserId>)
  datatype Mailbox = Mailbox(company: CompanyId, email: Email)

  datatype Teams = Teams(
    accounts: map<UserId, Account>,
    companies: map<CompanyId, UserId>,
    members: map<Seat, Member>,
    invites: map<InviteId, Invite>,
    principals: map<PrincipalId, Principal>,
    identities: map<Mailbox, PrincipalId>,
    unused: nat)

  datatype Refusal =
    | NotFound
    | OwnersOnly
    | OwnerAddress
    | NotAdministrator
    | OwnerFixed
    | TargetAboveActor
    | RequestedAboveActor
    | InvalidOwnerLevel
    | Conflict

  /** `Nothing` is the answer that there is no such row in the required state. */
  datatype Answer = Done | Nothing | Refused(why: Refusal)

  datatype Outcome = Outcome(teams: Teams, answer: Answer)

  // ---------------------------------------------------------------------------------------------
  // Authority

  datatype LevelTarget = OwnerTarget | Assignable(level: Level)

  function MayAssign(actor: Member, current: LevelTarget, requested: Level): Option<Refusal> {
    if actor.role == Plain then Some(NotAdministrator)
    else if current.OwnerTarget? then Some(OwnerFixed)
    else if actor.role == Owner then None
    else if current.level > actor.level then Some(TargetAboveActor)
    else if requested > actor.level then Some(RequestedAboveActor)
    else None
  }

  /** The actor's own row as the locks show it, or why there is no authority. */
  datatype Authority = Authority(owner: UserId, actor: Member) | NoAuthority(why: Refusal)

  function AuthorityOf(t: Teams, actor: UserId, c: CompanyId): Authority {
    var seat := Seat(c, actor);
    if c !in t.companies || seat !in t.members then NoAuthority(NotFound)
    else if t.members[seat].role == Owner && t.members[seat].level != MAX_LEVEL then NoAuthority(InvalidOwnerLevel)
    else Authority(t.companies[c], t.members[seat])
  }

  predicate OwnersAddress(t: Teams, owner: UserId, email: Email) {
    owner in t.accounts && t.accounts[owner].email == email
  }

  predicate VerifiedAddress(t: Teams, user: UserId, email: Email) {
    user in t.accounts && t.accounts[user] == Account(email, true)
  }

  // ---------------------------------------------------------------------------------------------
  // Principals

  predicate HasPrincipal(t: Teams, c: CompanyId, user: UserId) {
    exists p :: p in t.principals && t.principals[p].company == c && t.principals[p].user == Some(user)
  }

  /** Make the account a person of the company, holding its address, or fail and leave no trace. */
  function Enrolled(t: Teams, c: CompanyId, user: UserId, email: Email): Option<Teams> {
    var box := Mailbox(c, email);
    if box in t.identities && t.identities[box] in t.principals
    then
      var p := t.identities[box];
      var held := t.principals[p];
      if held.kind == External
      then if HasPrincipal(t, c, user) then None else Some(t.(principals := t.principals[p := Principal(held.company, Person, Some(user))]))
      else if held.kind == Person && held.user == Some(user) then Some(t)
      else None
    else if HasPrincipal(t, c, user) then None
    else Some(t.(principals := t.principals[t.unused := Principal(c, Person, Some(user))],
                 identities := t.identities[box := t.unused],
                 unused := t.unused + 1))
  }

  // ---------------------------------------------------------------------------------------------
  // Writers

  function CreateCompany(t: Teams, user: UserId, c: CompanyId): Outcome {
    if user !in t.accounts || c in t.companies then Outcome(t, Refused(NotFound))
    else
      var t1 := t.(companies := t.companies[c := user], members := t.members[Seat(c, user) := Member(Owner, MAX_LEVEL)]);
      match Enrolled(t1, c, user, t.accounts[user].email)
      case Some(t2) => Outcome(t2, Done)
      case None => Outcome(t, Refused(Conflict))
  }

  predicate IsFor(t: Teams, i: InviteId, c: CompanyId, email: Email) {
    i in t.invites && t.invites[i].company == c && t.invites[i].email == email
  }

  function CreateInvite(t: Teams, actor: UserId, c: CompanyId, email: Email, role: InviteRole, level: Level, known: Option<InviteId>): Outcome {
    if actor !in t.accounts then Outcome(t, Refused(NotFound))
    else
      match AuthorityOf(t, actor, c)
      case NoAuthority(why) => Outcome(t, Refused(why))
      case Authority(owner, member) =>
        if member.role != Owner then Outcome(t, Refused(OwnersOnly))
        else if OwnersAddress(t, owner, email) then Outcome(t, Refused(OwnerAddress))
        else
          var invite := Invite(c, email, role, level, Pending);
          if known.Some?
          then Outcome(t.(invites := t.invites[known.value := invite]), Done)
          else Outcome(t.(invites := t.invites[t.unused := invite], unused := t.unused + 1), Done)
  }

  function UpdateInvite(t: Teams, actor: UserId, c: CompanyId, i: InviteId, email: Email, role: Option<InviteRole>, level: Option<Level>): Outcome {
    if actor !in t.accounts then Outcome(t, Refused(NotFound))
    else if i !in t.invites || t.invites[i].company != c then Outcome(t, Nothing)
    else
      match AuthorityOf(t, actor, c)
      case NoAuthority(why) => Outcome(t, Refused(why))
      case Authority(owner, member) =>
        var was := t.invites[i];
        if member.role != Owner then Outcome(t, Refused(OwnersOnly))
        else if was.status != Pending then Outcome(t, Nothing)
        else if OwnersAddress(t, owner, email) then Outcome(t, Refused(OwnerAddress))
        else if exists j :: j in t.invites && j != i && IsFor(t, j, c, email) then Outcome(t, Refused(Conflict))
        else
          var now := was.(email := email,
                          role := if role.Some? then role.value else was.role,
                          level := if level.Some? then level.value else was.level);
          Outcome(t.(invites := t.invites[i := now]), Done)
  }

  function SetMemberLevel(t: Teams, actor: UserId, c: CompanyId, user: UserId, level: Level): Outcome {
    if actor !in t.accounts then Outcome(t, Refused(NotFound))
    else
      match AuthorityOf(t, actor, c)
      case NoAuthority(why) => Outcome(t, Refused(why))
      case Authority(owner, member) =>
        var seat := Seat(c, user);
        if seat !in t.members then Outcome(t, Nothing)
        else if user != owner && t.members[seat].role == Owner && t.members[seat].level != MAX_LEVEL
        then Outcome(t, Refused(InvalidOwnerLevel))
        else
          match MayAssign(member, if user == owner then OwnerTarget else Assignable(t.members[seat].level), level)
          case Some(why) => Outcome(t, Refused(why))
          case None =>
            if t.members[seat].role == Owner then Outcome(t, Nothing)
            else Outcome(t.(members := t.members[seat := t.members[seat].(level := level)]), Done)
  }

  function SetInviteLevel(t: Teams, actor: UserId, c: CompanyId, i: InviteId, level: Level): Outcome {
    if actor !in t.accounts then Outcome(t, Refused(NotFound))
    else if i !in t.invites || t.invites[i].company != c then Outcome(t, Nothing)
    else
      match AuthorityOf(t, actor, c)
      case NoAuthority(why) => Outcome(t, Refused(why))
      case Authority(owner, member) =>
        if t.invites[i].status != Pending then Outcome(t, Nothing)
        else
          match MayAssign(member, Assignable(t.invites[i].level), level)
          case Some(why) => Outcome(t, Refused(why))
          case None => Outcome(t.(invites := t.invites[i := t.invites[i].(level := level)]), Done)
  }

  function DeleteInvite(t: Teams, i: InviteId): Outcome {
    Outcome(t.(invites := t.invites - {i}), Done)
  }

  /** The member an accepted invitation makes of what was there. */
  function Joined(was: Option<Member>, invite: Invite): Member {
    match was
    case None => Member(Granted(invite.role), invite.level)
    case Some(m) => if m.role == Owner then m else m.(role := Granted(invite.role))
  }

  function MemberAt(t: Teams, seat: Seat): Option<Member> {
    if seat in t.members then Some(t.members[seat]) else None
  }

  function Accept(t: Teams, i: InviteId, user: UserId, email: Email): Outcome {
    if !VerifiedAddress(t, user, email) || i !in t.invites || t.invites[i].email != email then Outcome(t, Nothing)
    else if t.invites[i].status == Pending
    then
      var invite := t.invites[i];
      var seat := Seat(invite.company, user);
      var t1 := t.(invites := t.invites[i := invite.(status := Accepted)],
                   members := t.members[seat := Joined(MemberAt(t, seat), invite)]);
      match Enrolled(t1, invite.company, user, email)
      case Some(t2) => Outcome(t2, Done)
      case None => Outcome(t, Refused(Conflict))
    else if t.invites[i].status == Accepted then Outcome(t, Done)
    else Outcome(t, Nothing)
  }

  function Decline(t: Teams, i: InviteId, user: UserId, email: Email): Outcome {
    if !VerifiedAddress(t, user, email) || i !in t.invites || t.invites[i].email != email then Outcome(t, Nothing)
    else if t.invites[i].status == Pending
    then Outcome(t.(invites := t.invites[i := t.invites[i].(status := Declined)]), Done)
    else if t.invites[i].status == Declined then Outcome(t, Done)
    else Outcome(t, Nothing)
  }

  function UpdateRole(t: Teams, c: CompanyId, user: UserId, role: InviteRole): Outcome {
    var seat := Seat(c, user);
    if seat !in t.members || t.members[seat].role == Owner then Outcome(t, Nothing)
    else Outcome(t.(members := t.members[seat := t.members[seat].(role := Granted(role))]), Done)
  }

  /** The account's principal in the company, as an outsider. */
  function Demoted(principals: map<PrincipalId, Principal>, c: CompanyId, user: UserId): map<PrincipalId, Principal> {
    map p | p in principals ::
      if principals[p].company == c && principals[p].user == Some(user) then Principal(c, External, None) else principals[p]
  }

  function RemoveMember(t: Teams, c: CompanyId, user: UserId): Outcome {
    var seat := Seat(c, user);
    if seat !in t.members || t.members[seat].role == Owner then Outcome(t, Done)
    else Outcome(t.(principals := Demoted(t.principals, c, user), members := t.members - {seat}), Done)
  }

  // ---------------------------------------------------------------------------------------------
  // What else moves principals and addresses

  /** Mail from, or a list with, an address nobody holds makes an outsider of it. */
  function Observe(t: Teams, c: CompanyId, email: Email): Outcome {
    if c !in t.companies then Outcome(t, Refused(NotFound))
    else if Mailbox(c, email) in t.identities then Outcome(t, Done)
    else Outcome(AsOutsider(t, c, email), Done)
  }

  function AsOutsider(t: Teams, c: CompanyId, email: Email): Teams {
    t.(principals := t.principals[t.unused := Principal(c, External, None)],
       identities := t.identities[Mailbox(c, email) := t.unused],
       unused := t.unused + 1)
  }

  predicate IsPersonOf(t: Teams, p: PrincipalId, c: CompanyId, user: UserId) {
    p in t.principals && t.principals[p] == Principal(c, Person, Some(user))
  }

  /** An account's change of address in one company: the old one goes to an outsider, the new one to the person. */
  function Rekey(t: Teams, c: CompanyId, p: PrincipalId, user: UserId, former: Email, name: Email): Outcome {
    if !IsPersonOf(t, p, c, user) || former == name then Outcome(t, Nothing)
    else
      var t1 := if Mailbox(c, former) in t.identities && t.identities[Mailbox(c, former)] == p then AsOutsider(t, c, former) else t;
      var box := Mailbox(c, name);
      if box in t1.identities && t1.identities[box] != p && t1.identities[box] in t1.principals && t1.principals[t1.identities[box]].kind != External
      then Outcome(t, Refused(Conflict))
      else Outcome(t1.(identities := t1.identities[box := p]), Done)
  }

  // ---------------------------------------------------------------------------------------------
  // Runs

  datatype Op =
    | SetAccount(user: UserId, account: Account)
    | Observing(company: CompanyId, email: Email)
    | Rekeying(company: CompanyId, person: PrincipalId, user: UserId, former: Email, email: Email)
    | Found(user: UserId, company: CompanyId)
    | Inviting(actor: UserId, company: CompanyId, email: Email, role: InviteRole, level: Level)
    | Rewriting(actor: UserId, company: CompanyId, invite: InviteId, email: Email, newRole: Option<InviteRole>, newLevel: Option<Level>)
    | LevellingMember(actor: UserId, company: CompanyId, user: UserId, level: Level)
    | LevellingInvite(actor: UserId, company: CompanyId, invite: InviteId, level: Level)
    | Deleting(invite: InviteId)
    | Accepting(invite: InviteId, user: UserId, email: Email)
    | Declining(invite: InviteId, user: UserId, email: Email)
    | Promoting(company: CompanyId, user: UserId, role: InviteRole)
    | Removing(company: CompanyId, user: UserId)

  /** The invitation of an address, if there is one. */
  function Known(t: Teams, c: CompanyId, email: Email): Option<InviteId> {
    KnownBelow(t, c, email, t.unused)
  }

  function KnownBelow(t: Teams, c: CompanyId, email: Email, n: nat): (known: Option<InviteId>)
    ensures known.Some? ==> IsFor(t, known.value, c, email)
    ensures known.None? ==> forall i: nat | i < n :: !IsFor(t, i, c, email)
  {
    if n == 0 then None
    else if IsFor(t, n - 1, c, email) then Some(n - 1)
    else KnownBelow(t, c, email, n - 1)
  }

  function Step(t: Teams, op: Op): Outcome {
    match op
    case SetAccount(user, account) => Outcome(t.(accounts := t.accounts[user := account]), Done)
    case Observing(c, email) => Observe(t, c, email)
    case Rekeying(c, p, user, former, name) => Rekey(t, c, p, user, former, name)
    case Found(user, c) => CreateCompany(t, user, c)
    case Inviting(actor, c, email, role, level) => CreateInvite(t, actor, c, email, role, level, Known(t, c, email))
    case Rewriting(actor, c, i, email, role, level) => UpdateInvite(t, actor, c, i, email, role, level)
    case LevellingMember(actor, c, user, level) => SetMemberLevel(t, actor, c, user, level)
    case LevellingInvite(actor, c, i, level) => SetInviteLevel(t, actor, c, i, level)
    case Deleting(i) => DeleteInvite(t, i)
    case Accepting(i, user, email) => Accept(t, i, user, email)
    case Declining(i, user, email) => Decline(t, i, user, email)
    case Promoting(c, user, role) => UpdateRole(t, c, user, role)
    case Removing(c, user) => RemoveMember(t, c, user)
  }

  function Run(t: Teams, ops: seq<Op>): Teams
    decreases |ops|
  {
    if ops == [] then t else Step(Run(t, ops[..|ops| - 1]), ops[|ops| - 1]).teams
  }

  function NoTeams(): Teams {
    Teams(map[], map[], map[], map[], map[], map[], 0)
  }

  // ---------------------------------------------------------------------------------------------
  // The writers that take several statements, as they change the rows

  class TeamStore {
    var accounts: map<UserId, Account>
    var companies: map<CompanyId, UserId>
    var members: map<Seat, Member>
    var invites: map<InviteId, Invite>
    var principals: map<PrincipalId, Principal>
    var identities: map<Mailbox, PrincipalId>
    var unused: nat

    ghost function State(): Teams
      reads this
    {
      Teams(accounts, companies, members, invites, principals, identities, unused)
    }

    method FindInvite(c: CompanyId, email: Email) returns (known: Option<InviteId>)
      ensures known == Known(State(), c, email)
    {
      known := None;
      var n := unused;
      while n > 0
        invariant known.None? && KnownBelow(State(), c, email, unused) == KnownBelow(State(), c, email, n)
      {
        n := n - 1;
        if n in invites && invites[n].company == c && invites[n].email == email {
          return Some(n);
        }
      }
    }

    method CreateInvitation(actor: UserId, c: CompanyId, email: Email, role: InviteRole, level: Level) returns (answer: Answer)
      modifies this
      ensures Outcome(State(), answer) == Step(old(State()), Inviting(actor, c, email, role, level))
    {
      if actor !in accounts {
        return Refused(NotFound);
      }
      var previous := FindInvite(c, email);
      if c !in companies || Seat(c, actor) !in members {
        return Refused(NotFound);
      }
      var member := members[Seat(c, actor)];
      if member.role == Owner && member.level != MAX_LEVEL {
        return Refused(InvalidOwnerLevel);
      }
      if member.role != Owner {
        return Refused(OwnersOnly);
      }
      var owner := companies[c];
      if owner in accounts && accounts[owner].email == email {
        return Refused(OwnerAddress);
      }
      if previous.Some? {
        invites := invites[previous.value := Invite(c, email, role, level, Pending)];
      } else {
        invites := invites[unused := Invite(c, email, role, level, Pending)];
        unused := unused + 1;
      }
      return Done;
    }

    /** Give the account its principal and its address there; on `false` the caller rolls back. */
    method CreatePersonPrincipal(c: CompanyId, user: UserId, email: Email) returns (ok: bool)
      modifies `principals, `identities, `unused
      ensures ok <==> Enrolled(old(State()), c, user, email).Some?
      ensures ok ==> State() == Enrolled(old(State()), c, user, email).value
      ensures !ok ==> State() == old(State())
    {
      var box := Mailbox(c, email);
      var taken := exists p :: p in principals && principals[p].company == c && principals[p].user == Some(user);
      if box in identities && identities[box] in principals {
        var p := identities[box];
        if principals[p].kind == External {
          if taken {
            return false;
          }
          principals := principals[p := principals[p].(kind := Person, user := Some(user))];
          return true;
        }
        return principals[p].kind == Person && principals[p].user == Some(user);
      }
      if taken {
        return false;
      }
      principals := principals[unused := Principal(c, Person, Some(user))];
      identities := identities[box := unused];
      unused := unused + 1;
      return true;
    }

    method AcceptPendingInvite(i: InviteId, user: UserId, email: Email) returns (answer: Answer)
      modifies this
      ensures Outcome(State(), answer) == Step(old(State()), Accepting(i, user, email))
    {
      if user !in accounts || !accounts[user].verified || accounts[user].email != email {
        return Nothing;
      }
      if i !in invites || invites[i].email != email {
        return Nothing;
      }
      if invites[i].status != Pending {
        return if invites[i].status == Accepted then Done else Nothing;
      }
      var invite, was, seated := invites[i], invites, members;
      var seat := Seat(invite.company, user);
      invites := invites[i := invite.(status := Accepted)];
      if seat !in members {
        members := members[seat := Member(Granted(invite.role), invite.level)];
      } else if members[seat].role != Owner {
        members := members[seat := members[seat].(role := Granted(invite.role))];
      }
      assert members == seated[seat := Joined(MemberAt(old(State()), seat), invite)];
      var ok := CreatePersonPrincipal(invite.company, user, email);
      if !ok {
        invites, members := was, seated;
        return Refused(Conflict);
      }
      return Done;
    }

    /** The principal is demoted before its member row goes, or the row would take it along. */
    method RemoveTeamMember(c: CompanyId, user: UserId)
      modifies this
      ensures State() == Step(old(State()), Removing(c, user)).teams
    {
      var seat := Seat(c, user);
      if seat in members && members[seat].role != Owner {
        principals := map p | p in principals ::
          if principals[p].company == c && principals[p].user == Some(user)
          then principals[p].(kind := External, user := None) else principals[p];
        members := members - {seat};
      }
    }
  }
}
