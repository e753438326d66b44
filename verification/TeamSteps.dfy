/** What each of the team's writers answers and does, by the rows it finds, and where persons and addresses come from. */
module TeamSteps {
  import opened Rows
  import opened Team
  import opened TeamHistory

  /** The account is a person or an outsider of the company already. */
  ghost predicate IsKnown(t: Teams, c: CompanyId, user: UserId) {
    exists p :: p in t.principals && t.principals[p].company == c && t.principals[p].user == Some(user)
  }

  /** Who holds an address in the company. */
  datatype Holder = Nobody | AnOutsider | ThePerson | SomeoneElse

  function HolderOf(t: Teams, c: CompanyId, email: Email, user: UserId): Holder {
    var box := Mailbox(c, email);
    if box !in t.identities || t.identities[box] !in t.principals then Nobody
    else if t.principals[t.identities[box]].kind == External then AnOutsider
    else if t.principals[t.identities[box]].kind == Person && t.principals[t.identities[box]].user == Some(user) then ThePerson
    else SomeoneElse
  }

  /** The account can become the person behind the address. */
  ghost predicate CanEnrol(t: Teams, c: CompanyId, user: UserId, email: Email) {
    match HolderOf(t, c, email, user)
    case Nobody => !IsKnown(t, c, user)
    case AnOutsider => !IsKnown(t, c, user)
    case ThePerson => true
    case SomeoneElse => false
  }

  /** What enrolling leaves: an outsider made the person, the person as they were, or a new person with the address. */
  ghost predicate Enrols(t: Teams, t': Teams, c: CompanyId, user: UserId, email: Email) {
    var box, person := Mailbox(c, email), Principal(c, Person, Some(user));
    match HolderOf(t, c, email, user)
    case Nobody => exists p: PrincipalId :: p !in t.principals && t'.principals == t.principals[p := person] && t'.identities == t.identities[box := p]
    case AnOutsider => t'.principals == t.principals[t.identities[box] := person] && t'.identities == t.identities
    case ThePerson => t'.principals == t.principals && t'.identities == t.identities
    case SomeoneElse => false
  }

  lemma EnrolsExactlyWhenItCan(t: Teams, c: CompanyId, user: UserId, email: Email)
    requires PersonsAreMembers(t) && AddressesResolve(t)
    ensures Enrolled(t, c, user, email).Some? <==> CanEnrol(t, c, user, email)
    ensures CanEnrol(t, c, user, email) ==> Enrols(t, Enrolled(t, c, user, email).value, c, user, email)
  {
    assert HasPrincipal(t, c, user) <==> IsKnown(t, c, user);
    if CanEnrol(t, c, user, email) && HolderOf(t, c, email, user) == Nobody {
      var t' := Enrolled(t, c, user, email).value;
      assert t.unused !in t.principals && t'.principals == t.principals[t.unused := Principal(c, Person, Some(user))];
    }
  }

  /** An open invitation is accepted exactly by its verified address's account, when it can become that address's person. */
  lemma AcceptedExactlyWhenItCanBe(t: Teams, i: InviteId, user: UserId, email: Email)
    requires Kept(t) && i in t.invites && t.invites[i].status == Pending
    ensures var r, c := Step(t, Accepting(i, user, email)), t.invites[i].company;
      var own := user in t.accounts && t.accounts[user] == Account(email, true) && t.invites[i].email == email;
      && (r.answer == Done <==> own && CanEnrol(t, c, user, email))
      && (r.answer == Done ==> Enrols(t, r.teams, c, user, email) && r.teams.accounts == t.accounts && r.teams.companies == t.companies)
      && (r.answer != Done ==> r.teams == t)
  {
    var c := t.invites[i].company;
    var t1 := Seated(t, i, user);
    SeatingKeepsTheTeam(t, i, user);
    EnrolsExactlyWhenItCan(t1, c, user, email);
    assert IsKnown(t1, c, user) <==> IsKnown(t, c, user);
    assert HolderOf(t1, c, email, user) == HolderOf(t, c, email, user);
    if Enrolled(t1, c, user, email).Some? {
      EnrolKeepsAddresses(t1, c, user, email);
      SameEnrolment(t1, t, Enrolled(t1, c, user, email).value, c, user, email);
    }
  }

  lemma SameEnrolment(t1: Teams, t: Teams, t': Teams, c: CompanyId, user: UserId, email: Email)
    requires Enrols(t1, t', c, user, email) && t1.principals == t.principals && t1.identities == t.identities
    ensures Enrols(t, t', c, user, email)
  {
  }

  /** A closed one answers by how it was closed, and nothing changes. */
  lemma ClosedAnswersAsItWas(t: Teams, i: InviteId, user: UserId, email: Email)
    requires i in t.invites ==> t.invites[i].status != Pending
    ensures var r := Step(t, Accepting(i, user, email));
      && r.teams == t
      && (r.answer == Done <==>
            i in t.invites && t.invites[i].email == email && t.invites[i].status == Accepted
            && user in t.accounts && t.accounts[user] == Account(email, true))
      && (r.answer != Done ==> r.answer == Nothing)
  {
  }

  /** A new company has its founder as owner, at level nine, and as a person with the account's address. */
  lemma FoundingMakesTheOwner(t: Teams, user: UserId, c: CompanyId)
    requires Kept(t)
    ensures var r := Step(t, Found(user, c));
      && (r.answer == Done <==> user in t.accounts && c !in t.companies)
      && (r.answer != Done ==> r.teams == t)
      && (r.answer == Done ==>
            && r.teams.companies == t.companies[c := user]
            && r.teams.members == t.members[Seat(c, user) := Member(Owner, 9)]
            && Enrols(t, r.teams, c, user, t.accounts[user].email))
  {
    if user in t.accounts && c !in t.companies {
      FoundingKeeps(t, user, c);
      FoundingKeepsSeats(t, user, c);
      var t1 := t.(companies := t.companies[c := user], members := t.members[Seat(c, user) := Member(Owner, MAX_LEVEL)]);
      SeatKeepsPersons(t, t1.companies, Seat(c, user), Member(Owner, MAX_LEVEL), t.invites);
      EnrolsExactlyWhenItCan(t1, c, user, t.accounts[user].email);
      EnrolKeepsAddresses(t1, c, user, t.accounts[user].email);
      SameEnrolment(t1, t, Enrolled(t1, c, user, t.accounts[user].email).value, c, user, t.accounts[user].email);
    }
  }

  /** An address nobody held becomes a new outsider's, and one that was held stays its holder's. */
  lemma ObservingMakesAnOutsider(t: Teams, c: CompanyId, email: Email)
    requires Kept(t) && c in t.companies
    ensures var t', box := Step(t, Observing(c, email)).teams, Mailbox(c, email);
      if box in t.identities then t' == t
      else
        exists p: PrincipalId :: p !in t.principals && t' == t.(principals := t.principals[p := Principal(c, External, None)],
                                                 identities := t.identities[box := p], unused := t'.unused)
  {
    if Mailbox(c, email) !in t.identities {
      assert t.unused !in t.principals && t.unused !in t.invites;
    }
  }

  /** The rows after a change of address: the new one is the person's, and a former one they held is a new outsider's. */
  ghost predicate Rekeyed(t: Teams, t': Teams, c: CompanyId, p: PrincipalId, former: Email, name: Email) {
    && t'.accounts == t.accounts && t'.companies == t.companies && t'.members == t.members && t'.invites == t.invites
    && Mailbox(c, name) in t'.identities && t'.identities[Mailbox(c, name)] == p
    && (forall box | box != Mailbox(c, name) && box != Mailbox(c, former) ::
          (box in t'.identities <==> box in t.identities) && (box in t.identities ==> t'.identities[box] == t.identities[box]))
    && if Mailbox(c, former) in t.identities && t.identities[Mailbox(c, former)] == p
       then exists q: PrincipalId :: q !in t.principals && t'.principals == t.principals[q := Principal(c, External, None)]
                       && Mailbox(c, former) in t'.identities && t'.identities[Mailbox(c, former)] == q
       else
         && t'.principals == t.principals
         && (Mailbox(c, former) in t'.identities <==> Mailbox(c, former) in t.identities)
         && (Mailbox(c, former) in t.identities ==> t'.identities[Mailbox(c, former)] == t.identities[Mailbox(c, former)])
  }

  /** An address is changed exactly for a person, to another that nobody or an outsider or they themselves hold. */
  lemma RekeyedExactlyWhenFree(t: Teams, c: CompanyId, p: PrincipalId, user: UserId, former: Email, name: Email)
    requires Kept(t)
    ensures var r := Step(t, Rekeying(c, p, user, former, name));
      && (r.answer == Done <==>
            && p in t.principals && t.principals[p] == Principal(c, Person, Some(user)) && former != name
            && HolderOf(t, c, name, user) != SomeoneElse)
      && (r.answer == Done ==> Rekeyed(t, r.teams, c, p, former, name))
      && (r.answer != Done ==> r.teams == t)
  {
    if IsPersonOf(t, p, c, user) {
      HoldersAreKnown(t, c, p, user, name);
    }
    if Step(t, Rekeying(c, p, user, former, name)).answer == Done {
      DoneIsRekeyed(t, c, p, user, former, name);
    }
  }

  lemma HoldersAreKnown(t: Teams, c: CompanyId, p: PrincipalId, user: UserId, name: Email)
    requires Kept(t) && IsPersonOf(t, p, c, user)
    ensures HolderOf(t, c, name, user) == ThePerson <==> Mailbox(c, name) in t.identities && t.identities[Mailbox(c, name)] == p
    ensures Mailbox(c, name) in t.identities ==> t.identities[Mailbox(c, name)] in t.principals
  {
  }

  lemma DoneIsRekeyed(t: Teams, c: CompanyId, p: PrincipalId, user: UserId, former: Email, name: Email)
    requires PersonsAreMembers(t) && Rekey(t, c, p, user, former, name).answer == Done
    ensures Rekeyed(t, Rekey(t, c, p, user, former, name).teams, c, p, former, name)
  {
    assert t.unused !in t.principals;
  }

  /** A deleted invitation is gone, and a removed member's seat is empty. */
  lemma DeletedIsGone(t: Teams, i: InviteId, c: CompanyId, user: UserId)
    requires Kept(t)
    ensures var t' := Step(t, Deleting(i)).teams;
      t' == t.(invites := t'.invites) && i !in t'.invites
      && forall j | j != i :: (j in t'.invites <==> j in t.invites) && (j in t.invites ==> t'.invites[j] == t.invites[j])
    ensures var t', seat := Step(t, Removing(c, user)).teams, Seat(c, user);
      if seat in t.members && user != t.companies[c]
      then t'.members == t.members - {seat} && !IsKnown(t', c, user)
      else t' == t
  {
    assert Seat(c, user) in t.members ==> (t.members[Seat(c, user)].role == Owner <==> user == t.companies[c]);
  }

  // ---------------------------------------------------------------------------------------------
  // Over runs

  predicate IsPerson(t: Teams, p: PrincipalId, c: CompanyId, user: UserId) {
    p in t.principals && t.principals[p] == Principal(c, Person, Some(user))
  }

  /** The step by which an account becomes a person: founding the company, or accepting an open invitation of its address. */
  predicate MakesPerson(t: Teams, op: Op, c: CompanyId, user: UserId) {
    || op == Found(user, c)
    || (op.Accepting? && op.user == user && IsOpenFor(t, op.invite, user, op.email) && t.invites[op.invite].company == c)
  }

  lemma EnrolMakesOnePerson(t: Teams, t': Teams, c: CompanyId, user: UserId, email: Email, p: PrincipalId, d: CompanyId, other: UserId)
    requires Enrols(t, t', c, user, email) && IsPerson(t', p, d, other) && !IsPerson(t, p, d, other)
    ensures d == c && other == user
  {
  }

  lemma StepMakesPersons(t: Teams, op: Op, p: PrincipalId, c: CompanyId, user: UserId)
    requires Kept(t) && IsPerson(Step(t, op).teams, p, c, user) && !IsPerson(t, p, c, user)
    ensures MakesPerson(t, op, c, user)
  {
    if op.Found? {
      FoundingMakesTheOwner(t, op.user, op.company);
      EnrolMakesOnePerson(t, Step(t, op).teams, op.company, op.user, t.accounts[op.user].email, p, c, user);
    } else if op.Accepting? {
      if op.invite in t.invites && t.invites[op.invite].status == Pending {
        AcceptedExactlyWhenItCanBe(t, op.invite, op.user, op.email);
        EnrolMakesOnePerson(t, Step(t, op).teams, t.invites[op.invite].company, op.user, op.email, p, c, user);
      }
    } else if op.Rekeying? {
      RekeyedExactlyWhenFree(t, op.company, op.person, op.user, op.former, op.email);
    }
  }

  lemma LastStepMakesPersons(t: Teams, ops: seq<Op>, p: PrincipalId, c: CompanyId, user: UserId)
    requires Kept(t) && ops != [] && IsPerson(Run(t, ops), p, c, user) && !IsPerson(Run(t, ops[..|ops| - 1]), p, c, user)
    ensures MakesPerson(Run(t, ops[..|ops| - 1]), ops[|ops| - 1], c, user)
  {
    EveryRunKeepsTheTeam(t, ops[..|ops| - 1]);
    StepMakesPersons(Run(t, ops[..|ops| - 1]), ops[|ops| - 1], p, c, user);
  }

  /** Nobody is made a person of a company but by founding it or by accepting its invitation to their own verified address. */
  lemma {:induction false} EveryPersonWasMadeOne(t: Teams, ops: seq<Op>, p: PrincipalId, c: CompanyId, user: UserId) returns (k: nat)
    requires Kept(t) && IsPerson(Run(t, ops), p, c, user) && !IsPerson(t, p, c, user)
    ensures k < |ops| && MakesPerson(Run(t, ops[..k]), ops[k], c, user)
    decreases |ops|
  {
    var front := ops[..|ops| - 1];
    if IsPerson(Run(t, front), p, c, user) {
      k := EveryPersonWasMadeOne(t, front, p, c, user);
      assert front[..k] == ops[..k];
    } else {
      k := |ops| - 1;
      LastStepMakesPersons(t, ops, p, c, user);
    }
  }
}
