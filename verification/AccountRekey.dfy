/** The address change as the transaction makes it, and what it amounts to. */
module AccountRekey {
  import opened Rows
  import opened AccountIdentity

  /** The company principals of an account, company by company. */
  ghost predicate PersonsOf(t: Tables, user: nat, persons: seq<PrincipalId>) {
    && (forall p :: p in persons <==> p in t.principals && IsPersonOf(t.principals[p], user))
    && (forall i, j | 0 <= i < j < |persons| :: t.principals[persons[i]].company < t.principals[persons[j]].company)
  }

  predicate IsPersonOf(p: Principal, user: nat) {
    p.kind == Person && p.user == Some(user)
  }

  class Directory {
    var principals: map<PrincipalId, Principal>
    var identities: map<Handle, Identity>
    var messages: map<nat, Message>
    var grants: map<GrantKey, Grant>
    var places: map<PlaceKey, int>
    var unused: PrincipalId

    ghost function Rows(): Tables
      reads this
    {
      Tables(principals, identities, messages, grants, places, unused)
    }

    method DetachOldAddress(c: Company, person: PrincipalId, former: QualifiedIdentity)
      modifies this
      ensures Rows() == Detach(old(Rows()), c, person, former)
    {
      var h := Handle(c, former);
      if h !in identities || identities[h].principal != person {
        return;
      }
      var outsider := unused;
      unused := unused + 1;
      principals := principals[outsider := Principal(c, External, None)];
      identities := identities[h := Identity(outsider, Observed)];
      messages := Attribute(messages, c, former, outsider);
    }

    method AdoptOutsiderPlaces(c: Company, person: PrincipalId, outsider: PrincipalId)
      modifies this
      ensures Rows() == AdoptPlaces(old(Rows()), c, person, outsider)
    {
      ghost var t := Rows();
      var reachable := exists h :: h in identities && h.company == c && identities[h].principal == outsider;
      assert reachable == StillReachable(t, c, outsider);
      if !reachable {
        grants := MoveGrants(grants, c, person, outsider);
        places := MovePlaces(places, c, person, outsider);
        assert Rows() == t.(grants := MoveGrants(t.grants, c, person, outsider), places := MovePlaces(t.places, c, person, outsider));
      }
    }

    method AdoptNewAddress(c: Company, person: PrincipalId, name: QualifiedIdentity) returns (refusal: Option<Refusal>)
      requires forall h | h in identities :: identities[h].principal in principals
      modifies this
      ensures var r := Adopt(old(Rows()), c, person, name);
        if refusal.Some? then r == Refused(refusal.value) && Rows() == old(Rows()) else r == Done(Rows())
    {
      var h := Handle(c, name);
      var adopted: Option<PrincipalId> := None;
      if h in identities && identities[h].principal != person {
        var holder := identities[h].principal;
        if principals[holder].kind != External {
          return Some(Conflict(principals[holder].kind));
        }
        adopted := Some(holder);
      }
      identities := identities[h := Identity(person, Verified)];
      messages := Attribute(messages, c, name, person);
      if adopted.Some? {
        AdoptOutsiderPlaces(c, person, adopted.value);
      }
      return None;
    }

    /** `SELECT ... WHERE user_id = $1 AND kind = 'person' ORDER BY company_id`. */
    method SelectPersons(user: nat) returns (persons: seq<PrincipalId>)
      requires Valid(Rows())
      ensures PersonsOf(Rows(), user, persons)
    {
      var all := set p | p in principals && IsPersonOf(principals[p], user);
      persons := OrderByCompany(principals, all);
    }

    method RekeyInCompany(person: PrincipalId, former: Option<QualifiedIdentity>, name: QualifiedIdentity)
      returns (refusal: Option<Refusal>)
      requires Valid(Rows()) && person in principals
      modifies this
      ensures var r := RekeyOne(old(Rows()), person, former, name);
        if refusal.Some? then r == Refused(refusal.value) else r == Done(Rows())
    {
      var c := principals[person].company;
      DetachKeepsReferences(Rows(), c, person, former);
      if former.Some? {
        DetachOldAddress(c, person, former.value);
      }
      refusal := AdoptNewAddress(c, person, name);
    }

    /**
     Move an account's trust from one address to another in every company where it is a person. An
     address that does not parse is `None`. On a refusal the caller's transaction is rolled back.
     */
    method RekeyAccountIdentity(user: nat, former: Option<QualifiedIdentity>, name: Option<QualifiedIdentity>)
      returns (refusal: Option<Refusal>, persons: seq<PrincipalId>)
      requires Valid(Rows())
      modifies this
      ensures PersonsOf(old(Rows()), user, persons)
      ensures persons == [] || (name.Some? && former == name) ==> refusal.None? && Rows() == old(Rows())
      ensures persons != [] && name.None? ==> refusal == Some(InvalidAddress) && Rows() == old(Rows())
      ensures persons != [] && name.Some? && former != name ==>
        var r := RekeyAll(old(Rows()), persons, former, name.value);
        if refusal.Some? then r == Refused(refusal.value) else r == Done(Rows())
    {
      ghost var before := Rows();
      persons := SelectPersons(user);
      if persons == [] {
        return None, persons;
      }
      if name.None? {
        return Some(InvalidAddress), persons;
      }
      if former == name {
        return None, persons;
      }
      for i := 0 to |persons|
        invariant Valid(Rows())
        invariant forall p | p in persons :: p in Rows().principals
        invariant forall p | p in persons[i..] :: p in Rows().principals
        invariant RekeyAll(before, persons, former, name.value) == RekeyAll(Rows(), persons[i..], former, name.value)
      {
        ghost var t := Rows();
        assert persons[i..][0] == persons[i] && persons[i..][1..] == persons[i + 1..];
        refusal := RekeyInCompany(persons[i], former, name.value);
        if refusal.Some? {
          return refusal, persons;
        }
        RekeyOneIsValid(t, persons[i], former, name.value);
        RekeyOneAddsPrincipals(t, persons[i], former, name.value);
      }
      refusal := None;
    }
  }

  ghost predicate Rising(principals: map<PrincipalId, Principal>, persons: seq<PrincipalId>) {
    && (forall p | p in persons :: p in principals)
    && forall i, j | 0 <= i < j < |persons| :: principals[persons[i]].company < principals[persons[j]].company
  }

  method OrderByCompany(principals: map<PrincipalId, Principal>, all: set<PrincipalId>) returns (persons: seq<PrincipalId>)
    requires forall p | p in all :: p in principals
    requires forall p, q | p in all && q in all && principals[p].company == principals[q].company :: p == q
    ensures forall p :: p in persons <==> p in all
    ensures Rising(principals, persons)
  {
    var remaining := all;
    persons := [];
    while remaining != {}
      invariant remaining <= all
      invariant forall p :: p in persons <==> p in all && p !in remaining
      invariant Rising(principals, persons)
      invariant forall p, q | p in persons && q in remaining :: principals[p].company < principals[q].company
      decreases remaining
    {
      ghost var least := FirstCompany(principals, remaining);
      var person :| person in remaining && forall q | q in remaining :: principals[person].company <= principals[q].company;
      persons := persons + [person];
      remaining := remaining - {person};
    }
  }

  lemma {:induction false} FirstCompany(principals: map<PrincipalId, Principal>, all: set<PrincipalId>) returns (first: PrincipalId)
    requires all != {} && forall p | p in all :: p in principals
    ensures first in all && forall p | p in all :: principals[first].company <= principals[p].company
    decreases all
  {
    first :| first in all;
    if all != {first} {
      var other := FirstCompany(principals, all - {first});
      if principals[other].company < principals[first].company {
        first := other;
      }
    }
  }

  // ---------------------------------------------------------------------------------------------
  // What the change amounts to

  lemma PersonsAreInDistinctCompanies(t: Tables, user: nat, persons: seq<PrincipalId>)
    requires PersonsOf(t, user, persons)
    ensures DistinctCompanies(t, persons)
  {
  }

  /**
   A change between two different addresses keeps every message's author the holder of the identity
   it was sent from; moves the addresses, messages, grants and thread places of every company the
   account is a person of, as `Rekeyed` says; and touches no row of any other company.
   */
  lemma RekeyMovesTrustInEveryCompany(
    t: Tables, user: nat, persons: seq<PrincipalId>, former: Option<QualifiedIdentity>, name: QualifiedIdentity, c: Company)
    requires Valid(t) && PersonsOf(t, user, persons) && former != Some(name)
    requires RekeyAll(t, persons, former, name).Done?
    ensures var t' := RekeyAll(t, persons, former, name).tables;
      && Valid(t')
      && PersonsOf(t', user, persons)
      && (forall p | p in persons && t.principals[p].company == c :: Rekeyed(t, t', c, p, former, name))
      && ((forall p | p in persons :: t.principals[p].company != c) ==> SameIn(t, t', c))
  {
    PersonsAreInDistinctCompanies(t, user, persons);
    RekeyAllKeepsPrincipals(t, persons, former, name);
    var t' := RekeyAll(t, persons, former, name).tables;
    forall p | p in persons && t.principals[p].company == c ensures Rekeyed(t, t', c, p, former, name) {
      var i :| 0 <= i < |persons| && persons[i] == p;
      RekeyAllMoves(t, persons, former, name, i);
    }
    if forall p | p in persons :: t.principals[p].company != c {
      RekeyAllIsLocal(t, persons, former, name, c);
    }
  }

  /** The new address can be taken in a company: it is free, the person's, or an outsider's. */
  ghost predicate CanTake(t: Tables, person: PrincipalId, name: QualifiedIdentity)
    requires person in t.principals
  {
    var holder := PreviousHolder(t, t.principals[person].company, person, name);
    holder.None? || (holder.value in t.principals && t.principals[holder.value].kind == External)
  }

  lemma OneCompanySucceedsExactlyWhenItCanBeTaken(t: Tables, person: PrincipalId, former: Option<QualifiedIdentity>, name: QualifiedIdentity)
    requires Valid(t) && person in t.principals && former != Some(name)
    ensures RekeyOne(t, person, former, name).Done? <==> CanTake(t, person, name)
  {
    var c := t.principals[person].company;
    DetachLeavesTheNewHolder(t, c, person, former, name);
    DetachKeepsReferences(t, c, person, former);
    HolderKinds(t, c, person, former, name);
  }

  lemma CanTakeReadsOneCompany(t: Tables, s: Tables, person: PrincipalId, name: QualifiedIdentity)
    requires person in t.principals && person in s.principals && t.principals[person] == s.principals[person]
    requires Valid(t) && Valid(s) && SameIn(t, s, t.principals[person].company)
    ensures CanTake(t, person, name) <==> CanTake(s, person, name)
  {
    var c := t.principals[person].company;
    SameHolders(t, s, c, person, None, name);
    assert Handle(c, name) in t.identities ==> HolderValid(t, Handle(c, name));
  }

  /** The change succeeds exactly when the address can be taken in every company, as they stood. */
  lemma {:induction false} RekeySucceedsExactlyWhenItCanBeTaken(
    t: Tables, persons: seq<PrincipalId>, former: Option<QualifiedIdentity>, name: QualifiedIdentity)
    requires Valid(t) && DistinctCompanies(t, persons) && former != Some(name)
    ensures RekeyAll(t, persons, former, name).Done? <==> forall p | p in persons :: CanTake(t, p, name)
    decreases |persons|
  {
    if persons != [] {
      var person, rest := persons[0], persons[1..];
      assert persons == [person] + rest;
      OneCompanySucceedsExactlyWhenItCanBeTaken(t, person, former, name);
      if RekeyOne(t, person, former, name).Done? {
        var s := RekeyOne(t, person, former, name).tables;
        RekeyOneIsValid(t, person, former, name);
        RekeyOneAddsPrincipals(t, person, former, name);
        RestIsApart(t, s, persons);
        RekeySucceedsExactlyWhenItCanBeTaken(s, rest, former, name);
        forall p | p in rest ensures CanTake(s, p, name) <==> CanTake(t, p, name) {
          RekeyOneIsLocal(t, person, former, name, t.principals[p].company);
          CanTakeReadsOneCompany(t, s, p, name);
        }
      }
    }
  }

  lemma RestIsApart(t: Tables, s: Tables, persons: seq<PrincipalId>)
    requires DistinctCompanies(t, persons) && persons != []
    requires forall p | p in t.principals :: p in s.principals && s.principals[p] == t.principals[p]
    ensures DistinctCompanies(s, persons[1..])
    ensures forall p | p in persons[1..] :: p in t.principals && t.principals[p].company != t.principals[persons[0]].company
  {
    forall p | p in persons[1..]
      ensures p in persons && p in t.principals && t.principals[p].company != t.principals[persons[0]].company
    {
      var j :| 0 <= j < |persons[1..]| && persons[1..][j] == p;
      assert persons[j + 1] == p;
    }
    forall i, j | 0 <= i < j < |persons[1..]|
      ensures s.principals[persons[1..][i]].company != s.principals[persons[1..][j]].company
    {
      assert persons[1..][i] == persons[i + 1] && persons[1..][j] == persons[j + 1];
    }
  }

  /** Someone who is not an outsider holds the new address in the person's company, and is of this kind. */
  ghost predicate HeldBy(t: Tables, person: PrincipalId, name: QualifiedIdentity, kind: Kind) {
    && person in t.principals
    && var h := Handle(t.principals[person].company, name);
      && h in t.identities && t.identities[h].principal != person && t.identities[h].principal in t.principals
      && t.principals[t.identities[h].principal].kind == kind && kind != External
  }

  lemma OneRefusalNamesTheHolder(t: Tables, person: PrincipalId, former: Option<QualifiedIdentity>, name: QualifiedIdentity)
    requires Valid(t) && person in t.principals && former != Some(name) && RekeyOne(t, person, former, name).Refused?
    ensures var why := RekeyOne(t, person, former, name).why; why.Conflict? && HeldBy(t, person, name, why.kind)
  {
    var c := t.principals[person].company;
    DetachLeavesTheNewHolder(t, c, person, former, name);
    DetachKeepsReferences(t, c, person, former);
    HolderKinds(t, c, person, former, name);
  }

  /** A refusal tells the kind of whoever holds the address in some company of the account's, as they stood. */
  lemma {:induction false} RefusalNamesTheHolder(t: Tables, persons: seq<PrincipalId>, former: Option<QualifiedIdentity>, name: QualifiedIdentity)
    requires Valid(t) && DistinctCompanies(t, persons) && former != Some(name) && RekeyAll(t, persons, former, name).Refused?
    ensures var why := RekeyAll(t, persons, former, name).why;
      why.Conflict? && exists i :: 0 <= i < |persons| && HeldBy(t, persons[i], name, why.kind)
    decreases |persons|
  {
    var person, rest := persons[0], persons[1..];
    if RekeyOne(t, person, former, name).Refused? {
      OneRefusalNamesTheHolder(t, person, former, name);
    } else {
      var s := RekeyOne(t, person, former, name).tables;
      RekeyOneIsValid(t, person, former, name);
      RekeyOneAddsPrincipals(t, person, former, name);
      RestIsApart(t, s, persons);
      RefusalNamesTheHolder(s, rest, former, name);
      var why := RekeyAll(s, rest, former, name).why;
      var i :| 0 <= i < |rest| && HeldBy(s, rest[i], name, why.kind);
      assert rest[i] in rest && rest[i] == persons[i + 1];
      RekeyOneIsLocal(t, person, former, name, t.principals[rest[i]].company);
      HeldInOneCompany(t, s, rest[i], name, why.kind);
    }
  }

  lemma HeldInOneCompany(t: Tables, s: Tables, person: PrincipalId, name: QualifiedIdentity, kind: Kind)
    requires Valid(t) && person in t.principals && SameIn(t, s, t.principals[person].company) && HeldBy(s, person, name, kind)
    requires forall p | p in t.principals :: p in s.principals && s.principals[p] == t.principals[p]
    ensures HeldBy(t, person, name, kind)
  {
    assert Handle(t.principals[person].company, name) in t.identities;
    assert HolderValid(t, Handle(t.principals[person].company, name));
  }

  /** Giving up the old address changes nobody's kind. */
  lemma HolderKinds(t: Tables, c: Company, person: PrincipalId, former: Option<QualifiedIdentity>, name: QualifiedIdentity)
    requires Valid(t)
    ensures var d := if former.Some? then Detach(t, c, person, former.value) else t;
      forall p | p in t.principals :: p in d.principals && d.principals[p] == t.principals[p]
    ensures PreviousHolder(t, c, person, name).Some? ==> PreviousHolder(t, c, person, name).value in t.principals
  {
    assert Handle(c, name) in t.identities ==> HolderValid(t, Handle(c, name));
  }

  /** Whether an address can be taken is not changed by having moved to another one. */
  lemma MovingKeepsWhatCanBeTaken(t: Tables, t1: Tables, c: Company, person: PrincipalId, a: QualifiedIdentity, b: QualifiedIdentity)
    requires Valid(t) && Valid(t1) && a != b && Rekeyed(t, t1, c, person, Some(a), b)
    requires person in t.principals && person in t1.principals && t.principals[person].company == c && t1.principals[person].company == c
    ensures CanTake(t1, person, a) <==> CanTake(t, person, a)
  {
    assert Handle(c, a) in t.identities ==> HolderValid(t, Handle(c, a));
    assert Handle(c, a) in t1.identities ==> HolderValid(t1, Handle(c, a));
  }

  /** The change back succeeds exactly when the old address, as the tables stood at first, could be taken in every company. */
  lemma ChangeBackSucceedsExactlyWhenItCouldBeTaken(t: Tables, user: nat, persons: seq<PrincipalId>, a: QualifiedIdentity, b: QualifiedIdentity)
    requires Valid(t) && PersonsOf(t, user, persons) && a != b && RekeyAll(t, persons, Some(a), b).Done?
    ensures RekeyAll(RekeyAll(t, persons, Some(a), b).tables, persons, Some(b), a).Done? <==> forall p | p in persons :: CanTake(t, p, a)
  {
    var t1 := RekeyAll(t, persons, Some(a), b).tables;
    RekeyAllKeepsPrincipals(t, persons, Some(a), b);
    forall p | p in persons ensures p in t1.principals && (CanTake(t1, p, a) <==> CanTake(t, p, a)) {
      RekeyMovesTrustInEveryCompany(t, user, persons, Some(a), b, t.principals[p].company);
      MovingKeepsWhatCanBeTaken(t, t1, t.principals[p].company, p, a, b);
    }
    if persons != [] {
      RekeyMovesTrustInEveryCompany(t, user, persons, Some(a), b, 0);
    }
    PersonsAreInDistinctCompanies(t1, user, persons);
    RekeySucceedsExactlyWhenItCanBeTaken(t1, persons, Some(b), a);
  }

  /**
   There and back: where both addresses can be taken in every company, changing A to B and then back
   to A succeeds. Where the person held A, it leaves A and the authorship of every message sent from
   it with the person, and B with an outsider who was not there before. Neither change loses a
   principal, and each adds at most one to a company.
   */
  lemma ThereAndBackAgain(t: Tables, user: nat, persons: seq<PrincipalId>, a: QualifiedIdentity, b: QualifiedIdentity, person: PrincipalId)
    requires Valid(t) && PersonsOf(t, user, persons) && a != b && person in persons
    requires forall p | p in persons :: CanTake(t, p, a) && CanTake(t, p, b)
    requires var c := t.principals[person].company;
      Handle(c, a) in t.identities && t.identities[Handle(c, a)].principal == person
    ensures RekeyAll(t, persons, Some(a), b).Done?
    ensures RekeyAll(RekeyAll(t, persons, Some(a), b).tables, persons, Some(b), a).Done?
    ensures var c := t.principals[person].company;
      var t1 := RekeyAll(t, persons, Some(a), b).tables;
      var t2 := RekeyAll(t1, persons, Some(b), a).tables;
      && Valid(t2) && PersonsOf(t2, user, persons)
      && Handle(c, a) in t2.identities && t2.identities[Handle(c, a)] == Identity(person, Verified)
      && (forall m | m in t.messages && t.messages[m].company == c && t.messages[m].authored == Some(a) ::
            m in t2.messages && t2.messages[m] == t.messages[m] && t2.messages[m].author == person)
      && Handle(c, b) in t2.identities
      && (var outsider := t2.identities[Handle(c, b)].principal;
            outsider in t2.principals && outsider !in t.principals && t2.principals[outsider].kind == External)
      && PrincipalsKept(t, t1, c) && PrincipalsKept(t1, t2, c)
  {
    var c := t.principals[person].company;
    PersonsAreInDistinctCompanies(t, user, persons);
    RekeySucceedsExactlyWhenItCanBeTaken(t, persons, Some(a), b);
    ChangeBackSucceedsExactlyWhenItCouldBeTaken(t, user, persons, a, b);
    var t1 := RekeyAll(t, persons, Some(a), b).tables;
    RekeyMovesTrustInEveryCompany(t, user, persons, Some(a), b, c);
    RekeyAllKeepsPrincipals(t, persons, Some(a), b);
    var t2 := RekeyAll(t1, persons, Some(b), a).tables;
    RekeyMovesTrustInEveryCompany(t1, user, persons, Some(b), a, c);
    RekeyAllKeepsPrincipals(t1, persons, Some(b), a);
    BackAgain(t, t1, t2, c, person, a, b);
  }

  lemma BackAgain(t: Tables, t1: Tables, t2: Tables, c: Company, person: PrincipalId, a: QualifiedIdentity, b: QualifiedIdentity)
    requires Valid(t) && Valid(t2) && a != b
    requires Handle(c, a) in t.identities && t.identities[Handle(c, a)].principal == person
    requires AddressesMoved(t, t1, c, person, Some(a), b) && MessagesFollow(t, t1, c, person, Some(a), b)
    requires AddressesMoved(t1, t2, c, person, Some(b), a) && MessagesFollow(t1, t2, c, person, Some(b), a)
    requires PrincipalsKept(t1, t2, c) && t.principals.Keys <= t1.principals.Keys
    ensures forall m | m in t.messages && t.messages[m].company == c && t.messages[m].authored == Some(a) ::
      m in t2.messages && t2.messages[m] == t.messages[m] && t2.messages[m].author == person
    ensures Handle(c, b) in t2.identities
    ensures var outsider := t2.identities[Handle(c, b)].principal;
      outsider in t2.principals && outsider !in t.principals && t2.principals[outsider].kind == External
  {
    assert GivesUp(t1, c, person, Some(b));
    assert HolderValid(t2, Handle(c, b));
    forall m | m in t.messages && t.messages[m].company == c && t.messages[m].authored == Some(a)
      ensures m in t2.messages && t2.messages[m] == t.messages[m] && t2.messages[m].author == person
    {
      assert MessageValid(t, m);
      assert m in t1.messages && t1.messages[m].company == c;
    }
  }

  // ---------------------------------------------------------------------------------------------
  // Many changes

  /** One account's change of address; `persons` are the account's company principals at the time. */
  datatype Change = Change(user: nat, persons: seq<PrincipalId>, former: Option<QualifiedIdentity>, name: QualifiedIdentity)

  /** A change that is refused, or that is none, leaves the tables alone. */
  function Changed(t: Tables, c: Change): Tables
    requires forall p | p in c.persons :: p in t.principals
    requires Valid(t)
  {
    if c.former == Some(c.name) then t
    else match RekeyAll(t, c.persons, c.former, c.name) case Done(t') => t' case Refused(_) => t
  }

  /** The tables `t'` come from `t` by some changes, each of the persons its account then had. */
  ghost predicate ComesFrom(t: Tables, changes: seq<Change>, t': Tables)
    decreases |changes|
  {
    if changes == [] then t' == t
    else
      var c := changes[0];
      && Valid(t) && PersonsOf(t, c.user, c.persons)
      && ComesFrom(Changed(t, c), changes[1..], t')
  }

  /** An identity after one person's change: as it was, the person's and verified, or a newcomer's and only observed. */
  lemma {:induction false} RekeyOneLeaves(t: Tables, person: PrincipalId, former: Option<QualifiedIdentity>, name: QualifiedIdentity, h: Handle)
    requires Valid(t) && person in t.principals && former != Some(name) && RekeyOne(t, person, former, name).Done?
    requires h in RekeyOne(t, person, former, name).tables.identities
    ensures var b := RekeyOne(t, person, former, name).tables;
      || (h in t.identities && b.identities[h] == t.identities[h])
      || b.identities[h] == Identity(person, Verified)
      || (b.identities[h].principal !in t.principals && b.identities[h].status == Observed)
  {
    var c := t.principals[person].company;
    if h.company == c {
      RekeyOneMoves(t, person, former, name);
      assert h == Handle(c, h.name);
    } else {
      RekeyOneIsLocal(t, person, former, name, h.company);
      assert h == Handle(h.company, h.name);
    }
  }

  /** Whoever was not there at first holds nothing but observed addresses. */
  ghost predicate NewcomersAreObserved(first: Tables, t: Tables) {
    && first.principals.Keys <= t.principals.Keys
    && (forall p | p in t.principals && p !in first.principals :: t.principals[p].user.None?)
    && (forall h | h in t.identities && t.identities[h].principal !in first.principals :: t.identities[h].status == Observed)
  }

  lemma {:induction false} RekeyAllKeepsNewcomers(
    first: Tables, t: Tables, persons: seq<PrincipalId>, former: Option<QualifiedIdentity>, name: QualifiedIdentity)
    requires Valid(t) && NewcomersAreObserved(first, t) && former != Some(name)
    requires forall p | p in persons :: p in t.principals && p in first.principals
    requires RekeyAll(t, persons, former, name).Done?
    ensures NewcomersAreObserved(first, RekeyAll(t, persons, former, name).tables)
    decreases |persons|
  {
    if persons != [] {
      var person := persons[0];
      assert person in persons;
      var s := RekeyOne(t, person, former, name).tables;
      RekeyOneIsValid(t, person, former, name);
      RekeyAllKeepsPrincipals(t, [person], former, name);
      OneOfOne(t, person, former, name);
      forall h | h in s.identities && s.identities[h].principal !in first.principals ensures s.identities[h].status == Observed {
        RekeyOneLeaves(t, person, former, name, h);
      }
      forall p | p in persons[1..] ensures p in persons {}
      RekeyAllKeepsNewcomers(first, s, persons[1..], former, name);
    }
  }

  lemma OneOfOne(t: Tables, person: PrincipalId, former: Option<QualifiedIdentity>, name: QualifiedIdentity)
    requires Valid(t) && person in t.principals && former != Some(name) && RekeyOne(t, person, former, name).Done?
    ensures RekeyAll(t, [person], former, name) == RekeyOne(t, person, former, name)
  {
    assert [person][1..] == [];
  }

  lemma {:induction false} ChangesKeepNewcomers(first: Tables, t: Tables, changes: seq<Change>, t': Tables)
    requires Valid(t) && NewcomersAreObserved(first, t) && ComesFrom(t, changes, t')
    ensures Valid(t') && NewcomersAreObserved(first, t')
    decreases |changes|
  {
    if changes != [] {
      var c := changes[0];
      if c.former != Some(c.name) && RekeyAll(t, c.persons, c.former, c.name).Done? {
        assert forall p | p in c.persons :: t.principals[p].user.Some?;
        RekeyAllKeepsNewcomers(first, t, c.persons, c.former, c.name);
        RekeyAllKeepsPrincipals(t, c.persons, c.former, c.name);
      }
      ChangesKeepNewcomers(first, Changed(t, c), changes[1..], t');
    }
  }

  /** After any number of changes, an address held by a principal the changes made is only observed, never verified. */
  lemma GivenUpAddressesAreObserved(t: Tables, changes: seq<Change>, t': Tables, h: Handle)
    requires Valid(t) && ComesFrom(t, changes, t')
    requires h in t'.identities && t'.identities[h].principal !in t.principals
    ensures t'.identities[h].status == Observed
  {
    assert forall h | h in t.identities :: HolderValid(t, h);
    ChangesKeepNewcomers(t, t, changes, t');
  }
}
