/**
 An account's address change, as every company it belongs to sees it.

 An identity row is named by its unique key, a company and a qualified address, instead of by its
 surrogate identifier; identity rows are never deleted, so the two name the same rows. A random
 identifier is the next one nobody has. Labels, claim metadata and timestamps of principals and
 identities are left out.
 */
module AccountIdentity {
  import opened Rows

  type PrincipalId = nat
  type Company = nat

  datatype Kind = Person | Agent | External | SystemActor
  datatype Principal = Principal(company: Company, kind: Kind, user: Option<nat>)

  datatype QualifiedIdentity = QualifiedIdentity(transport: string, namespace: string, subject: string)
  datatype Handle = Handle(company: Company, name: QualifiedIdentity)
  datatype Status = Observed | Verified
  datatype Identity = Identity(principal: PrincipalId, status: Status)

  datatype Message = Message(company: Company, author: PrincipalId, authored: Option<QualifiedIdentity>)

  datatype Capability = Participate | View
  datatype GrantKey = GrantKey(company: Company, channel: nat, principal: PrincipalId, capability: Capability)
  datatype Grant = Grant(provenance: string, created: int)

  datatype ThreadRole = Author | Participant
  datatype PlaceKey = PlaceKey(company: Company, channel: nat, thread: nat, principal: PrincipalId, role: ThreadRole)

  datatype Tables = Tables(
    principals: map<PrincipalId, Principal>,
    identities: map<Handle, Identity>,
    messages: map<nat, Message>,
    grants: map<GrantKey, Grant>,
    places: map<PlaceKey, int>,
    unused: PrincipalId)

  datatype Refusal = Conflict(kind: Kind) | InvalidAddress
  datatype Outcome = Done(tables: Tables) | Refused(why: Refusal)

  // ---------------------------------------------------------------------------------------------
  // The steps

  /** The messages of one company sent from `from`, attributed to `author`. */
  function Attribute(messages: map<nat, Message>, c: Company, from: QualifiedIdentity, author: PrincipalId): map<nat, Message> {
    map m | m in messages ::
      if messages[m].company == c && messages[m].authored == Some(from) then messages[m].(author := author) else messages[m]
  }

  /** Hand the old address to a new outsider, with the messages it sent, if the person holds it. */
  function Detach(t: Tables, c: Company, person: PrincipalId, former: QualifiedIdentity): Tables {
    var h := Handle(c, former);
    if h !in t.identities || t.identities[h].principal != person then t
    else t.(principals := t.principals[t.unused := Principal(c, External, None)],
            identities := t.identities[h := Identity(t.unused, Observed)],
            messages := Attribute(t.messages, c, former, t.unused),
            unused := t.unused + 1)
  }

  predicate StillReachable(t: Tables, c: Company, outsider: PrincipalId) {
    exists h :: h in t.identities && h.company == c && t.identities[h].principal == outsider
  }

  function MoveGrants(grants: map<GrantKey, Grant>, c: Company, person: PrincipalId, outsider: PrincipalId): map<GrantKey, Grant> {
    var taken := map k | k in grants && k.company == c && k.principal == outsider :: k.(principal := person) := grants[k];
    map k | k in (taken + grants) && !(k.company == c && k.principal == outsider) :: (taken + grants)[k]
  }

  function MovePlaces(places: map<PlaceKey, int>, c: Company, person: PrincipalId, outsider: PrincipalId): map<PlaceKey, int> {
    var taken := map k | k in places && k.company == c && k.principal == outsider :: k.(principal := person) := places[k];
    map k | k in (taken + places) && !(k.company == c && k.principal == outsider) :: (taken + places)[k]
  }

  /** Give the person what the outsider held for the address, when that address was all it was. */
  function AdoptPlaces(t: Tables, c: Company, person: PrincipalId, outsider: PrincipalId): Tables {
    if StillReachable(t, c, outsider) then t
    else t.(grants := MoveGrants(t.grants, c, person, outsider), places := MovePlaces(t.places, c, person, outsider))
  }

  /** Write the address as the person's verified account identity, taking its messages along. */
  function Upsert(t: Tables, c: Company, person: PrincipalId, name: QualifiedIdentity): Tables {
    t.(identities := t.identities[Handle(c, name) := Identity(person, Verified)],
       messages := Attribute(t.messages, c, name, person))
  }

  function Adopt(t: Tables, c: Company, person: PrincipalId, name: QualifiedIdentity): Outcome
    requires forall h | h in t.identities :: t.identities[h].principal in t.principals
  {
    var h := Handle(c, name);
    if h !in t.identities || t.identities[h].principal == person then Done(Upsert(t, c, person, name))
    else
      var holder := t.identities[h].principal;
      if t.principals[holder].kind != External then Refused(Conflict(t.principals[holder].kind))
      else Done(AdoptPlaces(Upsert(t, c, person, name), c, person, holder))
  }

  /** The change in one company. */
  function RekeyOne(t: Tables, person: PrincipalId, former: Option<QualifiedIdentity>, name: QualifiedIdentity): Outcome
    requires Valid(t) && person in t.principals
  {
    var c := t.principals[person].company;
    var detached := if former.Some? then Detach(t, c, person, former.value) else t;
    DetachKeepsReferences(t, c, person, former);
    Adopt(detached, c, person, name)
  }

  /** The change in each company in turn, until one refuses. */
  function RekeyAll(t: Tables, persons: seq<PrincipalId>, former: Option<QualifiedIdentity>, name: QualifiedIdentity): (r: Outcome)
    requires Valid(t) && former != Some(name) && forall p | p in persons :: p in t.principals
    ensures r.Done? ==> Valid(r.tables) && t.principals.Keys <= r.tables.principals.Keys
    decreases |persons|
  {
    if persons == [] then Done(t)
    else
      var first := RekeyOne(t, persons[0], former, name);
      if first.Refused? then first
      else
        RekeyOneIsValid(t, persons[0], former, name);
        RekeyAll(first.tables, persons[1..], former, name)
  }

  // ---------------------------------------------------------------------------------------------
  // What the schema holds the tables to

  ghost predicate Valid(t: Tables) {
    && (forall p | p in t.principals :: p < t.unused)
    && (forall h | h in t.identities :: HolderValid(t, h))
    && (forall m | m in t.messages :: MessageValid(t, m))
    && OnePersonEach(t)
  }

  ghost predicate HolderValid(t: Tables, h: Handle)
    requires h in t.identities
  {
    t.identities[h].principal in t.principals && t.principals[t.identities[h].principal].company == h.company
  }

  /** A message's author is of its company, and holds the identity it was sent from. */
  ghost predicate MessageValid(t: Tables, m: nat)
    requires m in t.messages
  {
    var message := t.messages[m];
    && message.author in t.principals && t.principals[message.author].company == message.company
    && (message.authored.Some? ==>
          && Handle(message.company, message.authored.value) in t.identities
          && t.identities[Handle(message.company, message.authored.value)].principal == message.author)
  }

  /** An account is at most one principal of a company. */
  ghost predicate OnePersonEach(t: Tables) {
    forall p, q | p in t.principals && q in t.principals && t.principals[p].user.Some?
               && t.principals[p].user == t.principals[q].user && t.principals[p].company == t.principals[q].company ::
      p == q
  }

  lemma DetachKeepsReferences(t: Tables, c: Company, person: PrincipalId, former: Option<QualifiedIdentity>)
    requires Valid(t)
    ensures var d := if former.Some? then Detach(t, c, person, former.value) else t;
      forall h | h in d.identities :: d.identities[h].principal in d.principals
  {
    assert forall h | h in t.identities :: HolderValid(t, h);
  }

  lemma DetachIsValid(t: Tables, c: Company, person: PrincipalId, former: QualifiedIdentity)
    requires Valid(t)
    ensures Valid(Detach(t, c, person, former))
  {
    var d := Detach(t, c, person, former);
    forall h | h in d.identities ensures HolderValid(d, h) {
      assert h in t.identities && HolderValid(t, h);
    }
    forall m | m in d.messages ensures MessageValid(d, m) {
      assert MessageValid(t, m);
    }
  }

  lemma UpsertIsValid(t: Tables, c: Company, person: PrincipalId, name: QualifiedIdentity)
    requires Valid(t) && person in t.principals && t.principals[person].company == c
    ensures Valid(Upsert(t, c, person, name))
  {
    var u := Upsert(t, c, person, name);
    forall h | h in u.identities ensures HolderValid(u, h) {
      assert h != Handle(c, name) ==> HolderValid(t, h);
    }
    forall m | m in u.messages ensures MessageValid(u, m) {
      assert MessageValid(t, m);
    }
  }

  lemma PlacesAreNotReferenced(t: Tables, t': Tables)
    requires Valid(t) && t' == t.(grants := t'.grants, places := t'.places)
    ensures Valid(t')
  {
    forall h | h in t'.identities ensures HolderValid(t', h) { assert HolderValid(t, h); }
    forall m | m in t'.messages ensures MessageValid(t', m) { assert MessageValid(t, m); }
  }

  lemma RekeyOneIsValid(t: Tables, person: PrincipalId, former: Option<QualifiedIdentity>, name: QualifiedIdentity)
    requires Valid(t) && person in t.principals
    ensures RekeyOne(t, person, former, name).Done? ==> Valid(RekeyOne(t, person, former, name).tables)
    ensures RekeyOne(t, person, former, name).Done? ==> t.principals.Keys <= RekeyOne(t, person, former, name).tables.principals.Keys
  {
    var c := t.principals[person].company;
    var d := if former.Some? then Detach(t, c, person, former.value) else t;
    if former.Some? {
      DetachIsValid(t, c, person, former.value);
    }
    DetachKeepsReferences(t, c, person, former);
    var r := Adopt(d, c, person, name);
    if r.Done? {
      UpsertIsValid(d, c, person, name);
      PlacesAreNotReferenced(Upsert(d, c, person, name), r.tables);
    }
  }

  // ---------------------------------------------------------------------------------------------
  // What the change is meant to do in one company

  /** Whose the new address was, when it was somebody else's. */
  function PreviousHolder(t: Tables, c: Company, person: PrincipalId, name: QualifiedIdentity): Option<PrincipalId> {
    var h := Handle(c, name);
    if h in t.identities && t.identities[h].principal != person then Some(t.identities[h].principal) else None
  }

  /** The new address was all the outsider was. */
  ghost predicate NothingElse(t: Tables, c: Company, outsider: PrincipalId, name: QualifiedIdentity) {
    forall h | h in t.identities && h.company == c && t.identities[h].principal == outsider :: h.name == name
  }

  ghost predicate GivesUp(t: Tables, c: Company, person: PrincipalId, former: Option<QualifiedIdentity>) {
    former.Some? && Handle(c, former.value) in t.identities && t.identities[Handle(c, former.value)].principal == person
  }

  /** No principal is lost or changed, and at most one outsider is added. */
  ghost predicate PrincipalsKept(a: Tables, b: Tables, c: Company) {
    && (forall p | p in a.principals && a.principals[p].company == c :: p in b.principals && b.principals[p] == a.principals[p])
    && (forall p | p in b.principals && b.principals[p].company == c && p !in a.principals ::
          b.principals[p].kind == External)
    && (forall p, q | p in b.principals && q in b.principals && p !in a.principals && q !in a.principals
                   && b.principals[p].company == c && b.principals[q].company == c :: p == q)
  }

  /** The new address is the person's, the old one an outsider's nobody knew, and no other moved. */
  ghost predicate AddressesMoved(a: Tables, b: Tables, c: Company, person: PrincipalId, former: Option<QualifiedIdentity>, name: QualifiedIdentity) {
    && Handle(c, name) in b.identities && b.identities[Handle(c, name)] == Identity(person, Verified)
    && (GivesUp(a, c, person, former) ==>
          && Handle(c, former.value) in b.identities
          && b.identities[Handle(c, former.value)].principal !in a.principals
          && b.identities[Handle(c, former.value)].status == Observed)
    && (forall n | n != name && !(GivesUp(a, c, person, former) && Some(n) == former) ::
          && (Handle(c, n) in b.identities <==> Handle(c, n) in a.identities)
          && (Handle(c, n) in a.identities ==> b.identities[Handle(c, n)] == a.identities[Handle(c, n)]))
    && (forall p | p in b.principals && b.principals[p].company == c && p !in a.principals ::
          GivesUp(a, c, person, former) && b.identities[Handle(c, former.value)].principal == p)
  }

  /** Messages keep what they were sent from, and go with the address they were sent from. */
  ghost predicate MessagesFollow(a: Tables, b: Tables, c: Company, person: PrincipalId, former: Option<QualifiedIdentity>, name: QualifiedIdentity)
    requires GivesUp(a, c, person, former) ==> Handle(c, former.value) in b.identities
  {
    && (forall m :: (m in a.messages && a.messages[m].company == c) <==> (m in b.messages && b.messages[m].company == c))
    && (forall m | m in a.messages && a.messages[m].company == c ::
          && b.messages[m].authored == a.messages[m].authored
          && b.messages[m].author ==
             (if a.messages[m].authored == Some(name) then person
              else if GivesUp(a, c, person, former) && a.messages[m].authored == former
              then b.identities[Handle(c, former.value)].principal
              else a.messages[m].author))
  }

  /** The person's rows and the outsider's become the person's; a row both have stays the person's. */
  ghost predicate GrantsUnited(a: Tables, b: Tables, c: Company, person: PrincipalId, outsider: PrincipalId) {
    forall k: GrantKey | k.company == c ::
      && (k in b.grants <==>
            k.principal != outsider
            && (k in a.grants || (k.principal == person && k.(principal := outsider) in a.grants)))
      && (k in b.grants ==> b.grants[k] == if k in a.grants then a.grants[k] else a.grants[k.(principal := outsider)])
  }

  ghost predicate PlacesUnited(a: Tables, b: Tables, c: Company, person: PrincipalId, outsider: PrincipalId) {
    forall k: PlaceKey | k.company == c ::
      && (k in b.places <==>
            k.principal != outsider
            && (k in a.places || (k.principal == person && k.(principal := outsider) in a.places)))
      && (k in b.places ==> b.places[k] == if k in a.places then a.places[k] else a.places[k.(principal := outsider)])
  }

  ghost predicate PlacesUntouched(a: Tables, b: Tables, c: Company) {
    && (forall k: GrantKey | k.company == c ::
          (k in b.grants <==> k in a.grants) && (k in a.grants ==> b.grants[k] == a.grants[k]))
    && (forall k: PlaceKey | k.company == c ::
          (k in b.places <==> k in a.places) && (k in a.places ==> b.places[k] == a.places[k]))
  }

  ghost predicate PlacesFollow(a: Tables, b: Tables, c: Company, person: PrincipalId, name: QualifiedIdentity) {
    var outsider := PreviousHolder(a, c, person, name);
    if outsider.Some? && NothingElse(a, c, outsider.value, name)
    then GrantsUnited(a, b, c, person, outsider.value) && PlacesUnited(a, b, c, person, outsider.value)
    else PlacesUntouched(a, b, c)
  }

  /** Everything an address change does to the rows of one company. */
  ghost predicate Rekeyed(a: Tables, b: Tables, c: Company, person: PrincipalId, former: Option<QualifiedIdentity>, name: QualifiedIdentity) {
    && PrincipalsKept(a, b, c)
    && AddressesMoved(a, b, c, person, former, name)
    && MessagesFollow(a, b, c, person, former, name)
    && PlacesFollow(a, b, c, person, name)
  }

  /** The rows of one company are the same in both. */
  ghost predicate SameIn(a: Tables, b: Tables, c: Company) {
    SamePrincipals(a, b, c) && SameIdentities(a, b, c) && SameMessages(a, b, c) && PlacesUntouched(a, b, c)
  }

  ghost predicate SamePrincipals(a: Tables, b: Tables, c: Company) {
    && (forall p :: (p in a.principals && a.principals[p].company == c) <==> (p in b.principals && b.principals[p].company == c))
    && (forall p | p in a.principals && a.principals[p].company == c :: b.principals[p] == a.principals[p])
  }

  ghost predicate SameIdentities(a: Tables, b: Tables, c: Company) {
    && (forall n :: Handle(c, n) in a.identities <==> Handle(c, n) in b.identities)
    && (forall n | Handle(c, n) in a.identities :: b.identities[Handle(c, n)] == a.identities[Handle(c, n)])
  }

  ghost predicate SameMessages(a: Tables, b: Tables, c: Company) {
    && (forall m :: (m in a.messages && a.messages[m].company == c) <==> (m in b.messages && b.messages[m].company == c))
    && (forall m | m in a.messages && a.messages[m].company == c :: b.messages[m] == a.messages[m])
  }

  lemma DetachIsLocal(t: Tables, c: Company, person: PrincipalId, former: QualifiedIdentity, other: Company)
    requires Valid(t) && other != c
    ensures SameIn(t, Detach(t, c, person, former), other)
  {
  }

  lemma UpsertIsLocal(t: Tables, c: Company, person: PrincipalId, name: QualifiedIdentity, other: Company)
    requires other != c
    ensures SameIn(t, Upsert(t, c, person, name), other)
  {
  }

  lemma MovesAreLocal(t: Tables, c: Company, person: PrincipalId, outsider: PrincipalId, other: Company)
    requires other != c
    ensures SameIn(t, AdoptPlaces(t, c, person, outsider), other)
  {
  }

  lemma SameInIsTransitive(x: Tables, y: Tables, z: Tables, c: Company)
    requires SameIn(x, y, c) && SameIn(y, z, c)
    ensures SameIn(x, z, c)
  {
  }

  lemma RekeyOneIsLocal(t: Tables, person: PrincipalId, former: Option<QualifiedIdentity>, name: QualifiedIdentity, other: Company)
    requires Valid(t) && person in t.principals && other != t.principals[person].company
    requires RekeyOne(t, person, former, name).Done?
    ensures SameIn(t, RekeyOne(t, person, former, name).tables, other)
  {
    var c := t.principals[person].company;
    var d := if former.Some? then Detach(t, c, person, former.value) else t;
    if former.Some? {
      DetachIsLocal(t, c, person, former.value, other);
    }
    DetachKeepsReferences(t, c, person, former);
    UpsertIsLocal(d, c, person, name, other);
    SameInIsTransitive(t, d, Upsert(d, c, person, name), other);
    var previous := PreviousHolder(d, c, person, name);
    if previous.Some? {
      MovesAreLocal(Upsert(d, c, person, name), c, person, previous.value, other);
      SameInIsTransitive(t, Upsert(d, c, person, name), AdoptPlaces(Upsert(d, c, person, name), c, person, previous.value), other);
    }
  }

  // ---------------------------------------------------------------------------------------------
  // One company's change does what it is meant to

  lemma MovingUnites(t: Tables, c: Company, person: PrincipalId, outsider: PrincipalId)
    requires person != outsider && !StillReachable(t, c, outsider)
    ensures GrantsUnited(t, AdoptPlaces(t, c, person, outsider), c, person, outsider)
    ensures PlacesUnited(t, AdoptPlaces(t, c, person, outsider), c, person, outsider)
  {
    var b := AdoptPlaces(t, c, person, outsider);
    forall k: GrantKey | k.company == c
      ensures (k in b.grants <==>
                k.principal != outsider
                && (k in t.grants || (k.principal == person && k.(principal := outsider) in t.grants)))
      ensures k in b.grants ==> b.grants[k] == if k in t.grants then t.grants[k] else t.grants[k.(principal := outsider)]
    {
      GrantMoves(t.grants, c, person, outsider, k);
    }
    forall k: PlaceKey | k.company == c
      ensures (k in b.places <==>
                k.principal != outsider
                && (k in t.places || (k.principal == person && k.(principal := outsider) in t.places)))
      ensures k in b.places ==> b.places[k] == if k in t.places then t.places[k] else t.places[k.(principal := outsider)]
    {
      PlaceMoves(t.places, c, person, outsider, k);
    }
  }

  lemma GrantMoves(grants: map<GrantKey, Grant>, c: Company, person: PrincipalId, outsider: PrincipalId, k: GrantKey)
    requires person != outsider && k.company == c
    ensures var moved := MoveGrants(grants, c, person, outsider);
      && (k in moved <==>
            k.principal != outsider && (k in grants || (k.principal == person && k.(principal := outsider) in grants)))
      && (k in moved ==> moved[k] == if k in grants then grants[k] else grants[k.(principal := outsider)])
  {
    var taken := map k | k in grants && k.company == c && k.principal == outsider :: k.(principal := person) := grants[k];
    if k.principal == person && k.(principal := outsider) in grants {
      var from := k.(principal := outsider);
      assert from.(principal := person) == k;
      assert k in taken;
    }
    if k in taken {
      var from :| from in grants && from.company == c && from.principal == outsider && from.(principal := person) == k;
      assert from == k.(principal := outsider);
    }
  }

  lemma PlaceMoves(places: map<PlaceKey, int>, c: Company, person: PrincipalId, outsider: PrincipalId, k: PlaceKey)
    requires person != outsider && k.company == c
    ensures var moved := MovePlaces(places, c, person, outsider);
      && (k in moved <==>
            k.principal != outsider && (k in places || (k.principal == person && k.(principal := outsider) in places)))
      && (k in moved ==> moved[k] == if k in places then places[k] else places[k.(principal := outsider)])
  {
    var taken := map k | k in places && k.company == c && k.principal == outsider :: k.(principal := person) := places[k];
    if k.principal == person && k.(principal := outsider) in places {
      var from := k.(principal := outsider);
      assert from.(principal := person) == k;
      assert k in taken;
    }
    if k in taken {
      var from :| from in places && from.company == c && from.principal == outsider && from.(principal := person) == k;
      assert from == k.(principal := outsider);
    }
  }

  /** Giving up the old address leaves the new one's holder, and what else they hold, alone. */
  lemma DetachLeavesTheNewHolder(t: Tables, c: Company, person: PrincipalId, former: Option<QualifiedIdentity>, name: QualifiedIdentity)
    requires Valid(t) && former != Some(name)
    ensures var d := if former.Some? then Detach(t, c, person, former.value) else t;
      && PreviousHolder(d, c, person, name) == PreviousHolder(t, c, person, name)
      && d.grants == t.grants && d.places == t.places
      && (forall o | PreviousHolder(t, c, person, name) == Some(o) ::
            StillReachable(Upsert(d, c, person, name), c, o) <==> !NothingElse(t, c, o, name))
  {
    var d := if former.Some? then Detach(t, c, person, former.value) else t;
    forall o | PreviousHolder(t, c, person, name) == Some(o)
      ensures StillReachable(Upsert(d, c, person, name), c, o) <==> !NothingElse(t, c, o, name)
    {
      var u := Upsert(d, c, person, name);
      assert HolderValid(t, Handle(c, name));
      if !NothingElse(t, c, o, name) {
        var h :| h in t.identities && h.company == c && t.identities[h].principal == o && h.name != name;
        assert h in u.identities && u.identities[h].principal == o;
      }
      if StillReachable(u, c, o) {
        var h :| h in u.identities && h.company == c && u.identities[h].principal == o;
        assert h.name != name;
        assert h in t.identities && t.identities[h].principal == o;
      }
    }
  }

  lemma RekeyOneParts(t: Tables, person: PrincipalId, former: Option<QualifiedIdentity>, name: QualifiedIdentity)
    returns (d: Tables, u: Tables)
    requires Valid(t) && person in t.principals
    requires RekeyOne(t, person, former, name).Done?
    ensures d == if former.Some? then Detach(t, t.principals[person].company, person, former.value) else t
    ensures u == Upsert(d, t.principals[person].company, person, name)
    ensures var b := RekeyOne(t, person, former, name).tables;
      var previous := PreviousHolder(d, t.principals[person].company, person, name);
      && b == (if previous.Some? then AdoptPlaces(u, t.principals[person].company, person, previous.value) else u)
      && b.principals == d.principals && b.identities == u.identities && b.messages == u.messages
  {
    var c := t.principals[person].company;
    d := if former.Some? then Detach(t, c, person, former.value) else t;
    DetachKeepsReferences(t, c, person, former);
    u := Upsert(d, c, person, name);
  }

  /** `u` is `t` with the old address given up and the new one written. */
  ghost predicate Swapped(t: Tables, u: Tables, c: Company, person: PrincipalId, former: Option<QualifiedIdentity>, name: QualifiedIdentity) {
    u == Upsert(if former.Some? then Detach(t, c, person, former.value) else t, c, person, name)
  }

  lemma SwapKeepsPrincipals(t: Tables, u: Tables, c: Company, person: PrincipalId, former: Option<QualifiedIdentity>, name: QualifiedIdentity)
    requires Valid(t) && Swapped(t, u, c, person, former, name)
    ensures PrincipalsKept(t, u, c)
    ensures forall p | p in t.principals :: p in u.principals && u.principals[p] == t.principals[p]
    ensures forall p | p in u.principals && p !in t.principals :: u.principals[p] == Principal(c, External, None)
  {
    assert t.unused !in t.principals;
  }

  lemma SwapMovesAddresses(t: Tables, u: Tables, c: Company, person: PrincipalId, former: Option<QualifiedIdentity>, name: QualifiedIdentity)
    requires Valid(t) && former != Some(name) && Swapped(t, u, c, person, former, name)
    ensures AddressesMoved(t, u, c, person, former, name)
  {
    assert t.unused !in t.principals;
    if former.Some? {
      var d := Detach(t, c, person, former.value);
      assert forall n | n != former.value ::
        && (Handle(c, n) in d.identities <==> Handle(c, n) in t.identities)
        && (Handle(c, n) in t.identities ==> d.identities[Handle(c, n)] == t.identities[Handle(c, n)]);
    }
  }

  lemma SwapMovesMessages(t: Tables, u: Tables, c: Company, person: PrincipalId, former: Option<QualifiedIdentity>, name: QualifiedIdentity)
    requires Valid(t) && former != Some(name) && Swapped(t, u, c, person, former, name)
    ensures GivesUp(t, c, person, former) ==> Handle(c, former.value) in u.identities
    ensures MessagesFollow(t, u, c, person, former, name)
  {
    if GivesUp(t, c, person, former) {
      assert u.identities[Handle(c, former.value)].principal == t.unused;
    }
  }

  lemma RekeyOneMovesPlaces(t: Tables, person: PrincipalId, former: Option<QualifiedIdentity>, name: QualifiedIdentity)
    requires Valid(t) && person in t.principals && former != Some(name)
    requires RekeyOne(t, person, former, name).Done?
    ensures PlacesFollow(t, RekeyOne(t, person, former, name).tables, t.principals[person].company, person, name)
  {
    var c := t.principals[person].company;
    var b := RekeyOne(t, person, former, name).tables;
    var d, u := RekeyOneParts(t, person, former, name);
    DetachLeavesTheNewHolder(t, c, person, former, name);
    var previous := PreviousHolder(t, c, person, name);
    if previous.Some? && NothingElse(t, c, previous.value, name) {
      MovingUnites(u, c, person, previous.value);
    }
  }

  lemma RekeyOneMoves(t: Tables, person: PrincipalId, former: Option<QualifiedIdentity>, name: QualifiedIdentity)
    requires Valid(t) && person in t.principals && former != Some(name)
    requires RekeyOne(t, person, former, name).Done?
    ensures Rekeyed(t, RekeyOne(t, person, former, name).tables, t.principals[person].company, person, former, name)
  {
    var d, u := RekeyOneParts(t, person, former, name);
    var c := t.principals[person].company;
    SwapKeepsPrincipals(t, u, c, person, former, name);
    SwapMovesAddresses(t, u, c, person, former, name);
    SwapMovesMessages(t, u, c, person, former, name);
    RekeyOneMovesPlaces(t, person, former, name);
  }

  /** What one company's rows say of an address is the same wherever those rows are the same. */
  lemma SameHolders(a: Tables, x: Tables, c: Company, person: PrincipalId, former: Option<QualifiedIdentity>, name: QualifiedIdentity)
    requires SameIdentities(a, x, c)
    ensures GivesUp(a, c, person, former) <==> GivesUp(x, c, person, former)
    ensures PreviousHolder(a, c, person, name) == PreviousHolder(x, c, person, name)
    ensures forall o :: NothingElse(a, c, o, name) <==> NothingElse(x, c, o, name)
  {
    forall o ensures NothingElse(a, c, o, name) <==> NothingElse(x, c, o, name) {
      assert forall h: Handle | h.company == c :: h == Handle(c, h.name);
    }
  }

  lemma SamePrincipalsKept(a: Tables, x: Tables, y: Tables, b: Tables, c: Company)
    requires SamePrincipals(a, x, c) && PrincipalsKept(x, y, c) && SamePrincipals(y, b, c)
    requires Nested(a, x, y, c)
    ensures PrincipalsKept(a, b, c)
  {
    forall p | p in b.principals && b.principals[p].company == c && p !in a.principals
      ensures p in y.principals && p !in x.principals && b.principals[p] == y.principals[p]
    {}
  }

  /** Principals are only ever added, and never with an identifier that was taken. */
  ghost predicate Nested(a: Tables, x: Tables, y: Tables, c: Company) {
    && a.principals.Keys <= x.principals.Keys <= y.principals.Keys
    && (forall p | p in x.principals && p !in a.principals :: x.principals[p].company != c)
    && (forall p | p in x.principals :: y.principals[p] == x.principals[p])
  }

  lemma SameAddressesMoved(
    a: Tables, x: Tables, y: Tables, b: Tables, c: Company,
    person: PrincipalId, former: Option<QualifiedIdentity>, name: QualifiedIdentity)
    requires SameIn(a, x, c) && AddressesMoved(x, y, c, person, former, name) && SameIn(y, b, c)
    requires Nested(a, x, y, c)
    ensures AddressesMoved(a, b, c, person, former, name)
    ensures MessagesFollow(x, y, c, person, former, name) ==> MessagesFollow(a, b, c, person, former, name)
  {
    SameHolders(a, x, c, person, former, name);
    forall p | p in b.principals && b.principals[p].company == c && p !in a.principals
      ensures p in y.principals && p !in x.principals && y.principals[p].company == c
    {
    }
  }

  lemma SamePlacesFollow(
    a: Tables, x: Tables, y: Tables, b: Tables, c: Company, person: PrincipalId, name: QualifiedIdentity)
    requires SameIn(a, x, c) && PlacesFollow(x, y, c, person, name) && SameIn(y, b, c)
    ensures PlacesFollow(a, b, c, person, name)
  {
    SameHolders(a, x, c, person, None, name);
    var outsider := PreviousHolder(a, c, person, name);
    if outsider.Some? && NothingElse(a, c, outsider.value, name) {
      assert GrantsUnited(a, b, c, person, outsider.value);
      assert PlacesUnited(a, b, c, person, outsider.value);
    }
  }

  /** A description of one company's change reads only that company's rows. */
  lemma RekeyedReadsOneCompany(
    a: Tables, x: Tables, y: Tables, b: Tables, c: Company,
    person: PrincipalId, former: Option<QualifiedIdentity>, name: QualifiedIdentity)
    requires SameIn(a, x, c) && Rekeyed(x, y, c, person, former, name) && SameIn(y, b, c)
    requires Nested(a, x, y, c)
    ensures Rekeyed(a, b, c, person, former, name)
  {
    SamePrincipalsKept(a, x, y, b, c);
    SameAddressesMoved(a, x, y, b, c, person, former, name);
    SamePlacesFollow(a, x, y, b, c, person, name);
  }

  // ---------------------------------------------------------------------------------------------
  // The change in every company

  ghost predicate DistinctCompanies(t: Tables, persons: seq<PrincipalId>) {
    && (forall p | p in persons :: p in t.principals)
    && forall i, j | 0 <= i < j < |persons| :: t.principals[persons[i]].company != t.principals[persons[j]].company
  }

  lemma RekeyOneAddsPrincipals(t: Tables, person: PrincipalId, former: Option<QualifiedIdentity>, name: QualifiedIdentity)
    requires Valid(t) && person in t.principals && RekeyOne(t, person, former, name).Done?
    ensures var b := RekeyOne(t, person, former, name).tables;
      && (forall p | p in t.principals :: p in b.principals && b.principals[p] == t.principals[p])
      && (forall p | p in b.principals && p !in t.principals :: b.principals[p] == Principal(t.principals[person].company, External, None))
  {
    var d, u := RekeyOneParts(t, person, former, name);
    SwapKeepsPrincipals(t, u, t.principals[person].company, person, former, name);
  }

  lemma {:induction false} RekeyAllIsLocal(t: Tables, persons: seq<PrincipalId>, former: Option<QualifiedIdentity>, name: QualifiedIdentity, c: Company)
    requires Valid(t) && former != Some(name) && (forall p | p in persons :: p in t.principals && t.principals[p].company != c)
    requires RekeyAll(t, persons, former, name).Done?
    ensures SameIn(t, RekeyAll(t, persons, former, name).tables, c)
    ensures Valid(RekeyAll(t, persons, former, name).tables)
    ensures var b := RekeyAll(t, persons, former, name).tables;
      forall p | p in t.principals :: p in b.principals && b.principals[p] == t.principals[p]
    decreases |persons|
  {
    if persons != [] {
      assert persons[0] in persons;
      var s := RekeyOne(t, persons[0], former, name).tables;
      RekeyOneIsValid(t, persons[0], former, name);
      RekeyOneIsLocal(t, persons[0], former, name, c);
      RekeyOneAddsPrincipals(t, persons[0], former, name);
      forall p | p in persons[1..] ensures p in persons {}
      RekeyAllIsLocal(s, persons[1..], former, name, c);
      SameInIsTransitive(t, s, RekeyAll(t, persons, former, name).tables, c);
    }
  }

  lemma {:induction false} RekeyAllKeepsPrincipals(t: Tables, persons: seq<PrincipalId>, former: Option<QualifiedIdentity>, name: QualifiedIdentity)
    requires Valid(t) && former != Some(name) && (forall p | p in persons :: p in t.principals)
    requires RekeyAll(t, persons, former, name).Done?
    ensures Valid(RekeyAll(t, persons, former, name).tables)
    ensures OnlyOutsidersAdded(t, RekeyAll(t, persons, former, name).tables)
    decreases |persons|
  {
    if persons != [] {
      assert persons[0] in persons;
      var s := RekeyOne(t, persons[0], former, name).tables;
      RekeyOneIsValid(t, persons[0], former, name);
      RekeyOneAddsPrincipals(t, persons[0], former, name);
      assert OnlyOutsidersAdded(t, s);
      forall p | p in persons[1..] ensures p in persons {}
      RekeyAllKeepsPrincipals(s, persons[1..], former, name);
      AddedTwice(t, s, RekeyAll(s, persons[1..], former, name).tables);
    }
  }

  /** Every principal is as it was, and whoever is new is an outsider with no account. */
  ghost predicate OnlyOutsidersAdded(a: Tables, b: Tables) {
    && (forall p | p in a.principals :: p in b.principals && b.principals[p] == a.principals[p])
    && (forall p | p in b.principals && p !in a.principals :: b.principals[p].kind == External && b.principals[p].user.None?)
  }

  lemma AddedTwice(a: Tables, s: Tables, b: Tables)
    requires OnlyOutsidersAdded(a, s) && OnlyOutsidersAdded(s, b)
    ensures OnlyOutsidersAdded(a, b)
  {
  }

  /** The first person's company: the changes after it are in other companies. */
  lemma FirstMoves(t: Tables, persons: seq<PrincipalId>, former: Option<QualifiedIdentity>, name: QualifiedIdentity)
    requires Valid(t) && former != Some(name) && DistinctCompanies(t, persons) && persons != []
    requires RekeyAll(t, persons, former, name).Done?
    ensures Rekeyed(t, RekeyAll(t, persons, former, name).tables, t.principals[persons[0]].company, persons[0], former, name)
  {
    var c := t.principals[persons[0]].company;
    var s := RekeyOne(t, persons[0], former, name).tables;
    RekeyOneIsValid(t, persons[0], former, name);
    RekeyOneAddsPrincipals(t, persons[0], former, name);
    RekeyOneMoves(t, persons[0], former, name);
    forall p | p in persons[1..] ensures p in s.principals && s.principals[p].company != c {
      var j :| 0 <= j < |persons[1..]| && persons[1..][j] == p;
      assert persons[j + 1] == p;
    }
    RekeyAllIsLocal(s, persons[1..], former, name, c);
    RekeyedReadsOneCompany(t, t, s, RekeyAll(t, persons, former, name).tables, c, persons[0], former, name);
  }

  lemma OthersStayDistinct(t: Tables, persons: seq<PrincipalId>, s: Tables)
    requires DistinctCompanies(t, persons) && persons != []
    requires forall p | p in t.principals :: p in s.principals && s.principals[p] == t.principals[p]
    ensures DistinctCompanies(s, persons[1..])
  {
    forall p | p in persons[1..] ensures p in persons {}
    forall j, k | 0 <= j < k < |persons[1..]|
      ensures s.principals[persons[1..][j]].company != s.principals[persons[1..][k]].company
    {
      assert persons[1..][j] == persons[j + 1] && persons[1..][k] == persons[k + 1];
      assert persons[j + 1] in persons && persons[k + 1] in persons;
    }
  }

  /** One person's change, as any other company sees it. */
  lemma FirstIsElsewhere(t: Tables, person: PrincipalId, former: Option<QualifiedIdentity>, name: QualifiedIdentity, c: Company)
    requires Valid(t) && person in t.principals && t.principals[person].company != c && RekeyOne(t, person, former, name).Done?
    ensures var s := RekeyOne(t, person, former, name).tables;
      && Valid(s) && SameIn(t, s, c)
      && (forall p | p in t.principals :: p in s.principals && s.principals[p] == t.principals[p])
      && (forall p | p in s.principals && p !in t.principals :: s.principals[p].company != c)
  {
    RekeyOneIsValid(t, person, former, name);
    RekeyOneAddsPrincipals(t, person, former, name);
    RekeyOneIsLocal(t, person, former, name, c);
  }

  lemma SameInItself(t: Tables, c: Company)
    ensures SameIn(t, t, c)
  {
  }

  lemma {:induction false} RekeyAllMoves(t: Tables, persons: seq<PrincipalId>, former: Option<QualifiedIdentity>, name: QualifiedIdentity, i: nat)
    requires Valid(t) && former != Some(name) && DistinctCompanies(t, persons) && i < |persons|
    requires RekeyAll(t, persons, former, name).Done?
    ensures Rekeyed(t, RekeyAll(t, persons, former, name).tables, t.principals[persons[i]].company, persons[i], former, name)
    decreases |persons|, 1
  {
    if i == 0 {
      FirstMoves(t, persons, former, name);
    } else {
      LaterMoves(t, persons, former, name, i);
    }
  }

  lemma ReadFromTheStart(t: Tables, s: Tables, b: Tables, c: Company, person: PrincipalId, former: Option<QualifiedIdentity>, name: QualifiedIdentity)
    requires SameIn(t, s, c) && Rekeyed(s, b, c, person, former, name) && Nested(t, s, b, c)
    ensures Rekeyed(t, b, c, person, former, name)
  {
    SameInItself(b, c);
    RekeyedReadsOneCompany(t, s, b, b, c, person, former, name);
  }

  lemma LaterNest(t: Tables, s: Tables, others: seq<PrincipalId>, former: Option<QualifiedIdentity>, name: QualifiedIdentity, c: Company)
    requires Valid(s) && former != Some(name) && (forall p | p in others :: p in s.principals) && RekeyAll(s, others, former, name).Done?
    requires t.principals.Keys <= s.principals.Keys
    requires forall p | p in s.principals && p !in t.principals :: s.principals[p].company != c
    ensures Nested(t, s, RekeyAll(s, others, former, name).tables, c)
  {
    RekeyAllKeepsPrincipals(s, others, former, name);
  }

  lemma {:induction false} LaterMoves(t: Tables, persons: seq<PrincipalId>, former: Option<QualifiedIdentity>, name: QualifiedIdentity, i: nat)
    requires Valid(t) && former != Some(name) && DistinctCompanies(t, persons) && 0 < i < |persons|
    requires RekeyAll(t, persons, former, name).Done?
    ensures Rekeyed(t, RekeyAll(t, persons, former, name).tables, t.principals[persons[i]].company, persons[i], former, name)
    decreases |persons|, 0
  {
    var c, others := t.principals[persons[i]].company, persons[1..];
    var s, b := RekeyOne(t, persons[0], former, name).tables, RekeyAll(t, persons, former, name).tables;
    assert persons[0] in persons && persons[i] in persons && others[i - 1] == persons[i];
    FirstIsElsewhere(t, persons[0], former, name, c);
    OthersStayDistinct(t, persons, s);
    assert b == RekeyAll(s, others, former, name).tables;
    RekeyAllMoves(s, others, former, name, i - 1);
    LaterNest(t, s, others, former, name, c);
    ReadFromTheStart(t, s, b, c, persons[i], former, name);
  }
}
