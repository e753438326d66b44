/**
 Who may use a channel: the email allowlist of its settings form, the grants it stores, and how the
 form reads back.

 One company's channels. `Words` stands for the text functions an entry goes through: trimming and
 lower-casing, and parsing a mailbox to its address.
 */
module ChannelAccess {
  import opened Rows

  type ChannelId = nat
  type PrincipalId = nat

  const PUBLIC := "@public"

  datatype Words = Words(norm: string -> string, parse: string -> Option<string>)

  datatype Mode = Public | Team | Allowlist
  datatype Capability = Participate | View
  datatype Provenance = ConfiguredAllowlist | Manager | ConversationMembership | SystemGrant
  datatype GrantKey = GrantKey(channel: ChannelId, principal: PrincipalId, capability: Capability)

  /** The settings other than access are one value. */
  datatype Channel = Channel(mode: Mode, settings: nat, revision: nat)

  datatype Company = Company(
    channels: map<ChannelId, Channel>,
    identities: map<string, PrincipalId>,
    grants: map<GrantKey, Provenance>,
    unused: PrincipalId)

  /** What an edit asks for, and whether its addresses are free and it stays within its deadline. */
  datatype Edit = Edit(channel: ChannelId, entries: Option<seq<string>>, settings: nat, slugsFree: bool, inTime: bool)

  // ---------------------------------------------------------------------------------------------
  // Reading the form

  /** The participants the entries name, each once, where it first appears. */
  function Participants(w: Words, entries: seq<string>): seq<string> {
    if entries == [] then []
    else
      var before, e := Participants(w, entries[..|entries| - 1]), w.norm(entries[|entries| - 1]);
      if e == "" || e == PUBLIC || e in before then before else before + [e]
  }

  predicate NamesPublic(w: Words, entries: seq<string>) {
    exists i :: 0 <= i < |entries| && w.norm(entries[i]) == PUBLIC
  }

  function Entries(entries: Option<seq<string>>): seq<string> {
    if entries.Some? then entries.value else []
  }

  function ModeOf(w: Words, entries: seq<string>): Mode {
    if NamesPublic(w, entries) then Public
    else if Participants(w, entries) == [] then Team
    else Allowlist
  }

  method ReadForm(w: Words, entries: Option<seq<string>>) returns (mode: Mode, participants: seq<string>)
    ensures mode == ModeOf(w, Entries(entries))
    ensures participants == Participants(w, Entries(entries))
  {
    var seen: set<string> := {};
    var isPublic := false;
    participants := [];
    var list := if entries.Some? then entries.value else [];
    for i := 0 to |list|
      invariant participants == Participants(w, list[..i])
      invariant forall p :: p in seen <==> p in participants
      invariant isPublic == NamesPublic(w, list[..i])
    {
      assert list[..i + 1][..i] == list[..i];
      OneMoreEntry(w, list[..i], list[i]);
      assert list[..i + 1] == list[..i] + [list[i]];
      var normalized := w.norm(list[i]);
      if normalized == "" {
        continue;
      }
      if normalized == PUBLIC {
        isPublic := true;
      } else if normalized !in seen {
        seen := seen + {normalized};
        participants := participants + [normalized];
      }
    }
    assert list[..|list|] == list;
    mode := if isPublic then Public else if participants == [] then Team else Allowlist;
  }

  lemma OneMoreEntry(w: Words, entries: seq<string>, e: string)
    ensures NamesPublic(w, entries + [e]) <==> NamesPublic(w, entries) || w.norm(e) == PUBLIC
  {
    var longer := entries + [e];
    if NamesPublic(w, entries) {
      var i :| 0 <= i < |entries| && w.norm(entries[i]) == PUBLIC;
      assert longer[i] == entries[i];
    }
    assert longer[|entries|] == e;
  }

  /** The participants are exactly the entries' names other than the empty one and the public mark, without repeats. */
  lemma {:induction false} ParticipantsAreTheNames(w: Words, entries: seq<string>, p: string)
    ensures p in Participants(w, entries) <==> p != "" && p != PUBLIC && exists i :: 0 <= i < |entries| && w.norm(entries[i]) == p
    ensures multiset(Participants(w, entries))[p] <= 1
  {
    if entries != [] {
      var front, e := entries[..|entries| - 1], entries[|entries| - 1];
      ParticipantsAreTheNames(w, front, p);
      if exists i :: 0 <= i < |front| && w.norm(front[i]) == p {
        var i :| 0 <= i < |front| && w.norm(front[i]) == p;
        assert entries[i] == front[i];
      }
      assert p in Participants(w, front) <==> p in multiset(Participants(w, front));
    }
  }

  // ---------------------------------------------------------------------------------------------
  // Writing the grants

  /** The address's principal, as an outsider made for it if nobody holds it. */
  function Resolved(t: Company, address: string): Company {
    if address in t.identities then t
    else t.(identities := t.identities[address := t.unused], unused := t.unused + 1)
  }

  /** Add a grant unless the principal already holds the capability, whoever gave it. */
  function Added(grants: map<GrantKey, Provenance>, k: GrantKey): map<GrantKey, Provenance> {
    if k in grants then grants else grants[k := ConfiguredAllowlist]
  }

  function GrantedOne(w: Words, t: Company, c: ChannelId, participant: string): Option<Company> {
    match w.parse(participant)
    case None => None
    case Some(address) =>
      var t1 := Resolved(t, address);
      var p := t1.identities[address];
      Some(t1.(grants := Added(Added(t1.grants, GrantKey(c, p, Participate)), GrantKey(c, p, View))))
  }

  function GrantedAll(w: Words, t: Company, c: ChannelId, participants: seq<string>): Option<Company> {
    if participants == [] then Some(t)
    else
      match GrantedAll(w, t, c, participants[..|participants| - 1])
      case None => None
      case Some(t1) => GrantedOne(w, t1, c, participants[|participants| - 1])
  }

  /** The grants that are not this form's. */
  function WithoutForm(grants: map<GrantKey, Provenance>, c: ChannelId): map<GrantKey, Provenance> {
    map k | k in grants && !(k.channel == c && grants[k] == ConfiguredAllowlist) :: grants[k]
  }

  /** Everything one edit writes, or `None` where it fails and is rolled back. */
  function Written(w: Words, t: Company, edit: Edit): Option<Company> {
    var c, entries := edit.channel, Entries(edit.entries);
    if c !in t.channels || !edit.slugsFree || !edit.inTime then None
    else
      var channel := Channel(ModeOf(w, entries), edit.settings, t.channels[c].revision + 1);
      var t1 := t.(channels := t.channels[c := channel], grants := WithoutForm(t.grants, c));
      GrantedAll(w, t1, c, Participants(w, entries))
  }

  function Step(w: Words, t: Company, edit: Edit): Company {
    match Written(w, t, edit)
    case Some(t') => t'
    case None => t
  }

  function Run(w: Words, t: Company, edits: seq<Edit>): Company {
    if edits == [] then t else Step(w, Run(w, t, edits[..|edits| - 1]), edits[|edits| - 1])
  }

  /** The edit's transaction, statement by statement. */
  class ChannelStore {
    const w: Words
    var channels: map<ChannelId, Channel>
    var identities: map<string, PrincipalId>
    var grants: map<GrantKey, Provenance>
    var unused: PrincipalId

    ghost function State(): Company
      reads this
    {
      Company(channels, identities, grants, unused)
    }

    method InsertGrants(c: ChannelId, participants: seq<string>) returns (ok: bool)
      modifies `identities, `grants, `unused
      ensures ok <==> GrantedAll(w, old(State()), c, participants).Some?
      ensures ok ==> State() == GrantedAll(w, old(State()), c, participants).value
    {
      for i := 0 to |participants|
        invariant channels == old(channels)
        invariant GrantedAll(w, old(State()), c, participants[..i]) == Some(State())
      {
        assert participants[..i + 1][..i] == participants[..i];
        var address := w.parse(participants[i]);
        if address.None? {
          RefusalSpreads(w, old(State()), c, participants, i + 1);
          return false;
        }
        if address.value !in identities {
          identities := identities[address.value := unused];
          unused := unused + 1;
        }
        var p := identities[address.value];
        if GrantKey(c, p, Participate) !in grants {
          grants := grants[GrantKey(c, p, Participate) := ConfiguredAllowlist];
        }
        if GrantKey(c, p, View) !in grants {
          grants := grants[GrantKey(c, p, View) := ConfiguredAllowlist];
        }
      }
      assert participants[..|participants|] == participants;
      return true;
    }

    /** Saves the whole edit, or rolls back and changes nothing. */
    method UpdateChannel(edit: Edit) returns (saved: bool)
      modifies this
      ensures State() == Step(w, old(State()), edit)
      ensures saved <==> Written(w, old(State()), edit).Some?
    {
      if edit.channel !in channels {
        return false;
      }
      var c, was := edit.channel, (channels, identities, grants, unused);
      var mode, participants := ReadForm(w, edit.entries);
      channels := channels[c := Channel(mode, edit.settings, channels[c].revision + 1)];
      grants := map k | k in grants && !(k.channel == c && grants[k] == ConfiguredAllowlist) :: grants[k];
      assert grants == WithoutForm(old(grants), c);
      saved := edit.slugsFree;
      if saved {
        saved := InsertGrants(c, participants);
      }
      saved := saved && edit.inTime;
      if !saved {
        channels, identities, grants, unused := was.0, was.1, was.2, was.3;
      }
    }
  }

  lemma {:induction false} RefusalSpreads(w: Words, t: Company, c: ChannelId, participants: seq<string>, i: nat)
    requires i <= |participants| && GrantedAll(w, t, c, participants[..i]).None?
    ensures GrantedAll(w, t, c, participants).None?
    decreases |participants| - i
  {
    if i == |participants| {
      assert participants[..i] == participants;
    } else {
      assert participants[..i + 1][..i] == participants[..i];
      RefusalSpreads(w, t, c, participants, i + 1);
    }
  }

  // ---------------------------------------------------------------------------------------------
  // What an edit grants

  /** Some listed participant's address is this principal's. */
  ghost predicate Listed(w: Words, t: Company, participants: seq<string>, p: PrincipalId) {
    exists i :: 0 <= i < |participants| && Names(w, t, participants[i], p)
  }

  predicate Names(w: Words, t: Company, participant: string, p: PrincipalId) {
    var a := w.parse(participant);
    a.Some? && a.value in t.identities && t.identities[a.value] == p
  }

  predicate Extends(t: Company, t': Company) {
    forall a | a in t.identities :: a in t'.identities && t'.identities[a] == t.identities[a]
  }

  /** `t'` is `t` with the form's grants for these participants on a channel, and no others. */
  ghost predicate Gave(w: Words, t: Company, t': Company, c: ChannelId, participants: seq<string>) {
    && Extends(t, t') && t'.channels == t.channels
    && (forall i | 0 <= i < |participants| :: w.parse(participants[i]).Some? && w.parse(participants[i]).value in t'.identities)
    && (forall k :: k in t'.grants <==> k in t.grants || (k.channel == c && Listed(w, t', participants, k.principal)))
    && (forall k | k in t'.grants :: t'.grants[k] == if k in t.grants then t.grants[k] else ConfiguredAllowlist)
  }

  lemma GivingOne(w: Words, t: Company, t1: Company, c: ChannelId, front: seq<string>, participant: string)
    requires Gave(w, t, t1, c, front) && w.parse(participant).Some?
    ensures Gave(w, t, GrantedOne(w, t1, c, participant).value, c, front + [participant])
  {
    var t' := GrantedOne(w, t1, c, participant).value;
    var all := front + [participant];
    var p := t'.identities[w.parse(participant).value];
    forall q ensures Listed(w, t', all, q) <==> Listed(w, t1, front, q) || q == p {
      LongerList(w, t1, t', front, participant, q);
    }
    forall k ensures k in t'.grants <==> k in t1.grants || (k.channel == c && k.principal == p) {
      assert k.capability == Participate || k.capability == View;
      assert k == GrantKey(k.channel, k.principal, k.capability);
    }
    forall i | 0 <= i < |all| ensures w.parse(all[i]).Some? && w.parse(all[i]).value in t'.identities {
      assert i < |front| ==> all[i] == front[i];
    }
  }

  lemma LongerList(w: Words, t1: Company, t': Company, front: seq<string>, participant: string, q: PrincipalId)
    requires Extends(t1, t') && forall i | 0 <= i < |front| :: w.parse(front[i]).Some? && w.parse(front[i]).value in t1.identities
    ensures Listed(w, t', front + [participant], q) <==> Listed(w, t1, front, q) || Names(w, t', participant, q)
  {
    var all := front + [participant];
    if Listed(w, t', all, q) {
      var i :| 0 <= i < |all| && Names(w, t', all[i], q);
      if i < |front| {
        assert Names(w, t1, front[i], q);
      }
    }
    if Listed(w, t1, front, q) {
      var i :| 0 <= i < |front| && Names(w, t1, front[i], q);
      assert all[i] == front[i] && Names(w, t', all[i], q);
    }
    assert all[|front|] == participant;
  }

  lemma GivingNone(w: Words, t: Company, c: ChannelId)
    ensures Gave(w, t, t, c, [])
  {
  }

  lemma {:induction false} GivingAll(w: Words, t: Company, c: ChannelId, participants: seq<string>)
    requires GrantedAll(w, t, c, participants).Some?
    ensures Gave(w, t, GrantedAll(w, t, c, participants).value, c, participants)
  {
    if participants == [] {
      GivingNone(w, t, c);
    } else {
      var front, last := participants[..|participants| - 1], participants[|participants| - 1];
      assert participants == front + [last];
      var mid := GrantedAll(w, t, c, front).value;
      assert GrantedAll(w, t, c, participants) == GrantedOne(w, mid, c, last);
      assert Gave(w, t, mid, c, front) by {
        GivingAll(w, t, c, front);
      }
      GivingOne(w, t, mid, c, front, last);
    }
  }

  lemma {:induction false} GrantingExtends(w: Words, t: Company, c: ChannelId, participants: seq<string>)
    requires GrantedAll(w, t, c, participants).Some?
    ensures Extends(t, GrantedAll(w, t, c, participants).value)
  {
    if participants != [] {
      GrantingExtends(w, t, c, participants[..|participants| - 1]);
    }
  }

  ghost predicate AllParse(w: Words, participants: seq<string>) {
    forall i | 0 <= i < |participants| :: w.parse(participants[i]).Some?
  }

  lemma {:induction false} AllAreGranted(w: Words, t: Company, c: ChannelId, participants: seq<string>)
    requires AllParse(w, participants)
    ensures GrantedAll(w, t, c, participants).Some?
  {
    if participants != [] {
      AllAreGranted(w, t, c, participants[..|participants| - 1]);
    }
  }

  predicate FromElsewhere(t: Company, k: GrantKey) {
    k in t.grants && t.grants[k] != ConfiguredAllowlist
  }

  /**
   After an edit the channel's grants are exactly those of other provenances, as they were, and both
   capabilities for every listed participant; other channels are as they were.
   */
  lemma EditGrantsExactly(w: Words, t: Company, edit: Edit)
    requires Written(w, t, edit).Some?
    ensures var t', listed := Written(w, t, edit).value, Participants(w, Entries(edit.entries));
      && (forall k: GrantKey | k.channel == edit.channel :: k in t'.grants <==> FromElsewhere(t, k) || Listed(w, t', listed, k.principal))
      && (forall k: GrantKey | k.channel != edit.channel :: (k in t'.grants <==> k in t.grants) && (k in t.grants ==> t'.grants[k] == t.grants[k]))
      && (forall k :: FromElsewhere(t', k) <==> FromElsewhere(t, k))
      && (forall k | FromElsewhere(t, k) :: t'.grants[k] == t.grants[k])
  {
    var c, entries := edit.channel, Entries(edit.entries);
    var channel := Channel(ModeOf(w, entries), edit.settings, t.channels[c].revision + 1);
    var t1 := t.(channels := t.channels[c := channel], grants := WithoutForm(t.grants, c));
    GivingAll(w, t1, c, Participants(w, entries));
  }

  /** Over any sequence of edits no grant of another provenance is added, relabelled or deleted. */
  lemma {:induction false} OthersGrantsStand(w: Words, t: Company, edits: seq<Edit>, k: GrantKey)
    ensures FromElsewhere(Run(w, t, edits), k) <==> FromElsewhere(t, k)
    ensures FromElsewhere(t, k) ==> Run(w, t, edits).grants[k] == t.grants[k]
  {
    if edits != [] {
      var front, edit := edits[..|edits| - 1], edits[|edits| - 1];
      OthersGrantsStand(w, t, front, k);
      if Written(w, Run(w, t, front), edit).Some? {
        EditGrantsExactly(w, Run(w, t, front), edit);
      }
    }
  }

  // ---------------------------------------------------------------------------------------------
  // Newcomers

  /** Every principal known by an address was made before the next one will be. */
  ghost predicate Numbered(t: Company) {
    forall a | a in t.identities :: t.identities[a] < t.unused
  }

  /** Addresses that `t'` knows and `t` did not have principals of their own that nobody had. */
  ghost predicate NewcomersAreNew(t: Company, t': Company) {
    && Numbered(t') && t.unused <= t'.unused && Extends(t, t')
    && (forall a | a in t'.identities && a !in t.identities :: t.unused <= t'.identities[a])
    && (forall a, b | a in t'.identities && b in t'.identities && a != b && a !in t.identities :: t'.identities[a] != t'.identities[b])
  }

  lemma ResolvedIsNew(t: Company, t': Company, address: string)
    requires Numbered(t) && NewcomersAreNew(t, t')
    ensures NewcomersAreNew(t, Resolved(t', address))
  {
  }

  lemma {:induction false} GrantingAddsNewcomers(w: Words, t: Company, t0: Company, c: ChannelId, participants: seq<string>)
    requires Numbered(t) && NewcomersAreNew(t, t0) && GrantedAll(w, t0, c, participants).Some?
    ensures NewcomersAreNew(t, GrantedAll(w, t0, c, participants).value)
  {
    if participants != [] {
      var front, last := participants[..|participants| - 1], participants[|participants| - 1];
      GrantingAddsNewcomers(w, t, t0, c, front);
      var mid := GrantedAll(w, t0, c, front).value;
      ResolvedIsNew(t, mid, w.parse(last).value);
    }
  }

  /** Over any sequence of edits, an address nobody held gets a principal nobody had, and no two addresses get the same. */
  lemma {:induction false} EditsAddNewcomers(w: Words, t: Company, edits: seq<Edit>)
    requires Numbered(t)
    ensures NewcomersAreNew(t, Run(w, t, edits))
    ensures forall a | a in Run(w, t, edits).identities && a !in t.identities :: Run(w, t, edits).identities[a] !in t.identities.Values
  {
    if edits != [] {
      var front, edit := edits[..|edits| - 1], edits[|edits| - 1];
      EditsAddNewcomers(w, t, front);
      var s := Run(w, t, front);
      if Written(w, s, edit).Some? {
        var c, entries := edit.channel, Entries(edit.entries);
        var channel := Channel(ModeOf(w, entries), edit.settings, s.channels[c].revision + 1);
        var u := s.(channels := s.channels[c := channel], grants := WithoutForm(s.grants, c));
        GrantingAddsNewcomers(w, t, u, c, Participants(w, entries));
      }
    }
  }

  /** A failed or late edit changes neither settings nor revision; a saved one advances the revision by one. */
  lemma EditIsAllOrNothing(w: Words, t: Company, edit: Edit)
    ensures Written(w, t, edit).None? ==> Step(w, t, edit) == t
    ensures Written(w, t, edit).Some? ==>
      && edit.channel in t.channels
      && Step(w, t, edit).channels == t.channels[edit.channel := Channel(ModeOf(w, Entries(edit.entries)), edit.settings, t.channels[edit.channel].revision + 1)]
  {
    if Written(w, t, edit).Some? {
      var c, entries := edit.channel, Entries(edit.entries);
      var channel := Channel(ModeOf(w, entries), edit.settings, t.channels[c].revision + 1);
      GivingAll(w, t.(channels := t.channels[c := channel], grants := WithoutForm(t.grants, c)), c, Participants(w, entries));
    }
  }

  // ---------------------------------------------------------------------------------------------
  // When an edit is saved, and what it names

  /** An entry that says nothing, marks the channel public, or is an address. */
  ghost predicate Acceptable(w: Words, entry: string) {
    w.norm(entry) == "" || w.norm(entry) == "@public" || w.parse(w.norm(entry)).Some?
  }

  lemma {:induction false} GrantedExactlyWhenParsed(w: Words, t: Company, c: ChannelId, participants: seq<string>)
    ensures GrantedAll(w, t, c, participants).Some? <==> AllParse(w, participants)
  {
    if participants != [] {
      var front := participants[..|participants| - 1];
      GrantedExactlyWhenParsed(w, t, c, front);
      assert AllParse(w, participants) <==> AllParse(w, front) && w.parse(participants[|participants| - 1]).Some? by {
        assert forall i | 0 <= i < |front| :: front[i] == participants[i];
      }
    }
  }

  lemma ParsedExactlyWhenAcceptable(w: Words, entries: seq<string>)
    ensures AllParse(w, Participants(w, entries)) <==> forall i | 0 <= i < |entries| :: Acceptable(w, entries[i])
  {
    var names := Participants(w, entries);
    if AllParse(w, names) {
      forall i | 0 <= i < |entries| ensures Acceptable(w, entries[i]) {
        ParticipantsAreTheNames(w, entries, w.norm(entries[i]));
      }
    }
    if forall i | 0 <= i < |entries| :: Acceptable(w, entries[i]) {
      forall j | 0 <= j < |names| ensures w.parse(names[j]).Some? {
        ParticipantsAreTheNames(w, entries, names[j]);
        var i :| 0 <= i < |entries| && w.norm(entries[i]) == names[j];
        assert Acceptable(w, entries[i]);
      }
    }
  }

  /** An edit is saved exactly when its channel exists, its addresses are free, it is in time and every entry is acceptable. */
  lemma SavedExactlyWhenAcceptable(w: Words, t: Company, edit: Edit)
    ensures Written(w, t, edit).Some? <==>
      && edit.channel in t.channels && edit.slugsFree && edit.inTime
      && forall i | 0 <= i < |Entries(edit.entries)| :: Acceptable(w, Entries(edit.entries)[i])
  {
    var c, entries := edit.channel, Entries(edit.entries);
    ParsedExactlyWhenAcceptable(w, entries);
    if c in t.channels {
      var channel := Channel(ModeOf(w, entries), edit.settings, t.channels[c].revision + 1);
      GrantedExactlyWhenParsed(w, t.(channels := t.channels[c := channel], grants := WithoutForm(t.grants, c)), c, Participants(w, entries));
    }
  }

  /** The saved mode: public when an entry says so, the team's when no entry says anything, a list otherwise. */
  lemma ModeIsWhatTheEntriesSay(w: Words, t: Company, edit: Edit)
    requires Written(w, t, edit).Some?
    ensures var entries := Entries(edit.entries);
      edit.channel in Step(w, t, edit).channels &&
      match Step(w, t, edit).channels[edit.channel].mode
      case Public => exists i :: 0 <= i < |entries| && w.norm(entries[i]) == "@public"
      case Team => forall i | 0 <= i < |entries| :: w.norm(entries[i]) == ""
      case Allowlist =>
        && (forall i | 0 <= i < |entries| :: w.norm(entries[i]) != "@public")
        && exists i :: 0 <= i < |entries| && w.norm(entries[i]) != ""
  {
    var entries := Entries(edit.entries);
    var names := Participants(w, entries);
    EditIsAllOrNothing(w, t, edit);
    forall i | 0 <= i < |entries| && names == [] && !NamesPublic(w, entries) ensures w.norm(entries[i]) == "" {
      ParticipantsAreTheNames(w, entries, w.norm(entries[i]));
    }
    if names != [] {
      assert names[0] in names;
      ParticipantsAreTheNames(w, entries, names[0]);
    }
  }

  /** Participants stand in the order in which they are first named. */
  lemma {:induction false} ParticipantsKeepTheirOrder(w: Words, entries: seq<string>, i: nat, j: nat, b: nat)
    requires i < j < |Participants(w, entries)| && b < |entries| && w.norm(entries[b]) == Participants(w, entries)[j]
    ensures NamedBefore(w, entries, b, Participants(w, entries)[i])
  {
    var front, names := entries[..|entries| - 1], Participants(w, entries);
    var before := Participants(w, front);
    assert names == before || names == before + [w.norm(entries[|entries| - 1])];
    assert names[i] == before[i];
    if b < |front| {
      ParticipantsAreTheNames(w, entries, names[j]);
      ParticipantsAreTheNames(w, front, names[j]);
      assert front[b] == entries[b] && names[j] in names && names[j] in before;
      NamedOnce(before, names, j);
      ParticipantsKeepTheirOrder(w, front, i, j, b);
      NamedBeforeStill(w, entries, b, names[i]);
    } else {
      ParticipantsAreTheNames(w, front, names[i]);
      assert names[i] in before;
      NamedBeforeStill(w, entries, b, names[i]);
    }
  }

  ghost predicate NamedBefore(w: Words, entries: seq<string>, b: nat, name: string) {
    exists a :: 0 <= a < b && a < |entries| && w.norm(entries[a]) == name
  }

  lemma NamedBeforeStill(w: Words, entries: seq<string>, b: nat, name: string)
    requires entries != [] && NamedBefore(w, entries[..|entries| - 1], b, name)
    ensures NamedBefore(w, entries, b, name)
  {
    var a :| 0 <= a < b && a < |entries| - 1 && w.norm(entries[..|entries| - 1][a]) == name;
    assert w.norm(entries[a]) == name;
  }

  lemma NamedOnce(before: seq<string>, names: seq<string>, j: nat)
    requires j < |names| && names[j] in before && multiset(names)[names[j]] <= 1
    requires names == before || (|names| == |before| + 1 && names[..|before|] == before)
    ensures j < |before|
  {
    if |names| > |before| {
      assert names == before + [names[|before|]];
      assert multiset(names) == multiset(before) + multiset{names[|before|]};
    }
  }

  /** The addresses a company knows after an edit: those it knew and those the edit lists. */
  lemma {:induction false} KnownAreTheListed(w: Words, t: Company, c: ChannelId, participants: seq<string>, a: string)
    requires GrantedAll(w, t, c, participants).Some?
    ensures a in GrantedAll(w, t, c, participants).value.identities <==>
      a in t.identities || exists i :: 0 <= i < |participants| && w.parse(participants[i]) == Some(a)
  {
    if participants != [] {
      var front, last := participants[..|participants| - 1], participants[|participants| - 1];
      KnownAreTheListed(w, t, c, front, a);
      if i :| 0 <= i < |front| && w.parse(front[i]) == Some(a) {
        assert participants[i] == front[i];
      }
    }
  }
}
