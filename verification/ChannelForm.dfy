/** Reading a channel's allowlist back into the form and saving it again. */
module ChannelForm {
  import opened Rows
  import opened ChannelAccess

  /** An address that the text functions leave as it is. */
  ghost predicate Canonical(w: Words, address: string) {
    w.norm(address) == address && address != "" && address != PUBLIC && w.parse(address) == Some(address)
  }

  ghost predicate CanonicalTable(w: Words, t: Company) {
    forall a | a in t.identities :: Canonical(w, a)
  }

  /** The addresses the form shows: every address of a principal the form lets participate. */
  ghost function Shown(t: Company, c: ChannelId): set<string> {
    set a | a in t.identities && GrantKey(c, t.identities[a], Participate) in t.grants
            && !FromElsewhere(t, GrantKey(c, t.identities[a], Participate))
  }

  /** `entries` is what the form reads for the channel. */
  ghost predicate Reads(t: Company, c: ChannelId, entries: Option<seq<string>>) {
    && c in t.channels
    && match t.channels[c].mode
       case Team => entries == None
       case Allowlist => entries.Some? && multiset(entries.value) == multiset(Shown(t, c))
       case Public =>
         && entries.Some? && |entries.value| > 0 && entries.value[0] == PUBLIC
         && multiset(entries.value[1..]) == multiset(Shown(t, c))
  }

  ghost predicate PublicIsItself(w: Words) { w.norm(PUBLIC) == PUBLIC }

  lemma ReadNames(w: Words, t: Company, c: ChannelId, entries: Option<seq<string>>, p: string)
    requires CanonicalTable(w, t) && PublicIsItself(w) && Reads(t, c, entries) && (t.channels[c].mode == Team ==> Shown(t, c) == {})
    ensures p in Participants(w, Entries(entries)) <==> p in Shown(t, c)
    ensures NamesPublic(w, Entries(entries)) <==> t.channels[c].mode == Public
  {
    var list := Entries(entries);
    var shown := Shown(t, c);
    ParticipantsAreTheNames(w, list, p);
    forall i | 0 <= i < |list| && list[i] != PUBLIC ensures list[i] in shown {
      ShownEntry(t, c, entries, i);
    }
    if p in shown {
      ShownIsListed(t, c, entries, p);
      var i :| 0 <= i < |list| && list[i] == p;
      assert w.norm(list[i]) == p;
    }
    if t.channels[c].mode == Public {
      assert w.norm(list[0]) == PUBLIC;
    } else {
      NoPublicListed(t, c, entries, w);
    }
  }

  lemma ShownEntry(t: Company, c: ChannelId, entries: Option<seq<string>>, i: nat)
    requires Reads(t, c, entries) && i < |Entries(entries)| && Entries(entries)[i] != PUBLIC
    ensures Entries(entries)[i] in Shown(t, c)
  {
    var list := Entries(entries);
    if t.channels[c].mode == Public {
      assert list[1..][i - 1] == list[i];
      assert list[i] in multiset(list[1..]);
    } else {
      assert list[i] in multiset(list);
    }
  }

  lemma ShownIsListed(t: Company, c: ChannelId, entries: Option<seq<string>>, a: string)
    requires Reads(t, c, entries) && a in Shown(t, c) && t.channels[c].mode != Team
    ensures exists i :: 0 <= i < |Entries(entries)| && Entries(entries)[i] == a
  {
    var list := Entries(entries);
    assert a in multiset(Shown(t, c));
    if t.channels[c].mode == Public {
      assert a in list[1..];
      var i :| 0 <= i < |list[1..]| && list[1..][i] == a;
      assert list[i + 1] == a;
    } else {
      assert a in list;
    }
  }

  lemma NoPublicListed(t: Company, c: ChannelId, entries: Option<seq<string>>, w: Words)
    requires CanonicalTable(w, t) && Reads(t, c, entries) && t.channels[c].mode != Public
    ensures !NamesPublic(w, Entries(entries))
  {
    var list := Entries(entries);
    forall i | 0 <= i < |list| ensures w.norm(list[i]) != PUBLIC {
      assert list[i] in multiset(list);
    }
  }

  /** The principals an edit listed. */
  ghost predicate Chosen(w: Words, t: Company, edit: Edit, p: PrincipalId) {
    Listed(w, t, Participants(w, Entries(edit.entries)), p)
  }

  /** Someone else gave the principal this capability. */
  predicate HeldElsewhere(t: Company, c: ChannelId, p: PrincipalId, capability: Capability) {
    FromElsewhere(t, GrantKey(c, p, capability))
  }

  /**
   Whether the form can show what was chosen: whoever may participate by someone else's grant may also
   view by someone else's, and a list that restricts the channel has someone who participates by it.
   */
  ghost predicate Showable(w: Words, t: Company, edit: Edit) {
    var c := edit.channel;
    && (forall p | Chosen(w, t, edit, p) && HeldElsewhere(t, c, p, Participate) :: HeldElsewhere(t, c, p, View))
    && (ModeOf(w, Entries(edit.entries)) == Allowlist ==> exists p :: Chosen(w, t, edit, p) && !HeldElsewhere(t, c, p, Participate))
  }

  /** Shown are the addresses of those chosen who participate by the form's own grant. */
  lemma ShownAreTheChosen(w: Words, t: Company, edit: Edit, t1: Company, a: string)
    requires Written(w, t, edit) == Some(t1)
    ensures a in Shown(t1, edit.channel) <==>
      a in t1.identities && Chosen(w, t1, edit, t1.identities[a]) && !HeldElsewhere(t1, edit.channel, t1.identities[a], Participate)
  {
    EditGrantsExactly(w, t, edit);
  }

  lemma ChosenHaveAddresses(w: Words, t: Company, edit: Edit, t1: Company, p: PrincipalId)
    requires Written(w, t, edit) == Some(t1) && Chosen(w, t1, edit, p)
    ensures exists a :: a in t1.identities && t1.identities[a] == p
  {
    var participants := Participants(w, Entries(edit.entries));
    var i :| 0 <= i < |participants| && Names(w, t1, participants[i], p);
    assert w.parse(participants[i]).value in t1.identities;
  }

  /** Whom the saved-back list names: those chosen who participate by the form's own grant. */
  lemma SavedBackNames(w: Words, t: Company, edit: Edit, t1: Company, again: Edit, t2: Company, p: PrincipalId)
    requires CanonicalTable(w, t1) && PublicIsItself(w)
    requires Saved(w, t, edit, t1) && Reads(t1, edit.channel, again.entries) && again.channel == edit.channel
    requires Written(w, t1, again) == Some(t2) && Extends(t1, t2)
    ensures Chosen(w, t2, again, p) <==> Chosen(w, t1, edit, p) && !HeldElsewhere(t1, edit.channel, p, Participate)
  {
    var c, names := edit.channel, Participants(w, Entries(again.entries));
    TeamShowsNobody(w, t, edit, t1);
    if Chosen(w, t2, again, p) {
      var i :| 0 <= i < |names| && Names(w, t2, names[i], p);
      ReadNames(w, t1, c, again.entries, names[i]);
      ShownAreTheChosen(w, t, edit, t1, names[i]);
    }
    if Chosen(w, t1, edit, p) && !HeldElsewhere(t1, c, p, Participate) {
      ChosenHaveAddresses(w, t, edit, t1, p);
      var a :| a in t1.identities && t1.identities[a] == p;
      ShownAreTheChosen(w, t, edit, t1, a);
      ReadNames(w, t1, c, again.entries, a);
      var i :| 0 <= i < |names| && names[i] == a;
      assert Names(w, t2, names[i], p);
    }
  }

  lemma TeamShowsNobody(w: Words, t: Company, edit: Edit, t1: Company)
    requires Written(w, t, edit) == Some(t1)
    ensures ModeOf(w, Entries(edit.entries)) == Team ==> Shown(t1, edit.channel) == {}
  {
    if ModeOf(w, Entries(edit.entries)) == Team {
      forall a ensures a !in Shown(t1, edit.channel) {
        ShownAreTheChosen(w, t, edit, t1, a);
      }
    }
  }

  ghost predicate Saved(w: Words, t: Company, edit: Edit, t1: Company) {
    && Written(w, t, edit) == Some(t1)
    && edit.channel in t1.channels && t1.channels[edit.channel].mode == ModeOf(w, Entries(edit.entries))
  }

  lemma ReadNamesParse(w: Words, t: Company, edit: Edit, t1: Company, again: Edit)
    requires CanonicalTable(w, t1) && PublicIsItself(w)
    requires Saved(w, t, edit, t1)
    requires Reads(t1, edit.channel, again.entries) && again.channel == edit.channel
    ensures AllParse(w, Participants(w, Entries(again.entries)))
  {
    var names := Participants(w, Entries(again.entries));
    TeamShowsNobody(w, t, edit, t1);
    forall i | 0 <= i < |names| ensures w.parse(names[i]).Some? {
      ReadNames(w, t1, edit.channel, again.entries, names[i]);
      assert Canonical(w, names[i]);
    }
  }

  lemma SavingBackSucceeds(w: Words, t: Company, edit: Edit, t1: Company, again: Edit)
    requires CanonicalTable(w, t1) && PublicIsItself(w)
    requires Saved(w, t, edit, t1)
    requires Reads(t1, edit.channel, again.entries) && again.channel == edit.channel && again.slugsFree && again.inTime
    ensures Written(w, t1, again).Some? && Extends(t1, Written(w, t1, again).value)
  {
    ReadNamesParse(w, t, edit, t1, again);
    ParsedIsWritten(w, t1, again);
  }

  lemma ParsedIsWritten(w: Words, t: Company, edit: Edit)
    requires edit.channel in t.channels && edit.slugsFree && edit.inTime
    requires AllParse(w, Participants(w, Entries(edit.entries)))
    ensures Written(w, t, edit).Some? && Extends(t, Written(w, t, edit).value)
  {
    var c, entries := edit.channel, Entries(edit.entries);
    var channel := Channel(ModeOf(w, entries), edit.settings, t.channels[c].revision + 1);
    var u := t.(channels := t.channels[c := channel], grants := WithoutForm(t.grants, c));
    AllAreGranted(w, u, c, Participants(w, entries));
    GrantingExtends(w, u, c, Participants(w, entries));
  }

  /** The same people hold the same capabilities on the channel, and its mode is the same. */
  ghost predicate SameAccess(t1: Company, t2: Company, c: ChannelId) {
    && c in t1.channels && c in t2.channels && t2.channels[c].mode == t1.channels[c].mode
    && t2.grants.Keys == t1.grants.Keys
  }

  lemma SameGrantsExactlyWhen(w: Words, t: Company, edit: Edit, t1: Company, again: Edit, t2: Company)
    requires Written(w, t, edit) == Some(t1) && Written(w, t1, again) == Some(t2) && again.channel == edit.channel
    requires forall p :: Chosen(w, t2, again, p) <==> Chosen(w, t1, edit, p) && !HeldElsewhere(t1, edit.channel, p, Participate)
    ensures t2.grants.Keys == t1.grants.Keys <==>
      forall p | Chosen(w, t1, edit, p) && HeldElsewhere(t1, edit.channel, p, Participate) :: HeldElsewhere(t1, edit.channel, p, View)
  {
    var c := edit.channel;
    EditGrantsExactly(w, t, edit);
    EditGrantsExactly(w, t1, again);
    if forall p | Chosen(w, t1, edit, p) && HeldElsewhere(t1, c, p, Participate) :: HeldElsewhere(t1, c, p, View) {
      forall k: GrantKey ensures k in t2.grants <==> k in t1.grants {
        assert k == GrantKey(k.channel, k.principal, k.capability);
        assert k.capability == Participate || k.capability == View;
        assert Chosen(w, t2, again, k.principal) <==> Chosen(w, t1, edit, k.principal) && !HeldElsewhere(t1, c, k.principal, Participate);
      }
    } else {
      var p :| Chosen(w, t1, edit, p) && HeldElsewhere(t1, c, p, Participate) && !HeldElsewhere(t1, c, p, View);
      assert !Chosen(w, t2, again, p);
      assert GrantKey(c, p, View) in t1.grants.Keys && GrantKey(c, p, View) !in t2.grants.Keys;
    }
  }

  lemma SameModeExactlyWhen(w: Words, t: Company, edit: Edit, t1: Company, again: Edit)
    requires CanonicalTable(w, t1) && PublicIsItself(w)
    requires Saved(w, t, edit, t1)
    requires Reads(t1, edit.channel, again.entries)
    ensures ModeOf(w, Entries(again.entries)) == t1.channels[edit.channel].mode <==>
      (t1.channels[edit.channel].mode == Allowlist ==>
        exists p :: Chosen(w, t1, edit, p) && !HeldElsewhere(t1, edit.channel, p, Participate))
  {
    var c, names := edit.channel, Participants(w, Entries(again.entries));
    TeamShowsNobody(w, t, edit, t1);
    ReadNames(w, t1, c, again.entries, "");
    assert names != [] ==> names[0] in names;
    if names != [] {
      ReadNames(w, t1, c, again.entries, names[0]);
      ShownAreTheChosen(w, t, edit, t1, names[0]);
    }
    if p :| Chosen(w, t1, edit, p) && !HeldElsewhere(t1, c, p, Participate) {
      ChosenHaveAddresses(w, t, edit, t1, p);
      var a :| a in t1.identities && t1.identities[a] == p;
      ShownAreTheChosen(w, t, edit, t1, a);
      ReadNames(w, t1, c, again.entries, a);
    }
  }

  /**
   Saving back the list that was read leaves the mode and the granted set as they were exactly when
   the form could show what was chosen. With no grants of other provenances it always can.
   */
  lemma SavingBackKeepsAccessExactlyWhenShowable(w: Words, t: Company, edit: Edit, again: Edit)
    requires PublicIsItself(w) && Written(w, t, edit).Some? && CanonicalTable(w, Written(w, t, edit).value)
    requires Reads(Written(w, t, edit).value, edit.channel, again.entries)
    requires again.channel == edit.channel && again.slugsFree && again.inTime
    ensures var t1 := Written(w, t, edit).value;
      && Written(w, t1, again).Some?
      && (SameAccess(t1, Written(w, t1, again).value, edit.channel) <==> Showable(w, t1, edit))
  {
    var t1 := Written(w, t, edit).value;
    EditIsAllOrNothing(w, t, edit);
    SavingBackSucceeds(w, t, edit, t1, again);
    var t2 := Written(w, t1, again).value;
    EditIsAllOrNothing(w, t1, again);
    forall p ensures Chosen(w, t2, again, p) <==> Chosen(w, t1, edit, p) && !HeldElsewhere(t1, edit.channel, p, Participate) {
      SavedBackNames(w, t, edit, t1, again, t2, p);
    }
    SameGrantsExactlyWhen(w, t, edit, t1, again, t2);
    SameModeExactlyWhen(w, t, edit, t1, again);
  }

  /** With no grants of other provenances on the channel, saving back always keeps its access. */
  lemma AloneIsShowable(w: Words, t: Company, edit: Edit)
    requires Written(w, t, edit).Some? && forall k | FromElsewhere(t, k) :: k.channel != edit.channel
    ensures Showable(w, Written(w, t, edit).value, edit)
  {
    var t1 := Written(w, t, edit).value;
    EditGrantsExactly(w, t, edit);
    var participants := Participants(w, Entries(edit.entries));
    if ModeOf(w, Entries(edit.entries)) == Allowlist {
      var c := edit.channel;
      var channel := Channel(ModeOf(w, Entries(edit.entries)), edit.settings, t.channels[c].revision + 1);
      GivingAll(w, t.(channels := t.channels[c := channel], grants := WithoutForm(t.grants, c)), c, participants);
      var p := t1.identities[w.parse(participants[0]).value];
      assert Names(w, t1, participants[0], p);
      assert Chosen(w, t1, edit, p);
    }
  }

  function Same(s: string): string { s }
  function Itself(s: string): Option<string> { Some(s) }

  /**
   An allowlist whose one participant already had a manager's grants reads back empty, and saving that
   opens the channel to the whole team.
   */
  lemma ManagersGuestOpensTheChannel()
    ensures var w := Words(Same, Itself);
      var t := Company(map[0 := Channel(Team, 0, 0)], map["a@x" := 7],
                       map[GrantKey(0, 7, Participate) := Manager, GrantKey(0, 7, View) := Manager], 8);
      var edit, again := Edit(0, Some(["a@x"]), 0, true, true), Edit(0, Some([]), 0, true, true);
      && Written(w, t, edit).Some?
      && Reads(Written(w, t, edit).value, 0, again.entries)
      && Written(w, t, edit).value.channels[0].mode == Allowlist
      && Step(w, Written(w, t, edit).value, again).channels[0].mode == Team
  {
    var w := Words(Same, Itself);
    var t := Company(map[0 := Channel(Team, 0, 0)], map["a@x" := 7],
                     map[GrantKey(0, 7, Participate) := Manager, GrantKey(0, 7, View) := Manager], 8);
    var edit, again := Edit(0, Some(["a@x"]), 0, true, true), Edit(0, Some([]), 0, true, true);
    assert ["a@x"][..0] == [];
    assert Participants(w, ["a@x"]) == ["a@x"];
    assert !NamesPublic(w, ["a@x"]);
    var t1 := t.(channels := map[0 := Channel(Allowlist, 0, 1)]);
    assert WithoutForm(t.grants, 0) == t.grants;
    assert GrantedOne(w, t1, 0, "a@x") == Some(t1);
    assert GrantedAll(w, t1, 0, ["a@x"]) == Some(t1);
    assert t.channels[0 := Channel(Allowlist, 0, 1)] == t1.channels;
    assert Written(w, t, edit) == Some(t1);
    assert Shown(t1, 0) == {};
  }
}
