/**
 Redacting an active credential from a provider's response: the secret wherever it appears, and
 every value under a credential-bearing field name.
 */
module Redaction {
  import opened Rows
  import opened SecretText
  import opened JsonValues

  const MAX_DEPTH := 32
  const REDACTED: Marker := "[REDACTED]"

  function RedactText(text: string, secret: Option<string>): string {
    match secret
    case Some(s) => Replace(text, s, REDACTED)
    case None => text
  }

  function LowerChar(c: char): char {
    if 'A' <= c <= 'Z' then c - 'A' + 'a' else c
  }

  predicate SameIgnoringCase(name: string, lower: string) {
    |name| == |lower| && forall i | 0 <= i < |name| :: LowerChar(name[i]) == lower[i]
  }

  predicate CredentialField(name: string) {
    || SameIgnoringCase(name, "authorization")
    || SameIgnoringCase(name, "cookie")
    || SameIgnoringCase(name, "set-cookie")
    || SameIgnoringCase(name, "x-api-key")
    || SameIgnoringCase(name, "api-key")
    || SameIgnoringCase(name, "proxy-authorization")
  }

  /** How a scalar prints. */
  function Printed(value: Json): string
    requires value.Null? || value.Bool? || value.Number?
  {
    match value
    case Null => "null"
    case Bool(b) => if b then "true" else "false"
    case Number(text) => text
  }

  function RewriteScalar(value: Json, secret: Option<string>): Json
    requires value.Null? || value.Bool? || value.Number?
  {
    if secret.Some? && Contains(Printed(value), secret.value) then String(REDACTED) else value
  }

  // ---------------------------------------------------------------------------------------------
  // The rewritten value, and when it is reached

  function Rewrite(value: Json, secret: Option<string>): Json
    decreases value
  {
    match value
    case String(text) => String(RedactText(text, secret))
    case Array(items) => Array(RewrittenItems(items, secret))
    case Object(fields) => Object(Built(Rewritten(fields, secret)))
    case Null => RewriteScalar(value, secret)
    case Bool(_) => RewriteScalar(value, secret)
    case Number(_) => RewriteScalar(value, secret)
  }

  function RewriteField(f: Field, secret: Option<string>): Field
    decreases f
  {
    Field(RedactText(f.name, secret), if CredentialField(f.name) then String(REDACTED) else Rewrite(f.value, secret))
  }

  /** The fields an object is rebuilt from, in the order they are inserted. */
  function Rewritten(fields: seq<Field>, secret: Option<string>): seq<Field>
    decreases fields
  {
    seq(|fields|, i requires 0 <= i < |fields| => RewriteField(fields[i], secret))
  }

  function RewrittenItems(items: seq<Json>, secret: Option<string>): seq<Json>
    decreases items
  {
    seq(|items|, i requires 0 <= i < |items| => Rewrite(items[i], secret))
  }

  /** Nothing that will be visited lies below the bound. */
  predicate Fits(value: Json, depth: nat)
    decreases value
  {
    && depth <= MAX_DEPTH
    && match value
       case Array(items) => forall i | 0 <= i < |items| :: Fits(items[i], depth + 1)
       case Object(fields) => forall i | 0 <= i < |fields| :: FieldFits(fields[i], depth)
       case _ => true
  }

  predicate FieldFits(f: Field, depth: nat)
    decreases f
  {
    CredentialField(f.name) || Fits(f.value, depth + 1)
  }

  /** `false` when the nesting exceeds the bound, and then the value is of no use to the caller. */
  method RedactAt(value: Json, secret: Option<string>, depth: nat) returns (ok: bool, out: Json)
    ensures ok == Fits(value, depth)
    ensures ok ==> out == Rewrite(value, secret)
    decreases value, 1
  {
    if depth > MAX_DEPTH {
      return false, value;
    }
    match value
    case String(text) => ok, out := true, String(RedactText(text, secret));
    case Array(_) => ok, out := RedactItems(value, secret, depth);
    case Object(_) => ok, out := RedactFields(value, secret, depth);
    case Null => ok, out := true, RewriteScalar(value, secret);
    case Bool(_) => ok, out := true, RewriteScalar(value, secret);
    case Number(_) => ok, out := true, RewriteScalar(value, secret);
  }

  method RedactItems(value: Json, secret: Option<string>, depth: nat) returns (ok: bool, out: Json)
    requires value.Array? && depth <= MAX_DEPTH
    ensures ok == Fits(value, depth)
    ensures ok ==> out == Rewrite(value, secret)
    decreases value, 0
  {
    var items, done: seq<Json> := value.items, [];
    for i := 0 to |items|
      invariant |done| == i
      invariant forall j | 0 <= j < i :: Fits(items[j], depth + 1)
      invariant forall j | 0 <= j < i :: done[j] == Rewrite(items[j], secret)
    {
      var fine, item := RedactAt(items[i], secret, depth + 1);
      if !fine {
        return false, value;
      }
      done := done + [item];
    }
    assert done == RewrittenItems(items, secret);
    return true, Array(done);
  }

  method RedactFields(value: Json, secret: Option<string>, depth: nat) returns (ok: bool, out: Json)
    requires value.Object? && depth <= MAX_DEPTH
    ensures ok == Fits(value, depth)
    ensures ok ==> out == Rewrite(value, secret)
    decreases value, 0
  {
    var values;
    ok, values := PutBack(value.fields, secret, depth);
    out := Object(values);
  }

  /** The old fields are taken out and put back one by one under their redacted names. */
  method PutBack(fields: seq<Field>, secret: Option<string>, depth: nat) returns (ok: bool, values: seq<Field>)
    ensures ok == FirstFit(fields, |fields|, depth)
    ensures ok ==> values == Built(Rewritten(fields, secret))
    decreases fields
  {
    values := [];
    for i := 0 to |fields|
      invariant values == Built(Rewritten(fields[..i], secret)) && FirstFit(fields, i, depth)
    {
      var fine, f := RedactField(fields[i], secret, depth);
      if !fine {
        return false, values;
      }
      PutOneMore(fields, i, secret);
      OneMoreFits(fields, i, depth);
      values := Insert(values, f);
    }
    assert fields[..|fields|] == fields;
    return true, values;
  }

  ghost predicate FirstFit(fields: seq<Field>, n: nat, depth: nat) {
    n <= |fields| && forall j | 0 <= j < n :: FieldFits(fields[j], depth)
  }

  lemma OneMoreFits(fields: seq<Field>, i: nat, depth: nat)
    requires i < |fields| && FirstFit(fields, i, depth) && FieldFits(fields[i], depth)
    ensures FirstFit(fields, i + 1, depth)
  {
  }

  lemma PutOneMore(fields: seq<Field>, i: nat, secret: Option<string>)
    requires i < |fields|
    ensures Built(Rewritten(fields[..i + 1], secret)) == Insert(Built(Rewritten(fields[..i], secret)), RewriteField(fields[i], secret))
  {
    var put := Rewritten(fields[..i], secret);
    assert Rewritten(fields[..i + 1], secret) == put + [RewriteField(fields[i], secret)];
    BuiltOneMore(put, RewriteField(fields[i], secret));
  }

  /** A credential field's value is not looked at. */
  method RedactField(f: Field, secret: Option<string>, depth: nat) returns (ok: bool, out: Field)
    ensures ok == FieldFits(f, depth)
    ensures ok ==> out == RewriteField(f, secret)
    decreases f, 0
  {
    ok := true;
    var value := String(REDACTED);
    if !CredentialField(f.name) {
      ok, value := RedactAt(f.value, secret, depth + 1);
    }
    out := Field(RedactText(f.name, secret), value);
  }

  lemma BuiltOneMore(fields: seq<Field>, f: Field)
    ensures Built(fields + [f]) == Insert(Built(fields), f)
  {
    assert (fields + [f])[..|fields|] == fields;
  }

  method RedactJson(value: Json, secret: Option<string>) returns (ok: bool, out: Json)
    ensures ok <==> forall path | Reaches(value, path) :: |path| <= MAX_DEPTH
    ensures ok ==> out == Rewrite(value, secret)
  {
    FitsExactlyWhenShallow(value, 0);
    ok, out := RedactAt(value, secret, 0);
  }

  // ---------------------------------------------------------------------------------------------
  // The bound

  /** `path` leads from the value to one inside it without entering a credential field. */
  predicate Reaches(value: Json, path: seq<nat>)
    decreases |path|
  {
    path == [] ||
    match value
    case Array(items) => path[0] < |items| && Reaches(items[path[0]], path[1..])
    case Object(fields) =>
      path[0] < |fields| && !CredentialField(fields[path[0]].name) && Reaches(fields[path[0]].value, path[1..])
    case _ => false
  }

  lemma {:induction false} FittingIsShallow(value: Json, depth: nat, path: seq<nat>)
    requires Fits(value, depth) && Reaches(value, path)
    ensures depth + |path| <= MAX_DEPTH
    decreases |path|
  {
    if path != [] {
      assert value.Object? ==> FieldFits(value.fields[path[0]], depth);
      var child := if value.Array? then value.items[path[0]] else value.fields[path[0]].value;
      FittingIsShallow(child, depth + 1, path[1..]);
    }
  }

  lemma DeepPath(value: Json, depth: nat) returns (path: seq<nat>)
    requires !Fits(value, depth)
    ensures Reaches(value, path) && depth + |path| > MAX_DEPTH
    decreases value
  {
    path := [];
    if depth <= MAX_DEPTH {
      match value
      case Array(items) =>
        var i: nat :| i < |items| && !Fits(items[i], depth + 1);
        var rest := DeepPath(items[i], depth + 1);
        path := [i] + rest;
        assert path[1..] == rest;
      case Object(fields) =>
        var i: nat :| i < |fields| && !FieldFits(fields[i], depth);
        var rest := DeepPath(fields[i].value, depth + 1);
        path := [i] + rest;
        assert path[1..] == rest;
    }
  }

  /** The pass succeeds exactly when nothing reached outside the credential fields is too deep. */
  lemma FitsExactlyWhenShallow(value: Json, depth: nat)
    ensures Fits(value, depth) <==> forall path | Reaches(value, path) :: depth + |path| <= MAX_DEPTH
  {
    if Fits(value, depth) {
      forall path | Reaches(value, path) ensures depth + |path| <= MAX_DEPTH {
        FittingIsShallow(value, depth, path);
      }
    } else {
      var path := DeepPath(value, depth);
    }
  }

  // ---------------------------------------------------------------------------------------------
  // No secret is left

  /** No string, name or printed scalar contains the secret. */
  predicate Clean(value: Json, secret: string)
    decreases value
  {
    match value
    case String(text) => !Contains(text, secret)
    case Array(items) => forall i | 0 <= i < |items| :: Clean(items[i], secret)
    case Object(fields) => forall i | 0 <= i < |fields| :: !Contains(fields[i].name, secret) && Clean(fields[i].value, secret)
    case Null => !Contains(Printed(value), secret)
    case Bool(_) => !Contains(Printed(value), secret)
    case Number(_) => !Contains(Printed(value), secret)
  }

  lemma MarkerIsClean(secret: string)
    requires Safe(secret, REDACTED)
    ensures !Contains(REDACTED, secret)
  {
    assert secret[|secret|..] == [];
    assert Replace(secret, secret, REDACTED) == REDACTED + [] == REDACTED;
    SafeIsHidden(secret, secret, REDACTED);
  }

  lemma {:induction false} RewriteIsClean(value: Json, secret: string)
    requires Safe(secret, REDACTED)
    ensures Clean(Rewrite(value, Some(secret)), secret)
    decreases value
  {
    MarkerIsClean(secret);
    match value
    case String(text) => SafeIsHidden(text, secret, REDACTED);
    case Array(items) =>
      forall i | 0 <= i < |items| ensures Clean(Rewrite(items[i], Some(secret)), secret) {
        RewriteIsClean(items[i], secret);
      }
    case Object(fields) =>
      forall i | 0 <= i < |fields| ensures CleanField(RewriteField(fields[i], Some(secret)), secret) {
        SafeIsHidden(fields[i].name, secret, REDACTED);
        RewriteIsClean(fields[i].value, secret);
      }
      BuiltIsClean(Rewritten(fields, Some(secret)), secret);
    case _ =>
  }

  predicate CleanField(f: Field, secret: string) {
    !Contains(f.name, secret) && Clean(f.value, secret)
  }

  lemma BuiltIsClean(fields: seq<Field>, secret: string)
    requires forall i | 0 <= i < |fields| :: CleanField(fields[i], secret)
    ensures Clean(Object(Built(fields)), secret)
  {
    forall i | 0 <= i < |Built(fields)| ensures CleanField(Built(fields)[i], secret) {
      BuiltKeepsTheLast(fields, Built(fields)[i]);
      assert Built(fields)[i] in Built(fields);
    }
  }

  /** What a pass with this secret leaves of the value, if it succeeds, does not contain it. */
  ghost predicate LeavesNoTrace(value: Json, secret: string) {
    Fits(value, 0) ==> Clean(Rewrite(value, Some(secret)), secret)
  }

  /**
   Redaction hides a secret in every value exactly when the marker cannot complete a copy of it, as
   it cannot when the two share no character.
   */
  lemma NoTraceExactlyWhenSafe(secret: string)
    requires secret != []
    ensures (forall value :: LeavesNoTrace(value, secret)) <==> Safe(secret, REDACTED)
  {
    if Safe(secret, REDACTED) {
      forall value ensures LeavesNoTrace(value, secret) {
        RewriteIsClean(value, secret);
      }
    } else {
      HiddenExactlyWhenSafe(secret, REDACTED);
      var text :| !Hides(secret, text, REDACTED);
      assert !LeavesNoTrace(String(text), secret);
    }
  }

  /** Such a secret: the marker's own bracket follows the letter that was left. */
  lemma AMarkerCompletesASecret()
    ensures RedactText("aa[", Some("a[")) == "a[REDACTED]" && Contains("a[REDACTED]", "a[")
    ensures !Safe("a[", REDACTED)
  {
    var text, secret := "aa[", "a[";
    assert text[1..] == secret && secret[|secret|..] == [];
    assert Replace(text[1..], secret, REDACTED) == REDACTED + Replace([], secret, REDACTED) == REDACTED;
    assert Replace(text, secret, REDACTED) == [text[0]] + Replace(text[1..], secret, REDACTED);
    assert "a[REDACTED]"[0..] == "a[REDACTED]" && secret <= "a[REDACTED]";
    if Safe(secret, REDACTED) {
      SafeIsHidden(text, secret, REDACTED);
    }
  }

  // ---------------------------------------------------------------------------------------------
  // What becomes of each value

  /** A field of the rewritten object: the last whose name comes to this, with the marker or its own value rewritten. */
  ghost predicate ComesFrom(fields: seq<Field>, secret: Option<string>, g: Field, i: nat) {
    && i < |fields| && g.name == RedactText(fields[i].name, secret)
    && g.value == (if CredentialField(fields[i].name) then String("[REDACTED]") else Rewrite(fields[i].value, secret))
    && forall j | i < j < |fields| :: RedactText(fields[j].name, secret) != g.name
  }

  lemma LastComesFrom(fields: seq<Field>, secret: Option<string>, g: Field, i: nat)
    requires i < |fields|
    ensures LastAt(Rewritten(fields, secret), g, i) <==> ComesFrom(fields, secret, g, i)
  {
    var rewritten := Rewritten(fields, secret);
    assert rewritten[i] == RewriteField(fields[i], secret);
    assert g == Field(g.name, g.value);
    forall j | 0 <= j < |fields| ensures rewritten[j].name == RedactText(fields[j].name, secret) {
      assert rewritten[j] == RewriteField(fields[j], secret);
    }
  }

  /** The secret is in how the scalar prints. */
  ghost predicate Prints(value: Json, secret: string) {
    || (value == Null && Contains("null", secret))
    || (value == Bool(true) && Contains("true", secret))
    || (value == Bool(false) && Contains("false", secret))
    || (value.Number? && Contains(value.text, secret))
  }

  /**
   What becomes of a value, by its kind: text with every copy of the secret swapped, an array of the
   same items rewritten, an object of the last field of each rewritten name, and a scalar that stands
   or, if the secret is in how it prints, is the marker.
   */
  lemma EachValueIsRewritten(value: Json, secret: Option<string>)
    ensures var out := Rewrite(value, secret);
      match value
      case String(text) => out.String? && out.text == (match secret case None => text case Some(s) => Replace(text, s, "[REDACTED]"))
      case Array(items) => out.Array? && |out.items| == |items| && forall i | 0 <= i < |items| :: out.items[i] == Rewrite(items[i], secret)
      case Object(fields) => out.Object? && Ascending(out.fields) && forall g :: g in out.fields <==> exists i: nat :: ComesFrom(fields, secret, g, i)
      case _ => out == if secret.Some? && Prints(value, secret.value) then String("[REDACTED]") else value
  {
    match value
    case Object(fields) =>
      var rewritten := Rewritten(fields, secret);
      BuiltAscends(rewritten);
      assert forall j | 0 <= j < |fields| :: rewritten[j] == RewriteField(fields[j], secret);
      forall g ensures g in Built(rewritten) <==> exists i: nat :: ComesFrom(fields, secret, g, i) {
        BuiltKeepsTheLast(rewritten, g);
        forall i: nat | i < |fields| ensures LastAt(rewritten, g, i) <==> ComesFrom(fields, secret, g, i) {
          LastComesFrom(fields, secret, g, i);
        }
        assert IsLast(rewritten, g) <==> exists i: nat :: LastAt(rewritten, g, i);
      }
    case _ =>
  }

  // ---------------------------------------------------------------------------------------------
  // Passing twice

  /** Objects hold their fields in order. */
  predicate Wf(value: Json)
    decreases value
  {
    match value
    case Array(items) => forall i | 0 <= i < |items| :: Wf(items[i])
    case Object(fields) => Ascending(fields) && forall i | 0 <= i < |fields| :: Wf(fields[i].value)
    case _ => true
  }

  /** Every credential field holds the marker. */
  predicate Sealed(value: Json)
    decreases value
  {
    match value
    case Array(items) => forall i | 0 <= i < |items| :: Sealed(items[i])
    case Object(fields) => forall i | 0 <= i < |fields| :: SealedField(fields[i])
    case _ => true
  }

  predicate SealedField(f: Field)
    decreases f
  {
    (CredentialField(f.name) ==> f.value == String(REDACTED)) && Sealed(f.value)
  }

  /** The same letters, each in either case. */
  predicate InAnyCase(name: string, word: string) {
    |name| == |word| && forall i | 0 <= i < |name| :: name[i] == word[i] || ('a' <= word[i] <= 'z' && name[i] == word[i] - 'a' + 'A')
  }

  lemma CaseIsIgnored(name: string, word: string)
    requires forall i | 0 <= i < |word| :: !('A' <= word[i] <= 'Z')
    ensures SameIgnoringCase(name, word) <==> InAnyCase(name, word)
  {
    if SameIgnoringCase(name, word) {
      forall i | 0 <= i < |name| ensures name[i] == word[i] || ('a' <= word[i] <= 'z' && name[i] == word[i] - 'a' + 'A') {
        assert LowerChar(name[i]) == word[i];
      }
    }
    if InAnyCase(name, word) {
      forall i | 0 <= i < |name| ensures LowerChar(name[i]) == word[i] {
        assert !('A' <= word[i] <= 'Z');
      }
    }
  }

  /** A credential field is one of six names, in any letter case, and its value becomes the marker whatever it was. */
  lemma CredentialFieldsAreTheSix(f: Field, secret: Option<string>)
    ensures CredentialField(f.name) <==>
      || InAnyCase(f.name, "authorization") || InAnyCase(f.name, "cookie") || InAnyCase(f.name, "set-cookie")
      || InAnyCase(f.name, "x-api-key") || InAnyCase(f.name, "api-key") || InAnyCase(f.name, "proxy-authorization")
    ensures CredentialField(f.name) ==> RewriteField(f, secret).value == String("[REDACTED]")
    ensures !CredentialField(f.name) ==> RewriteField(f, secret).value == Rewrite(f.value, secret)
  {
    CaseIsIgnored(f.name, "authorization");
    CaseIsIgnored(f.name, "cookie");
    CaseIsIgnored(f.name, "set-cookie");
    CaseIsIgnored(f.name, "x-api-key");
    CaseIsIgnored(f.name, "api-key");
    CaseIsIgnored(f.name, "proxy-authorization");
  }

  lemma NoBracket(name: string, lower: string)
    requires SameIgnoringCase(name, lower) && '[' !in lower
    ensures '[' !in name
  {
    forall i | 0 <= i < |name| ensures name[i] != '[' {
      assert lower[i] in lower;
    }
  }

  lemma CredentialNamesHaveNoBracket(name: string)
    requires CredentialField(name)
    ensures '[' !in name
  {
    if SameIgnoringCase(name, "authorization") {
      NoBracket(name, "authorization");
    } else if SameIgnoringCase(name, "cookie") {
      NoBracket(name, "cookie");
    } else if SameIgnoringCase(name, "set-cookie") {
      NoBracket(name, "set-cookie");
    } else if SameIgnoringCase(name, "x-api-key") {
      NoBracket(name, "x-api-key");
    } else if SameIgnoringCase(name, "api-key") {
      NoBracket(name, "api-key");
    } else {
      NoBracket(name, "proxy-authorization");
    }
  }

  /** A redacted name is a credential name exactly when it was one and did not contain the secret. */
  lemma RedactedName(name: string, secret: string)
    requires secret != []
    ensures !Contains(name, secret) ==> RedactText(name, Some(secret)) == name
    ensures Contains(name, secret) ==> !CredentialField(RedactText(name, Some(secret)))
  {
    if Contains(name, secret) {
      ReplacedTextIsMarked(name, secret, REDACTED);
      if CredentialField(RedactText(name, Some(secret))) {
        CredentialNamesHaveNoBracket(RedactText(name, Some(secret)));
      }
    } else {
      CleanTextIsKept(name, secret, REDACTED);
    }
  }

  lemma {:induction false} RewriteIsSealed(value: Json, secret: string)
    requires secret != []
    ensures Sealed(Rewrite(value, Some(secret)))
    decreases value
  {
    match value
    case Array(items) =>
      forall i | 0 <= i < |items| ensures Sealed(Rewrite(items[i], Some(secret))) {
        RewriteIsSealed(items[i], secret);
      }
    case Object(fields) =>
      forall i | 0 <= i < |fields| ensures SealedField(RewriteField(fields[i], Some(secret))) {
        RedactedName(fields[i].name, secret);
        RewriteIsSealed(fields[i].value, secret);
      }
      BuiltIsSealed(Rewritten(fields, Some(secret)));
    case _ =>
  }

  lemma BuiltIsSealed(fields: seq<Field>)
    requires forall i | 0 <= i < |fields| :: SealedField(fields[i])
    ensures Sealed(Object(Built(fields)))
  {
    forall i | 0 <= i < |Built(fields)| ensures SealedField(Built(fields)[i]) {
      BuiltKeepsTheLast(fields, Built(fields)[i]);
      assert Built(fields)[i] in Built(fields);
    }
  }

  lemma {:induction false} RewriteIsWf(value: Json, secret: Option<string>)
    ensures Wf(Rewrite(value, secret))
    decreases value
  {
    match value
    case Array(items) =>
      forall i | 0 <= i < |items| ensures Wf(Rewrite(items[i], secret)) {
        RewriteIsWf(items[i], secret);
      }
    case Object(fields) =>
      forall i | 0 <= i < |fields| ensures Wf(RewriteField(fields[i], secret).value) {
        RewriteIsWf(fields[i].value, secret);
      }
      BuiltIsWf(Rewritten(fields, secret));
    case _ =>
  }

  lemma BuiltIsWf(fields: seq<Field>)
    requires forall i | 0 <= i < |fields| :: Wf(fields[i].value)
    ensures Wf(Object(Built(fields)))
  {
    BuiltAscends(fields);
    forall i | 0 <= i < |Built(fields)| ensures Wf(Built(fields)[i].value) {
      BuiltKeepsTheLast(fields, Built(fields)[i]);
      assert Built(fields)[i] in Built(fields);
    }
  }

  lemma {:induction false} CleanIsKept(value: Json, secret: string)
    requires secret != [] && Wf(value) && Clean(value, secret) && Sealed(value)
    ensures Rewrite(value, Some(secret)) == value
    decreases value
  {
    match value
    case String(text) => CleanTextIsKept(text, secret, REDACTED);
    case Array(items) =>
      forall i | 0 <= i < |items| ensures Rewrite(items[i], Some(secret)) == items[i] {
        CleanIsKept(items[i], secret);
      }
    case Object(fields) =>
      forall i | 0 <= i < |fields| ensures Rewritten(fields, Some(secret))[i] == fields[i] {
        assert SealedField(fields[i]);
        RedactedName(fields[i].name, secret);
        CleanIsKept(fields[i].value, secret);
      }
      assert Rewritten(fields, Some(secret)) == fields;
      OrderedIsKept(fields);
    case _ =>
  }

  /** A pass with a safe secret changes nothing exactly when there is nothing to hide. */
  lemma UnchangedExactlyWhenClean(value: Json, secret: string)
    requires Safe(secret, REDACTED) && Wf(value)
    ensures Rewrite(value, Some(secret)) == value <==> Clean(value, secret) && Sealed(value)
  {
    if Rewrite(value, Some(secret)) == value {
      RewriteIsClean(value, secret);
      RewriteIsSealed(value, secret);
    } else if Clean(value, secret) && Sealed(value) {
      CleanIsKept(value, secret);
    }
  }

  /** A rewritten field that is in the rewritten object: no later field came to have its name. */
  ghost predicate Survives(fields: seq<Field>, secret: string, i: int) {
    0 <= i < |fields| && LastAt(Rewritten(fields, Some(secret)), RewriteField(fields[i], Some(secret)), i)
  }

  /**
   A second pass would go too deep: in a surviving object at the bound itself, a credential field has
   the secret in its name, so the name is no longer a credential name and its value is visited.
   */
  ghost predicate Overruns(value: Json, depth: nat, secret: string)
    decreases value
  {
    match value
    case Array(items) => exists i :: 0 <= i < |items| && Overruns(items[i], depth + 1, secret)
    case Object(fields) => exists i :: 0 <= i < |fields| && Survives(fields, secret, i) && FieldOverruns(fields[i], depth, secret)
    case _ => false
  }

  ghost predicate FieldOverruns(f: Field, depth: nat, secret: string)
    decreases f
  {
    if CredentialField(f.name) then depth == MAX_DEPTH && Contains(f.name, secret)
    else Overruns(f.value, depth + 1, secret)
  }

  lemma BuiltFits(fields: seq<Field>, depth: nat)
    requires depth <= MAX_DEPTH
    ensures Fits(Object(Built(fields)), depth) <==> forall i | 0 <= i < |fields| && LastAt(fields, fields[i], i) :: FieldFits(fields[i], depth)
  {
    var built := Built(fields);
    assert Fits(Object(built), depth) <==> forall j | 0 <= j < |built| :: FieldFits(built[j], depth);
    forall i | 0 <= i < |fields| && LastAt(fields, fields[i], i) ensures fields[i] in built {
      BuiltKeepsTheLast(fields, fields[i]);
    }
    forall j | 0 <= j < |built| ensures exists i :: 0 <= i < |fields| && LastAt(fields, fields[i], i) && fields[i] == built[j] {
      assert built[j] in built;
      BuiltKeepsTheLast(fields, built[j]);
      var i :| LastAt(fields, built[j], i);
      assert 0 <= i < |fields| && LastAt(fields, fields[i], i);
    }
  }

  lemma {:induction false} SecondPassFits(value: Json, depth: nat, secret: string)
    requires secret != [] && Fits(value, depth)
    ensures Fits(Rewrite(value, Some(secret)), depth) <==> !Overruns(value, depth, secret)
    decreases value
  {
    match value
    case Array(items) =>
      forall i | 0 <= i < |items|
        ensures Fits(Rewrite(items[i], Some(secret)), depth + 1) <==> !Overruns(items[i], depth + 1, secret)
      {
        SecondPassFits(items[i], depth + 1, secret);
      }
      var rewritten := RewrittenItems(items, Some(secret));
      assert forall i | 0 <= i < |items| :: rewritten[i] == Rewrite(items[i], Some(secret));
    case Object(fields) =>
      var rewritten := Rewritten(fields, Some(secret));
      forall i | 0 <= i < |fields|
        ensures FieldFits(rewritten[i], depth) <==> !FieldOverruns(fields[i], depth, secret)
      {
        SecondPassFitsField(fields[i], depth, secret);
      }
      BuiltFits(rewritten, depth);
    case _ =>
  }

  lemma {:induction false} SecondPassFitsField(f: Field, depth: nat, secret: string)
    requires secret != [] && depth <= MAX_DEPTH && FieldFits(f, depth)
    ensures FieldFits(RewriteField(f, Some(secret)), depth) <==> !FieldOverruns(f, depth, secret)
    decreases f
  {
    RedactedName(f.name, secret);
    if !CredentialField(f.name) {
      SecondPassFits(f.value, depth + 1, secret);
    }
  }

  /**
   A second pass with a safe secret rewrites nothing, and it succeeds exactly when no surviving object
   at the bound has a credential field with the secret in its name.
   */
  lemma SecondPassChangesNothing(value: Json, secret: string)
    requires Safe(secret, REDACTED) && Fits(value, 0)
    ensures var once := Rewrite(value, Some(secret));
      Rewrite(once, Some(secret)) == once && (Fits(once, 0) <==> !Overruns(value, 0, secret))
  {
    var once := Rewrite(value, Some(secret));
    RewriteIsWf(value, Some(secret));
    RewriteIsClean(value, secret);
    RewriteIsSealed(value, secret);
    CleanIsKept(once, secret);
    SecondPassFits(value, 0, secret);
  }

  lemma {:induction false} PlainNamesNeverOverrun(value: Json, depth: nat, secret: string)
    requires forall name | CredentialField(name) :: !Contains(name, secret)
    ensures !Overruns(value, depth, secret)
    decreases value
  {
    match value
    case Array(items) =>
      forall i | 0 <= i < |items| ensures !Overruns(items[i], depth + 1, secret) {
        PlainNamesNeverOverrun(items[i], depth + 1, secret);
      }
    case Object(fields) =>
      forall i | 0 <= i < |fields| ensures !FieldOverruns(fields[i], depth, secret) {
        PlainNamesNeverOverrun(fields[i].value, depth + 1, secret);
      }
    case _ =>
  }

  /** A credential field inside `n` arrays. */
  function Nested(n: nat): Json {
    if n == 0 then Object([Field("cookie", Null)]) else Array([Nested(n - 1)])
  }

  lemma CookieIsACredentialField()
    ensures CredentialField("cookie") && Contains("cookie", "oki")
  {
    assert "cookie"[2..] == "okie" && "oki" <= "okie";
  }

  lemma CookieOverruns()
    ensures Fits(Nested(0), MAX_DEPTH) && Overruns(Nested(0), MAX_DEPTH, "oki")
  {
    CookieIsACredentialField();
    var fields := Nested(0).fields;
    assert FieldFits(fields[0], MAX_DEPTH) && FieldOverruns(fields[0], MAX_DEPTH, "oki");
    assert Survives(fields, "oki", 0);
  }

  lemma {:induction false} NestedOverruns(n: nat)
    requires n <= MAX_DEPTH
    ensures Fits(Nested(n), MAX_DEPTH - n) && Overruns(Nested(n), MAX_DEPTH - n, "oki")
  {
    if n == 0 {
      CookieOverruns();
    } else {
      NestedOverruns(n - 1);
      assert Nested(n).items[0] == Nested(n - 1);
    }
  }

  /** Such a value: a first pass accepts it and a second refuses what the first left. */
  lemma ASecondPassIsRefused()
    ensures Safe("oki", REDACTED) && Fits(Nested(32), 0) && !Fits(Rewrite(Nested(32), Some("oki")), 0)
  {
    DisjointIsSafe("oki", REDACTED);
    NestedOverruns(32);
    SecondPassFits(Nested(32), 0, "oki");
  }

  // ---------------------------------------------------------------------------------------------
  // The scan of discovered tools

  /** Whether a discovered tool mentions the secret in a string or a name. */
  predicate ContainsSecret(value: Json, secret: string)
    decreases value
  {
    match value
    case String(text) => Contains(text, secret)
    case Array(items) => exists i :: 0 <= i < |items| && ContainsSecret(items[i], secret)
    case Object(fields) =>
      exists i :: 0 <= i < |fields| && (Contains(fields[i].name, secret) || ContainsSecret(fields[i].value, secret))
    case _ => false
  }

  lemma {:induction false} CleanIsNotFound(value: Json, secret: string)
    requires Clean(value, secret)
    ensures !ContainsSecret(value, secret)
    decreases value
  {
    match value
    case Array(items) =>
      forall i | 0 <= i < |items| ensures !ContainsSecret(items[i], secret) {
        CleanIsNotFound(items[i], secret);
      }
    case Object(fields) =>
      forall i | 0 <= i < |fields| ensures !ContainsSecret(fields[i].value, secret) {
        CleanIsNotFound(fields[i].value, secret);
      }
    case _ =>
  }

  /** What redaction leaves, the scan does not find the secret in. */
  lemma RedactedPassesTheScan(value: Json, secret: string)
    requires Safe(secret, REDACTED)
    ensures !ContainsSecret(Rewrite(value, Some(secret)), secret)
  {
    RewriteIsClean(value, secret);
    CleanIsNotFound(Rewrite(value, Some(secret)), secret);
  }
}
