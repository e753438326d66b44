/** JSON values, whose objects keep their fields in the order of their names. */
module JsonValues {

  datatype Field = Field(name: string, value: Json)

  /** A number is the text it prints as. */
  datatype Json =
    | Null
    | Bool(b: bool)
    | Number(text: string)
    | String(text: string)
    | Array(items: seq<Json>)
    | Object(fields: seq<Field>)

  // ---------------------------------------------------------------------------------------------
  // The order of names

  predicate Less(a: string, b: string) {
    b != [] && (a == [] || a[0] < b[0] || (a[0] == b[0] && Less(a[1..], b[1..])))
  }

  lemma {:induction false} LessIsTotal(a: string, b: string)
    ensures a == b || Less(a, b) || Less(b, a)
  {
    if a != [] && b != [] && a[0] == b[0] {
      LessIsTotal(a[1..], b[1..]);
      assert a[1..] == b[1..] ==> a == [a[0]] + a[1..] && b == [b[0]] + b[1..];
    }
  }

  lemma {:induction false} LessIsStrict(a: string, b: string)
    ensures !(Less(a, b) && Less(b, a)) && !Less(a, a)
  {
    if a != [] {
      LessIsStrict(a[1..], if b == [] then [] else b[1..]);
    }
  }

  lemma {:induction false} LessIsTransitive(a: string, b: string, c: string)
    requires Less(a, b) && Less(b, c)
    ensures Less(a, c)
  {
    if a != [] && a[0] == b[0] == c[0] {
      LessIsTransitive(a[1..], b[1..], c[1..]);
    }
  }

  /** The texts differ first at `i`, where `a` has the earlier character. */
  predicate EarlierAt(a: string, b: string, i: nat) {
    i < |a| && i < |b| && a[..i] == b[..i] && a[i] < b[i]
  }

  /** The order of names is that of a dictionary. */
  lemma {:induction false} LessIsAlphabetical(a: string, b: string)
    ensures Less(a, b) <==> a < b || exists i: nat :: EarlierAt(a, b, i)
  {
    if a != [] && b != [] {
      LessIsAlphabetical(a[1..], b[1..]);
      assert a == [a[0]] + a[1..] && b == [b[0]] + b[1..];
      if a[0] == b[0] {
        if i: nat :| EarlierAt(a[1..], b[1..], i) {
          assert a[..i + 1] == [a[0]] + a[1..][..i] && b[..i + 1] == [b[0]] + b[1..][..i];
          assert EarlierAt(a, b, i + 1);
        }
        if i: nat :| EarlierAt(a, b, i) {
          assert a[1..][..i - 1] == a[..i][1..] && b[1..][..i - 1] == b[..i][1..];
          assert EarlierAt(a[1..], b[1..], i - 1);
        }
      } else {
        forall i: nat | 0 < i && i < |a| && i < |b| ensures !EarlierAt(a, b, i) {
          assert a[..i][0] == a[0] && b[..i][0] == b[0];
        }
        assert EarlierAt(a, b, 0) <==> a[0] < b[0];
      }
    }
  }

  // ---------------------------------------------------------------------------------------------
  // Objects

  /** The names strictly ascend, so they are distinct. */
  predicate Ascending(fields: seq<Field>) {
    forall i, j | 0 <= i < j < |fields| :: Less(fields[i].name, fields[j].name)
  }

  /** Put a field in its place, over one of the same name. */
  function Insert(fields: seq<Field>, f: Field): seq<Field> {
    if fields == [] || Less(f.name, fields[0].name) then [f] + fields
    else if f.name == fields[0].name then [f] + fields[1..]
    else [fields[0]] + Insert(fields[1..], f)
  }

  /** Insert fields one after another into an empty object. */
  function Built(fields: seq<Field>): seq<Field> {
    if fields == [] then [] else Insert(Built(fields[..|fields| - 1]), fields[|fields| - 1])
  }

  lemma {:induction false} InsertMembers(fields: seq<Field>, f: Field, g: Field)
    requires Ascending(fields)
    ensures g in Insert(fields, f) <==> g == f || (g in fields && g.name != f.name)
  {
    if fields == [] {
    } else if Less(f.name, fields[0].name) {
      if g in fields {
        var i :| 0 <= i < |fields| && fields[i] == g;
        LessIsStrict(f.name, f.name);
        if i > 0 {
          LessIsTransitive(f.name, fields[0].name, g.name);
        }
      }
    } else {
      if g in fields[1..] {
        var i :| 0 <= i < |fields[1..]| && fields[1..][i] == g;
        assert Less(fields[0].name, fields[i + 1].name);
        LessIsStrict(f.name, f.name);
      }
      assert fields == [fields[0]] + fields[1..];
      if f.name != fields[0].name {
        InsertMembers(fields[1..], f, g);
      }
    }
  }

  lemma {:induction false} InsertAscends(fields: seq<Field>, f: Field)
    requires Ascending(fields)
    ensures Ascending(Insert(fields, f))
  {
    if fields == [] {
    } else if Less(f.name, fields[0].name) {
      forall j | 0 < j < |fields| ensures Less(f.name, fields[j].name) {
        LessIsTransitive(f.name, fields[0].name, fields[j].name);
      }
    } else if f.name != fields[0].name {
      InsertAscends(fields[1..], f);
      LessIsTotal(f.name, fields[0].name);
      var rest := Insert(fields[1..], f);
      forall j | 0 <= j < |rest| ensures Less(fields[0].name, rest[j].name) {
        assert rest[j] in rest;
        InsertMembers(fields[1..], f, rest[j]);
      }
    }
  }

  lemma {:induction false} BuiltAscends(fields: seq<Field>)
    ensures Ascending(Built(fields))
  {
    if fields != [] {
      BuiltAscends(fields[..|fields| - 1]);
      InsertAscends(Built(fields[..|fields| - 1]), fields[|fields| - 1]);
    }
  }

  /** `f` is the last of the fields with its name. */
  ghost predicate IsLast(fields: seq<Field>, f: Field) {
    exists i :: LastAt(fields, f, i)
  }

  ghost predicate LastAt(fields: seq<Field>, f: Field, i: int) {
    0 <= i < |fields| && fields[i] == f && forall j | i < j < |fields| :: fields[j].name != f.name
  }

  lemma LastOfLonger(fields: seq<Field>, f: Field, g: Field)
    ensures IsLast(fields + [f], g) <==> g == f || (IsLast(fields, g) && g.name != f.name)
  {
    var longer := fields + [f];
    if IsLast(longer, g) {
      var i :| LastAt(longer, g, i);
      if i < |fields| {
        assert longer[|fields|] == f;
        forall j | i < j < |fields| ensures fields[j].name != g.name {
          assert longer[j] == fields[j];
        }
        assert LastAt(fields, g, i);
      }
    }
    if g == f {
      assert LastAt(longer, f, |fields|);
    } else if IsLast(fields, g) && g.name != f.name {
      var i :| LastAt(fields, g, i);
      assert LastAt(longer, g, i);
    }
  }

  /** An object built field by field holds exactly the last field of each name, in the order of names. */
  lemma {:induction false} BuiltKeepsTheLast(fields: seq<Field>, f: Field)
    ensures f in Built(fields) <==> IsLast(fields, f)
  {
    if fields != [] {
      var front, g := fields[..|fields| - 1], fields[|fields| - 1];
      assert fields == front + [g];
      BuiltKeepsTheLast(front, f);
      BuiltAscends(front);
      InsertMembers(Built(front), g, f);
      LastOfLonger(front, g, f);
    }
  }

  lemma {:induction false} AppendedInOrder(fields: seq<Field>, f: Field)
    requires forall i | 0 <= i < |fields| :: Less(fields[i].name, f.name)
    ensures Insert(fields, f) == fields + [f]
  {
    if fields != [] {
      LessIsStrict(fields[0].name, f.name);
      LessIsStrict(f.name, f.name);
      AppendedInOrder(fields[1..], f);
    }
  }

  lemma {:induction false} OrderedIsKept(fields: seq<Field>)
    requires Ascending(fields)
    ensures Built(fields) == fields
  {
    if fields != [] {
      var front, f := fields[..|fields| - 1], fields[|fields| - 1];
      OrderedIsKept(front);
      AppendedInOrder(front, f);
    }
  }
}
