/** Expanding a Rust use tree into the paths it imports, as the sample boundary check does. */
module UseTree {
  import opened Rows

  /** An asterisk is a name like any other. */
  datatype Token = Sep | Open | Close | Comma | Name(text: string)

  function Join(path: seq<string>): string {
    if path == [] then "" else if |path| == 1 then path[0] else path[0] + "::" + Join(path[1..])
  }

  // ---------------------------------------------------------------------------------------------
  // The parser on what is left of the tokens

  datatype Parsed = Parsed(paths: seq<string>, rest: seq<Token>)

  predicate Ends(tokens: seq<Token>) {
    tokens == [] || tokens[0] == Close
  }

  predicate EndsPath(tokens: seq<Token>) {
    tokens == [] || tokens[0] == Open || tokens[0] == Comma || tokens[0] == Close
  }

  datatype Segments = Segments(path: seq<string>, rest: seq<Token>)

  /** Read names on to a path; separators are passed over. */
  function ReadPath(tokens: seq<Token>, path: seq<string>): (r: Segments)
    ensures EndsPath(r.rest) && |r.rest| <= |tokens| && (!EndsPath(tokens) ==> |r.rest| < |tokens|)
    decreases |tokens|
  {
    if EndsPath(tokens) then Segments(path, tokens)
    else if tokens[0] == Sep then ReadPath(tokens[1..], path)
    else ReadPath(tokens[1..], path + [tokens[0].text])
  }

  /** One element of a group: a path, or a path and the group it opens. */
  function One(tokens: seq<Token>, prefix: seq<string>): (r: Parsed)
    requires !Ends(tokens)
    ensures |r.rest| < |tokens| || (r.rest == tokens && tokens[0] == Comma)
    decreases |tokens|, 0
  {
    var s := ReadPath(tokens, prefix);
    if s.rest != [] && s.rest[0] == Open then Items(s.rest[1..], s.path) else Parsed([Join(s.path)], s.rest)
  }

  function SkipComma(tokens: seq<Token>): seq<Token> {
    if tokens != [] && tokens[0] == Comma then tokens[1..] else tokens
  }

  /** The elements of a group, up to and over its closing brace. */
  function Items(tokens: seq<Token>, prefix: seq<string>): (r: Parsed)
    ensures |r.rest| <= |tokens|
    decreases |tokens|, 1
  {
    if tokens == [] then Parsed([], [])
    else if tokens[0] == Close then Parsed([], tokens[1..])
    else
      var first := One(tokens, prefix);
      var others := Items(SkipComma(first.rest), prefix);
      Parsed(first.paths + others.paths, others.rest)
  }

  function Expanded(tokens: seq<Token>): Option<seq<string>> {
    if Name("as") in tokens then None else Some(Items(tokens, []).paths)
  }

  // ---------------------------------------------------------------------------------------------
  // The parser with an index into the tokens

  function From(tokens: seq<Token>, index: nat): seq<Token> {
    if index <= |tokens| then tokens[index..] else []
  }

  /** What the group still holds, after the paths found so far. */
  ghost predicate Continues(tokens: seq<Token>, start: nat, index: nat, prefix: seq<string>, paths: seq<string>) {
    var whole, left := Items(From(tokens, start), prefix), Items(From(tokens, index), prefix);
    whole.paths == paths + left.paths && whole.rest == left.rest
  }

  lemma ContinuesOver(tokens: seq<Token>, start: nat, index: nat, next: nat, prefix: seq<string>, paths: seq<string>, found: seq<string>)
    requires Continues(tokens, start, index, prefix, paths) && index < |tokens| && tokens[index] != Close
    requires Parsed(found, From(tokens, next)) == One(tokens[index..], prefix)
    ensures Continues(tokens, start, if next < |tokens| && tokens[next] == Comma then next + 1 else next, prefix, paths + found)
  {
    CommaStep(tokens, next);
    ItemsStep(tokens[index..], prefix, found, From(tokens, next), paths);
  }

  /** Returns on every list of tokens; an unclosed group runs past the end. */
  method Group(tokens: seq<Token>, start: nat, prefix: seq<string>) returns (paths: seq<string>, index: nat)
    ensures Parsed(paths, From(tokens, index)) == Items(From(tokens, start), prefix)
    ensures index > start
    decreases |tokens| - start, 1
  {
    index := start;
    paths := [];
    while index < |tokens| && tokens[index] != Close
      invariant start <= index && Continues(tokens, start, index, prefix, paths)
      decreases |tokens| - index
    {
      var found, next := Element(tokens, index, prefix);
      ContinuesOver(tokens, start, index, next, prefix, paths, found);
      paths := paths + found;
      index := if next < |tokens| && tokens[next] == Comma then next + 1 else next;
    }
    ItemsEnd(tokens, index, prefix);
    index := index + 1;
  }

  lemma ItemsEnd(tokens: seq<Token>, index: nat, prefix: seq<string>)
    requires index >= |tokens| || tokens[index] == Close
    ensures Items(From(tokens, index), prefix) == Parsed([], From(tokens, index + 1))
  {
    if index < |tokens| {
      assert tokens[index..][1..] == tokens[index + 1..];
    }
  }

  lemma CommaStep(tokens: seq<Token>, index: nat)
    ensures SkipComma(From(tokens, index))
         == From(tokens, if index < |tokens| && tokens[index] == Comma then index + 1 else index)
  {
    if index < |tokens| {
      assert tokens[index..][1..] == tokens[index + 1..];
    }
  }

  lemma ItemsStep(tokens: seq<Token>, prefix: seq<string>, found: seq<string>, after: seq<Token>, paths: seq<string>)
    requires !Ends(tokens) && One(tokens, prefix) == Parsed(found, after)
    ensures paths + Items(tokens, prefix).paths == paths + found + Items(SkipComma(after), prefix).paths
    ensures Items(tokens, prefix).rest == Items(SkipComma(after), prefix).rest
  {
    var others := Items(SkipComma(after), prefix);
    assert Items(tokens, prefix) == Parsed(found + others.paths, others.rest);
    Regrouped(paths, found, others.paths);
  }

  lemma Regrouped<T>(a: seq<T>, b: seq<T>, c: seq<T>)
    ensures a + (b + c) == (a + b) + c
  {
  }

  /** One path, or one path and the group it opens. It stands still only on a stray comma. */
  method Element(tokens: seq<Token>, start: nat, prefix: seq<string>) returns (paths: seq<string>, index: nat)
    requires start < |tokens| && tokens[start] != Close
    ensures Parsed(paths, From(tokens, index)) == One(tokens[start..], prefix)
    ensures index > start || (index == start && tokens[start] == Comma)
    decreases |tokens| - start, 0
  {
    var path;
    path, index := Segment(tokens, start, prefix);
    assert index == start ==> tokens[start..][0] == tokens[start];
    if index < |tokens| && tokens[index] == Open {
      assert tokens[index..][1..] == tokens[index + 1..];
      paths, index := Group(tokens, index + 1, path);
    } else {
      paths := [Join(path)];
    }
  }

  method Segment(tokens: seq<Token>, start: nat, prefix: seq<string>) returns (path: seq<string>, index: nat)
    requires start < |tokens|
    ensures start <= index <= |tokens|
    ensures Segments(path, tokens[index..]) == ReadPath(tokens[start..], prefix)
  {
    path, index := prefix, start;
    while index < |tokens| && tokens[index] != Open && tokens[index] != Comma && tokens[index] != Close
      invariant start <= index <= |tokens|
      invariant ReadPath(tokens[start..], prefix) == ReadPath(tokens[index..], path)
    {
      assert tokens[index..][1..] == tokens[index + 1..];
      if tokens[index] != Sep {
        path := path + [tokens[index].text];
      }
      index := index + 1;
    }
  }

  method ExpandUse(tokens: seq<Token>) returns (paths: Option<seq<string>>)
    ensures paths == Expanded(tokens)
    ensures paths == None <==> exists i :: 0 <= i < |tokens| && tokens[i] == Name("as")
  {
    if Name("as") in tokens {
      return None;
    }
    assert tokens[0..] == tokens;
    var found, _ := Group(tokens, 0, []);
    paths := Some(found);
  }

  // ---------------------------------------------------------------------------------------------
  // Use trees

  /**
   A path, or a group under a path. Either may start with a separator, and a group with elements may
   end with a comma.
   */
  datatype Tree =
    | Leaf(rooted: bool, path: seq<string>)
    | Nest(rooted: bool, path: seq<string>, trees: seq<Tree>, trailing: bool)

  /** A leaf names something. */
  predicate Wf(t: Tree) {
    match t
    case Leaf(_, path) => path != []
    case Nest(_, _, trees, _) => forall i | 0 <= i < |trees| :: Wf(trees[i])
  }

  function PrintPath(path: seq<string>): seq<Token> {
    if path == [] then [] else if |path| == 1 then [Name(path[0])] else [Name(path[0]), Sep] + PrintPath(path[1..])
  }

  function Root(rooted: bool): seq<Token> {
    if rooted then [Sep] else []
  }

  function Print(t: Tree): seq<Token>
    decreases t
  {
    match t
    case Leaf(rooted, path) => Root(rooted) + PrintPath(path)
    case Nest(rooted, path, trees, trailing) =>
      Root(rooted) + (PrintPath(path) + (Root(path != []) + ([Open] + (PrintAll(trees, trailing) + [Close]))))
  }

  function PrintAll(trees: seq<Tree>, trailing: bool): seq<Token>
    decreases trees
  {
    if trees == [] then []
    else Print(trees[0]) + ((if |trees| > 1 || trailing then [Comma] else []) + PrintAll(trees[1..], trailing))
  }

  /** The paths a tree imports, in order, each under its enclosing prefixes. */
  function Leaves(t: Tree, prefix: seq<string>): seq<string>
    decreases t
  {
    match t
    case Leaf(_, path) => [Join(prefix + path)]
    case Nest(_, path, trees, _) => AllLeaves(trees, prefix + path)
  }

  function AllLeaves(trees: seq<Tree>, prefix: seq<string>): seq<string>
    decreases trees
  {
    if trees == [] then [] else Leaves(trees[0], prefix) + AllLeaves(trees[1..], prefix)
  }

  // ---------------------------------------------------------------------------------------------
  // The parser reads back what was printed

  lemma ReadSeparator(rest: seq<Token>, path: seq<string>)
    ensures ReadPath([Sep] + rest, path) == ReadPath(rest, path)
  {
    assert ([Sep] + rest)[1..] == rest;
  }

  lemma ReadRoot(rooted: bool, rest: seq<Token>, path: seq<string>)
    ensures ReadPath(Root(rooted) + rest, path) == ReadPath(rest, path)
  {
    if rooted {
      ReadSeparator(rest, path);
    } else {
      assert Root(rooted) + rest == rest;
    }
  }

  lemma ReadName(name: string, rest: seq<Token>, path: seq<string>)
    ensures ReadPath([Name(name)] + rest, path) == ReadPath(rest, path + [name])
  {
    assert ([Name(name)] + rest)[1..] == rest;
  }

  lemma ReadNameAndSeparator(name: string, rest: seq<Token>, path: seq<string>)
    ensures ReadPath([Name(name), Sep] + rest, path) == ReadPath(rest, path + [name])
  {
    assert [Name(name), Sep] + rest == [Name(name)] + ([Sep] + rest);
    ReadName(name, [Sep] + rest, path);
    ReadSeparator(rest, path + [name]);
  }

  lemma {:induction false} ReadPrinted(path: seq<string>, rest: seq<Token>, prefix: seq<string>)
    ensures ReadPath(PrintPath(path) + rest, prefix) == ReadPath(rest, prefix + path)
  {
    if path == [] {
      assert PrintPath(path) + rest == rest && prefix + path == prefix;
    } else if |path| == 1 {
      assert path == [path[0]];
      ReadName(path[0], rest, prefix);
    } else {
      var name, others := path[0], path[1..];
      assert path == [name] + others;
      Regrouped([Name(name), Sep], PrintPath(others), rest);
      ReadNameAndSeparator(name, PrintPath(others) + rest, prefix);
      ReadPrinted(others, rest, prefix + [name]);
      Regrouped(prefix, [name], others);
    }
  }

  lemma PrintedStarts(t: Tree, after: seq<Token>)
    requires Wf(t)
    ensures Print(t) != [] && Print(t)[0] != Close && Print(t)[0] != Comma
    ensures Print(t) + after != [] && (Print(t) + after)[0] == Print(t)[0]
  {
  }

  lemma ReadLeaf(rooted: bool, path: seq<string>, prefix: seq<string>, after: seq<Token>)
    requires EndsPath(after)
    ensures ReadPath(Print(Leaf(rooted, path)) + after, prefix) == Segments(prefix + path, after)
  {
    Regrouped(Root(rooted), PrintPath(path), after);
    ReadRoot(rooted, PrintPath(path) + after, prefix);
    ReadPrinted(path, after, prefix);
  }

  lemma NestRegrouped(root: seq<Token>, path: seq<Token>, sep: seq<Token>, items: seq<Token>, after: seq<Token>)
    ensures root + (path + (sep + ([Open] + (items + [Close])))) + after
         == root + (path + (sep + ([Open] + (items + ([Close] + after)))))
  {
    Regrouped(items, [Close], after);
    Regrouped([Open], items + [Close], after);
    Regrouped(sep, [Open] + (items + [Close]), after);
    Regrouped(path, sep + ([Open] + (items + [Close])), after);
    Regrouped(root, path + (sep + ([Open] + (items + [Close]))), after);
  }

  lemma ReadNest(t: Tree, prefix: seq<string>, after: seq<Token>)
    requires t.Nest?
    ensures ReadPath(Print(t) + after, prefix)
         == Segments(prefix + t.path, [Open] + (PrintAll(t.trees, t.trailing) + ([Close] + after)))
  {
    var inner := PrintAll(t.trees, t.trailing) + ([Close] + after);
    var nest := Root(t.path != []) + ([Open] + inner);
    NestRegrouped(Root(t.rooted), PrintPath(t.path), Root(t.path != []), PrintAll(t.trees, t.trailing), after);
    ReadRoot(t.rooted, PrintPath(t.path) + nest, prefix);
    ReadPrinted(t.path, nest, prefix);
    ReadRoot(t.path != [], [Open] + inner, prefix + t.path);
  }

  lemma {:induction false} OneReadsATree(t: Tree, prefix: seq<string>, after: seq<Token>)
    requires Wf(t) && (after == [] || after[0] == Comma || after[0] == Close)
    ensures !Ends(Print(t) + after) && One(Print(t) + after, prefix) == Parsed(Leaves(t, prefix), after)
    decreases t
  {
    PrintedStarts(t, after);
    match t
    case Leaf(rooted, path) => ReadLeaf(rooted, path, prefix, after);
    case Nest(_, path, trees, trailing) =>
      ReadNest(t, prefix, after);
      var inner := PrintAll(trees, trailing) + ([Close] + after);
      assert ([Open] + inner)[1..] == inner;
      ItemsReadTrees(trees, trailing, prefix + path, after);
  }

  lemma {:induction false} ItemsReadTrees(trees: seq<Tree>, trailing: bool, prefix: seq<string>, after: seq<Token>)
    requires forall i | 0 <= i < |trees| :: Wf(trees[i])
    ensures Items(PrintAll(trees, trailing) + ([Close] + after), prefix) == Parsed(AllLeaves(trees, prefix), after)
    decreases trees
  {
    if trees == [] {
      assert PrintAll(trees, trailing) + ([Close] + after) == [Close] + after;
      assert ([Close] + after)[1..] == after;
    } else {
      var comma := if |trees| > 1 || trailing then [Comma] else [];
      var others := PrintAll(trees[1..], trailing) + ([Close] + after);
      Regrouped(comma, PrintAll(trees[1..], trailing), [Close] + after);
      Regrouped(Print(trees[0]), comma + PrintAll(trees[1..], trailing), [Close] + after);
      NextAfter(trees, trailing, others, after);
      OneReadsATree(trees[0], prefix, comma + others);
      ItemsReadTrees(trees[1..], trailing, prefix, after);
      assert SkipComma(comma + others) == others by {
        if comma == [Comma] {
          assert (comma + others)[1..] == others;
        } else {
          assert comma + others == others;
        }
      }
    }
  }

  /** What follows the first of several printed trees. */
  lemma NextAfter(trees: seq<Tree>, trailing: bool, others: seq<Token>, after: seq<Token>)
    requires trees != [] && others == PrintAll(trees[1..], trailing) + ([Close] + after)
    ensures var next := (if |trees| > 1 || trailing then [Comma] else []) + others;
      next != [] && (next[0] == Comma || next[0] == Close)
    ensures !(|trees| > 1 || trailing) ==> others[0] == Close
  {
    if |trees| == 1 {
      assert PrintAll(trees[1..], trailing) == [];
    }
  }

  /**
   For every use tree without aliases, the parser on its tokens returns exactly its leaf paths in
   order, each with its enclosing prefix.
   */
  lemma ExpandReturnsTheLeaves(t: Tree)
    requires Wf(t)
    ensures Expanded(Print(t)) == if Name("as") in Print(t) then None else Some(Leaves(t, []))
  {
    assert Print(t) + [] == Print(t);
    OneReadsATree(t, [], []);
    ItemsStep(Print(t), [], Leaves(t, []), [], []);
    assert Items([], []) == Parsed([], []);
    assert Items(Print(t), []).paths == [] + Items(Print(t), []).paths;
    assert [] + Leaves(t, []) + [] == Leaves(t, []);
  }

  // ---------------------------------------------------------------------------------------------
  // A printed path is its segments

  /** The text up to the first separator, and the segments after it. */
  function Split(text: string): seq<string> {
    SplitFrom("", text)
  }

  function SplitFrom(read: string, text: string): seq<string>
    decreases |text|
  {
    if |text| >= 2 && text[0] == ':' && text[1] == ':' then [read] + SplitFrom("", text[2..])
    else if text == "" then [read]
    else SplitFrom(read + [text[0]], text[1..])
  }

  predicate Plain(segment: string) {
    forall i | 0 <= i < |segment| :: segment[i] != ':'
  }

  lemma {:induction false} ReadsSegment(read: string, segment: string, rest: string)
    requires Plain(segment)
    ensures SplitFrom(read, segment + rest) == SplitFrom(read + segment, rest)
    decreases |segment|
  {
    if segment == "" {
      assert segment + rest == rest && read + segment == read;
    } else {
      assert (segment + rest)[0] == segment[0] && (segment + rest)[1..] == segment[1..] + rest;
      ReadsSegment(read + [segment[0]], segment[1..], rest);
      assert read + [segment[0]] + segment[1..] == read + segment;
    }
  }

  lemma EndsSegment(read: string, rest: string)
    ensures SplitFrom(read, "::" + rest) == [read] + SplitFrom("", rest)
  {
    assert ("::" + rest)[2..] == rest;
  }

  /** Splitting a printed path at its separators gives back its segments. */
  lemma {:induction false} SplitJoined(path: seq<string>)
    requires path != [] && forall i | 0 <= i < |path| :: Plain(path[i])
    ensures Split(Join(path)) == path
  {
    if |path| == 1 {
      assert path[0] + "" == path[0] && "" + path[0] == path[0];
      ReadsSegment("", path[0], "");
    } else {
      var rest := Join(path[1..]);
      assert Join(path) == path[0] + ("::" + rest);
      ReadsSegment("", path[0], "::" + rest);
      assert "" + path[0] == path[0];
      EndsSegment(path[0], rest);
      SplitJoined(path[1..]);
      assert path == [path[0]] + path[1..];
    }
  }

  /** The segments of every leaf, under its enclosing prefixes. */
  function LeafPaths(t: Tree, prefix: seq<string>): seq<seq<string>>
    decreases t
  {
    match t
    case Leaf(_, path) => [prefix + path]
    case Nest(_, path, trees, _) => AllLeafPaths(trees, prefix + path)
  }

  function AllLeafPaths(trees: seq<Tree>, prefix: seq<string>): seq<seq<string>>
    decreases trees
  {
    if trees == [] then [] else LeafPaths(trees[0], prefix) + AllLeafPaths(trees[1..], prefix)
  }

  ghost predicate AllPlain(path: seq<string>) {
    forall i | 0 <= i < |path| :: Plain(path[i])
  }

  /** No segment of the tree has a colon in it, as no Rust identifier has. */
  ghost predicate PlainTree(t: Tree) {
    match t
    case Leaf(_, path) => AllPlain(path)
    case Nest(_, path, trees, _) => AllPlain(path) && forall i | 0 <= i < |trees| :: PlainTree(trees[i])
  }

  /** Each text is a printed path, and splitting it gives the path back. */
  ghost predicate Spells(texts: seq<string>, paths: seq<seq<string>>) {
    |texts| == |paths| && forall i | 0 <= i < |texts| :: Split(texts[i]) == paths[i]
  }

  lemma {:induction false} LeavesSpellTheirPaths(t: Tree, prefix: seq<string>)
    requires Wf(t) && PlainTree(t) && AllPlain(prefix)
    ensures Spells(Leaves(t, prefix), LeafPaths(t, prefix))
    decreases t
  {
    match t
    case Leaf(_, path) => SplitJoined(prefix + path);
    case Nest(_, path, trees, _) => AllLeavesSpellTheirPaths(trees, prefix + path);
  }

  lemma {:induction false} AllLeavesSpellTheirPaths(trees: seq<Tree>, prefix: seq<string>)
    requires (forall i | 0 <= i < |trees| :: Wf(trees[i]) && PlainTree(trees[i])) && AllPlain(prefix)
    ensures Spells(AllLeaves(trees, prefix), AllLeafPaths(trees, prefix))
    decreases trees
  {
    if trees != [] {
      LeavesSpellTheirPaths(trees[0], prefix);
      AllLeavesSpellTheirPaths(trees[1..], prefix);
    }
  }

  /** What the parser returns, split at its separators, is the segments of every leaf under its prefixes, in order. */
  lemma ExpandSpellsTheLeaves(t: Tree)
    requires Wf(t) && PlainTree(t) && Name("as") !in Print(t)
    ensures Expanded(Print(t)).Some? && Spells(Expanded(Print(t)).value, LeafPaths(t, []))
  {
    ExpandReturnsTheLeaves(t);
    LeavesSpellTheirPaths(t, []);
  }
}
