// Suggestions for an unfinished command line: the walk over the finished tokens, the candidates of the
// node reached, and nested commands, which start again at the root. They agree with `execute`. The final
// sort and the removal of duplicates are not part of this model.
module CommandSuggestions {
  import opened Sequences
  import opened CommandTree
  import opened CommandExecution

  const MAX_DEPTH := 16

  type Depth = d: nat | d <= MAX_DEPTH

  datatype Suggestion = Suggestion(start: nat, text: string)

  datatype Context = Context(root: Node, lx: Lexer, canOperate: bool, players: seq<string>)

  // ----- the walk over the finished tokens -----

  datatype Descent = Stop | Nested(index: nat) | Reached(node: Node, index: nat)

  // One step of the walk: on to a child and past its group, or into a nested command, or no further.
  datatype Move = Halt | Enter | Into(child: Node, next: nat)

  function NextMove(ctx: Context, current: Node, tokens: seq<string>, index: nat): (m: Move)
    requires index < |tokens|
    ensures m.Into? ==> index < m.next <= |tokens|
  {
    var k := FindChild(ctx.lx, current.children, tokens[index]);
    if k == |current.children| then Halt
    else
      var node := current.children[k];
      var consumed := Consumed(node, |tokens|, index);
      if node.ty.Position? && consumed != 2 then Halt
      else if node.ty.GreedyString? && node.source.NestedCommand? then Enter
      else if !node.ty.GreedyString? && !Parses(ctx.lx, node, tokens[index..index + 1 + consumed]) then Halt
      else if index == 0 && node.requiresOperator && !ctx.canOperate then Halt
      else Into(node, index + 1 + consumed)
  }

  function Descend(ctx: Context, current: Node, tokens: seq<string>, index: nat): (d: Descent)
    requires index <= |tokens|
    ensures d.Nested? ==> index <= d.index < |tokens|
    ensures d.Reached? ==> d.index == |tokens|
    decreases |tokens| - index
  {
    if index == |tokens| then Reached(current, index)
    else
      match NextMove(ctx, current, tokens, index)
      case Halt => Stop
      case Enter => Nested(index)
      case Into(child, next) => Descend(ctx, child, tokens, next)
  }

  // ----- candidates -----

  function Candidates(values: seq<string>, prefix: string, start: nat): seq<Suggestion>
  {
    if values == [] then []
    else
      Candidates(values[..|values| - 1], prefix, start)
      + if prefix <= values[|values| - 1] then [Suggestion(start, values[|values| - 1])] else []
  }

  function CommandNames(ctx: Context, cs: seq<Node>): seq<string>
  {
    if cs == [] then []
    else
      CommandNames(ctx, cs[..|cs| - 1])
      + if !cs[|cs| - 1].requiresOperator || ctx.canOperate then [cs[|cs| - 1].name] else []
  }

  function OwnValues(child: Node): seq<string>
  {
    if child.ty.Literal? then [child.name]
    else if child.ty.Enum? then child.values
    else if child.ty.Boolean? then ["true", "false"]
    else []
  }

  function SourceValues(ctx: Context, child: Node): seq<string>
  {
    match child.source
    case Players => ctx.players
    case Commands => CommandNames(ctx, ctx.root.children)
    case NestedCommand => []
    case NoSource => []
  }

  predicate Denied(ctx: Context, child: Node, first: bool) { first && child.requiresOperator && !ctx.canOperate }

  // An exact match ends the list.
  predicate Exact(ctx: Context, child: Node, prefix: string)
  {
    prefix != [] && !CatchAll(child) && Matches(ctx.lx, child, prefix)
  }

  function ChildSuggestions(ctx: Context, child: Node, prefix: string, start: nat, depth: Depth): seq<Suggestion>
    decreases MAX_DEPTH - depth, 2, 0
  {
    if child.ty.Literal? then Candidates([child.name], prefix, start)
    else
      Candidates(OwnValues(child), prefix, start) + Candidates(SourceValues(ctx, child), prefix, start)
      + if child.source.NestedCommand? && child.ty.GreedyString? && depth < MAX_DEPTH
        then NestedSuggestions(ctx, [], prefix, start, depth + 1) else []
  }

  function ListSuggestions(ctx: Context, cs: seq<Node>, first: bool,
      prefix: string, start: nat, depth: Depth): seq<Suggestion>
    decreases MAX_DEPTH - depth, 3, |cs|
  {
    if cs == [] then []
    else if Denied(ctx, cs[0], first) then ListSuggestions(ctx, cs[1..], first, prefix, start, depth)
    else
      ChildSuggestions(ctx, cs[0], prefix, start, depth)
      + if Exact(ctx, cs[0], prefix) then [] else ListSuggestions(ctx, cs[1..], first, prefix, start, depth)
  }

  // Suggestions for `prefix`, which starts at `start`, after the finished `tokens`.
  function SuggestionsAt(ctx: Context, tokens: seq<string>, prefix: string, start: nat, depth: Depth): seq<Suggestion>
    decreases MAX_DEPTH - depth, 4, 0
  {
    match Descend(ctx, ctx.root, tokens, 0)
    case Stop => []
    case Nested(i) => if depth < MAX_DEPTH then NestedSuggestions(ctx, tokens[i..], prefix, start, depth + 1) else []
    case Reached(node, i) => ListSuggestions(ctx, node.children, i == 0, prefix, start, depth)
  }

  // A nested command may begin with a slash, in the token typed or in the first finished one.
  function NestedSuggestions(ctx: Context, tokens: seq<string>,
      prefix: string, start: nat, depth: Depth): seq<Suggestion>
    decreases MAX_DEPTH - depth, 5, 0
  {
    if prefix != [] && prefix[0] == '/' then SuggestionsAt(ctx, tokens, prefix[1..], start + 1, depth)
    else if tokens != [] && tokens[0] != [] && tokens[0][0] == '/' then
      SuggestionsAt(ctx, if tokens[0][1..] == [] then tokens[1..]
        else [tokens[0][1..]] + tokens[1..], prefix, start, depth)
    else SuggestionsAt(ctx, tokens, prefix, start, depth)
  }

  // ----- every suggestion extends what was typed -----

  // The text of the line from where the suggestion starts is a prefix of the suggestion.
  predicate Extends(line: string, s: Suggestion) { s.start <= |line| && line[s.start..] <= s.text }

  predicate AllExtend(line: string, ss: seq<Suggestion>) { forall i :: 0 <= i < |ss| ==> Extends(line, ss[i]) }

  lemma {:induction false} CandidatesExtend(line: string, values: seq<string>, prefix: string, start: nat)
    requires start <= |line| && line[start..] == prefix
    ensures AllExtend(line, Candidates(values, prefix, start))
    decreases |values|
  {
    if values != [] { CandidatesExtend(line, values[..|values| - 1], prefix, start); }
  }

  lemma {:induction false} ListExtends(line: string, ctx: Context,
      cs: seq<Node>, first: bool, prefix: string, start: nat, depth: Depth)
    requires start <= |line| && line[start..] == prefix
    ensures AllExtend(line, ListSuggestions(ctx, cs, first, prefix, start, depth))
    decreases MAX_DEPTH - depth, 3, |cs|
  {
    if cs != [] {
      ListExtends(line, ctx, cs[1..], first, prefix, start, depth);
      ChildExtends(line, ctx, cs[0], prefix, start, depth);
      hide ChildSuggestions;
    }
  }

  lemma {:induction false} ChildExtends(line: string, ctx: Context,
      child: Node, prefix: string, start: nat, depth: Depth)
    requires start <= |line| && line[start..] == prefix
    ensures AllExtend(line, ChildSuggestions(ctx, child, prefix, start, depth))
    decreases MAX_DEPTH - depth, 2, 0
  {
    CandidatesExtend(line, [child.name], prefix, start);
    CandidatesExtend(line, OwnValues(child), prefix, start);
    CandidatesExtend(line, SourceValues(ctx, child), prefix, start);
    if depth < MAX_DEPTH { NestedExtends(line, ctx, [], prefix, start, depth + 1); }
    hide Candidates, NestedSuggestions;
  }

  lemma {:induction false} NestedExtends(line: string, ctx: Context,
      tokens: seq<string>, prefix: string, start: nat, depth: Depth)
    requires start <= |line| && line[start..] == prefix
    ensures AllExtend(line, NestedSuggestions(ctx, tokens, prefix, start, depth))
    decreases MAX_DEPTH - depth, 5, 0
  {
    if prefix != [] && prefix[0] == '/' {
      assert line[start + 1..] == prefix[1..];
      SuggestionsExtend(line, ctx, tokens, prefix[1..], start + 1, depth);
    } else if tokens != [] && tokens[0] != [] && tokens[0][0] == '/' {
      SuggestionsExtend(line, ctx, if tokens[0][1..] == [] then tokens[1..]
        else [tokens[0][1..]] + tokens[1..], prefix, start, depth);
    } else {
      SuggestionsExtend(line, ctx, tokens, prefix, start, depth);
    }
    hide SuggestionsAt;
  }

  lemma {:induction false} SuggestionsExtend(line: string, ctx: Context,
      tokens: seq<string>, prefix: string, start: nat, depth: Depth)
    requires start <= |line| && line[start..] == prefix
    ensures AllExtend(line, SuggestionsAt(ctx, tokens, prefix, start, depth))
    decreases MAX_DEPTH - depth, 4, 0
  {
    var d := Descend(ctx, ctx.root, tokens, 0);
    if d.Nested? && depth < MAX_DEPTH { NestedExtends(line, ctx, tokens[d.index..], prefix, start, depth + 1); }
    if d.Reached? { ListExtends(line, ctx, d.node.children, d.index == 0, prefix, start, depth); }
    hide Descend, NestedSuggestions, ListSuggestions;
  }

  // ----- suggestions agree with execute -----

  // Greedy nodes swallow the rest of the line, so children under them can never be reached by execute.
  predicate GreedyAreLeaves(n: Node)
  {
    forall i :: 0 <= i < |n.children| ==>
      (n.children[i].ty.GreedyString? ==> n.children[i].children == []) && GreedyAreLeaves(n.children[i])
  }

  // The node accepts whatever it offers itself: a source of names is never consulted for a literal, and a
  // catch-all takes any name. A typed node with a source may offer names that it refuses.
  predicate FitsItself(n: Node) { n.ty.Literal? || n.source.NoSource? || CatchAll(n) }

  predicate AllFit(cs: seq<Node>) { forall i :: 0 <= i < |cs| ==> FitsItself(cs[i]) }

  // Standing at the last node of `path` before token `index`, as execute does after accepting the rest.
  ghost predicate StandsAt(ctx: Context, path: seq<Node>, node: Node, tokens: seq<string>, index: nat)
  {
    && path != [] && path[|path| - 1] == node && index <= |tokens|
    && !LacksOperator(path, ctx.canOperate) && (|path| == 1 <==> index == 0)
  }

  lemma DescendStep(ctx: Context, current: Node, tokens: seq<string>, index: nat) returns (child: Node, next: nat)
    requires index < |tokens| && GreedyAreLeaves(current)
    requires Descend(ctx, current, tokens, index).Reached? && Descend(ctx, current, tokens, index).node.children != []
    ensures var k := FindChild(ctx.lx, current.children, tokens[index]);
            k < |current.children| && child == current.children[k]
    ensures GreedyAreLeaves(child) && !child.ty.GreedyString?
    ensures next == index + 1 + Consumed(child, |tokens|, index)
            && Consumed(child, |tokens| + 1, index) == Consumed(child, |tokens|, index)
    ensures Parses(ctx.lx, child, tokens[index..next]) && !(index == 0 && child.requiresOperator && !ctx.canOperate)
    ensures Descend(ctx, child, tokens, next) == Descend(ctx, current, tokens, index)
  {
    hide FindChild, Parses;
    child := current.children[FindChild(ctx.lx, current.children, tokens[index])];
    next := index + 1 + Consumed(child, |tokens|, index);
    assert child.ty.GreedyString? ==> next == |tokens| && child.children == [];
  }

  // Execute takes the same steps over the finished tokens when one more token follows.
  lemma {:induction false} WalkFollows(ctx: Context, path: seq<Node>,
      current: Node, tokens: seq<string>, w: string, index: nat)
    returns (path': seq<Node>)
    requires StandsAt(ctx, path, current, tokens, index) && GreedyAreLeaves(current)
    requires Descend(ctx, current, tokens, index).Reached? && Descend(ctx, current, tokens, index).node.children != []
    ensures var node := Descend(ctx, current, tokens, index).node;
            && StandsAt(ctx, path', node, tokens, |tokens|)
            && Walk(ctx.lx, path', tokens + [w], |tokens|, ctx.canOperate)
               == Walk(ctx.lx, path, tokens + [w], index, ctx.canOperate)
    decreases |tokens| - index
  {
    if index == |tokens| {
      path' := path;
    } else {
      hide *;
      var child, next := DescendStep(ctx, current, tokens, index);
      WalkStep(ctx, path, current, tokens, w, index, child, next);
      path' := WalkFollows(ctx, path + [child], child, tokens, w, next);
    }
  }

  lemma WalkStep(ctx: Context, path: seq<Node>, current: Node,
      tokens: seq<string>, w: string, index: nat, child: Node, next: nat)
    requires StandsAt(ctx, path, current, tokens, index) && index < |tokens|
    requires var k := FindChild(ctx.lx, current.children, tokens[index]);
             k < |current.children| && child == current.children[k]
    requires next == index + 1 + Consumed(child, |tokens| + 1, index) && next <= |tokens|
    requires Parses(ctx.lx, child, tokens[index..next]) && !(index == 0 && child.requiresOperator && !ctx.canOperate)
    ensures StandsAt(ctx, path + [child], child, tokens, next)
    ensures Walk(ctx.lx, path + [child], tokens + [w], next, ctx.canOperate)
            == Walk(ctx.lx, path, tokens + [w], index, ctx.canOperate)
  {
    var more := tokens + [w];
    assert more[index..next] == tokens[index..next] && more[index] == tokens[index];
    hide FindChild, Consumed, Parses;
  }

  lemma {:induction false} CandidatesAreValues(values: seq<string>, prefix: string, start: nat)
    ensures forall s :: s in Candidates(values, prefix, start) ==> s.text in values
    decreases |values|
  {
    if values != [] { CandidatesAreValues(values[..|values| - 1], prefix, start); }
  }

  predicate SomeMatch(lx: Lexer, cs: seq<Node>, token: string)
  { exists i :: 0 <= i < |cs| && Matches(lx, cs[i], token) }

  // Suggestions that do not come from a nested command: the deepest level makes no others.
  function Direct(ctx: Context, tokens: seq<string>, prefix: string, start: nat): seq<Suggestion>
  {
    SuggestionsAt(ctx, tokens, prefix, start, MAX_DEPTH)
  }

  // A direct suggestion is offered by some child, and one that fits itself matches what it offers.
  lemma {:induction false} DirectMatch(ctx: Context, cs: seq<Node>,
      first: bool, prefix: string, start: nat, s: Suggestion)
    requires AllFit(cs)
    requires s in ListSuggestions(ctx, cs, first, prefix, start, MAX_DEPTH)
    ensures SomeMatch(ctx.lx, cs, s.text)
    decreases |cs|
  {
    if s in ListSuggestions(ctx, cs[1..], first, prefix, start, MAX_DEPTH) {
      DirectMatch(ctx, cs[1..], first, prefix, start, s);
      var i :| 0 <= i < |cs[1..]| && Matches(ctx.lx, cs[1..][i], s.text);
      assert Matches(ctx.lx, cs[i + 1], s.text);
    } else {
      OwnTextMatches(ctx, cs[0], prefix, start, s);
      assert Matches(ctx.lx, cs[0], s.text);
    }
  }

  lemma OwnTextMatches(ctx: Context, child: Node, prefix: string, start: nat, s: Suggestion)
    requires FitsItself(child) && s in ChildSuggestions(ctx, child, prefix, start, MAX_DEPTH)
    ensures Matches(ctx.lx, child, s.text)
  {
    CandidatesAreValues([child.name], prefix, start);
    CandidatesAreValues(OwnValues(child), prefix, start);
    CandidatesAreValues(SourceValues(ctx, child), prefix, start);
    hide Candidates;
  }

  predicate OffersNested(cs: seq<Node>)
  { exists i :: 0 <= i < |cs| && cs[i].ty.GreedyString? && cs[i].source.NestedCommand? }

  lemma {:induction false} ListWithoutNested(ctx: Context, cs: seq<Node>,
      first: bool, prefix: string, start: nat, depth: Depth)
    requires !OffersNested(cs)
    ensures ListSuggestions(ctx, cs, first, prefix, start, depth)
            == ListSuggestions(ctx, cs, first, prefix, start, MAX_DEPTH)
    decreases |cs|
  {
    if cs != [] {
      assert !(cs[0].ty.GreedyString? && cs[0].source.NestedCommand?);
      assert forall i :: 0 <= i < |cs[1..]| ==> cs[1..][i] == cs[i + 1];
      ListWithoutNested(ctx, cs[1..], first, prefix, start, depth);
    }
  }

  // Where the walk reaches a node that offers no nested command, every suggestion is direct.
  lemma AllAreDirect(ctx: Context, tokens: seq<string>, prefix: string, start: nat, depth: Depth)
    requires var d := Descend(ctx, ctx.root, tokens, 0); !d.Nested? && (d.Reached? ==> !OffersNested(d.node.children))
    ensures SuggestionsAt(ctx, tokens, prefix, start, depth) == Direct(ctx, tokens, prefix, start)
  {
    var d := Descend(ctx, ctx.root, tokens, 0);
    if d.Reached? { ListWithoutNested(ctx, d.node.children, d.index == 0, prefix, start, depth); }
  }

  // How a line may end when its last token was accepted by a node, and nothing before it was refused.
  predicate Understood(r: Outcome, last: nat)
  {
    r.Runs? || r.IncompleteCommand? || (r.NoPermission? && last == 0) || r == InvalidToken(last)
  }

  // The children among which a direct suggestion is made.
  function OfferedAmong(ctx: Context, tokens: seq<string>): seq<Node>
  {
    var d := Descend(ctx, ctx.root, tokens, 0);
    if d.Reached? then d.node.children else []
  }

  // A direct suggestion put in place of what was typed is accepted by execute, with no token unknown and
  // none too many, if and only if some child of the node reached matches the text suggested.
  lemma SuggestionIsUnderstoodExactly(ctx: Context, tokens: seq<string>, prefix: string, start: nat, s: Suggestion)
    requires GreedyAreLeaves(ctx.root) && s in Direct(ctx, tokens, prefix, start)
    ensures Understood(Walk(ctx.lx, [ctx.root], tokens + [s.text], 0, ctx.canOperate), |tokens|)
            <==> SomeMatch(ctx.lx, OfferedAmong(ctx, tokens), s.text)
  {
    var d := Descend(ctx, ctx.root, tokens, 0);
    assert d.Reached?;
    var path := WalkFollows(ctx, [ctx.root], ctx.root, tokens, s.text, 0);
    LastTokenMatches(ctx, path, d.node, tokens, s.text);
  }

  // So it is where every child accepts what it offers.
  lemma SuggestionIsUnderstood(ctx: Context, tokens: seq<string>, prefix: string, start: nat, s: Suggestion)
    requires GreedyAreLeaves(ctx.root) && s in Direct(ctx, tokens, prefix, start)
    requires AllFit(OfferedAmong(ctx, tokens))
    ensures Understood(Walk(ctx.lx, [ctx.root], tokens + [s.text], 0, ctx.canOperate), |tokens|)
  {
    var d := Descend(ctx, ctx.root, tokens, 0);
    assert d.Reached?;
    DirectMatch(ctx, d.node.children, d.index == 0, prefix, start, s);
    hide Descend, Walk, SomeMatch, ListSuggestions;
    SuggestionIsUnderstoodExactly(ctx, tokens, prefix, start, s);
  }

  lemma LastTokenMatches(ctx: Context, path: seq<Node>, node: Node, tokens: seq<string>, w: string)
    requires StandsAt(ctx, path, node, tokens, |tokens|) && node.children != []
    ensures Understood(Walk(ctx.lx, path, tokens + [w], |tokens|, ctx.canOperate), |tokens|)
            <==> SomeMatch(ctx.lx, node.children, w)
  {
    var more := tokens + [w];
    var k := FindChild(ctx.lx, node.children, w);
    assert k < |node.children| <==> SomeMatch(ctx.lx, node.children, w);
    if k < |node.children| {
      var child := node.children[k];
      assert Consumed(child, |more|, |tokens|) == 0;
      hide FindChild, Consumed, Parses, Matches;
      assert |tokens| > 0 ==> LacksOperator(path + [child], ctx.canOperate) == LacksOperator(path, ctx.canOperate);
    }
  }

  // ----- the loops -----

  method AppendCandidate(output: seq<Suggestion>, value: string, prefix: string, start: nat)
    returns (r: seq<Suggestion>)
    ensures r == output + if prefix <= value then [Suggestion(start, value)] else []
  {
    r := output;
    if |value| >= |prefix| && value[..|prefix|] == prefix {
      r := r + [Suggestion(start, value)];
    }
  }

  method AppendCandidates(output: seq<Suggestion>, values: seq<string>, prefix: string, start: nat)
    returns (r: seq<Suggestion>)
    ensures r == output + Candidates(values, prefix, start)
  {
    r := output;
    var n := 0;
    while n < |values|
      invariant 0 <= n <= |values| && r == output + Candidates(values[..n], prefix, start)
    {
      assert values[..n + 1][..n] == values[..n];
      r := AppendCandidate(r, values[n], prefix, start);
      n := n + 1;
    }
    assert values[..n] == values;
  }

  method NamesOfCommands(ctx: Context) returns (names: seq<string>)
    ensures names == CommandNames(ctx, ctx.root.children)
  {
    names := [];
    var cs := ctx.root.children;
    var n := 0;
    while n < |cs|
      invariant 0 <= n <= |cs| && names == CommandNames(ctx, cs[..n])
    {
      assert cs[..n + 1][..n] == cs[..n];
      if !cs[n].requiresOperator || ctx.canOperate {
        names := names + [cs[n].name];
      }
      n := n + 1;
    }
    assert cs[..n] == cs;
  }

  // The walk over the finished tokens at the head of suggest_at.
  method WalkDown(ctx: Context, tokens: seq<string>) returns (d: Descent)
    ensures d == Descend(ctx, ctx.root, tokens, 0)
  {
    var current, index := ctx.root, 0;
    hide Descend, FindChild, Parses, Consumed, Matches;
    while index < |tokens|
      invariant 0 <= index <= |tokens| && Descend(ctx, current, tokens, index) == Descend(ctx, ctx.root, tokens, 0)
    {
      DescendMoves(ctx, current, tokens, index);
      var k := FindMatchingChild(ctx.lx, current, tokens[index]);
      if k == |current.children| {
        return Stop;
      }
      var node := current.children[k];
      var consumed := Consumed(node, |tokens|, index);
      if node.ty.Position? && consumed != 2 {
        return Stop;
      }
      if node.ty.GreedyString? && node.source.NestedCommand? {
        return Nested(index);
      }
      if !node.ty.GreedyString? && !Parses(ctx.lx, node, tokens[index..index + 1 + consumed]) {
        return Stop;
      }
      if index == 0 && node.requiresOperator && !ctx.canOperate {
        return Stop;
      }
      current, index := node, index + 1 + consumed;
    }
    DescendMoves(ctx, current, tokens, index);
    return Reached(current, index);
  }

  lemma DescendMoves(ctx: Context, current: Node, tokens: seq<string>, index: nat)
    requires index <= |tokens|
    ensures var d := Descend(ctx, current, tokens, index);
            if index == |tokens| then d == Reached(current, index)
            else match NextMove(ctx, current, tokens, index)
                 case Halt => d == Stop
                 case Enter => d == Nested(index)
                 case Into(child, next) => d == Descend(ctx, child, tokens, next)
  {
    hide NextMove;
  }

  method SuggestChild(ctx: Context, child: Node, prefix: string, start: nat, depth: Depth)
    returns (output: seq<Suggestion>)
    ensures output == ChildSuggestions(ctx, child, prefix, start, depth)
    decreases MAX_DEPTH - depth, 2, 0
  {
    output := [];
    assert Candidates([], prefix, start) == [];
    hide Candidates, NestedSuggestions, CommandNames, OwnValues;
    if child.ty.Literal? {
      output := AppendCandidates(output, [child.name], prefix, start);
      return;
    }
    output := AppendCandidates(output, OwnValues(child), prefix, start);
    var fromSource := SuggestFromSource(ctx, child, prefix, start);
    output := output + fromSource;
    if child.source.NestedCommand? && child.ty.GreedyString? && depth < MAX_DEPTH {
      var nested := SuggestNested(ctx, [], prefix, start, depth + 1);
      output := output + nested;
    }
  }

  method SuggestFromSource(ctx: Context, child: Node, prefix: string, start: nat) returns (output: seq<Suggestion>)
    ensures output == Candidates(SourceValues(ctx, child), prefix, start)
  {
    output := [];
    match child.source {
      case Players => output := AppendCandidates(output, ctx.players, prefix, start);
      case Commands =>
        var names := NamesOfCommands(ctx);
        output := AppendCandidates(output, names, prefix, start);
      case NestedCommand =>
      case NoSource =>
    }
  }

  method SuggestAt(ctx: Context, tokens: seq<string>, prefix: string, start: nat, depth: Depth)
    returns (output: seq<Suggestion>)
    ensures output == SuggestionsAt(ctx, tokens, prefix, start, depth)
    decreases MAX_DEPTH - depth, 4, 0
  {
    output := [];
    var d := WalkDown(ctx, tokens);
    match d {
      case Stop =>
      case Nested(i) =>
        if depth < MAX_DEPTH {
          output := SuggestNested(ctx, tokens[i..], prefix, start, depth + 1);
        }
      case Reached(node, i) =>
        output := SuggestList(ctx, node.children, i == 0, prefix, start, depth);
    }
  }

  method SuggestList(ctx: Context, cs: seq<Node>, first: bool, prefix: string, start: nat, depth: Depth)
    returns (output: seq<Suggestion>)
    ensures output == ListSuggestions(ctx, cs, first, prefix, start, depth)
    decreases MAX_DEPTH - depth, 3, 0
  {
    output := [];
    var n := 0;
    hide ListSuggestions, ChildSuggestions, Exact, Denied;
    assert cs[n..] == cs;
    while n < |cs|
      invariant 0 <= n <= |cs|
      invariant output + ListSuggestions(ctx, cs[n..], first, prefix, start, depth)
                == ListSuggestions(ctx, cs, first, prefix, start, depth)
    {
      ListUnfolds(ctx, cs, n, first, prefix, start, depth);
      if !Denied(ctx, cs[n], first) {
        var more := SuggestChild(ctx, cs[n], prefix, start, depth);
        output := output + more;
        if Exact(ctx, cs[n], prefix) {
          return;
        }
      }
      n := n + 1;
    }
    ListEnds(ctx, cs, first, prefix, start, depth);
  }

  lemma ListUnfolds(ctx: Context, cs: seq<Node>, n: nat, first: bool, prefix: string, start: nat, depth: Depth)
    requires n < |cs|
    ensures ListSuggestions(ctx, cs[n..], first, prefix, start, depth)
            == (if Denied(ctx, cs[n], first) then [] else ChildSuggestions(ctx, cs[n], prefix, start, depth))
               + if !Denied(ctx, cs[n], first) && Exact(ctx, cs[n], prefix) then []
                 else ListSuggestions(ctx, cs[n + 1..], first, prefix, start, depth)
  {
    assert cs[n..][0] == cs[n] && cs[n..][1..] == cs[n + 1..];
    hide ChildSuggestions, Exact, Denied;
  }

  lemma ListEnds(ctx: Context, cs: seq<Node>, first: bool, prefix: string, start: nat, depth: Depth)
    ensures ListSuggestions(ctx, cs[|cs|..], first, prefix, start, depth) == []
  {
  }

  method SuggestNested(ctx: Context, tokens: seq<string>, prefix: string, start: nat, depth: Depth)
    returns (output: seq<Suggestion>)
    ensures output == NestedSuggestions(ctx, tokens, prefix, start, depth)
    decreases MAX_DEPTH - depth, 5, 0
  {
    var normalized, rest, from := tokens, prefix, start;
    if prefix != [] && prefix[0] == '/' {
      rest, from := prefix[1..], start + 1;
    } else if tokens != [] && tokens[0] != [] && tokens[0][0] == '/' {
      normalized := [tokens[0][1..]] + tokens[1..];
      if normalized[0] == [] {
        normalized := normalized[1..];
      }
    }
    output := SuggestAt(ctx, normalized, rest, from, depth);
  }
}
