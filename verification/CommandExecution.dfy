// What `execute` makes of a line: the walk over the grammar, and what its outcome means for the line and for
// who may run the command.
module CommandExecution {
  import opened Sequences
  import opened CommandTree

  // ----- what a line means -----

  // The words are a group that the node takes, with a value that it accepts.
  predicate Accepts(lx: Lexer, n: Node, words: seq<string>)
  {
    match n.ty
    case Literal => words == [n.name]
    case String => |words| == 1
    case GreedyString => words != []
    case Integer => |words| == 1 && lx.isInt(words[0]) && lx.inRange(n, words)
    case Float => |words| == 1 && lx.isFloat(words[0]) && lx.inRange(n, words)
    case Boolean => words == ["true"] || words == ["false"]
    case Enum => |words| == 1 && words[0] in n.values
    case Position => |words| == 3 && lx.isCoordinate(words[0]) && lx.inRange(n, words)
    case Root => false
  }

  // A node that does not match a token accepts no group that begins with it.
  lemma NoMatchNoGroup(lx: Lexer, n: Node, words: seq<string>)
    requires words != [] && !Matches(lx, n, words[0])
    ensures !Accepts(lx, n, words)
  {
  }

  // Child k is the first that matches the token.
  predicate FirstMatch(lx: Lexer, cs: seq<Node>, token: string, k: int)
  {
    0 <= k < |cs| && Matches(lx, cs[k], token) && forall i :: 0 <= i < k ==> !Matches(lx, cs[i], token)
  }

  // From a parent to the first of its children that matches token i, which accepts the tokens up to j; a
  // greedy node takes all that are left.
  ghost predicate Takes(lx: Lexer, parent: Node, child: Node, tokens: seq<string>, i: nat, j: nat)
  {
    && i < j <= |tokens| && Accepts(lx, child, tokens[i..j]) && (child.ty.GreedyString? ==> j == |tokens|)
    && exists k :: FirstMatch(lx, parent.children, tokens[i], k) && parent.children[k] == child
  }

  // The nodes read the tokens up to the last cut, group by group.
  ghost predicate Reads(lx: Lexer, tokens: seq<string>, path: seq<Node>, cuts: seq<nat>)
  {
    && |path| == |cuts| > 0 && cuts[0] == 0
    && forall n :: 0 < n < |path| ==> Takes(lx, path[n - 1], path[n], tokens, cuts[n - 1], cuts[n])
  }

  // The command that the first token names is for operators.
  ghost predicate ForOperators(lx: Lexer, root: Node, tokens: seq<string>)
  {
    tokens != [] && exists k :: FirstMatch(lx, root.children, tokens[0], k) && root.children[k].requiresOperator
  }

  // No group from token i on is one that the child, the first to match it, accepts.
  ghost predicate Refused(lx: Lexer, parent: Node, tokens: seq<string>, i: nat)
  {
    i < |tokens| && exists k :: FirstMatch(lx, parent.children, tokens[i], k)
                                && forall j :: i < j <= |tokens| ==> !Accepts(lx, parent.children[k], tokens[i..j])
  }

  // The outcome of a reading that goes as far as it can, for somebody who may run the command.
  ghost predicate Explains(lx: Lexer, tokens: seq<string>, path: seq<Node>, cuts: seq<nat>, r: Outcome)
    requires path != [] && cuts != []
  {
    var n, i := path[|path| - 1], cuts[|cuts| - 1];
    match r
    case Runs(p) => p == path && i == |tokens| && n.hasAction
    case IncompleteCommand => i == |tokens| && !n.hasAction
    case TooManyArguments(at) => at == i < |tokens| && n.children == []
    case UnknownCommand(at) =>
      at == i < |tokens| && n.children != []
      && forall k :: 0 <= k < |n.children| ==> !Matches(lx, n.children[k], tokens[i])
    case InvalidToken(at) => at == i && Refused(lx, n, tokens, i)
    case NoPermission => false
  }

  // What is promised of an outcome: a command for operators is refused to everybody else, whatever follows
  // it on the line, and in every other case the line is read from the root as far as the grammar goes.
  ghost predicate Explained(lx: Lexer, root: Node, tokens: seq<string>, canOperate: bool, r: Outcome)
  {
    if ForOperators(lx, root, tokens) && !canOperate then r == NoPermission
    else exists path, cuts :: Reads(lx, tokens, path, cuts) && path[0] == root && Explains(lx, tokens, path, cuts, r)
  }

  // ----- the walk -----

  datatype Outcome =
    | Runs(path: seq<Node>)
    | TooManyArguments(position: nat)
    | UnknownCommand(position: nat)
    | InvalidToken(position: nat)
    | IncompleteCommand
    | NoPermission

  predicate LacksOperator(path: seq<Node>, canOperate: bool) { |path| > 1 && path[1].requiresOperator && !canOperate }

  // The walk from `path`, whose last node is where it stands, before token `index`.
  function Walk(lx: Lexer, path: seq<Node>, tokens: seq<string>, index: nat, canOperate: bool): Outcome
    requires path != [] && index <= |tokens|
    decreases |tokens| - index
  {
    var current := path[|path| - 1];
    if index == |tokens| then
      if LacksOperator(path, canOperate) then NoPermission
      else if !current.hasAction then IncompleteCommand
      else Runs(path)
    else if current.children == [] then
      if LacksOperator(path, canOperate) then NoPermission else TooManyArguments(index)
    else
      var k := FindChild(lx, current.children, tokens[index]);
      if k == |current.children| then
        if LacksOperator(path, canOperate) then NoPermission else UnknownCommand(index)
      else
        var child := current.children[k];
        var next := index + 1 + Consumed(child, |tokens|, index);
        if LacksOperator(path + [child], canOperate) then NoPermission
        else if !Parses(lx, child, tokens[index..next]) then InvalidToken(index)
        else Walk(lx, path + [child], tokens, next, canOperate)
  }

  method Execute(lx: Lexer, root: Node, line: string, canOperate: bool) returns (r: Outcome)
    ensures Tokens(line) == [] ==> r == IncompleteCommand
    ensures Tokens(line) != [] ==> Explained(lx, root, Tokens(line), canOperate, r)
    ensures Tokens(line) != [] ==> r == Walk(lx, [root], Tokens(line), 0, canOperate)
    ensures canOperate ==> !r.NoPermission?
    ensures r.Runs? && !canOperate ==> |r.path| > 1 && r.path[0] == root && !r.path[1].requiresOperator
  {
    hide *;
    var tokens := Tokenize(line);
    if tokens == [] {
      return IncompleteCommand;
    }
    r := ExecuteTokens(lx, root, tokens, canOperate);
    WalkExplained(lx, root, tokens, canOperate);
    ExplainedPermission(lx, root, tokens, canOperate, r);
  }

  // The loop over the tokens.
  method ExecuteTokens(lx: Lexer, root: Node, tokens: seq<string>, canOperate: bool) returns (r: Outcome)
    ensures r == Walk(lx, [root], tokens, 0, canOperate)
  {
    var path := [root];
    var index := 0;
    hide Tokens, Parses, LacksOperator, Consumed, Matches, FindChild, Walk;
    while index < |tokens|
      invariant 0 <= index <= |tokens| && path != []
      invariant Walk(lx, path, tokens, index, canOperate) == Walk(lx, [root], tokens, 0, canOperate)
    {
      var current := path[|path| - 1];
      WalkUnfolds(lx, path, tokens, index, canOperate);
      if current.children == [] {
        return if LacksOperator(path, canOperate) then NoPermission else TooManyArguments(index);
      }
      var k := FindMatchingChild(lx, current, tokens[index]);
      if k == |current.children| {
        return if LacksOperator(path, canOperate) then NoPermission else UnknownCommand(index);
      }
      var child := current.children[k];
      path := path + [child];
      if LacksOperator(path, canOperate) {
        return NoPermission;
      }
      var next := index + 1 + Consumed(child, |tokens|, index);
      if !Parses(lx, child, tokens[index..next]) {
        return InvalidToken(index);
      }
      index := next;
    }
    WalkUnfolds(lx, path, tokens, index, canOperate);
    if LacksOperator(path, canOperate) {
      return NoPermission;
    }
    return if path[|path| - 1].hasAction then Runs(path) else IncompleteCommand;
  }

  // One step of the walk.
  lemma WalkUnfolds(lx: Lexer, path: seq<Node>, tokens: seq<string>, index: nat, canOperate: bool)
    requires path != [] && index <= |tokens|
    ensures var current, r := path[|path| - 1], Walk(lx, path, tokens, index, canOperate);
            if index == |tokens| then
              r == if LacksOperator(path, canOperate) then NoPermission
                   else if current.hasAction then Runs(path) else IncompleteCommand
            else if current.children == [] then
              r == if LacksOperator(path, canOperate) then NoPermission else TooManyArguments(index)
            else
              var k := FindChild(lx, current.children, tokens[index]);
              if k == |current.children| then
                r == if LacksOperator(path, canOperate) then NoPermission else UnknownCommand(index)
              else
                var child := current.children[k];
                var next := index + 1 + Consumed(child, |tokens|, index);
                r == if LacksOperator(path + [child], canOperate) then NoPermission
                     else if !Parses(lx, child, tokens[index..next]) then InvalidToken(index)
                     else Walk(lx, path + [child], tokens, next, canOperate)
  {
    hide Parses, LacksOperator, Consumed, Matches, FindChild;
  }

  // ----- what the walk promises -----

  lemma TakesNext(lx: Lexer, parent: Node, tokens: seq<string>, index: nat)
    requires index < |tokens| && FindChild(lx, parent.children, tokens[index]) < |parent.children|
    ensures var k := FindChild(lx, parent.children, tokens[index]); var child := parent.children[k];
            var next := index + 1 + Consumed(child, |tokens|, index);
            && FirstMatch(lx, parent.children, tokens[index], k)
            && (Parses(lx, child, tokens[index..next]) ==> Takes(lx, parent, child, tokens, index, next))
            && (!Parses(lx, child, tokens[index..next]) ==> Refused(lx, parent, tokens, index))
  {
    var k := FindChild(lx, parent.children, tokens[index]);
    var child := parent.children[k];
    var next := index + 1 + Consumed(child, |tokens|, index);
    hide FindChild;
    var group := tokens[index..next];
    assert group[0] == tokens[index];
    if Parses(lx, child, group) {
      ParsedIsAccepted(lx, child, group, |tokens|, index);
    } else {
      forall j | index < j <= |tokens| ensures !Accepts(lx, child, tokens[index..j]) {
        UnparsedIsRefused(lx, child, tokens, index, j);
      }
    }
  }

  lemma ParsedIsAccepted(lx: Lexer, n: Node, group: seq<string>, count: nat, index: nat)
    requires index < count && |group| == 1 + Consumed(n, count, index) && Matches(lx, n, group[0])
    requires Parses(lx, n, group)
    ensures Accepts(lx, n, group) && (n.ty.GreedyString? ==> index + |group| == count)
  {
    assert |group| == 1 ==> group == [group[0]];
  }

  lemma UnparsedIsRefused(lx: Lexer, n: Node, tokens: seq<string>, index: nat, j: nat)
    requires index < j <= |tokens| && Matches(lx, n, tokens[index])
    requires !Parses(lx, n, tokens[index..index + 1 + Consumed(n, |tokens|, index)])
    ensures !Accepts(lx, n, tokens[index..j])
  {
  }

  lemma ReadsOneMore(lx: Lexer, tokens: seq<string>, path: seq<Node>, cuts: seq<nat>, child: Node, next: nat)
    requires Reads(lx, tokens, path, cuts) && Takes(lx, path[|path| - 1], child, tokens, cuts[|cuts| - 1], next)
    ensures Reads(lx, tokens, path + [child], cuts + [next])
  {
    hide Takes;
  }

  // The child that takes the group from `index` on, if there is one.
  function TakenBy(lx: Lexer, n: Node, tokens: seq<string>, index: nat): Option<Node>
    requires index <= |tokens|
  {
    if index == |tokens| || FindChild(lx, n.children, tokens[index]) == |n.children| then None
    else
      var child := n.children[FindChild(lx, n.children, tokens[index])];
      if Parses(lx, child, tokens[index..GroupEnd(child, tokens, index)]) then Some(child) else None
  }

  function GroupEnd(child: Node, tokens: seq<string>, index: nat): (next: nat)
    requires index < |tokens|
    ensures index < next <= |tokens|
  {
    index + 1 + Consumed(child, |tokens|, index)
  }

  // Where no group is taken, the walk ends with an outcome that the reading explains.
  lemma WalkStops(lx: Lexer, tokens: seq<string>, path: seq<Node>, cuts: seq<nat>, canOperate: bool)
    requires |path| == |cuts| > 0 && cuts[|cuts| - 1] <= |tokens| && !LacksOperator(path, canOperate)
    requires TakenBy(lx, path[|path| - 1], tokens, cuts[|cuts| - 1]).None?
    requires var n, i := path[|path| - 1], cuts[|cuts| - 1];
             i < |tokens| && FindChild(lx, n.children, tokens[i]) < |n.children| ==>
               !LacksOperator(path + [n.children[FindChild(lx, n.children, tokens[i])]], canOperate)
    ensures Explains(lx, tokens, path, cuts, Walk(lx, path, tokens, cuts[|cuts| - 1], canOperate))
  {
    var n, i := path[|path| - 1], cuts[|cuts| - 1];
    hide LacksOperator, Consumed, Parses, Matches, FindChild, Walk, Refused;
    WalkUnfolds(lx, path, tokens, i, canOperate);
    if i < |tokens| && FindChild(lx, n.children, tokens[i]) < |n.children| { TakesNext(lx, n, tokens, i); }
  }

  lemma WalkGoesOn(lx: Lexer, tokens: seq<string>, path: seq<Node>, index: nat, canOperate: bool)
    requires path != [] && index <= |tokens| && TakenBy(lx, path[|path| - 1], tokens, index).Some?
    requires !LacksOperator(path + [TakenBy(lx, path[|path| - 1], tokens, index).value], canOperate)
    ensures var child := TakenBy(lx, path[|path| - 1], tokens, index).value;
            && index < |tokens|
            && Takes(lx, path[|path| - 1], child, tokens, index, GroupEnd(child, tokens, index))
            && Walk(lx, path + [child], tokens, GroupEnd(child, tokens, index), canOperate)
               == Walk(lx, path, tokens, index, canOperate)
  {
    hide LacksOperator, Consumed, Parses, Matches, FindChild, Walk, Takes;
    WalkUnfolds(lx, path, tokens, index, canOperate);
    TakesNext(lx, path[|path| - 1], tokens, index);
  }

  lemma StaysAllowed(path: seq<Node>, child: Node, canOperate: bool)
    requires |path| > 1 && !LacksOperator(path, canOperate)
    ensures !LacksOperator(path + [child], canOperate) && (path + [child])[1] == path[1]
  {
  }

  // From a reading of the tokens so far by somebody who may run the command, the walk goes on to one that
  // explains its outcome.
  lemma {:induction false} WalkReads(lx: Lexer, tokens: seq<string>, path: seq<Node>, cuts: seq<nat>, canOperate: bool)
    returns (more: seq<Node>, ends: seq<nat>)
    requires Reads(lx, tokens, path, cuts) && |path| == |cuts| > 1 && cuts[|cuts| - 1] <= |tokens|
    requires !LacksOperator(path, canOperate)
    ensures Reads(lx, tokens, more, ends) && |more| == |ends| > 1 && more[0] == path[0]
    ensures Explains(lx, tokens, more, ends, Walk(lx, path, tokens, cuts[|cuts| - 1], canOperate))
    decreases |tokens| - cuts[|cuts| - 1]
  {
    hide *;
    var current, index := path[|path| - 1], cuts[|cuts| - 1];
    var taken := TakenBy(lx, current, tokens, index);
    if taken.Some? {
      StaysAllowed(path, taken.value, canOperate);
      WalkGoesOn(lx, tokens, path, index, canOperate);
      ReadsOneMore(lx, tokens, path, cuts, taken.value, GroupEnd(taken.value, tokens, index));
      more, ends := WalkReads(lx, tokens, path + [taken.value],
        cuts + [GroupEnd(taken.value, tokens, index)], canOperate);
    } else {
      if index < |tokens| && FindChild(lx, current.children, tokens[index]) < |current.children| {
        StaysAllowed(path, current.children[FindChild(lx, current.children, tokens[index])], canOperate);
      }
      more, ends := path, cuts;
      WalkStops(lx, tokens, path, cuts, canOperate);
    }
  }

  // A command named by its first token is for operators if and only if the node found for it is.
  lemma ForOperatorsExactly(lx: Lexer, root: Node, tokens: seq<string>)
    requires tokens != []
    ensures var k := FindChild(lx, root.children, tokens[0]);
            ForOperators(lx, root, tokens) <==> k < |root.children| && root.children[k].requiresOperator
  {
    var k := FindChild(lx, root.children, tokens[0]);
    assert k < |root.children| ==> FirstMatch(lx, root.children, tokens[0], k);
    hide FindChild, Matches;
  }

  lemma WalkExplained(lx: Lexer, root: Node, tokens: seq<string>, canOperate: bool)
    requires tokens != []
    ensures Explained(lx, root, tokens, canOperate, Walk(lx, [root], tokens, 0, canOperate))
  {
    ForOperatorsExactly(lx, root, tokens);
    StartsReading(lx, root, tokens, canOperate);
    var k := FindChild(lx, root.children, tokens[0]);
    if ForOperators(lx, root, tokens) && !canOperate {
      DeniedAtOnce(lx, root, tokens, canOperate);
    } else {
      hide *;
      var taken := TakenBy(lx, root, tokens, 0);
      if taken.Some? {
        WalkGoesOn(lx, tokens, [root], 0, canOperate);
        ReadsOneMore(lx, tokens, [root], [0], taken.value, GroupEnd(taken.value, tokens, 0));
        var path, cuts := WalkReads(lx, tokens, [root] + [taken.value], [0] + [GroupEnd(taken.value, tokens, 0)],
                                    canOperate);
        ExplainedBy(lx, root, tokens, canOperate, path, cuts, Walk(lx, [root], tokens, 0, canOperate));
      } else {
        WalkStops(lx, tokens, [root], [0], canOperate);
        ExplainedBy(lx, root, tokens, canOperate, [root], [0], Walk(lx, [root], tokens, 0, canOperate));
      }
    }
  }

  lemma StartsReading(lx: Lexer, root: Node, tokens: seq<string>, canOperate: bool)
    requires tokens != []
    ensures Reads(lx, tokens, [root], [0]) && !LacksOperator([root], canOperate)
    ensures var k := FindChild(lx, root.children, tokens[0]);
            k < |root.children| && !(root.children[k].requiresOperator && !canOperate) ==>
              !LacksOperator([root] + [root.children[k]], canOperate)
    ensures TakenBy(lx, root, tokens, 0).Some? ==>
              var k := FindChild(lx, root.children, tokens[0]);
              k < |root.children| && TakenBy(lx, root, tokens, 0).value == root.children[k]
  {
    hide FindChild, Parses, Matches;
  }

  lemma DeniedAtOnce(lx: Lexer, root: Node, tokens: seq<string>, canOperate: bool)
    requires tokens != [] && FindChild(lx, root.children, tokens[0]) < |root.children| && !canOperate
    requires root.children[FindChild(lx, root.children, tokens[0])].requiresOperator
    ensures Walk(lx, [root], tokens, 0, canOperate) == NoPermission
  {
    hide Walk, FindChild, Parses, Matches, Consumed;
    WalkUnfolds(lx, [root], tokens, 0, canOperate);
  }

  lemma ExplainedBy(lx: Lexer, root: Node, tokens: seq<string>, canOperate: bool, path: seq<Node>, cuts: seq<nat>,
                    r: Outcome)
    requires Reads(lx, tokens, path, cuts) && path != [] && cuts != [] && path[0] == root
    requires Explains(lx, tokens, path, cuts, r) && (!ForOperators(lx, root, tokens) || canOperate)
    ensures Explained(lx, root, tokens, canOperate, r)
  {
    hide Reads, Explains, ForOperators;
  }

  // Nobody but an operator runs a command for operators, and an operator is refused none.
  lemma ExplainedPermission(lx: Lexer, root: Node, tokens: seq<string>, canOperate: bool, r: Outcome)
    requires tokens != [] && Explained(lx, root, tokens, canOperate, r)
    ensures canOperate ==> !r.NoPermission?
    ensures r.Runs? && !canOperate ==> |r.path| > 1 && r.path[0] == root && !r.path[1].requiresOperator
  {
    if r.Runs? && !canOperate {
      var path, cuts :| Reads(lx, tokens, path, cuts) && path[0] == root && Explains(lx, tokens, path, cuts, r);
      assert |path| > 1;
      assert Takes(lx, path[0], path[1], tokens, cuts[0], cuts[1]);
      hide Accepts, Matches;
    }
  }
}
