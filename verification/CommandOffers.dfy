// Which suggestions are made, exactly: what each child of the node reached has to offer, who is offered it,
// and where the list ends.
module CommandOffers {
  import opened Sequences
  import opened CommandTree
  import opened CommandExecution
  import opened CommandSuggestions

  // What a child offers: a literal its name, an enumeration its values, a switch both of its values; and, but
  // for a literal, the names of the players or of the commands that may be run, as its source says.
  predicate Offers(ctx: Context, child: Node, text: string)
  {
    if child.ty.Literal? then text == child.name
    else
      || (child.ty.Enum? && text in child.values)
      || (child.ty.Boolean? && (text == "true" || text == "false"))
      || (child.source.Players? && text in ctx.players)
      || (child.source.Commands? && NamesCommand(ctx, ctx.root.children, text))
  }

  predicate NamesCommand(ctx: Context, cs: seq<Node>, text: string)
  {
    exists i :: 0 <= i < |cs| && cs[i].name == text && (!cs[i].requiresOperator || ctx.canOperate)
  }

  // Child i is looked at: it is no command for operators only offered to somebody else, and no such child
  // before it is typed and matches what stands in the line already.
  predicate LookedAt(ctx: Context, cs: seq<Node>, first: bool, prefix: string, i: int)
  {
    && 0 <= i < |cs| && !(first && cs[i].requiresOperator && !ctx.canOperate)
    && forall j :: 0 <= j < i ==>
         || (first && cs[j].requiresOperator && !ctx.canOperate)
         || prefix == [] || CatchAll(cs[j]) || !Matches(ctx.lx, cs[j], prefix)
  }

  // The suggestion comes from that child, or from a nested command under it.
  predicate MadeBy(ctx: Context, child: Node, prefix: string, start: nat, depth: Depth, s: Suggestion)
  {
    || (s.start == start && prefix <= s.text && Offers(ctx, child, s.text))
    || (child.ty.GreedyString? && child.source.NestedCommand? && depth < MAX_DEPTH
        && s in NestedSuggestions(ctx, [], prefix, start, depth + 1))
  }

  lemma {:induction false} CandidatesExactly(values: seq<string>, prefix: string, start: nat, s: Suggestion)
    ensures s in Candidates(values, prefix, start) <==> s.start == start && prefix <= s.text && s.text in values
    decreases |values|
  {
    if values != [] {
      CandidatesExactly(values[..|values| - 1], prefix, start, s);
      assert values == values[..|values| - 1] + [values[|values| - 1]];
    }
  }

  lemma {:induction false} CommandNamesExactly(ctx: Context, cs: seq<Node>, text: string)
    ensures text in CommandNames(ctx, cs) <==> NamesCommand(ctx, cs, text)
    decreases |cs|
  {
    if cs != [] {
      var front, last := cs[..|cs| - 1], cs[|cs| - 1];
      CommandNamesExactly(ctx, front, text);
      if NamesCommand(ctx, front, text) {
        var i :| 0 <= i < |front| && front[i].name == text && (!front[i].requiresOperator || ctx.canOperate);
        assert cs[i] == front[i];
      }
      if NamesCommand(ctx, cs, text) && !(last.name == text && (!last.requiresOperator || ctx.canOperate)) {
        var i :| 0 <= i < |cs| && cs[i].name == text && (!cs[i].requiresOperator || ctx.canOperate);
        assert front[i] == cs[i];
      }
    }
  }

  lemma ChildExactly(ctx: Context, child: Node, prefix: string, start: nat, depth: Depth, s: Suggestion)
    ensures s in ChildSuggestions(ctx, child, prefix, start, depth) <==> MadeBy(ctx, child, prefix, start, depth, s)
  {
    CandidatesExactly([child.name], prefix, start, s);
    CandidatesExactly(OwnValues(child), prefix, start, s);
    CandidatesExactly(SourceValues(ctx, child), prefix, start, s);
    CommandNamesExactly(ctx, ctx.root.children, s.text);
    hide Candidates, CommandNames, NestedSuggestions, NamesCommand;
  }

  lemma {:induction false} ListExactly(ctx: Context, cs: seq<Node>, first: bool, prefix: string, start: nat,
                                       depth: Depth, s: Suggestion)
    ensures s in ListSuggestions(ctx, cs, first, prefix, start, depth) <==>
            exists i :: LookedAt(ctx, cs, first, prefix, i) && MadeBy(ctx, cs[i], prefix, start, depth, s)
    decreases |cs|
  {
    if cs != [] {
      ListExactly(ctx, cs[1..], first, prefix, start, depth, s);
      ChildExactly(ctx, cs[0], prefix, start, depth, s);
      LookedAtRest(ctx, cs, first, prefix);
      hide ChildSuggestions, MadeBy, LookedAt, Matches;
      forall i | LookedAt(ctx, cs, first, prefix, i) && i > 0 ensures cs[1..][i - 1] == cs[i] {
      }
    }
  }

  lemma LookedAtRest(ctx: Context, cs: seq<Node>, first: bool, prefix: string)
    requires cs != []
    ensures LookedAt(ctx, cs, first, prefix, 0) <==> !Denied(ctx, cs[0], first)
    ensures forall i :: LookedAt(ctx, cs, first, prefix, i) && i > 0 ==>
              LookedAt(ctx, cs[1..], first, prefix, i - 1) && (Denied(ctx, cs[0], first) || !Exact(ctx, cs[0], prefix))
    ensures forall i :: LookedAt(ctx, cs[1..], first, prefix, i) ==> 0 <= i < |cs| - 1 && cs[1..][i] == cs[i + 1]
    ensures Denied(ctx, cs[0], first) || !Exact(ctx, cs[0], prefix) ==>
              forall i :: LookedAt(ctx, cs[1..], first, prefix, i) ==> LookedAt(ctx, cs, first, prefix, i + 1)
  {
    hide Matches;
  }

  // Where the finished tokens lead to a node, a suggestion is made if and only if a child of that node that
  // is looked at makes it.
  lemma SuggestionsExactly(ctx: Context, tokens: seq<string>, prefix: string, start: nat, depth: Depth, s: Suggestion)
    requires Descend(ctx, ctx.root, tokens, 0).Reached?
    ensures s in SuggestionsAt(ctx, tokens, prefix, start, depth) <==>
            var cs := Descend(ctx, ctx.root, tokens, 0).node.children;
            exists i :: LookedAt(ctx, cs, tokens == [], prefix, i) && MadeBy(ctx, cs[i], prefix, start, depth, s)
  {
    ListExactly(ctx, Descend(ctx, ctx.root, tokens, 0).node.children, tokens == [], prefix, start, depth, s);
    hide ListSuggestions, MadeBy, LookedAt;
  }

  // ----- the node reached -----

  lemma TakesIsTaken(lx: Lexer, parent: Node, child: Node, tokens: seq<string>, i: nat, j: nat)
    requires Takes(lx, parent, child, tokens, i, j)
    ensures TakenBy(lx, parent, tokens, i) == Some(child) && GroupEnd(child, tokens, i) == j
  {
    var k :| FirstMatch(lx, parent.children, tokens[i], k) && parent.children[k] == child;
    assert FindChild(lx, parent.children, tokens[i]) == k;
    hide FindChild;
    var words := tokens[i..j];
    assert words[0] == tokens[i];
  }

  // A step over the finished tokens is a group that execute would take, unless a nested command begins with
  // it or it names a command that may not be run.
  lemma DescendTakes(ctx: Context, current: Node, tokens: seq<string>, index: nat)
    requires index < |tokens|
    ensures var d, taken := Descend(ctx, current, tokens, index), TakenBy(ctx.lx, current, tokens, index);
            if taken.None? || (index == 0 && taken.value.requiresOperator && !ctx.canOperate)
               || (taken.value.ty.GreedyString? && taken.value.source.NestedCommand?) then !d.Reached?
            else d == Descend(ctx, taken.value, tokens, GroupEnd(taken.value, tokens, index))
  {
    MoveTakes(ctx, current, tokens, index);
    hide NextMove, TakenBy;
  }

  lemma MoveTakes(ctx: Context, current: Node, tokens: seq<string>, index: nat)
    requires index < |tokens|
    ensures var m, taken := NextMove(ctx, current, tokens, index), TakenBy(ctx.lx, current, tokens, index);
            if taken.None? || (index == 0 && taken.value.requiresOperator && !ctx.canOperate)
               || (taken.value.ty.GreedyString? && taken.value.source.NestedCommand?) then !m.Into?
            else m == Into(taken.value, GroupEnd(taken.value, tokens, index))
  {
    if FindChild(ctx.lx, current.children, tokens[index]) < |current.children| {
      var child := current.children[FindChild(ctx.lx, current.children, tokens[index])];
      ShortPositions(ctx.lx, child, tokens, index);
    }
    hide FindChild, Parses, Consumed, Matches;
  }

  lemma ShortPositions(lx: Lexer, child: Node, tokens: seq<string>, index: nat)
    requires index < |tokens|
    ensures var group := tokens[index..index + 1 + Consumed(child, |tokens|, index)];
            && (child.ty.Position? && Consumed(child, |tokens|, index) != 2 ==> !Parses(lx, child, group))
            && (child.ty.GreedyString? ==> Parses(lx, child, group))
  {
  }

  // The nodes read the finished tokens, and none of them starts a nested command.
  ghost predicate Leads(ctx: Context, tokens: seq<string>, path: seq<Node>, cuts: seq<nat>)
  {
    && Reads(ctx.lx, tokens, path, cuts) && path[0] == ctx.root && cuts[|cuts| - 1] == |tokens|
    && (forall n :: 0 < n < |path| ==> !(path[n].ty.GreedyString? && path[n].source.NestedCommand?))
    && (|path| > 1 && path[1].requiresOperator ==> ctx.canOperate)
  }

  lemma {:induction false} LeadsThere(ctx: Context, tokens: seq<string>, path: seq<Node>, cuts: seq<nat>, n: nat)
    requires Leads(ctx, tokens, path, cuts) && n < |path|
    ensures cuts[n] <= |tokens| && (n > 0 ==> cuts[n] > 0)
    ensures Descend(ctx, path[n], tokens, cuts[n]) == Reached(path[|path| - 1], |tokens|)
    decreases |path| - n
  {
    if n + 1 < |path| {
      LeadsThere(ctx, tokens, path, cuts, n + 1);
      assert Takes(ctx.lx, path[n + 1 - 1], path[n + 1], tokens, cuts[n + 1 - 1], cuts[n + 1]);
      hide Takes, Descend, Consumed;
      TakesIsTaken(ctx.lx, path[n], path[n + 1], tokens, cuts[n], cuts[n + 1]);
      DescendTakes(ctx, path[n], tokens, cuts[n]);
    }
    if n > 0 { assert Takes(ctx.lx, path[n - 1], path[n], tokens, cuts[n - 1], cuts[n]); }
  }

  // What has been read so far, on the way to a node that is reached.
  ghost predicate OnTheWay(ctx: Context, tokens: seq<string>, path: seq<Node>, cuts: seq<nat>)
  {
    && Reads(ctx.lx, tokens, path, cuts) && path[0] == ctx.root && cuts[|cuts| - 1] <= |tokens|
    && (forall n :: 0 < n < |path| ==> !(path[n].ty.GreedyString? && path[n].source.NestedCommand?))
    && (|path| > 1 && path[1].requiresOperator ==> ctx.canOperate)
    && (|path| == 1 <==> cuts[|cuts| - 1] == 0)
  }

  lemma {:induction false} ReachedBy(ctx: Context, tokens: seq<string>, path: seq<Node>, cuts: seq<nat>)
    returns (more: seq<Node>, ends: seq<nat>)
    requires OnTheWay(ctx, tokens, path, cuts)
    requires Descend(ctx, path[|path| - 1], tokens, cuts[|cuts| - 1]).Reached?
    ensures Leads(ctx, tokens, more, ends)
    decreases |tokens| - cuts[|cuts| - 1]
  {
    more, ends := path, cuts;
    var current, index := path[|path| - 1], cuts[|cuts| - 1];
    if index < |tokens| {
      hide Descend, Reads, Takes;
      DescendTakes(ctx, current, tokens, index);
      var child := TakenBy(ctx.lx, current, tokens, index).value;
      var next := GroupEnd(child, tokens, index);
      TakenTakes(ctx.lx, current, tokens, index);
      ReadsOneMore(ctx.lx, tokens, path, cuts, child, next);
      more, ends := ReachedBy(ctx, tokens, path + [child], cuts + [next]);
    }
  }

  lemma TakenTakes(lx: Lexer, parent: Node, tokens: seq<string>, index: nat)
    requires index < |tokens| && TakenBy(lx, parent, tokens, index).Some?
    ensures var child := TakenBy(lx, parent, tokens, index).value;
            Takes(lx, parent, child, tokens, index, GroupEnd(child, tokens, index))
  {
    hide FindChild, Parses, Consumed, Matches, Takes;
    TakesNext(lx, parent, tokens, index);
  }

  // Suggestions are made for the node to which the finished tokens lead, read as execute reads them; there
  // is one exactly when they can be read to the end, by somebody who may run the command, with no nested
  // command in between.
  lemma ReachedExactly(ctx: Context, tokens: seq<string>)
    ensures var d := Descend(ctx, ctx.root, tokens, 0);
            && (d.Reached? <==> exists path, cuts :: Leads(ctx, tokens, path, cuts))
            && forall path, cuts :: Leads(ctx, tokens, path, cuts) ==> d == Reached(path[|path| - 1], |tokens|)
  {
    forall path, cuts | Leads(ctx, tokens, path, cuts)
      ensures Descend(ctx, ctx.root, tokens, 0) == Reached(path[|path| - 1], |tokens|)
    {
      LeadsThere(ctx, tokens, path, cuts, 0);
    }
    hide Descend;
    if Descend(ctx, ctx.root, tokens, 0).Reached? {
      var path, cuts := ReachedBy(ctx, tokens, [ctx.root], [0]);
    }
  }

  // ----- nested commands -----

  // A nested command is suggested for like a line of its own: with the slash taken off the token typed, or
  // off its first finished token, which goes if nothing is left of it.
  lemma NestedStartsAgain(ctx: Context, tokens: seq<string>, word: string, rest: seq<string>, prefix: string,
                          start: nat, depth: Depth)
    ensures NestedSuggestions(ctx, tokens, ['/'] + prefix, start, depth)
            == SuggestionsAt(ctx, tokens, prefix, start + 1, depth)
    ensures prefix == [] || prefix[0] != '/' ==>
              && NestedSuggestions(ctx, [], prefix, start, depth) == SuggestionsAt(ctx, [], prefix, start, depth)
              && NestedSuggestions(ctx, [['/'] + word] + rest, prefix, start, depth)
                 == SuggestionsAt(ctx, if word == [] then rest else [word] + rest, prefix, start, depth)
              && (word == [] || word[0] != '/' ==>
                    NestedSuggestions(ctx, [word] + rest, prefix, start, depth)
                    == SuggestionsAt(ctx, [word] + rest, prefix, start, depth))
  {
    assert (['/'] + prefix)[1..] == prefix && (['/'] + word)[1..] == word;
    assert ([['/'] + word] + rest)[1..] == rest;
    hide SuggestionsAt;
  }
}
