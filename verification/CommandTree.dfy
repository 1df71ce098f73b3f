// The command grammar: building nodes, matching tokens against them, and splitting a line into tokens.
// Reading numbers and positions out of a token is a parameter of the model.
module CommandTree {
  import opened Sequences

  datatype NodeType = Literal | Root | String | GreedyString | Integer | Float | Boolean | Enum | Position

  datatype SuggestionSource = NoSource | Players | Commands | NestedCommand

  // `values` are the values of an enum node.
  datatype Node = Node(ty: NodeType, name: string, values: seq<string>, hasAction: bool, requiresOperator: bool,
                       source: SuggestionSource, children: seq<Node>)

  // Which tokens look like a number or a coordinate, and whether the tokens of a node have a value
  // within its limits.
  datatype Lexer = Lexer(isInt: string -> bool, isFloat: string -> bool, isCoordinate: string -> bool,
                         inRange: (Node, seq<string>) -> bool)

  // ----- building -----

  predicate CatchAll(n: Node) { n.ty.String? || n.ty.GreedyString? }

  // How many children come before the first catch-all.
  function TypedPrefix(cs: seq<Node>): (k: nat)
    ensures k <= |cs| && (forall i :: 0 <= i < k ==> !CatchAll(cs[i])) && (k < |cs| ==> CatchAll(cs[k]))
  {
    if cs == [] || CatchAll(cs[0]) then 0 else 1 + TypedPrefix(cs[1..])
  }

  function Then(n: Node, child: Node): Node
  {
    if CatchAll(child) then n.(children := n.children + [child])
    else
      var k := TypedPrefix(n.children);
      n.(children := n.children[..k] + [child] + n.children[k..])
  }

  predicate CatchAllsLast(cs: seq<Node>) { forall i, j :: 0 <= i < j < |cs| && CatchAll(cs[i]) ==> CatchAll(cs[j]) }

  function Kind(cs: seq<Node>, catchAll: bool): seq<Node>
  {
    if cs == [] then []
    else Kind(cs[..|cs| - 1], catchAll) + if CatchAll(cs[|cs| - 1]) == catchAll then [cs[|cs| - 1]] else []
  }

  lemma {:induction false} KindAppends(a: seq<Node>, b: seq<Node>, catchAll: bool)
    ensures Kind(a + b, catchAll) == Kind(a, catchAll) + Kind(b, catchAll)
    decreases |b|
  {
    if b == [] {
      assert a + b == a;
    } else {
      assert (a + b)[..|a + b| - 1] == a + b[..|b| - 1];
      KindAppends(a, b[..|b| - 1], catchAll);
    }
  }

  // Catch-alls stay last, and each kind keeps the order in which it was added.
  lemma ThenKeepsOrder(n: Node, child: Node)
    requires CatchAllsLast(n.children)
    ensures CatchAllsLast(Then(n, child).children)
    ensures forall catchAll :: Kind(Then(n, child).children, catchAll)
                               == Kind(n.children, catchAll) + if CatchAll(child) == catchAll then [child] else []
  {
    forall catchAll ensures Kind(Then(n, child).children, catchAll) == Kind(n.children, catchAll) +
      if CatchAll(child) == catchAll then [child] else [] {
      ThenAddsToKind(n, child, catchAll);
    }
    hide Kind;
  }

  lemma ThenAddsToKind(n: Node, child: Node, catchAll: bool)
    requires CatchAllsLast(n.children)
    ensures Kind(Then(n, child).children, catchAll) == Kind(n.children, catchAll) +
            if CatchAll(child) == catchAll then [child] else []
  {
    var cs := n.children;
    if CatchAll(child) {
      hide CatchAllsLast, Kind, TypedPrefix;
      KindAppends(cs, [child], catchAll);
      OneKind(child, catchAll);
    } else {
      KindsApart(cs);
      hide CatchAllsLast, Kind, TypedPrefix;
      var k := TypedPrefix(cs);
      InsertBetween(cs[..k], child, cs[k..], catchAll);
    }
  }

  lemma KindsApart(cs: seq<Node>)
    requires CatchAllsLast(cs)
    ensures var k := TypedPrefix(cs);
            Kind(cs[..k], true) == [] && Kind(cs[k..], false) == [] && cs == cs[..k] + cs[k..]
  {
    var k := TypedPrefix(cs);
    hide TypedPrefix;
    AllOfAKind(cs[..k], false);
    AllOfAKind(cs[k..], true);
  }

  lemma InsertBetween(typed: seq<Node>, child: Node, rest: seq<Node>, catchAll: bool)
    requires Kind(typed, true) == [] && Kind(rest, false) == [] && !CatchAll(child)
    ensures Kind(typed + [child] + rest, catchAll) == Kind(typed + rest, catchAll) + if !catchAll then [child] else []
  {
    KindAppends(typed, rest, catchAll);
    KindAppends(typed + [child], rest, catchAll);
    KindAppends(typed, [child], catchAll);
    OneKind(child, catchAll);
    hide Kind;
  }

  lemma OneKind(c: Node, catchAll: bool)
    ensures Kind([c], catchAll) == if CatchAll(c) == catchAll then [c] else []
  {
    assert [c][..0] == [];
  }

  lemma {:induction false} AllOfAKind(cs: seq<Node>, kind: bool)
    requires forall i :: 0 <= i < |cs| ==> CatchAll(cs[i]) == kind
    ensures Kind(cs, !kind) == []
    decreases |cs|
  {
    if cs != [] { AllOfAKind(cs[..|cs| - 1], kind); }
  }

  // ----- matching -----

  predicate Matches(lx: Lexer, n: Node, token: string)
  {
    match n.ty
    case Literal => n.name == token
    case String => true
    case GreedyString => true
    case Integer => lx.isInt(token)
    case Float => lx.isFloat(token)
    case Boolean => token == "true" || token == "false"
    case Enum => token in n.values
    case Position => lx.isCoordinate(token)
    case Root => false
  }

  // The place of the first child that matches, or the number of children.
  function FindChild(lx: Lexer, cs: seq<Node>, token: string): (k: nat)
    ensures k <= |cs| && (forall i :: 0 <= i < k ==> !Matches(lx, cs[i], token))
            && (k < |cs| ==> Matches(lx, cs[k], token))
  {
    if cs == [] || Matches(lx, cs[0], token) then 0 else 1 + FindChild(lx, cs[1..], token)
  }

  // A literal or typed child that matches wins over every catch-all.
  lemma TypedMatchesWin(lx: Lexer, cs: seq<Node>, token: string, i: nat)
    requires CatchAllsLast(cs) && i < |cs| && !CatchAll(cs[i]) && Matches(lx, cs[i], token)
    ensures FindChild(lx, cs, token) < |cs| && !CatchAll(cs[FindChild(lx, cs, token)])
  {
  }

  function Consumed(n: Node, count: nat, index: nat): (c: nat)
    requires index < count
    ensures index + 1 + c <= count
  {
    if n.ty.GreedyString? then count - index - 1
    else if n.ty.Position? && count > index + 2 then 2
    else 0
  }

  // The tokens given to a node have a value.
  predicate Parses(lx: Lexer, n: Node, words: seq<string>)
    requires words != []
  {
    match n.ty
    case Literal => true
    case String => true
    case GreedyString => true
    case Boolean => true
    case Integer => lx.inRange(n, words)
    case Float => lx.inRange(n, words)
    case Position => |words| == 3 && lx.inRange(n, words)
    case Enum => words[0] in n.values
    case Root => false
  }

  method FindMatchingChild(lx: Lexer, parent: Node, token: string) returns (k: nat)
    ensures k == FindChild(lx, parent.children, token)
  {
    k := 0;
    while k < |parent.children|
      invariant 0 <= k <= |parent.children| && forall i :: 0 <= i < k ==> !Matches(lx, parent.children[i], token)
    {
      if Matches(lx, parent.children[k], token) {
        return;
      }
      k := k + 1;
    }
  }

  // ----- tokens -----

  // The non-empty words between spaces.
  function Tokens(s: string): seq<string>
  {
    if s == [] then []
    else
      var front, c := s[..|s| - 1], s[|s| - 1];
      var ts := Tokens(front);
      if c == ' ' then ts
      else if front == [] || front[|front| - 1] == ' ' || ts == [] then ts + [[c]]
      else ts[..|ts| - 1] + [ts[|ts| - 1] + [c]]
  }

  predicate IsWord(w: string) { w != [] && forall i :: 0 <= i < |w| ==> w[i] != ' ' }

  predicate AtWordStart(s: string) { s == [] || s[|s| - 1] == ' ' }

  lemma {:induction false} WordIsOneToken(s: string, w: string)
    requires AtWordStart(s) && IsWord(w)
    ensures Tokens(s + w) == Tokens(s) + [w]
    decreases |w|
  {
    var front, c := w[..|w| - 1], w[|w| - 1];
    assert (s + w)[..|s + w| - 1] == s + front && (s + w)[|s + w| - 1] == c;
    if front == [] {
      assert s + front == s && w == [c];
    } else {
      WordIsOneToken(s, front);
      assert w == front + [c];
    }
  }

  lemma {:induction false} SpacesAreNoToken(s: string, gap: string)
    requires forall i :: 0 <= i < |gap| ==> gap[i] == ' '
    ensures Tokens(s + gap) == Tokens(s)
    decreases |gap|
  {
    if gap == [] {
      assert s + gap == s;
    } else {
      assert (s + gap)[..|s + gap| - 1] == s + gap[..|gap| - 1];
      SpacesAreNoToken(s, gap[..|gap| - 1]);
    }
  }

  lemma PartIsToken(line: string, start: nat, pos: nat)
    requires start <= pos <= |line| && AtWordStart(line[..start]) && forall i :: start <= i < pos ==> line[i] != ' '
    ensures Tokens(line[..pos]) == Tokens(line[..start]) + if start < pos then [line[start..pos]] else []
    ensures pos < |line| && line[pos] == ' ' ==> Tokens(line[..pos + 1]) == Tokens(line[..pos])
  {
    hide *;
    assert line[..pos] == line[..start] + line[start..pos];
    if start < pos {
      PartIsWord(line, start, pos);
      WordIsOneToken(line[..start], line[start..pos]);
    } else {
      assert line[..start] + [] == line[..pos];
      assert Tokens(line[..start]) + [] == Tokens(line[..pos]);
    }
    if pos < |line| && line[pos] == ' ' {
      assert line[..pos + 1] == line[..pos] + [' '];
      SpacesAreNoToken(line[..pos], [' ']);
    }
  }

  lemma PartIsWord(line: string, start: nat, pos: nat)
    requires start < pos <= |line| && forall i :: start <= i < pos ==> line[i] != ' '
    ensures IsWord(line[start..pos])
  {
  }

  lemma EmptyLine()
    ensures Tokens([]) == []
  {
  }

  // tokenize: split at every space and keep the parts that are not empty.
  method Tokenize(line: string) returns (tokens: seq<string>)
    ensures tokens == Tokens(line)
  {
    tokens := [];
    var pos, start := 0, 0;
    hide Tokens;
    assert Tokens(line[..0]) == [] by { EmptyLine(); }
    while pos < |line|
      invariant 0 <= start <= pos <= |line| && AtWordStart(line[..start]) && tokens == Tokens(line[..start])
      invariant forall i :: start <= i < pos ==> line[i] != ' '
    {
      if line[pos] == ' ' {
        PartIsToken(line, start, pos);
        if start < pos {
          tokens := tokens + [line[start..pos]];
        }
        start := pos + 1;
      }
      pos := pos + 1;
    }
    PartIsToken(line, start, pos);
    if start < pos {
      tokens := tokens + [line[start..pos]];
    }
    assert line[..pos] == line;
  }
}
