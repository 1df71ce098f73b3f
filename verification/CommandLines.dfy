// Suggestions for a line of input: where the command begins, what is being typed, and what a suggestion
// makes of the line.
module CommandLines {
  import opened Sequences
  import opened CommandTree
  import opened CommandExecution
  import opened CommandSuggestions

  function SkipSpaces(s: string, i: nat): (j: nat)
    requires i <= |s|
    ensures i <= j <= |s|
    decreases |s| - i
  {
    if i < |s| && s[i] == ' ' then SkipSpaces(s, i + 1) else i
  }

  // Where the command begins: after spaces, and after a slash and more spaces if there is one.
  function Base(s: string): (b: nat)
    ensures b <= |s|
  {
    var b := SkipSpaces(s, 0);
    if b < |s| && s[b] == '/' then SkipSpaces(s, b + 1) else b
  }

  predicate Spaces(s: string, i: int, j: int) { forall k :: i <= k < j && 0 <= k < |s| ==> s[k] == ' ' }

  // Spaces up to a; from there a slash and spaces up to b, or no slash and b itself.
  predicate BeginsAt(s: string, a: int, b: int)
  {
    && 0 <= a <= b <= |s| && Spaces(s, 0, a)
    && if a < b then s[a] == '/' && Spaces(s, a + 1, b) else a < |s| ==> s[a] != '/'
  }

  // The command begins at the first character that is not a space, after a slash if that is one, and after
  // the spaces that follow the slash.
  lemma BaseExactly(s: string)
    ensures var b := Base(s); (b < |s| ==> s[b] != ' ') && exists a :: BeginsAt(s, a, b)
  {
    var a := SkipSpaces(s, 0);
    SkipsSpaces(s, 0);
    if a < |s| { SkipsSpaces(s, a + 1); }
    hide SkipSpaces;
    assert BeginsAt(s, a, Base(s));
  }

  lemma {:induction false} SkipsSpaces(s: string, i: nat)
    requires i <= |s|
    ensures var j := SkipSpaces(s, i); (j < |s| ==> s[j] != ' ') && Spaces(s, i, j)
    decreases |s| - i
  {
    if i < |s| && s[i] == ' ' { SkipsSpaces(s, i + 1); }
  }

  // The token being typed, if the command does not end in a space.
  function Typed(command: string): string
  {
    var ts := Tokens(command);
    if command != [] && command[|command| - 1] != ' ' && ts != [] then ts[|ts| - 1] else []
  }

  function Finished(command: string): seq<string>
  {
    var ts := Tokens(command);
    if command != [] && command[|command| - 1] != ' ' && ts != [] then ts[..|ts| - 1] else ts
  }

  // What is typed ends the line, and the finished tokens come before it.
  lemma {:induction false} TypedEndsTheLine(command: string)
    ensures var typed := Typed(command);
            && |typed| <= |command| && command[|command| - |typed|..] == typed
            && AtWordStart(command[..|command| - |typed|])
            && Tokens(command[..|command| - |typed|]) == Finished(command)
  {
    var start := WordStart(command);
    var word := command[start..];
    assert command == command[..start] + word;
    if word != [] {
      WordIsOneToken(command[..start], word);
    } else {
      assert command[..start] == command;
    }
  }

  lemma {:induction false} WordStart(s: string) returns (start: nat)
    ensures start <= |s| && AtWordStart(s[..start]) && forall i :: start <= i < |s| ==> s[i] != ' '
    decreases |s|
  {
    if AtWordStart(s) {
      start := |s|;
      assert s[..start] == s;
    } else {
      start := WordStart(s[..|s| - 1]);
      assert s[..|s| - 1][..start] == s[..start];
    }
  }

  // An unfinished line as suggest sees it.
  datatype Unfinished = Unfinished(tokens: seq<string>, prefix: string, start: nat)

  function ReadLine(input: string): Unfinished
  {
    var command := input[Base(input)..];
    var typed := Typed(command);
    Unfinished(Finished(command), typed, if |typed| <= |input| then |input| - |typed| else 0)
  }

  // The line is what comes before, then what is typed.
  lemma ReadLineSplits(input: string)
    ensures var u := ReadLine(input);
            && Base(input) <= u.start <= |input| && input[u.start..] == u.prefix
            && AtWordStart(input[Base(input)..u.start]) && Tokens(input[Base(input)..u.start]) == u.tokens
  {
    hide *;
    var base := Base(input);
    var command := input[base..];
    TypedEndsTheLine(command);
    ReadLineIs(input);
    SplitTail(input, base, |Typed(command)|);
  }

  lemma ReadLineIs(input: string)
    ensures var command := input[Base(input)..];
            |Typed(command)| <= |input| ==>
              ReadLine(input) == Unfinished(Finished(command), Typed(command), |input| - |Typed(command)|)
  {
    hide Typed, Finished, Base;
  }

  lemma SplitTail(input: string, base: nat, k: nat)
    requires base + k <= |input|
    ensures input[base..|input| - k] == input[base..][..|input| - base - k]
    ensures input[|input| - k..] == input[base..][|input| - base - k..]
  {
  }

  // Everything suggest offers extends what stands in the line from where the offer starts.
  method Suggest(ctx: Context, input: string) returns (output: seq<Suggestion>)
    ensures var u := ReadLine(input); output == SuggestionsAt(ctx, u.tokens, u.prefix, u.start, 0)
    ensures AllExtend(input, output)
  {
    hide Tokens, Typed, Finished, Base, SuggestionsAt, AllExtend, ReadLine, AtWordStart;
    ReadLineSplits(input);
    ReadLineIs(input);
    TypedEndsTheLine(input[Base(input)..]);
    var base := FindBase(input);
    var tokens, prefix := SplitCommand(input[base..]);
    var start := |input| - |prefix|;
    output := SuggestAt(ctx, tokens, prefix, start, 0);
    SuggestionsExtend(input, ctx, tokens, prefix, start, 0);
  }

  method SplitCommand(command: string) returns (finished: seq<string>, prefix: string)
    ensures finished == Finished(command) && prefix == Typed(command)
  {
    finished := Tokenize(command);
    prefix := [];
    hide Tokens;
    if command != [] && command[|command| - 1] != ' ' && finished != [] {
      prefix := finished[|finished| - 1];
      finished := finished[..|finished| - 1];
    }
  }

  method FindBase(input: string) returns (base: nat)
    ensures base == Base(input)
  {
    base := PastSpaces(input, 0);
    if base < |input| && input[base] == '/' {
      base := PastSpaces(input, base + 1);
    }
  }

  method PastSpaces(s: string, i: nat) returns (j: nat)
    requires i <= |s|
    ensures j == SkipSpaces(s, i)
  {
    j := i;
    while j < |s| && s[j] == ' '
      invariant i <= j <= |s| && SkipSpaces(s, j) == SkipSpaces(s, i)
    {
      j := j + 1;
    }
  }

  // The main agreement, on lines: put a direct suggestion that is one word in place of what was typed,
  // and execute understands the command up to and including it, if and only if some child of the node
  // reached matches the word.
  lemma CompletedLineIsUnderstood(ctx: Context, input: string, s: Suggestion)
    requires GreedyAreLeaves(ctx.root) && IsWord(s.text)
    requires var u := ReadLine(input); s in Direct(ctx, u.tokens, u.prefix, u.start)
    ensures Base(input) <= s.start <= |input|
    ensures var tokens := Tokens(input[Base(input)..s.start] + s.text);
            && tokens == ReadLine(input).tokens + [s.text]
            && (Understood(Walk(ctx.lx, [ctx.root], tokens, 0, ctx.canOperate), |tokens| - 1)
                <==> SomeMatch(ctx.lx, OfferedAmong(ctx, ReadLine(input).tokens), s.text))
  {
    var u := ReadLine(input);
    ReadLineSplits(input);
    hide *;
    DirectStart(ctx, u.tokens, u.prefix, u.start, s);
    WordIsOneToken(input[Base(input)..u.start], s.text);
    SuggestionIsUnderstoodExactly(ctx, u.tokens, u.prefix, u.start, s);
  }

  lemma DirectStart(ctx: Context, tokens: seq<string>, prefix: string, start: nat, s: Suggestion)
    requires s in Direct(ctx, tokens, prefix, start)
    ensures s.start == start
  {
    var d := Descend(ctx, ctx.root, tokens, 0);
    ListStart(ctx, d.node.children, d.index == 0, prefix, start, s);
  }

  lemma {:induction false} ListStart(ctx: Context, cs: seq<Node>,
      first: bool, prefix: string, start: nat, s: Suggestion)
    requires s in ListSuggestions(ctx, cs, first, prefix, start, MAX_DEPTH)
    ensures s.start == start
    decreases |cs|
  {
    if s in ListSuggestions(ctx, cs[1..], first, prefix, start, MAX_DEPTH) {
      ListStart(ctx, cs[1..], first, prefix, start, s);
    } else {
      CandidatesStart([cs[0].name], prefix, start);
      CandidatesStart(OwnValues(cs[0]), prefix, start);
      CandidatesStart(SourceValues(ctx, cs[0]), prefix, start);
      hide Candidates;
    }
  }

  lemma {:induction false} CandidatesStart(values: seq<string>, prefix: string, start: nat)
    ensures forall s :: s in Candidates(values, prefix, start) ==> s.start == start
    decreases |values|
  {
    if values != [] { CandidatesStart(values[..|values| - 1], prefix, start); }
  }
}
