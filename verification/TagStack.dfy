/** The tag check of packages/parser/src/ooxml-relationships.ts, over the tokens of a document. */
module TagStack {

  /**
   What the check sees of a token: comments, processing instructions and CDATA are skipped, and a tag is malformed when
   no name can be read from it.
   */
  datatype Token = Skipped | Open(name: string) | Close(name: string) | SelfClosing(name: string) | Malformed

  /** A document: nodes side by side, with elements inside elements. */
  datatype Node = Ignored | Leaf(name: string) | Element(name: string, children: seq<Node>)

  function TokensOfNode(node: Node): seq<Token>
    decreases node
  {
    match node
    case Ignored => [Skipped]
    case Leaf(name) => [SelfClosing(name)]
    case Element(name, children) => [Open(name)] + (Tokens(children) + [Close(name)])
  }

  function Tokens(forest: seq<Node>): seq<Token>
    decreases forest
  {
    if forest == [] then [] else TokensOfNode(forest[0]) + Tokens(forest[1..])
  }

  ghost predicate Balanced(tokens: seq<Token>) {
    exists forest :: Tokens(forest) == tokens
  }

  // ------------------------------------------------------------- the machine

  /** Whether the rest of the tokens closes everything on the stack; the top is last. */
  predicate Closes(tokens: seq<Token>, stack: seq<string>) {
    if tokens == [] then stack == []
    else
      match tokens[0]
      case Skipped => Closes(tokens[1..], stack)
      case SelfClosing(_) => Closes(tokens[1..], stack)
      case Open(name) => Closes(tokens[1..], stack + [name])
      case Close(name) => stack != [] && stack[|stack| - 1] == name && Closes(tokens[1..], stack[..|stack| - 1])
      case Malformed => false
  }

  /** The forests around the tags that close the stack, joined. */
  function Unwound(forests: seq<seq<Node>>, stack: seq<string>): seq<Token>
    requires |forests| == |stack| + 1
    decreases stack
  {
    if stack == [] then Tokens(forests[0])
    else Tokens(forests[0]) + ([Close(stack[|stack| - 1])] + Unwound(forests[1..], stack[..|stack| - 1]))
  }

  /** Tokens in front of the first forest may become a part of it. */
  lemma {:induction false} UnwoundInFront(front: seq<Node>, forests: seq<seq<Node>>, stack: seq<string>)
    requires |forests| == |stack| + 1
    ensures Unwound([front + forests[0]] + forests[1..], stack) == Tokens(front) + Unwound(forests, stack)
  {
    hide Tokens;
    var joined := [front + forests[0]] + forests[1..];
    TokensAppend(front, forests[0]);
    assert joined[0] == front + forests[0] && joined[1..] == forests[1..];
    if stack != [] {
      var tail := [Close(stack[|stack| - 1])] + Unwound(forests[1..], stack[..|stack| - 1]);
      assert Unwound(forests, stack) == Tokens(forests[0]) + tail;
      assert Unwound(joined, stack) == (Tokens(front) + Tokens(forests[0])) + tail;
    }
  }

  lemma {:induction false} TokensAppend(a: seq<Node>, b: seq<Node>)
    ensures Tokens(a + b) == Tokens(a) + Tokens(b)
  {
    if a == [] {
      assert a + b == b;
    } else {
      assert (a + b)[0] == a[0] && (a + b)[1..] == a[1..] + b;
      TokensAppend(a[1..], b);
    }
  }

  lemma {:induction false} OneNode(node: Node)
    ensures Tokens([node]) == TokensOfNode(node)
  {
    assert [node][1..] == [];
  }

  /**
   An accepted rest is a sequence of forests, each but the last followed by the tag that closes the top of the stack.
   */
  lemma {:induction false} ClosesUnwinds(tokens: seq<Token>, stack: seq<string>) returns (forests: seq<seq<Node>>)
    requires Closes(tokens, stack)
    ensures |forests| == |stack| + 1 && Unwound(forests, stack) == tokens
    decreases |tokens|, 0
  {
    if tokens == [] {
      return [[]];
    }
    assert tokens == [tokens[0]] + tokens[1..];
    match tokens[0]
    case Skipped =>
      forests := InFront(Ignored, tokens[1..], stack);
    case SelfClosing(name) =>
      forests := InFront(Leaf(name), tokens[1..], stack);
    case Open(name) =>
      var inner := ClosesUnwinds(tokens[1..], stack + [name]);
      forests := Enclose(name, inner, stack);
    case Close(name) =>
      var outer := ClosesUnwinds(tokens[1..], stack[..|stack| - 1]);
      forests := [[]] + outer;
      assert forests[1..] == outer;
  }

  lemma {:induction false} InFront(node: Node, tokens: seq<Token>, stack: seq<string>) returns (forests: seq<seq<Node>>)
    requires Closes(tokens, stack)
    ensures |forests| == |stack| + 1 && Unwound(forests, stack) == TokensOfNode(node) + tokens
    decreases |tokens|, 1
  {
    var rest := ClosesUnwinds(tokens, stack);
    forests := [[node] + rest[0]] + rest[1..];
    UnwoundInFront([node], rest, stack);
    OneNode(node);
  }

  /** What stands before the closing tag of a name becomes its children. */
  lemma Enclose(name: string, inner: seq<seq<Node>>, stack: seq<string>) returns (forests: seq<seq<Node>>)
    requires |inner| == |stack| + 2
    ensures |forests| == |stack| + 1 && Unwound(forests, stack) == [Open(name)] + Unwound(inner, stack + [name])
  {
    var node := Element(name, inner[0]);
    var rest := inner[1..];
    forests := [[node] + rest[0]] + rest[1..];
    UnwoundInFront([node], rest, stack);
    OneNode(node);
    assert (stack + [name])[..|stack|] == stack;
    assert Unwound(inner, stack + [name]) == Tokens(inner[0]) + ([Close(name)] + Unwound(rest, stack));
  }

  /** A forest leaves the stack as it was. */
  lemma {:induction false} ForestIsNeutral(forest: seq<Node>, rest: seq<Token>, stack: seq<string>)
    ensures Closes(Tokens(forest) + rest, stack) == Closes(rest, stack)
    decreases forest
  {
    if forest == [] {
      assert Tokens(forest) + rest == rest;
    } else {
      var more := Tokens(forest[1..]) + rest;
      assert Tokens(forest) + rest == TokensOfNode(forest[0]) + more;
      NodeIsNeutral(forest[0], more, stack);
      ForestIsNeutral(forest[1..], rest, stack);
    }
  }

  lemma {:induction false} NodeIsNeutral(node: Node, rest: seq<Token>, stack: seq<string>)
    ensures Closes(TokensOfNode(node) + rest, stack) == Closes(rest, stack)
    decreases node
  {
    var tokens := TokensOfNode(node) + rest;
    match node
    case Ignored =>
      assert tokens[1..] == rest;
    case Leaf(name) =>
      assert tokens[1..] == rest;
    case Element(name, children) =>
      var after := [Close(name)] + rest;
      assert tokens[1..] == Tokens(children) + after;
      ForestIsNeutral(children, after, stack + [name]);
      assert after[1..] == rest && (stack + [name])[..|stack|] == stack;
  }

  /** The machine accepts exactly the tokens of documents. */
  lemma {:induction false} ClosesIffBalanced(tokens: seq<Token>)
    ensures Closes(tokens, []) <==> Balanced(tokens)
  {
    if Closes(tokens, []) {
      var forests := ClosesUnwinds(tokens, []);
      assert Tokens(forests[0]) == tokens;
    }
    if Balanced(tokens) {
      var forest :| Tokens(forest) == tokens;
      ForestIsNeutral(forest, [], []);
      assert tokens + [] == tokens;
    }
  }

  /** The check itself: it passes exactly when there is a token and the tokens are those of a document. */
  method AssertWellFormedTags(tokens: seq<Token>) returns (wellFormed: bool)
    ensures wellFormed <==> tokens != [] && Balanced(tokens)
  {
    ClosesIffBalanced(tokens);
    if tokens == [] {
      return false;
    }
    var stack: seq<string> := [];
    assert tokens[0..] == tokens;
    for i := 0 to |tokens|
      invariant Closes(tokens, []) == Closes(tokens[i..], stack)
    {
      var token := tokens[i];
      assert tokens[i..][1..] == tokens[i + 1..];
      match token
      case Skipped =>
      case SelfClosing(_) =>
      case Close(name) =>
        if stack == [] || stack[|stack| - 1] != name {
          return false;
        }
        stack := stack[..|stack| - 1];
      case Open(name) =>
        stack := stack + [name];
      case Malformed =>
        return false;
    }
    return stack == [];
  }
}
