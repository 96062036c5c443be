// The permission expressions of commands (internal/policy/permission.go): the tokenizer, the
// recursive-descent evaluator, and the grammar its comment documents.
module Permission {
  import opened Prelude
  import opened Strings

  /** One decoded unit of the text: a character, or a byte that is not valid UTF-8. */
  datatype Unit = Rune(c: char) | BadByte

  type Text = seq<Unit>

  datatype Facts = Facts(isOwner: bool, isAdmin: bool, botIsAdmin: bool, isGroup: bool, isPrivate: bool, fromMe: bool)

  datatype Token = Atom(name: string) | And | Or | Not | Open | Close | End

  // ---- Characters ------------------------------------------------------------

  predicate IsStart(c: char) {
    c == '_' || 'a' <= c <= 'z' || 'A' <= c <= 'Z'
  }

  predicate IsPart(c: char) {
    IsStart(c) || '0' <= c <= '9' || c == '-'
  }

  /** strings.ToLower, on the ASCII identifiers it is applied to. */
  function LowerChar(c: char): char {
    if 'A' <= c <= 'Z' then c - 'A' + 'a' else c
  }

  function Lower(s: string): (r: string)
    ensures |r| == |s|
  {
    seq(|s|, i requires 0 <= i < |s| => LowerChar(s[i]))
  }

  // ---- Tokens ------------------------------------------------------------------

  function Word(name: string): Token {
    if Lower(name) == "and" then And else if Lower(name) == "or" then Or else Atom(name)
  }

  /** Where the identifier that reaches to position i ends, or nothing if it runs into a bad byte. */
  function WordEnd(text: Text, i: nat): (r: Option<nat>)
    requires i <= |text|
    ensures r.Some? ==> i <= r.value <= |text| && forall k | i <= k < r.value :: text[k].Rune? && IsPart(text[k].c)
    decreases |text| - i
  {
    if i == |text| then Some(i)
    else if text[i].BadByte? then None
    else if IsPart(text[i].c) then WordEnd(text, i + 1)
    else Some(i)
  }

  function Characters(text: Text): (s: string)
    requires forall k | 0 <= k < |text| :: text[k].Rune?
    ensures |s| == |text| && forall k | 0 <= k < |text| :: s[k] == text[k].c
  {
    seq(|text|, i requires 0 <= i < |text| => text[i].c)
  }

  /** The tokens of the text from position i on. */
  function Tokens(text: Text, i: nat): (r: Option<seq<Token>>)
    requires i <= |text|
    decreases |text| - i
  {
    if i == |text| then Some([End])
    else if text[i].BadByte? then None
    else
      var c := text[i].c;
      if IsSpace(c) then Tokens(text, i + 1)
      else if c == '!' then Prefixed(Not, Tokens(text, i + 1))
      else if c == '(' then Prefixed(Open, Tokens(text, i + 1))
      else if c == ')' then Prefixed(Close, Tokens(text, i + 1))
      else if IsStart(c) then
        match WordEnd(text, i + 1)
        case None => None
        case Some(end) => Prefixed(Word([c] + Characters(text[i + 1..end])), Tokens(text, end))
      else None
  }

  function Prefixed(token: Token, rest: Option<seq<Token>>): Option<seq<Token>> {
    match rest
    case Some(tokens) => Some([token] + tokens)
    case None => None
  }

  function Joined(tokens: seq<Token>, rest: Option<seq<Token>>): Option<seq<Token>> {
    match rest
    case Some(more) => Some(tokens + more)
    case None => None
  }

  lemma JoinNext(tokens: seq<Token>, token: Token, rest: Option<seq<Token>>)
    ensures Joined(tokens, Prefixed(token, rest)) == Joined(tokens + [token], rest)
  {
    if rest.Some? {
      assert tokens + ([token] + rest.value) == tokens + [token] + rest.value;
    }
  }

  lemma JoinNothing(rest: Option<seq<Token>>)
    ensures Joined([], rest) == rest
  {
    if rest.Some? {
      assert [] + rest.value == rest.value;
    }
  }

  /** tokenizePermission. */
  method Tokenize(text: Text) returns (result: Option<seq<Token>>)
    ensures result == Tokens(text, 0)
  {
    var tokens: seq<Token> := [];
    var offset := 0;
    JoinNothing(Tokens(text, 0));
    while offset < |text|
      invariant 0 <= offset <= |text|
      invariant Tokens(text, 0) == Joined(tokens, Tokens(text, offset))
    {
      if text[offset].BadByte? {
        return None;
      }
      var c := text[offset].c;
      if IsSpace(c) {
        offset := offset + 1;
      } else if c == '!' {
        JoinNext(tokens, Not, Tokens(text, offset + 1));
        tokens := tokens + [Not];
        offset := offset + 1;
      } else if c == '(' {
        JoinNext(tokens, Open, Tokens(text, offset + 1));
        tokens := tokens + [Open];
        offset := offset + 1;
      } else if c == ')' {
        JoinNext(tokens, Close, Tokens(text, offset + 1));
        tokens := tokens + [Close];
        offset := offset + 1;
      } else if IsStart(c) {
        var start := offset;
        offset := offset + 1;
        while offset < |text|
          invariant start < offset <= |text|
          invariant forall k | start <= k < offset :: text[k].Rune?
          invariant WordEnd(text, start + 1) == WordEnd(text, offset)
        {
          if text[offset].BadByte? {
            return None;
          }
          if !IsPart(text[offset].c) {
            break;
          }
          offset := offset + 1;
        }
        var word := Characters(text[start..offset]);
        assert word == [c] + Characters(text[start + 1..offset]);
        JoinNext(tokens, Word(word), Tokens(text, offset));
        tokens := tokens + [Word(word)];
      } else {
        return None;
      }
    }
    return Some(tokens + [End]);
  }

  // ---- The grammar -----------------------------------------------------------------

  /** or := and ("or" and)* */
  datatype OrTree = OneAnd(first: AndTree) | OrMore(left: OrTree, right: AndTree)

  /** and := unary ("and" unary)* */
  datatype AndTree = OneUnary(only: UnaryTree) | AndMore(front: AndTree, last: UnaryTree)

  /** unary := "!" unary | atom | "(" or ")" */
  datatype UnaryTree = Negated(inner: UnaryTree) | Named(name: string) | Group(tree: OrTree)

  function PrintOr(t: OrTree): seq<Token> {
    match t
    case OneAnd(a) => PrintAnd(a)
    case OrMore(left, a) => PrintOr(left) + [Or] + PrintAnd(a)
  }

  function PrintAnd(t: AndTree): seq<Token> {
    match t
    case OneUnary(u) => PrintUnary(u)
    case AndMore(front, u) => PrintAnd(front) + [And] + PrintUnary(u)
  }

  function PrintUnary(t: UnaryTree): seq<Token> {
    match t
    case Negated(u) => [Not] + PrintUnary(u)
    case Named(name) => [Atom(name)]
    case Group(tree) => [Open] + PrintOr(tree) + [Close]
  }

  /** resolvePermissionAtom. */
  function Resolve(name: string, facts: Facts): Option<bool> {
    var n := Lower(name);
    if n == "public" then Some(true)
    else if n in {"owner", "isowner"} then Some(facts.isOwner)
    else if n in {"admin", "isadmin", "senderisadmin", "sender_is_admin", "sender-is-admin"} then Some(facts.isAdmin)
    else if n in {"group", "isgroup"} then Some(facts.isGroup)
    else if n in {"private", "isprivate"} then Some(facts.isPrivate)
    else if n in {"from_me", "fromme", "from-me"} then Some(facts.fromMe)
    else None
  }

  const NO_FACTS := Facts(false, false, false, false, false, false)

  predicate Known(name: string) {
    Resolve(name, NO_FACTS).Some?
  }

  predicate KnownOr(t: OrTree) {
    match t
    case OneAnd(a) => KnownAnd(a)
    case OrMore(left, a) => KnownOr(left) && KnownAnd(a)
  }

  predicate KnownAnd(t: AndTree) {
    match t
    case OneUnary(u) => KnownUnary(u)
    case AndMore(front, u) => KnownAnd(front) && KnownUnary(u)
  }

  predicate KnownUnary(t: UnaryTree) {
    match t
    case Negated(u) => KnownUnary(u)
    case Named(name) => Known(name)
    case Group(tree) => KnownOr(tree)
  }

  function ValueOr(t: OrTree, facts: Facts): bool
    requires KnownOr(t)
  {
    match t
    case OneAnd(a) => ValueAnd(a, facts)
    case OrMore(left, a) => ValueOr(left, facts) || ValueAnd(a, facts)
  }

  function ValueAnd(t: AndTree, facts: Facts): bool
    requires KnownAnd(t)
  {
    match t
    case OneUnary(u) => ValueUnary(u, facts)
    case AndMore(front, u) => ValueAnd(front, facts) && ValueUnary(u, facts)
  }

  function ValueUnary(t: UnaryTree, facts: Facts): bool
    requires KnownUnary(t)
  {
    match t
    case Negated(u) => !ValueUnary(u, facts)
    case Named(name) => Resolve(name, facts).value
    case Group(tree) => ValueOr(tree, facts)
  }

  // ---- Parsing -----------------------------------------------------------------------

  datatype Parsed<T> = Got(tree: T, next: nat) | Wrong

  function At(tokens: seq<Token>, i: nat): Token {
    if i < |tokens| then tokens[i] else End
  }

  function ParseOr(tokens: seq<Token>, i: nat): (r: Parsed<OrTree>)
    requires i <= |tokens|
    ensures r.Got? ==> i < r.next <= |tokens| && KnownOr(r.tree)
    decreases |tokens| - i, 5
  {
    match ParseAnd(tokens, i)
    case Wrong => Wrong
    case Got(a, next) => OrTail(tokens, OneAnd(a), next)
  }

  function OrTail(tokens: seq<Token>, left: OrTree, i: nat): (r: Parsed<OrTree>)
    requires i <= |tokens| && KnownOr(left)
    ensures r.Got? ==> i <= r.next <= |tokens| && KnownOr(r.tree)
    decreases |tokens| - i, 4
  {
    if At(tokens, i) != Or then Got(left, i)
    else
      match ParseAnd(tokens, i + 1)
      case Wrong => Wrong
      case Got(a, next) => OrTail(tokens, OrMore(left, a), next)
  }

  function ParseAnd(tokens: seq<Token>, i: nat): (r: Parsed<AndTree>)
    requires i <= |tokens|
    ensures r.Got? ==> i < r.next <= |tokens| && KnownAnd(r.tree)
    decreases |tokens| - i, 3
  {
    match ParseUnary(tokens, i)
    case Wrong => Wrong
    case Got(u, next) => AndTail(tokens, OneUnary(u), next)
  }

  function AndTail(tokens: seq<Token>, left: AndTree, i: nat): (r: Parsed<AndTree>)
    requires i <= |tokens| && KnownAnd(left)
    ensures r.Got? ==> i <= r.next <= |tokens| && KnownAnd(r.tree)
    decreases |tokens| - i, 2
  {
    if At(tokens, i) != And then Got(left, i)
    else
      match ParseUnary(tokens, i + 1)
      case Wrong => Wrong
      case Got(u, next) => AndTail(tokens, AndMore(left, u), next)
  }

  function ParseUnary(tokens: seq<Token>, i: nat): (r: Parsed<UnaryTree>)
    requires i <= |tokens|
    ensures r.Got? ==> i < r.next <= |tokens| && KnownUnary(r.tree)
    decreases |tokens| - i, 1
  {
    match At(tokens, i)
    case Not =>
      (match ParseUnary(tokens, i + 1)
       case Wrong => Wrong
       case Got(u, next) => Got(Negated(u), next))
    case Atom(name) => if Known(name) then Got(Named(name), i + 1) else Wrong
    case Open =>
      (match ParseOr(tokens, i + 1)
       case Wrong => Wrong
       case Got(tree, next) => if At(tokens, next) == Close then Got(Group(tree), next + 1) else Wrong)
    case _ => Wrong
  }

  /** The tree of a whole token list. */
  function Tree(tokens: seq<Token>): Option<OrTree> {
    match ParseOr(tokens, 0)
    case Got(tree, next) => if At(tokens, next) == End then Some(tree) else None
    case Wrong => None
  }

  /** EvaluatePermission: the value of the expression, or nothing if it is not one. */
  function Evaluated(text: Text, facts: Facts): Option<bool> {
    match Tokens(text, 0)
    case None => None
    case Some(tokens) =>
      match Tree(tokens)
      case None => None
      case Some(tree) => ParsedKnown(tokens, tree); Some(ValueOr(tree, facts))
  }

  lemma ParsedKnown(tokens: seq<Token>, tree: OrTree)
    requires Tree(tokens) == Some(tree)
    ensures KnownOr(tree)
  {
  }

  lemma KnownForAllFacts(name: string, facts: Facts)
    ensures Resolve(name, facts).Some? <==> Known(name)
  {
  }

  /** The evaluator: it computes values while it parses. */
  class Parser {
    const tokens: seq<Token>
    const facts: Facts
    var index: nat

    constructor (tokens: seq<Token>, facts: Facts)
      ensures this.tokens == tokens && this.facts == facts && index == 0
    {
      this.tokens, this.facts, index := tokens, facts, 0;
    }

    function Peek(): Token
      reads this`index
    {
      At(tokens, index)
    }

    method Take() returns (token: Token)
      modifies this`index
      ensures token == At(tokens, old(index)) && index == if old(index) < |tokens| then old(index) + 1 else old(index)
    {
      token := Peek();
      if index < |tokens| {
        index := index + 1;
      }
    }

    method EvalOr() returns (value: Option<bool>)
      requires index <= |tokens|
      modifies this`index
      ensures var r := ParseOr(tokens, old(index));
              if r.Got? then value == Some(ValueOr(r.tree, facts)) && index == r.next else value == None
      decreases |tokens| - index, 3
    {
      var first := EvalAnd();
      if first == None {
        return None;
      }
      var v := first.value;
      ghost var left := OneAnd(ParseAnd(tokens, old(index)).tree);
      while Peek() == Or
        invariant old(index) < index <= |tokens| && KnownOr(left) && v == ValueOr(left, facts)
        invariant ParseOr(tokens, old(index)) == OrTail(tokens, left, index)
        decreases |tokens| - index
      {
        var _ := Take();
        ghost var at := index;
        var right := EvalAnd();
        if right == None {
          return None;
        }
        left := OrMore(left, ParseAnd(tokens, at).tree);
        v := v || right.value;
      }
      return Some(v);
    }

    method EvalAnd() returns (value: Option<bool>)
      requires index <= |tokens|
      modifies this`index
      ensures var r := ParseAnd(tokens, old(index));
              if r.Got? then value == Some(ValueAnd(r.tree, facts)) && index == r.next else value == None
      decreases |tokens| - index, 2
    {
      var first := EvalUnary();
      if first == None {
        return None;
      }
      var v := first.value;
      ghost var left := OneUnary(ParseUnary(tokens, old(index)).tree);
      while Peek() == And
        invariant old(index) < index <= |tokens| && KnownAnd(left) && v == ValueAnd(left, facts)
        invariant ParseAnd(tokens, old(index)) == AndTail(tokens, left, index)
        decreases |tokens| - index
      {
        var _ := Take();
        ghost var at := index;
        var right := EvalUnary();
        if right == None {
          return None;
        }
        left := AndMore(left, ParseUnary(tokens, at).tree);
        v := v && right.value;
      }
      return Some(v);
    }

    method EvalUnary() returns (value: Option<bool>)
      requires index <= |tokens|
      modifies this`index
      ensures var r := ParseUnary(tokens, old(index));
              if r.Got? then value == Some(ValueUnary(r.tree, facts)) && index == r.next else value == None
      decreases |tokens| - index, 1
    {
      if Peek() == Not {
        var _ := Take();
        var inner := EvalUnary();
        return if inner.Some? then Some(!inner.value) else None;
      }
      value := EvalPrimary();
    }

    method EvalPrimary() returns (value: Option<bool>)
      requires index <= |tokens| && At(tokens, index) != Not
      modifies this`index
      ensures var r := ParseUnary(tokens, old(index));
              if r.Got? then value == Some(ValueUnary(r.tree, facts)) && index == r.next else value == None
      decreases |tokens| - index, 0
    {
      var token := Take();
      match token
      case Atom(name) =>
        KnownForAllFacts(name, facts);
        return Resolve(name, facts);
      case Open =>
        var inner := EvalOr();
        if inner == None {
          return None;
        }
        var closing := Take();
        return if closing == Close then inner else None;
      case _ => return None;
    }
  }

  /** EvaluatePermission. */
  method Evaluate(text: Text, facts: Facts) returns (value: Option<bool>)
    ensures value == Evaluated(text, facts)
  {
    var tokens := Tokenize(text);
    if tokens == None {
      return None;
    }
    var parser := new Parser(tokens.value, facts);
    var result := parser.EvalOr();
    if result == None || parser.Peek() != End {
      return None;
    }
    return result;
  }

  /** ValidatePermission. */
  method Validate(text: Text) returns (ok: bool)
    ensures ok <==> forall facts :: Evaluated(text, facts).Some?
  {
    var value := Evaluate(text, NO_FACTS);
    return value.Some?;
  }
}
