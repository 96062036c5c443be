// The evaluator implements the documented grammar: every token list has at most one tree,
// the parser finds it exactly when it exists, and the value is the tree's.
module PermissionGrammar {
  import opened Prelude
  import opened Permission
  import opened Strings

  // ---- What was parsed is what was written ---------------------------------------

  lemma {:induction false} OrIsPrinted(tokens: seq<Token>, i: nat)
    requires i <= |tokens|
    ensures var r := ParseOr(tokens, i); r.Got? ==> tokens[i..r.next] == PrintOr(r.tree)
    decreases |tokens| - i, 5
  {
    AndIsPrinted(tokens, i);
    match ParseAnd(tokens, i)
    case Wrong =>
    case Got(a, next) => OrTailIsPrinted(tokens, OneAnd(a), i, next);
  }

  lemma {:induction false} OrTailIsPrinted(tokens: seq<Token>, left: OrTree, i: nat, j: nat)
    requires i <= j <= |tokens| && KnownOr(left) && tokens[i..j] == PrintOr(left)
    ensures var r := OrTail(tokens, left, j); r.Got? ==> tokens[i..r.next] == PrintOr(r.tree)
    decreases |tokens| - j, 4
  {
    if At(tokens, j) == Or {
      AndIsPrinted(tokens, j + 1);
      match ParseAnd(tokens, j + 1)
      case Wrong =>
      case Got(a, next) =>
        assert tokens[i..next] == tokens[i..j] + [Or] + tokens[j + 1..next];
        OrTailIsPrinted(tokens, OrMore(left, a), i, next);
    }
  }

  lemma {:induction false} AndIsPrinted(tokens: seq<Token>, i: nat)
    requires i <= |tokens|
    ensures var r := ParseAnd(tokens, i); r.Got? ==> tokens[i..r.next] == PrintAnd(r.tree)
    decreases |tokens| - i, 3
  {
    UnaryIsPrinted(tokens, i);
    match ParseUnary(tokens, i)
    case Wrong =>
    case Got(u, next) => AndTailIsPrinted(tokens, OneUnary(u), i, next);
  }

  lemma {:induction false} AndTailIsPrinted(tokens: seq<Token>, left: AndTree, i: nat, j: nat)
    requires i <= j <= |tokens| && KnownAnd(left) && tokens[i..j] == PrintAnd(left)
    ensures var r := AndTail(tokens, left, j); r.Got? ==> tokens[i..r.next] == PrintAnd(r.tree)
    decreases |tokens| - j, 2
  {
    if At(tokens, j) == And {
      UnaryIsPrinted(tokens, j + 1);
      match ParseUnary(tokens, j + 1)
      case Wrong =>
      case Got(u, next) =>
        assert tokens[i..next] == tokens[i..j] + [And] + tokens[j + 1..next];
        AndTailIsPrinted(tokens, AndMore(left, u), i, next);
    }
  }

  lemma {:induction false} UnaryIsPrinted(tokens: seq<Token>, i: nat)
    requires i <= |tokens|
    ensures var r := ParseUnary(tokens, i); r.Got? ==> tokens[i..r.next] == PrintUnary(r.tree)
    decreases |tokens| - i, 1
  {
    match At(tokens, i)
    case Not =>
      UnaryIsPrinted(tokens, i + 1);
      match ParseUnary(tokens, i + 1) {
        case Wrong =>
        case Got(u, next) => assert tokens[i..next] == [Not] + tokens[i + 1..next];
      }
    case Open =>
      OrIsPrinted(tokens, i + 1);
      match ParseOr(tokens, i + 1) {
        case Wrong =>
        case Got(tree, next) =>
          if At(tokens, next) == Close {
            assert tokens[i..next + 1] == [Open] + tokens[i + 1..next] + [Close];
          }
      }
    case _ =>
  }

  // ---- What is written is parsed -------------------------------------------------

  /** The tokens from i to j are these. */
  ghost predicate Reads(tokens: seq<Token>, i: nat, printed: seq<Token>) {
    i + |printed| <= |tokens| && tokens[i..i + |printed|] == printed
  }

  lemma ReadsParts(tokens: seq<Token>, i: nat, left: seq<Token>, right: seq<Token>)
    requires Reads(tokens, i, left + right)
    ensures Reads(tokens, i, left) && Reads(tokens, i + |left|, right)
  {
    var all := tokens[i..i + |left + right|];
    assert all[..|left|] == left && all[|left|..] == right;
    assert tokens[i..i + |left|] == all[..|left|];
    assert tokens[i + |left|..i + |left| + |right|] == all[|left|..];
  }

  lemma ReadsToken(tokens: seq<Token>, i: nat, left: seq<Token>, token: Token)
    requires Reads(tokens, i, left + [token])
    ensures Reads(tokens, i, left) && At(tokens, i + |left|) == token
  {
    ReadsParts(tokens, i, left, [token]);
    assert tokens[i + |left|] == tokens[i + |left|..i + |left| + |[token]|][0];
  }

  lemma {:induction false} OrIsParsed(tokens: seq<Token>, i: nat, t: OrTree)
    requires KnownOr(t) && Reads(tokens, i, PrintOr(t)) && At(tokens, i + |PrintOr(t)|) != And
    ensures ParseOr(tokens, i) == OrTail(tokens, t, i + |PrintOr(t)|)
    decreases t
  {
    hide ParseOr, ParseAnd, OrTail, AndTail, PrintAnd, KnownAnd;
    match t
    case OneAnd(a) =>
      AndIsParsed(tokens, i, a);
      FirstAnd(tokens, i, a, i + |PrintAnd(a)|);
    case OrMore(left, a) =>
      var j := i + |PrintOr(left)|;
      ReadsParts(tokens, i, PrintOr(left) + [Or], PrintAnd(a));
      ReadsToken(tokens, i, PrintOr(left), Or);
      OrIsParsed(tokens, i, left);
      AndIsParsed(tokens, j + 1, a);
      OneMoreAnd(tokens, left, j, a, j + 1 + |PrintAnd(a)|);
  }

  lemma FirstAnd(tokens: seq<Token>, i: nat, a: AndTree, next: nat)
    requires i <= next <= |tokens| && KnownAnd(a) && At(tokens, next) != And && ParseAnd(tokens, i) == AndTail(tokens, a, next)
    ensures ParseOr(tokens, i) == OrTail(tokens, OneAnd(a), next)
  {
    hide ParseAnd;
  }

  lemma OneMoreAnd(tokens: seq<Token>, left: OrTree, j: nat, a: AndTree, next: nat)
    requires j + 1 <= next <= |tokens| && KnownOr(left) && KnownAnd(a) && At(tokens, j) == Or && At(tokens, next) != And
    requires ParseAnd(tokens, j + 1) == AndTail(tokens, a, next)
    ensures OrTail(tokens, left, j) == OrTail(tokens, OrMore(left, a), next)
  {
    hide ParseAnd;
  }

  lemma {:induction false} AndIsParsed(tokens: seq<Token>, i: nat, t: AndTree)
    requires KnownAnd(t) && Reads(tokens, i, PrintAnd(t))
    ensures ParseAnd(tokens, i) == AndTail(tokens, t, i + |PrintAnd(t)|)
    decreases t
  {
    hide ParseAnd, ParseUnary, AndTail, PrintUnary, KnownUnary;
    match t
    case OneUnary(u) =>
      UnaryIsParsed(tokens, i, u);
      FirstUnary(tokens, i, u, i + |PrintUnary(u)|);
    case AndMore(front, u) =>
      var j := i + |PrintAnd(front)|;
      ReadsParts(tokens, i, PrintAnd(front) + [And], PrintUnary(u));
      ReadsToken(tokens, i, PrintAnd(front), And);
      AndIsParsed(tokens, i, front);
      UnaryIsParsed(tokens, j + 1, u);
      OneMoreUnary(tokens, front, j, u, j + 1 + |PrintUnary(u)|);
  }

  lemma FirstUnary(tokens: seq<Token>, i: nat, u: UnaryTree, next: nat)
    requires i <= next <= |tokens| && KnownUnary(u) && ParseUnary(tokens, i) == Got(u, next)
    ensures ParseAnd(tokens, i) == AndTail(tokens, OneUnary(u), next)
  {
    hide ParseUnary;
  }

  lemma OneMoreUnary(tokens: seq<Token>, front: AndTree, j: nat, u: UnaryTree, next: nat)
    requires j + 1 <= next <= |tokens| && KnownAnd(front) && KnownUnary(u) && At(tokens, j) == And
    requires ParseUnary(tokens, j + 1) == Got(u, next)
    ensures AndTail(tokens, front, j) == AndTail(tokens, AndMore(front, u), next)
  {
    hide ParseUnary;
  }

  lemma NegationParsed(tokens: seq<Token>, i: nat, u: UnaryTree, next: nat)
    requires i + 1 <= |tokens| && At(tokens, i) == Not && KnownUnary(u) && i + 1 <= next <= |tokens| && ParseUnary(tokens, i + 1) == Got(u, next)
    ensures ParseUnary(tokens, i) == Got(Negated(u), next)
  {
  }

  lemma AtomParsed(tokens: seq<Token>, i: nat, name: string)
    requires i + 1 <= |tokens| && At(tokens, i) == Atom(name) && Known(name)
    ensures ParseUnary(tokens, i) == Got(Named(name), i + 1)
  {
  }

  lemma GroupParsed(tokens: seq<Token>, i: nat, tree: OrTree, j: nat)
    requires i + 1 <= j < |tokens| && At(tokens, i) == Open && KnownOr(tree) && At(tokens, j) == Close
    requires ParseOr(tokens, i + 1) == OrTail(tokens, tree, j)
    ensures ParseUnary(tokens, i) == Got(Group(tree), j + 1)
  {
    hide ParseOr;
  }

  lemma {:induction false} UnaryIsParsed(tokens: seq<Token>, i: nat, t: UnaryTree)
    requires KnownUnary(t) && Reads(tokens, i, PrintUnary(t))
    ensures ParseUnary(tokens, i) == Got(t, i + |PrintUnary(t)|)
    decreases t
  {
    hide ParseUnary, ParseOr, ParseAnd, OrTail, AndTail, Known;
    match t
    case Negated(u) =>
      ReadsParts(tokens, i, [Not], PrintUnary(u));
      ReadsToken(tokens, i, [], Not);
      UnaryIsParsed(tokens, i + 1, u);
      NegationParsed(tokens, i, u, i + 1 + |PrintUnary(u)|);
    case Named(name) =>
      ReadsToken(tokens, i, [], Atom(name));
      AtomParsed(tokens, i, name);
    case Group(tree) =>
      var j := i + 1 + |PrintOr(tree)|;
      ReadsToken(tokens, i, [Open] + PrintOr(tree), Close);
      ReadsParts(tokens, i, [Open], PrintOr(tree));
      ReadsToken(tokens, i, [], Open);
      OrIsParsed(tokens, i + 1, tree);
      GroupParsed(tokens, i, tree, j);
  }

  /** A token list is a permission expression exactly when some tree of the grammar with known
      atoms is written that way, and then the parser finds that tree and no other. */
  lemma TreeIsUnique(tokens: seq<Token>, tree: OrTree)
    requires End !in tokens
    ensures Tree(tokens + [End]) == Some(tree) <==> KnownOr(tree) && PrintOr(tree) == tokens
  {
    var all := tokens + [End];
    if KnownOr(tree) && PrintOr(tree) == tokens {
      assert Reads(all, 0, PrintOr(tree));
      OrIsParsed(all, 0, tree);
    }
    if Tree(all) == Some(tree) {
      OrIsPrinted(all, 0);
      var next := ParseOr(all, 0).next;
      assert next < |all| ==> all[next] == At(all, next);
      if next == |all| {
        assert all[0..next][|tokens|] == End;
        NoEndInside(tree);
      }
      assert all[0..|tokens|] == tokens;
    }
  }

  lemma {:induction false} NoEndInside(t: OrTree)
    ensures End !in PrintOr(t)
  {
    match t
    case OneAnd(a) => NoEndInAnd(a);
    case OrMore(left, a) => NoEndInside(left); NoEndInAnd(a);
  }

  lemma {:induction false} NoEndInAnd(t: AndTree)
    ensures End !in PrintAnd(t)
  {
    match t
    case OneUnary(u) => NoEndInUnary(u);
    case AndMore(front, u) => NoEndInAnd(front); NoEndInUnary(u);
  }

  lemma {:induction false} NoEndInUnary(t: UnaryTree)
    ensures End !in PrintUnary(t)
  {
    match t
    case Negated(u) => NoEndInUnary(u);
    case Named(_) =>
    case Group(tree) => NoEndInside(tree);
  }

  // ---- From text to value ----------------------------------------------------------

  /** The tokenizer ends every token list, and only there. */
  lemma {:induction false} TokensEndOnce(text: Text, i: nat)
    requires i <= |text|
    ensures var r := Tokens(text, i);
            r.Some? ==> r.value != [] && r.value[|r.value| - 1] == End && End !in r.value[..|r.value| - 1]
    decreases |text| - i
  {
    if i < |text| && text[i].Rune? {
      var c := text[i].c;
      if IsSpace(c) {
        TokensEndOnce(text, i + 1);
      } else if c == '!' || c == '(' || c == ')' {
        TokensEndOnce(text, i + 1);
        FirstOf(if c == '!' then Not else if c == '(' then Open else Close, Tokens(text, i + 1));
      } else if IsStart(c) && WordEnd(text, i + 1).Some? {
        var end := WordEnd(text, i + 1).value;
        TokensEndOnce(text, end);
        FirstOf(Word([c] + Characters(text[i + 1..end])), Tokens(text, end));
      }
    }
  }

  lemma FirstOf(token: Token, rest: Option<seq<Token>>)
    requires token != End
    requires rest.Some? ==> rest.value != [] && rest.value[|rest.value| - 1] == End && End !in rest.value[..|rest.value| - 1]
    ensures var r := Prefixed(token, rest);
            r.Some? ==> r.value != [] && r.value[|r.value| - 1] == End && End !in r.value[..|r.value| - 1]
  {
    if rest.Some? {
      var all := [token] + rest.value;
      assert all[..|all| - 1] == [token] + rest.value[..|rest.value| - 1];
    }
  }

  /** Some tree of the grammar with known atoms is written in the text and has this value. */
  ghost predicate Means(text: Text, facts: Facts, value: bool, tree: OrTree) {
    KnownOr(tree) && Tokens(text, 0) == Some(PrintOr(tree) + [End]) && ValueOr(tree, facts) == value
  }

  /** Evaluation is the value of the one tree the text spells; it fails exactly when there is none. */
  lemma EvaluationIsTheTreesValue(text: Text, facts: Facts, value: bool)
    ensures Evaluated(text, facts) == Some(value) <==> exists tree :: Means(text, facts, value, tree)
  {
    TokensEndOnce(text, 0);
    if Evaluated(text, facts) == Some(value) {
      var all := Tokens(text, 0).value;
      var tree := Tree(all).value;
      assert all == all[..|all| - 1] + [End];
      TreeIsUnique(all[..|all| - 1], tree);
      assert Means(text, facts, value, tree);
    }
    if tree :| Means(text, facts, value, tree) {
      NoEndInside(tree);
      TreeIsUnique(PrintOr(tree), tree);
    }
  }

  // ---- Precedence --------------------------------------------------------------------

  /** A boolean formula over atoms, however it is to be written. */
  datatype Formula = Fact(name: string) | Opposite(f: Formula) | Both(l: Formula, r: Formula) | Either(l: Formula, r: Formula)

  /** An atom the grammar can spell and the program knows. */
  predicate Spelled(name: string) {
    && name != "" && IsStart(name[0]) && (forall k | 0 <= k < |name| :: IsPart(name[k]))
    && Lower(name) != "and" && Lower(name) != "or" && Known(name)
  }

  predicate Sound(f: Formula) {
    match f
    case Fact(name) => Spelled(name)
    case Opposite(g) => Sound(g)
    case Both(l, r) => Sound(l) && Sound(r)
    case Either(l, r) => Sound(l) && Sound(r)
  }

  function Worth(f: Formula, facts: Facts): bool
    requires Sound(f)
  {
    match f
    case Fact(name) => KnownForAllFacts(name, facts); Resolve(name, facts).value
    case Opposite(g) => !Worth(g, facts)
    case Both(l, r) => Worth(l, facts) && Worth(r, facts)
    case Either(l, r) => Worth(l, facts) || Worth(r, facts)
  }

  /** Written with as few parentheses as the precedences allow. */
  function ToOr(f: Formula): OrTree
    decreases f, 2
  {
    match f
    case Either(l, r) => OrMore(ToOr(l), ToAnd(r))
    case _ => OneAnd(ToAnd(f))
  }

  function ToAnd(f: Formula): AndTree
    decreases f, 1
  {
    match f
    case Both(l, r) => AndMore(ToAnd(l), ToUnary(r))
    case _ => OneUnary(ToUnary(f))
  }

  function ToUnary(f: Formula): UnaryTree
    decreases f, 0
  {
    match f
    case Fact(name) => Named(name)
    case Opposite(g) => Negated(ToUnary(g))
    case Both(l, r) => Group(OneAnd(AndMore(ToAnd(l), ToUnary(r))))
    case Either(l, r) => Group(OrMore(ToOr(l), ToAnd(r)))
  }

  lemma FactKeepsWorth(name: string, facts: Facts)
    requires Sound(Fact(name))
    ensures KnownUnary(Named(name)) && ValueUnary(Named(name), facts) == Worth(Fact(name), facts)
  {
    hide Lower, IsStart, IsPart;
    KnownForAllFacts(name, facts);
  }

  /** A unary tree alone is a conjunction and a disjunction of the same value. */
  lemma AloneKeepsWorth(u: UnaryTree, facts: Facts)
    requires KnownUnary(u)
    ensures KnownAnd(OneUnary(u)) && ValueAnd(OneUnary(u), facts) == ValueUnary(u, facts)
    ensures KnownOr(OneAnd(OneUnary(u))) && ValueOr(OneAnd(OneUnary(u)), facts) == ValueUnary(u, facts)
  {
    hide ValueUnary, KnownUnary;
  }

  lemma BothKeepsWorth(l: Formula, r: Formula, facts: Facts)
    requires Sound(l) && KnownAnd(ToAnd(l)) && ValueAnd(ToAnd(l), facts) == Worth(l, facts)
    requires Sound(r) && KnownUnary(ToUnary(r)) && ValueUnary(ToUnary(r), facts) == Worth(r, facts)
    ensures KnownAnd(ToAnd(Both(l, r))) && ValueAnd(ToAnd(Both(l, r)), facts) == Worth(Both(l, r), facts)
  {
    assert ToAnd(Both(l, r)) == AndMore(ToAnd(l), ToUnary(r));
  }

  lemma EitherKeepsWorth(l: Formula, r: Formula, facts: Facts)
    requires Sound(l) && KnownOr(ToOr(l)) && ValueOr(ToOr(l), facts) == Worth(l, facts)
    requires Sound(r) && KnownAnd(ToAnd(r)) && ValueAnd(ToAnd(r), facts) == Worth(r, facts)
    ensures KnownOr(ToOr(Either(l, r))) && ValueOr(ToOr(Either(l, r)), facts) == Worth(Either(l, r), facts)
  {
    assert ToOr(Either(l, r)) == OrMore(ToOr(l), ToAnd(r));
  }

  lemma {:induction false} WrittenKeepsWorth(f: Formula, facts: Facts)
    requires Sound(f)
    ensures KnownOr(ToOr(f)) && ValueOr(ToOr(f), facts) == Worth(f, facts)
    ensures KnownAnd(ToAnd(f)) && ValueAnd(ToAnd(f), facts) == Worth(f, facts)
    ensures KnownUnary(ToUnary(f)) && ValueUnary(ToUnary(f), facts) == Worth(f, facts)
  {
    match f
    case Fact(name) =>
      assert ToUnary(f) == Named(name) && ToAnd(f) == OneUnary(ToUnary(f)) && ToOr(f) == OneAnd(ToAnd(f));
      FactKeepsWorth(name, facts);
      AloneKeepsWorth(ToUnary(f), facts);
    case Opposite(g) =>
      WrittenKeepsWorth(g, facts);
      assert ToUnary(f) == Negated(ToUnary(g)) && ToAnd(f) == OneUnary(ToUnary(f)) && ToOr(f) == OneAnd(ToAnd(f));
      AloneKeepsWorth(ToUnary(f), facts);
    case Both(l, r) =>
      WrittenKeepsWorth(l, facts);
      WrittenKeepsWorth(r, facts);
      BothKeepsWorth(l, r, facts);
      assert ToOr(f) == OneAnd(ToAnd(f)) && ToUnary(f) == Group(ToOr(f));
      assert ValueUnary(ToUnary(f), facts) == ValueOr(ToOr(f), facts) == ValueAnd(ToAnd(f), facts);
    case Either(l, r) =>
      WrittenKeepsWorth(l, facts);
      WrittenKeepsWorth(r, facts);
      EitherKeepsWorth(l, r, facts);
      assert ToUnary(f) == Group(ToOr(f)) && ToAnd(f) == OneUnary(ToUnary(f));
      assert ValueAnd(ToAnd(f), facts) == ValueUnary(ToUnary(f), facts) == ValueOr(ToOr(f), facts);
  }

  function Units(s: string): (t: Text)
    ensures |t| == |s| && forall k | 0 <= k < |s| :: t[k] == Rune(s[k])
  {
    seq(|s|, i requires 0 <= i < |s| => Rune(s[i]))
  }

  function Spell(token: Token): string {
    match token
    case Atom(name) => name
    case And => "and"
    case Or => "or"
    case Not => "!"
    case Open => "("
    case Close => ")"
    case End => ""
  }

  /** The tokens as text, each followed by a space. */
  function Written(tokens: seq<Token>): Text {
    if tokens == [] then [] else Units(Spell(tokens[0])) + [Rune(' ')] + Written(tokens[1..])
  }

  predicate Plain(token: Token) {
    token != End && (token.Atom? ==> Spelled(token.name))
  }

  lemma {:induction false} WordEndsAt(text: Text, i: nat, j: nat)
    requires i <= j < |text| && text[j] == Rune(' ') && forall k | i <= k < j :: text[k].Rune? && IsPart(text[k].c)
    ensures WordEnd(text, i) == Some(j)
    decreases j - i
  {
    if i < j {
      WordEndsAt(text, i + 1, j);
    }
  }

  /** One plain token followed by a space is read back, and reading goes on behind it. */
  lemma TokenIsRead(text: Text, i: nat, token: Token)
    requires Plain(token) && i + |Spell(token)| < |text|
    requires text[i..i + |Spell(token)|] == Units(Spell(token)) && text[i + |Spell(token)|] == Rune(' ')
    ensures Tokens(text, i) == Prefixed(token, Tokens(text, i + |Spell(token)| + 1))
  {
    hide Tokens;
    var s, j := Spell(token), i + |Spell(token)|;
    forall k | i <= k < j ensures text[k] == Rune(s[k - i]) {
      assert text[k] == text[i..j][k - i];
    }
    SpaceIsSkipped(text, j);
    if token == Not || token == Open || token == Close {
      SignIsRead(text, i, token);
    } else {
      hide WordEnd, Word;
      SpelledWord(token);
      forall k | 0 <= k < |s| ensures text[i + k] == Rune(s[k]) {
      }
      WordIsRead(text, i, s);
      WordOf(token);
    }
  }

  lemma SpaceIsSkipped(text: Text, j: nat)
    requires j < |text| && text[j] == Rune(' ')
    ensures Tokens(text, j) == Tokens(text, j + 1)
  {
  }

  lemma SignIsRead(text: Text, i: nat, token: Token)
    requires (token == Not || token == Open || token == Close) && i < |text| && text[i] == Rune(Spell(token)[0])
    ensures Tokens(text, i) == Prefixed(token, Tokens(text, i + 1))
  {
  }

  lemma SpelledWord(token: Token)
    requires Plain(token) && (token.Atom? || token == And || token == Or)
    ensures var s := Spell(token); s != "" && IsStart(s[0]) && forall k | 0 <= k < |s| :: IsPart(s[k])
  {
    assert IsPart('a') && IsPart('n') && IsPart('d') && IsPart('o') && IsPart('r');
  }

  lemma WordIsRead(text: Text, i: nat, s: string)
    requires s != "" && i + |s| < |text| && IsStart(s[0]) && (forall k | 0 <= k < |s| :: IsPart(s[k]) && text[i + k] == Rune(s[k]))
    requires text[i + |s|] == Rune(' ')
    ensures Tokens(text, i) == Prefixed(Word(s), Tokens(text, i + |s|))
  {
    forall k | i <= k < i + |s| ensures text[k] == Rune(s[k - i]) && IsPart(text[k].c) {
      assert text[i + (k - i)] == Rune(s[k - i]);
    }
    WordEndsAt(text, i + 1, i + |s|);
    assert [s[0]] + Characters(text[i + 1..i + |s|]) == s;
  }

  lemma WordOf(token: Token)
    requires Plain(token) && (token.Atom? || token == And || token == Or)
    ensures Word(Spell(token)) == token
  {
    assert Lower("and") == "and" && Lower("or") == "or";
  }

  lemma NothingIsRead(text: Text)
    ensures Tokens(text, |text|) == Some([End])
  {
  }

  lemma {:induction false} WrittenIsRead(before: Text, tokens: seq<Token>)
    requires forall t | t in tokens :: Plain(t)
    ensures Tokens(before + Written(tokens), |before|) == Some(tokens + [End])
    decreases |tokens|
  {
    hide Tokens, Plain, Units, Spell;
    var text := before + Written(tokens);
    if tokens == [] {
      NothingIsRead(text);
      assert tokens + [End] == [End];
    } else {
      var first := Units(Spell(tokens[0])) + [Rune(' ')];
      assert text == before + first + Written(tokens[1..]);
      WrittenIsRead(before + first, tokens[1..]);
      assert text[|before|..|before| + |Spell(tokens[0])|] == Units(Spell(tokens[0]));
      TokenIsRead(text, |before|, tokens[0]);
      assert [tokens[0]] + (tokens[1..] + [End]) == tokens + [End];
    }
  }

  lemma {:induction false} PlainTrees(f: Formula)
    requires Sound(f)
    ensures forall t | t in PrintOr(ToOr(f)) :: Plain(t)
    ensures forall t | t in PrintAnd(ToAnd(f)) :: Plain(t)
    ensures forall t | t in PrintUnary(ToUnary(f)) :: Plain(t)
  {
    match f
    case Fact(name) =>
    case Opposite(g) =>
      PlainTrees(g);
      assert PrintOr(ToOr(f)) == PrintAnd(ToAnd(f)) == PrintUnary(ToUnary(f)) == [Not] + PrintUnary(ToUnary(g));
    case Both(l, r) => PlainTrees(l); PlainTrees(r);
    case Either(l, r) => PlainTrees(l); PlainTrees(r);
  }

  /** Writing any formula with no more parentheses than the precedences need and evaluating the
      text gives the formula's value: `!` binds tightest, then `and`, then `or`. */
  lemma FormulasEvaluate(f: Formula, facts: Facts)
    requires Sound(f)
    ensures Evaluated(Written(PrintOr(ToOr(f))), facts) == Some(Worth(f, facts))
  {
    var tree := ToOr(f);
    WrittenKeepsWorth(f, facts);
    PlainTrees(f);
    WrittenIsRead([], PrintOr(tree));
    assert [] + Written(PrintOr(tree)) == Written(PrintOr(tree));
    assert Means(Written(PrintOr(tree)), facts, Worth(f, facts), tree);
    EvaluationIsTheTreesValue(Written(PrintOr(tree)), facts, Worth(f, facts));
  }
}
