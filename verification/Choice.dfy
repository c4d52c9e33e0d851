/** Ordered choice is unambiguous: on any input at most one alternative succeeds, so the order is irrelevant. */
module Choice {
  import opened Scenario
  import opened Grammar

  // ---- choice in general ----

  ghost predicate AtMostOne(alternative: nat -> Parsed<Command>, n: nat) {
    forall i: nat, j: nat | i < n && j < n && alternative(i).Done? && alternative(j).Done? :: i == j
  }

  lemma {:induction false} ChooseFails(alternative: nat -> Parsed<Command>, n: nat)
    requires forall i: nat | i < n :: alternative(i).Fail?
    ensures Choose(alternative, n).Fail?
    decreases n
  {
    if n > 0 {
      ChooseFails(alternative, n - 1);
    }
  }

  /** The only alternative that succeeds is the choice, wherever it stands. */
  lemma {:induction false} ChooseOnly(alternative: nat -> Parsed<Command>, n: nat, k: nat)
    requires AtMostOne(alternative, n) && k < n && alternative(k).Done?
    ensures Choose(alternative, n) == alternative(k)
    decreases n
  {
    if k == n - 1 {
      forall i: nat | i < n - 1 ensures alternative(i).Fail? {
        assert alternative(i).Done? ==> i == k;
      }
      ChooseFails(alternative, n - 1);
    } else {
      ChooseOnly(alternative, n - 1, k);
    }
  }

  /** The choice made in some other order of the alternatives. */
  function Reordered(alternative: nat -> Parsed<Command>, order: nat -> nat): nat -> Parsed<Command> {
    (i: nat) => alternative(order(i))
  }

  ghost predicate Hits(order: nat -> nat, n: nat, k: nat) {
    exists i: nat :: i < n && order(i) == k
  }

  /** `order` rearranges the numbers below `n`. */
  ghost predicate Rearranges(order: nat -> nat, n: nat) {
    && (forall i: nat | i < n :: order(i) < n)
    && (forall i: nat, j: nat | i < n && j < n && order(i) == order(j) :: i == j)
    && (forall k: nat | k < n :: Hits(order, n, k))
  }

  lemma ReorderedAtMostOne(alternative: nat -> Parsed<Command>, n: nat, order: nat -> nat)
    requires AtMostOne(alternative, n) && Rearranges(order, n)
    ensures AtMostOne(Reordered(alternative, order), n)
  {
    hide Hits;
    var other := Reordered(alternative, order);
    forall i: nat, j: nat | i < n && j < n && other(i).Done? && other(j).Done? ensures i == j {
      assert other(i) == alternative(order(i)) && other(j) == alternative(order(j));
      assert order(i) < n && order(j) < n;
      SameAlternative(alternative, n, order(i), order(j));
    }
  }

  lemma SameAlternative(alternative: nat -> Parsed<Command>, n: nat, i: nat, j: nat)
    requires AtMostOne(alternative, n) && i < n && j < n && alternative(i).Done? && alternative(j).Done?
    ensures i == j
  {
  }

  /** Trying the alternatives in another order gives the same result. */
  lemma OrderIsIrrelevant(alternative: nat -> Parsed<Command>, n: nat, order: nat -> nat)
    requires AtMostOne(alternative, n) && Rearranges(order, n)
    ensures Choose(Reordered(alternative, order), n) == Choose(alternative, n)
  {
    hide Choose, AtMostOne;
    var other := Reordered(alternative, order);
    ReorderedAtMostOne(alternative, n, order);
    if k: nat :| k < n && alternative(k).Done? {
      assert Hits(order, n, k);
      var i: nat :| i < n && order(i) == k;
      ChooseOnly(alternative, n, k);
      ChooseOnly(other, n, i);
    } else {
      forall i: nat | i < n ensures other(i).Fail? {
        assert order(i) < n;
      }
      ChooseFails(alternative, n);
      ChooseFails(other, n);
    }
  }

  // ---- commands ----

  /** The alternative a command line can belong to, told from its first three characters. */
  function Leads(s: string): nat {
    if |s| < 3 then 99
    else
      var (a, b, c) := (s[0], s[1], s[2]);
      if a == 'c' && b == 'r' then 0
      else if a == 'd' then 1
      else if a == 'm' then 2
      else if a == 'p' then 3
      else if a == 's' && b == 'e' then 3
      else if a == 's' && b == 'p' then 4
      else if a == 'c' && b == 'o' && c == 'n' then 5
      else if a == 'f' && b == 'e' then 5
      else if a == 'a' && b == 'c' then 6
      else if a == 'c' && b == 'o' && c == 'm' then 6
      else if a == 'f' && b == 'a' then 7
      else if a == 'a' && b == 'w' then 8
      else if a == 'a' && b == 's' then 9
      else if a == 'c' && b == 'h' then 10
      else 99
  }

  lemma LitLeads(s: string, word: string)
    requires |word| >= 3 && Lit(s, word).Done?
    ensures Leads(s) == Leads(word)
  {
    assert s[..3] == word[..3];
    assert s[0] == s[..3][0] && s[1] == s[..3][1] && s[2] == s[..3][2];
  }

  const OPENINGS: seq<string> := ["create", "delete", "maintain", "push", "send", "spawn", "consume", "fetch",
                                  "ack", "complete", "fail", "await", "assert", "check"]

  predicate Opens(word: string, i: nat, s: string) {
    word in OPENINGS && Lit(s, word).Done? && Leads(word) == i
  }

  lemma OpeningOfQueueCommands(lex: Lex, i: nat, s: string) returns (word: string)
    requires CommandAlternative(lex, i, s).Done? && i < 3
    ensures Opens(word, i, s)
  {
    hide Ident, QueueOpts, Choose, Space1, NatOf, FoldQueue;
    match i
    case 0 => word := "create";
    case 1 => word := "delete";
    case 2 => word := "maintain";
  }

  lemma OpeningOfJobCommands(lex: Lex, i: nat, s: string) returns (word: string)
    requires CommandAlternative(lex, i, s).Done? && 3 <= i < 6
    ensures Opens(word, i, s)
  {
    hide Ident, PushItems, Claiming, Choose, Space1, NatOf, FoldPush;
    match i
    case 3 => word := if "push" <= s then "push" else "send";
    case 4 => word := "spawn";
    case 5 => word := if "consume" <= s then "consume" else "fetch";
  }

  lemma OpeningOfVariableCommands(lex: Lex, i: nat, s: string) returns (word: string)
    requires CommandAlternative(lex, i, s).Done? && i >= 6
    ensures Opens(word, i, s)
  {
    hide Ident, Output, Choose, Space1, NatOf;
    match i
    case 6 => word := if "ack" <= s then "ack" else "complete";
    case 7 => word := "fail";
    case 8 => word := "await";
    case 9 => word := "assert";
    case 10 => word := "check";
  }

  /** The word an alternative that succeeds has read first. */
  lemma OpeningWord(lex: Lex, i: nat, s: string) returns (word: string)
    requires CommandAlternative(lex, i, s).Done?
    ensures Opens(word, i, s)
  {
    hide CommandAlternative, Leads;
    if i < 3 {
      word := OpeningOfQueueCommands(lex, i, s);
    } else if i < 6 {
      word := OpeningOfJobCommands(lex, i, s);
    } else {
      word := OpeningOfVariableCommands(lex, i, s);
    }
  }

  /** Whatever alternative succeeds, it is the one the first characters name. */
  lemma AlternativeLeads(lex: Lex, i: nat, s: string)
    requires CommandAlternative(lex, i, s).Done?
    ensures Leads(s) == i
  {
    hide CommandAlternative, Leads;
    var word := OpeningWord(lex, i, s);
    LitLeads(s, word);
  }

  /** On any text at most one of the eleven command parsers succeeds. */
  lemma CommandsAreDisjoint(lex: Lex, s: string)
    ensures AtMostOne(CommandAlternatives(lex, s), COMMANDS)
  {
    forall i: nat, j: nat | i < COMMANDS && j < COMMANDS
                            && CommandAlternatives(lex, s)(i).Done? && CommandAlternatives(lex, s)(j).Done?
      ensures i == j
    {
      AlternativeLeads(lex, i, s);
      AlternativeLeads(lex, j, s);
    }
  }

  /** A text that only one alternative can read is read by that one, or not at all. */
  lemma OnlyAlternative(lex: Lex, k: nat, s: string)
    requires k < COMMANDS && Leads(s) == k
    ensures ParseCommand(lex, s) == CommandAlternative(lex, k, s)
  {
    hide CommandAlternative, Leads;
    if CommandAlternative(lex, k, s).Done? {
      CommandIs(lex, k, s);
    } else {
      forall i: nat | i < COMMANDS ensures CommandAlternatives(lex, s)(i).Fail? {
        if CommandAlternative(lex, i, s).Done? {
          AlternativeLeads(lex, i, s);
        }
      }
      ChooseFails(CommandAlternatives(lex, s), COMMANDS);
    }
  }

  lemma CommandIs(lex: Lex, k: nat, s: string)
    requires k < COMMANDS && CommandAlternative(lex, k, s).Done?
    ensures ParseCommand(lex, s) == CommandAlternative(lex, k, s)
  {
    CommandsAreDisjoint(lex, s);
    ChooseOnly(CommandAlternatives(lex, s), COMMANDS, k);
  }

  lemma CommandOrderIsIrrelevant(lex: Lex, s: string, order: nat -> nat)
    requires Rearranges(order, COMMANDS)
    ensures Choose(Reordered(CommandAlternatives(lex, s), order), COMMANDS) == ParseCommand(lex, s)
  {
    CommandsAreDisjoint(lex, s);
    OrderIsIrrelevant(CommandAlternatives(lex, s), COMMANDS, order);
  }

  // ---- assert ----

  /** An identifier takes all identifier characters there are. */
  lemma {:induction false} SpanAll(lex: Lex, class_: Class, a: string, rest: string)
    requires forall i | 0 <= i < |a| :: In(lex, class_, a[i])
    requires rest == "" || !In(lex, class_, rest[0])
    ensures Span(lex, class_, a + rest) == |a|
    decreases |a|
  {
    if a == "" {
      assert a + rest == rest;
    } else {
      SpanAll(lex, class_, a[1..], rest);
      assert (a + rest)[1..] == a[1..] + rest;
    }
  }

  lemma {:induction false} SpanStops(lex: Lex, class_: Class, s: string)
    ensures var n := Span(lex, class_, s);
            && (forall i | 0 <= i < n :: In(lex, class_, s[i]))
            && (n < |s| ==> !In(lex, class_, s[n]))
    decreases |s|
  {
    if s != "" && In(lex, class_, s[0]) {
      SpanStops(lex, class_, s[1..]);
    }
  }

  /** A word of identifier characters followed by a blank is read as that identifier, and leaves the blank. */
  lemma WordIsIdent(lex: Lex, s: string, word: string)
    requires word != "" && word <= s && forall i | 0 <= i < |word| :: In(lex, IdentChars, word[i])
    requires Space1(lex, s[|word|..]).Done?
    ensures Ident(lex, s) == Done(word, s[|word|..])
  {
    var rest := s[|word|..];
    SpanStops(lex, Blanks, rest);
    assert s == word + rest;
    SpanAll(lex, IdentChars, word, rest);
  }

  /** `x == y` after the first word leaves no identifier where the others expect one. */
  lemma EqualSignIsNoIdent(lex: Lex, s: string)
    requires "==" <= s
    ensures Ident(lex, s).Fail?
  {
    assert s[0] == '=';
  }

  lemma SameFirst(s: string, a: string, b: string)
    requires a != "" && b != "" && a <= s && b <= s
    ensures a[0] == b[0]
  {
    assert s[0] == a[0];
  }

  /** `x == y` needs the equal sign after its first identifier and a blank. */
  lemma EqualNeedsSign(lex: Lex, s: string, word: string, r: string)
    requires Ident(lex, s) == Done(word, r) && AssertEqual(lex, s).Done?
    ensures Space1(lex, r).Done? && Ident(lex, Space1(lex, r).rest).Fail?
  {
    hide Ident, Space1;
    var r' := Space1(lex, r).rest;
    EqualSignIsNoIdent(lex, r');
  }

  lemma QueueIsNotEqual(lex: Lex, s: string)
    requires AssertQueue(lex, s).Done?
    ensures AssertEqual(lex, s).Fail?
  {
    hide Ident, Space1, Integer;
    var r := s[|"queue"|..];
    assert Space1(lex, r).Done? && Ident(lex, Space1(lex, r).rest).Done?;
    WordIsIdent(lex, s, "queue");
    if AssertEqual(lex, s).Done? {
      EqualNeedsSign(lex, s, "queue", r);
      assert false;
    }
  }

  lemma ExactlyOneIsNotEqual(lex: Lex, s: string)
    requires AssertExactlyOne(lex, s).Done?
    ensures AssertEqual(lex, s).Fail?
  {
    hide Ident, Space1;
    var r := s[|"exactly_one_claimed"|..];
    assert Space1(lex, r).Done? && Ident(lex, Space1(lex, r).rest).Done?;
    WordIsIdent(lex, s, "exactly_one_claimed");
    if AssertEqual(lex, s).Done? {
      EqualNeedsSign(lex, s, "exactly_one_claimed", r);
      assert false;
    }
  }

  lemma QueueIsNotExactlyOne(lex: Lex, s: string)
    requires AssertQueue(lex, s).Done?
    ensures AssertExactlyOne(lex, s).Fail?
  {
    hide Ident, Space1, Integer, Idents;
    if "exactly_one_claimed" <= s {
      SameFirst(s, "queue", "exactly_one_claimed");
      assert false;
    }
  }

  /** The three forms of `assert` exclude one another, whatever the variables are called. */
  lemma AssertsAreDisjoint(lex: Lex, s: string)
    ensures AtMostOne(AssertAlternatives(lex, s), ASSERTS)
  {
    hide AssertQueue, AssertExactlyOne, AssertEqual;
    if AssertQueue(lex, s).Done? {
      QueueIsNotEqual(lex, s);
      QueueIsNotExactlyOne(lex, s);
    }
    if AssertExactlyOne(lex, s).Done? {
      ExactlyOneIsNotEqual(lex, s);
    }
  }

  lemma AssertOrderIsIrrelevant(lex: Lex, s: string, order: nat -> nat)
    requires Rearranges(order, ASSERTS)
    ensures Choose(Reordered(AssertAlternatives(lex, s), order), ASSERTS)
            == Choose(AssertAlternatives(lex, s), ASSERTS)
  {
    AssertsAreDisjoint(lex, s);
    OrderIsIrrelevant(AssertAlternatives(lex, s), ASSERTS, order);
  }

  // ---- check ----

  function CheckLeads(s: string): nat {
    if s == "" then 99
    else if s[0] == 's' then 0
    else if s[0] == 'a' then 1
    else if s[0] == 'd' then 2
    else if s[0] == 'g' then 3
    else if s[0] == 'e' then 4
    else 99
  }

  lemma ChecksAreDisjoint(lex: Lex, handle: string, s: string)
    ensures AtMostOne(CheckAlternatives(lex, handle, s), CHECKS)
  {
    forall i: nat | i < CHECKS && CheckAlternatives(lex, handle, s)(i).Done? ensures CheckLeads(s) == i {
      match i
      case 0 => assert "state" <= s && s[0] == "state"[0];
      case 1 => assert "ack" <= s && s[0] == "ack"[0];
      case 2 => assert "data" <= s && s[0] == "data"[0];
      case 3 => assert "gone" <= s && s[0] == "gone"[0];
      case 4 => assert "empty" <= s && s[0] == "empty"[0];
    }
  }

  lemma CheckOrderIsIrrelevant(lex: Lex, handle: string, s: string, order: nat -> nat)
    requires Rearranges(order, CHECKS)
    ensures Choose(Reordered(CheckAlternatives(lex, handle, s), order), CHECKS)
            == Choose(CheckAlternatives(lex, handle, s), CHECKS)
  {
    ChecksAreDisjoint(lex, handle, s);
    OrderIsIrrelevant(CheckAlternatives(lex, handle, s), CHECKS, order);
  }

  // ---- units ----

  /** Of the three units only `ms` and `m` can both start a text; `ms` is tried first. */
  lemma UnitsOverlapOnlyInM(s: string)
    ensures "ms" <= s ==> "m" <= s
    ensures "m" <= s ==> !("s" <= s)
    ensures "ms" <= s ==> forall n: nat :: UnitOf(n, s) == Done(n, s[2..])
    ensures "s" <= s ==> forall n: nat :: UnitOf(n, s) == Done(n * 1_000, s[1..])
    ensures "m" <= s && !("ms" <= s) ==> forall n: nat | n * 60 <= U64_MAX :: UnitOf(n, s) == Done(n * 60_000, s[1..])
  {
    if "ms" <= s {
      assert s[0] == "ms"[0];
      assert s[..1] == "m";
    }
    if "m" <= s {
      assert s[0] == "m"[0];
    }
  }
}
