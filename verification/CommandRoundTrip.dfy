/** Each command parser reads back what the printer writes. */
module CommandRoundTrip {
  import opened Base
  import opened Json
  import opened Scenario
  import opened Grammar
  import opened Printer
  import opened RoundTrip
  import Choice

  // ---- options come back as they were ----

  lemma {:induction false} LastValueConcat(a: seq<Pair>, b: seq<Pair>, key: string)
    ensures LastValue(a + b, key) == if LastValue(b, key).Some? then LastValue(b, key) else LastValue(a, key)
    decreases |b|
  {
    if b == [] {
      assert a + b == a;
    } else {
      assert (a + b)[..|a + b| - 1] == a + b[..|b| - 1];
      LastValueConcat(a, b[..|b| - 1], key);
    }
  }

  lemma LastOfOne(key: string, v: Option<int>, other: string)
    ensures LastValue(PairOf(key, v), other) == if key == other then v else None
  {
    if v.Some? {
      assert PairOf(key, v)[..0] == [];
    }
  }

  lemma FoldQueuePairs(o: QueueSettings)
    ensures FoldQueue(QueuePairs(o)) == o
  {
    hide LastValue, PairOf;
    var (a, b, c, d) := (PairOf("retryLimit", o.retryLimit), PairOf("retryDelay", o.retryDelay),
                         PairOf("expireInSeconds", o.expireInSeconds), PairOf("retentionSeconds", o.retentionSeconds));
    FoldQueueKeepsLast(QueuePairs(o));
    forall key | key in QUEUE_KEYS
      ensures LastValue(QueuePairs(o), key)
              == (if key == "retentionSeconds" then o.retentionSeconds
                  else if key == "expireInSeconds" then o.expireInSeconds
                  else if key == "retryDelay" then o.retryDelay else o.retryLimit)
    {
      LastValueConcat(a, b + (c + d), key);
      LastValueConcat(b, c + d, key);
      LastValueConcat(c, d, key);
      LastOfOne("retryLimit", o.retryLimit, key);
      LastOfOne("retryDelay", o.retryDelay, key);
      LastOfOne("expireInSeconds", o.expireInSeconds, key);
      LastOfOne("retentionSeconds", o.retentionSeconds, key);
    }
  }

  lemma FoldPushPairs(o: PushSettings)
    ensures FoldPush(PushPairs(o)) == o
  {
    hide LastValue, PairOf;
    var (a, b, c, d, e) := (PairOf("priority", o.priority), PairOf("startAfter", o.startAfter),
                            PairOf("retryLimit", o.retryLimit), PairOf("retryDelay", o.retryDelay),
                            PairOf("expireInSeconds", o.expireInSeconds));
    FoldPushKeepsLast(PushPairs(o));
    forall key | key in PUSH_KEYS
      ensures LastValue(PushPairs(o), key)
              == (if key == "expireInSeconds" then o.expireInSeconds
                  else if key == "retryDelay" then o.retryDelay
                  else if key == "retryLimit" then o.retryLimit
                  else if key == "startAfter" then o.startAfter else o.priority)
    {
      LastValueConcat(a, b + (c + (d + e)), key);
      LastValueConcat(b, c + (d + e), key);
      LastValueConcat(c, d + e, key);
      LastValueConcat(d, e, key);
      LastOfOne("priority", o.priority, key);
      LastOfOne("startAfter", o.startAfter, key);
      LastOfOne("retryLimit", o.retryLimit, key);
      LastOfOne("retryDelay", o.retryDelay, key);
      LastOfOne("expireInSeconds", o.expireInSeconds, key);
    }
  }

  lemma QueuePairsOk(o: QueueSettings)
    requires OptionOk(o.retryLimit) && OptionOk(o.retryDelay)
             && OptionOk(o.expireInSeconds) && OptionOk(o.retentionSeconds)
    ensures PairsOk(QueuePairs(o), QUEUE_KEYS)
  {
  }

  lemma PushPairsOk(o: PushSettings)
    requires OptionOk(o.priority) && OptionOk(o.startAfter)
             && OptionOk(o.retryLimit) && OptionOk(o.retryDelay) && OptionOk(o.expireInSeconds)
    ensures PairsOk(PushPairs(o), PUSH_KEYS)
  {
    var expire, delay := PairOf("expireInSeconds", o.expireInSeconds), PairOf("retryDelay", o.retryDelay);
    var limit, start := PairOf("retryLimit", o.retryLimit), PairOf("startAfter", o.startAfter);
    PairOk("expireInSeconds", o.expireInSeconds, PUSH_KEYS);
    PairOk("retryDelay", o.retryDelay, PUSH_KEYS);
    PairOk("retryLimit", o.retryLimit, PUSH_KEYS);
    PairOk("startAfter", o.startAfter, PUSH_KEYS);
    PairOk("priority", o.priority, PUSH_KEYS);
    hide PairsOk, PairOf;
    PairsOkConcat(delay, expire, PUSH_KEYS);
    PairsOkConcat(limit, delay + expire, PUSH_KEYS);
    PairsOkConcat(start, limit + (delay + expire), PUSH_KEYS);
    PairsOkConcat(PairOf("priority", o.priority), start + (limit + (delay + expire)), PUSH_KEYS);
  }

  lemma PairOk(key: string, v: Option<int>, keys: seq<string>)
    requires key in keys && OptionOk(v)
    ensures PairsOk(PairOf(key, v), keys)
  {
  }

  lemma PairsOkConcat(a: seq<Pair>, b: seq<Pair>, keys: seq<string>)
    requires PairsOk(a, keys) && PairsOk(b, keys)
    ensures PairsOk(a + b, keys)
  {
  }

  lemma {:induction false} OverridesBack(pairs: seq<Pair>)
    ensures Overrides(AsOverrides(pairs)) == pairs
    ensures forall i | 0 <= i < |AsOverrides(pairs)| :: AsOverrides(pairs)[i].Override?
    decreases |pairs|
  {
    if pairs != [] {
      OverridesBack(pairs[1..]);
    }
  }

  lemma {:induction false} OverridesConcat(a: seq<PushItem>, b: seq<PushItem>)
    ensures Overrides(a + b) == Overrides(a) + Overrides(b)
    decreases |a|
  {
    if a == [] {
      assert a + b == b;
    } else {
      OverridesConcat(a[1..], b);
      assert (a + b)[1..] == a[1..] + b;
    }
  }

  lemma {:induction false} PayloadFirst(v: Json, items: seq<PushItem>)
    requires forall i | 0 <= i < |items| :: items[i].Override?
    ensures PayloadOf([Payload(v)] + items) == v
    decreases |items|
  {
    var all := [Payload(v)] + items;
    if items != [] {
      PayloadFirst(v, items[..|items| - 1]);
      assert all[..|all| - 1] == [Payload(v)] + items[..|items| - 1];
    }
  }

  // ---- commands ----

  lemma CreateRead(lex: Lex, q: string, o: QueueSettings)
    requires WellFormed(lex, CreateQueue(q, o))
    ensures CreateQueueCmd(lex, Spaced("create", Spaced("queue", q + ShowPairs(QueuePairs(o), ""))))
            == Done(CreateQueue(q, o), "")
  {
    hide QueueOpts, Ident, Words2, Spaced, QueuePairs, FoldQueue;
    var tail := ShowPairs(QueuePairs(o), "");
    QueuePairsOk(o);
    QueueOptsRead(lex, QueuePairs(o));
    FoldQueuePairs(o);
    PairsStart(lex, QueuePairs(o), "");
    IdentRead(lex, q, tail);
    IdentStart(lex, q, tail);
    Words2Read(lex, "create", "queue", q + tail);
  }

  lemma DeleteRead(lex: Lex, q: string)
    requires IsIdent(lex, q)
    ensures DeleteQueueCmd(lex, Spaced("delete", Spaced("queue", q + ""))) == Done(DeleteQueue(q), "")
  {
    IdentRead(lex, q, "");
    IdentStart(lex, q, "");
    hide Ident, Words2, Spaced;
    Words2Read(lex, "delete", "queue", q + "");
  }

  lemma PushRead(lex: Lex, q: string, data: Json, o: PushSettings)
    requires ValidLex(lex) && WellFormed(lex, Push(q, data, o))
    ensures PushCmd(lex, Spaced("push", q + ShowPush(lex, data, PushPairs(o)))) == Done(Push(q, data, o), "")
  {
    var pairs := PushPairs(o);
    var tail := ShowPush(lex, data, pairs);
    PushPairsOk(o);
    FoldPushPairs(o);
    OverridesBack(pairs);
    assert ShowsWell(lex, data);
    hide ValidLex, PushPairs, FoldPush, PushItems, Ident, IsIdent, ShowPush, Overrides, PayloadOf, ShowsWell;
    var items := PushTailRead(lex, data, pairs);
    PushWordRead(lex, q, tail, items);
  }

  /** The payload and the options of a push, in the order in which they are printed. */
  lemma PushTailRead(lex: Lex, data: Json, pairs: seq<Pair>) returns (items: seq<PushItem>)
    requires ShowsWell(lex, data) && PairsOk(pairs, PUSH_KEYS) && Overrides(AsOverrides(pairs)) == pairs
    requires forall i | 0 <= i < |AsOverrides(pairs)| :: AsOverrides(pairs)[i].Override?
    ensures var tail := ShowPush(lex, data, pairs);
            PushItems(lex, tail) == (items, "") && (tail == "" || tail[0] == ' ')
    ensures Overrides(items) == pairs && PayloadOf(items) == data
  {
    hide PushItems, ShowsWell, PairsOk;
    if MessageOk(data) {
      items := [Payload(data)] + AsOverrides(pairs);
      MessageRead(lex, data, pairs);
      PayloadFirst(data, AsOverrides(pairs));
      OverridesConcat([Payload(data)], AsOverrides(pairs));
    } else {
      items := AsOverrides(pairs) + [Payload(data)];
      DataRead(lex, data);
      PushItemsRead(lex, pairs, " " + Spaced("data", lex.show(data)), [Payload(data)]);
      PairsStart(lex, pairs, " " + Spaced("data", lex.show(data)));
      OverridesConcat(AsOverrides(pairs), [Payload(data)]);
    }
    assert Overrides([Payload(data)]) == [];
  }

  lemma PushWordRead(lex: Lex, q: string, tail: string, items: seq<PushItem>)
    requires IsIdent(lex, q) && (tail == "" || tail[0] == ' ') && PushItems(lex, tail) == (items, "")
    ensures PushCmd(lex, Spaced("push", q + tail))
            == Done(Push(q, PayloadOf(items), FoldPush(Overrides(items))), "")
  {
    hide PushItems, Ident, Word, FoldPush, Overrides, PayloadOf;
    IdentRead(lex, q, tail);
    IdentStart(lex, q, tail);
    WordRead(lex, "push", q + tail);
    assert "push" <= Spaced("push", q + tail);
  }

  lemma ConsumeRead(lex: Lex, q: string, h: string, w: Option<Duration>)
    requires WellFormed(lex, Consume(q, h, w))
    ensures ConsumeCmd(lex, Spaced("consume", ShowClaiming(q, h, w))) == Done(Consume(q, h, w), "")
    ensures SpawnCmd(lex, Spaced("spawn", Spaced("consume", ShowClaiming(q, h, w)))) == Done(SpawnConsume(q, h, w), "")
  {
    hide Claiming, Word, Words2, ShowWithin, DurationOk;
    var tail := ShowClaiming(q, h, w);
    ClaimingRead(lex, q, h, w);
    IdentStart(lex, q, " " + Spaced("->", h + ShowWithin(w)));
    WordRead(lex, "consume", tail);
    Words2Read(lex, "spawn", "consume", tail);
    assert "consume" <= Spaced("consume", tail);
  }

  lemma HandleRead(lex: Lex, word: string, h: string, tail: string)
    requires IsIdent(lex, h) && Ends(lex, IdentChars, tail)
    ensures Word(lex, Spaced(word, h + tail), word) == Done((), h + tail)
    ensures Ident(lex, h + tail) == Done(h, tail)
    ensures word <= Spaced(word, h + tail)
  {
    IdentRead(lex, h, tail);
    IdentStart(lex, h, tail);
    WordRead(lex, word, h + tail);
  }

  lemma AwaitRead(lex: Lex, h: string)
    requires IsIdent(lex, h)
    ensures AwaitCmd(lex, Spaced("await", h + "")) == Done(Await(h), "")
  {
    hide Word, Ident, Spaced;
    HandleRead(lex, "await", h, "");
  }

  lemma AckRead(lex: Lex, h: string, output: Option<Json>)
    requires ValidLex(lex) && IsIdent(lex, h)
    ensures AckCmd(lex, Spaced("ack", h + ShowOutput(lex, output))) == Done(Ack(h, output), "")
    ensures FailCmd(lex, Spaced("fail", h + ShowOutput(lex, output))) == Done(Command.Fail(h, output), "")
  {
    hide Word, Ident, Spaced, Output, ShowOutput, ValidLex;
    OutputRead(lex, output);
    HandleRead(lex, "ack", h, ShowOutput(lex, output));
    HandleRead(lex, "fail", h, ShowOutput(lex, output));
  }

  // ---- assert ----

  lemma AssertRead(lex: Lex, k: nat, text: string, c: Command)
    requires k < ASSERTS && Ends(lex, Blanks, text) && AssertAlternative(lex, k, text) == Done(c, "")
    ensures AssertCmd(lex, Spaced("assert", text)) == Done(c, "")
  {
    hide Word, Spaced, AssertAlternative, Choose;
    WordRead(lex, "assert", text);
    Choice.AssertsAreDisjoint(lex, text);
    Choice.ChooseOnly(AssertAlternatives(lex, text), ASSERTS, k);
  }

  lemma QueueAssertRead(lex: Lex, q: string, tail: string)
    requires IsIdent(lex, q) && Ends(lex, Blanks, tail)
    ensures Word(lex, Spaced("queue", Spaced(q, tail)), "queue") == Done((), Spaced(q, tail))
    ensures Ident(lex, Spaced(q, tail)) == Done(q, " " + tail)
    ensures Space1(lex, " " + tail) == Done((), tail)
    ensures Ends(lex, Blanks, Spaced("queue", Spaced(q, tail)))
  {
    HandleRead(lex, "queue", q, " " + tail);
    SpaceRead(lex, tail);
    assert Spaced("queue", Spaced(q, tail))[0] == 'q';
  }

  lemma AssertEmptyRead(lex: Lex, q: string)
    requires IsIdent(lex, q)
    ensures AssertQueue(lex, Spaced("queue", Spaced(q, "empty" + ""))) == Done(AssertQueueEmpty(q), "")
    ensures Ends(lex, Blanks, Spaced("queue", Spaced(q, "empty" + "")))
  {
    hide Word, Ident, Space1, Spaced;
    QueueAssertRead(lex, q, "empty" + "");
    assert "empty"[|"empty"|..] == "";
  }

  lemma AssertSizeRead(lex: Lex, q: string, n: int)
    requires IsIdent(lex, q) && IntOk(n)
    ensures AssertQueue(lex, Spaced("queue", Spaced(q, Spaced("size", ShowInt(n) + ""))))
            == Done(AssertQueueSize(q, n), "")
    ensures Ends(lex, Blanks, Spaced("queue", Spaced(q, Spaced("size", ShowInt(n) + ""))))
  {
    hide Word, Ident, Space1, Integer, ShowInt;
    var size := Spaced("size", ShowInt(n) + "");
    IntStart(lex, n, "");
    assert size[0] == 's';
    hide Spaced;
    QueueAssertRead(lex, q, size);
    NotPrefix("empty", size);
    WordRead(lex, "size", ShowInt(n) + "");
    IntegerRead(lex, n, "");
  }

  lemma IntStart(lex: Lex, n: int, rest: string)
    ensures Ends(lex, Blanks, ShowInt(n) + rest)
  {
    ShowNatReads(if n < 0 then -n else n);
    assert (ShowInt(n) + rest)[0] == ShowInt(n)[0];
  }

  lemma AssertEqRead(lex: Lex, h: string, o: string)
    requires IsIdent(lex, h) && IsIdent(lex, o)
    ensures AssertEqual(lex, Spaced(h, Spaced("==", o + ""))) == Done(AssertVarEq(h, o), "")
    ensures Ends(lex, Blanks, Spaced(h, Spaced("==", o + "")))
  {
    hide Words2Mid, Ident, Space1, Word;
    var tail := Spaced("==", o + "");
    IdentStart(lex, o, "");
    IdentRead(lex, o, "");
    MidRead(lex, "==", o + "");
    assert (" " + tail)[0] == ' ';
    IdentRead(lex, h, " " + tail);
    IdentStart(lex, h, " " + tail);
  }

  lemma AssertOneRead(lex: Lex, hs: seq<string>)
    requires WellFormed(lex, AssertExactlyOneClaimed(hs))
    ensures AssertExactlyOne(lex, "exactly_one_claimed" + ShowNames(hs)) == Done(AssertExactlyOneClaimed(hs), "")
    ensures Ends(lex, Blanks, "exactly_one_claimed" + ShowNames(hs))
  {
    hide Idents, Lit, ShowNames, IsIdent;
    NamesRead(lex, hs);
    LitRead("exactly_one_claimed", ShowNames(hs));
    assert ("exactly_one_claimed" + ShowNames(hs))[0] == 'e';
  }

  // ---- check ----

  lemma CheckRead(lex: Lex, k: nat, h: string, text: string, c: Command)
    requires IsIdent(lex, h) && k < CHECKS && Ends(lex, Blanks, text)
    requires CheckAlternative(lex, h, k, text) == Done(c, "")
    ensures CheckCmd(lex, Spaced("check", Spaced(h, text))) == Done(c, "")
  {
    hide Word, Ident, Space1, CheckAlternative, Choose;
    HandleRead(lex, "check", h, " " + text);
    SpaceRead(lex, text);
    Choice.ChecksAreDisjoint(lex, h, text);
    Choice.ChooseOnly(CheckAlternatives(lex, h, text), CHECKS, k);
  }

  lemma StateRead(s: string)
    requires s in STATES
    ensures StateLit(s + "") == Done(s, "")
  {
    assert s + "" == s && s[|s|..] == "";
    if "created" <= s { assert s[1] == 'r'; }
    if "completed" <= s { assert s[1] == 'o'; }
    if "cancelled" <= s { assert s[1] == 'a'; }
    if "retry" <= s { assert s[0] == 'r'; }
    if "active" <= s { assert s[0] == 'a'; }
    if "failed" <= s { assert s[0] == 'f'; }
  }

  lemma CheckStateRead(lex: Lex, h: string, s: string)
    requires s in STATES
    ensures CheckAlternative(lex, h, 0, Spaced("state", s + "")) == Done(CheckState(h, s), "")
    ensures Ends(lex, Blanks, Spaced("state", s + ""))
  {
    hide Word, StateLit;
    StateRead(s);
    assert Ends(lex, Blanks, s + "");
    WordRead(lex, "state", s + "");
    assert Spaced("state", s + "")[0] == 's';
  }

  lemma CheckAckRead(lex: Lex, h: string, w: Option<Duration>)
    requires WithinOk(w)
    ensures CheckAlternative(lex, h, 1, "ack" + ShowWithin(w)) == Done(CheckAck(h, w), "")
    ensures Ends(lex, Blanks, "ack" + ShowWithin(w))
  {
    hide Lit, Within, ShowWithin, DurationOk;
    WithinRead(lex, w);
    LitRead("ack", ShowWithin(w));
    assert ("ack" + ShowWithin(w))[0] == 'a';
  }

  lemma CheckPlainRead(lex: Lex, h: string)
    ensures CheckAlternative(lex, h, 4, "empty" + "") == Done(CheckEmpty(h), "")
    ensures CheckAlternative(lex, h, 3, "gone" + "") == Done(CheckGone(h), "")
    ensures Ends(lex, Blanks, "empty" + "") && Ends(lex, Blanks, "gone" + "")
  {
    LitRead("empty", "");
    LitRead("gone", "");
    assert ("empty" + "")[0] == 'e' && ("gone" + "")[0] == 'g';
  }

  lemma CheckDataRead(lex: Lex, h: string, v: Json)
    requires ShowsWell(lex, v)
    ensures CheckAlternative(lex, h, 2, Spaced("data", lex.show(v))) == Done(CheckData(h, v), "")
    ensures Ends(lex, Blanks, Spaced("data", lex.show(v)))
  {
    hide Word, JsonValue;
    JsonRead(lex, v);
    WordRead(lex, "data", lex.show(v));
    assert Spaced("data", lex.show(v))[0] == 'd';
  }

  // ---- all of them ----

  /** Which alternative a command belongs to. */
  function IndexOf(c: Command): nat {
    match c
    case CreateQueue(_, _) => 0
    case DeleteQueue(_) => 1
    case Maintain => 2
    case Push(_, _, _) => 3
    case SpawnConsume(_, _, _) => 4
    case Consume(_, _, _) => 5
    case Ack(_, _) => 6
    case Fail(_, _) => 7
    case Await(_) => 8
    case AssertQueueEmpty(_) => 9
    case AssertQueueSize(_, _) => 9
    case AssertVarEq(_, _) => 9
    case AssertExactlyOneClaimed(_) => 9
    case _ => 10
  }

  lemma AssertionRead(lex: Lex, c: Command)
    requires WellFormed(lex, c) && IndexOf(c) == 9
    ensures AssertCmd(lex, Print(lex, c)) == Done(c, "")
  {
    hide Spaced, AssertCmd, AssertQueue, AssertExactlyOne, AssertEqual, ShowInt, ShowNames, Ends;
    match c
    case AssertQueueEmpty(q) =>
      AssertEmptyRead(lex, q);
      AssertRead(lex, 0, Spaced("queue", Spaced(q, "empty" + "")), c);
    case AssertQueueSize(q, n) =>
      AssertSizeRead(lex, q, n);
      AssertRead(lex, 0, Spaced("queue", Spaced(q, Spaced("size", ShowInt(n) + ""))), c);
    case AssertVarEq(h, o) =>
      AssertEqRead(lex, h, o);
      AssertRead(lex, 2, Spaced(h, Spaced("==", o + "")), c);
    case AssertExactlyOneClaimed(hs) =>
      AssertOneRead(lex, hs);
      AssertRead(lex, 1, "exactly_one_claimed" + ShowNames(hs), c);
  }

  lemma CheckingRead(lex: Lex, c: Command)
    requires ValidLex(lex) && WellFormed(lex, c) && IndexOf(c) == 10
    ensures CheckCmd(lex, Print(lex, c)) == Done(c, "")
  {
    hide Spaced, CheckCmd, CheckAlternative, ShowWithin, Ends;
    match c
    case CheckState(h, s) =>
      CheckStateRead(lex, h, s);
      CheckRead(lex, 0, h, Spaced("state", s + ""), c);
    case CheckAck(h, w) =>
      CheckAckRead(lex, h, w);
      CheckRead(lex, 1, h, "ack" + ShowWithin(w), c);
    case CheckEmpty(h) =>
      CheckPlainRead(lex, h);
      CheckRead(lex, 4, h, "empty" + "", c);
    case CheckGone(h) =>
      CheckPlainRead(lex, h);
      CheckRead(lex, 3, h, "gone" + "", c);
    case CheckData(h, v) =>
      assert ShowsWell(lex, v);
      CheckDataRead(lex, h, v);
      CheckRead(lex, 2, h, Spaced("data", lex.show(v)), c);
  }

  lemma AlternativeRead(lex: Lex, c: Command)
    requires ValidLex(lex) && WellFormed(lex, c)
    ensures CommandAlternative(lex, IndexOf(c), Print(lex, c)) == Done(c, "")
  {
    hide CreateQueueCmd, DeleteQueueCmd, PushCmd, SpawnCmd, ConsumeCmd, AckCmd, FailCmd, AwaitCmd,
         AssertCmd, CheckCmd, ValidLex, Spaced, ShowPairs, ShowPush, ShowClaiming, ShowOutput, MaintainCmd;
    match c
    case CreateQueue(q, o) => CreateRead(lex, q, o);
    case DeleteQueue(q) => DeleteRead(lex, q);
    case Maintain => MaintainRead(lex);
    case Push(q, data, o) => PushRead(lex, q, data, o);
    case SpawnConsume(q, h, w) => ConsumeRead(lex, q, h, w);
    case Consume(q, h, w) => ConsumeRead(lex, q, h, w);
    case Ack(h, output) => AckRead(lex, h, output);
    case Fail(h, output) => AckRead(lex, h, output);
    case Await(h) => AwaitRead(lex, h);
    case _ =>
      if IndexOf(c) == 9 {
        AssertionRead(lex, c);
      } else {
        CheckingRead(lex, c);
      }
  }

  lemma MaintainRead(lex: Lex)
    ensures MaintainCmd("maintain") == Done(Maintain, "")
  {
    assert "maintain" + "" == "maintain";
    LitRead("maintain", "");
  }

  /** Parsing a printed command gives the command back and leaves nothing over. */
  lemma CommandRead(lex: Lex, c: Command)
    requires ValidLex(lex) && WellFormed(lex, c)
    ensures ParseCommand(lex, Print(lex, c)) == Done(c, "")
  {
    hide Print, CommandAlternative, ParseCommand;
    AlternativeRead(lex, c);
    Choice.CommandIs(lex, IndexOf(c), Print(lex, c));
  }
}
