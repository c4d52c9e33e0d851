/** What the parser accepts beside the canonical text: other words, other spacing, other prefixes. And what it rejects. */
module Wording {
  import opened Base
  import opened Json
  import opened Scenario
  import opened Grammar
  import opened Printer
  import opened RoundTrip
  import opened ScriptParser
  import CommandRoundTrip
  import Choice

  // ---- words with a synonym ----

  lemma LeadsOf(a: string, rest: string)
    requires |a| >= 3
    ensures Choice.Leads(a + rest) == Choice.Leads(a)
  {
    assert (a + rest)[0] == a[0] && (a + rest)[1] == a[1] && (a + rest)[2] == a[2];
  }

  lemma EitherWord(lex: Lex, a: string, b: string, rest: string)
    requires a != "" && b != "" && a[0] != b[0]
    ensures Word1Of2(lex, a + rest, a, b) == Word1Of2(lex, b + rest, a, b)
    ensures Word1Of2(lex, a + rest, a, b) == Space1(lex, rest)
  {
    LitRead(a, rest);
    LitRead(b, rest);
    assert (b + rest)[0] == b[0];
    NotPrefix(a, b + rest);
  }

  lemma SameCommand(lex: Lex, k: nat, a: string, b: string, rest: string)
    requires k < COMMANDS && |a| >= 3 && |b| >= 3 && Choice.Leads(a) == k && Choice.Leads(b) == k
    requires CommandAlternative(lex, k, a + rest) == CommandAlternative(lex, k, b + rest)
    ensures ParseCommand(lex, a + rest) == ParseCommand(lex, b + rest)
  {
    LeadsOf(a, rest);
    LeadsOf(b, rest);
    hide CommandAlternative, Choice.Leads, ParseCommand;
    Choice.OnlyAlternative(lex, k, a + rest);
    Choice.OnlyAlternative(lex, k, b + rest);
  }

  lemma Synonyms()
    ensures Choice.Leads("send") == 3 == Choice.Leads("push")
    ensures Choice.Leads("fetch") == 5 == Choice.Leads("consume")
    ensures Choice.Leads("complete") == 6 == Choice.Leads("ack")
    ensures "push"[0] != "send"[0] && "consume"[0] != "fetch"[0] && "ack"[0] != "complete"[0]
  {
  }

  /** `send` reads as `push`, whatever follows. */
  lemma SendIsPush(lex: Lex, rest: string)
    ensures ParseCommand(lex, "send" + rest) == ParseCommand(lex, "push" + rest)
  {
    Synonyms();
    hide Word1Of2, PushItems, Ident, ParseCommand, Choice.Leads, FoldPush, PayloadOf, Overrides;
    EitherWord(lex, "push", "send", rest);
    SameCommand(lex, 3, "send", "push", rest);
  }

  /** `fetch` reads as `consume`. */
  lemma FetchIsConsume(lex: Lex, rest: string)
    ensures ParseCommand(lex, "fetch" + rest) == ParseCommand(lex, "consume" + rest)
  {
    Synonyms();
    hide Word1Of2, Claiming, ParseCommand, Choice.Leads;
    EitherWord(lex, "consume", "fetch", rest);
    SameCommand(lex, 5, "fetch", "consume", rest);
  }

  /** `complete` reads as `ack`. */
  lemma CompleteIsAck(lex: Lex, rest: string)
    ensures ParseCommand(lex, "complete" + rest) == ParseCommand(lex, "ack" + rest)
  {
    Synonyms();
    hide Word1Of2, Ident, Output, ParseCommand, Choice.Leads;
    EitherWord(lex, "ack", "complete", rest);
    SameCommand(lex, 6, "complete", "ack", rest);
  }

  // ---- spacing and prefixes ----

  /** Words are separated by any number of blanks and tabs. */
  lemma BlanksRead(lex: Lex, blanks: string, rest: string)
    requires blanks != "" && forall i | 0 <= i < |blanks| :: blanks[i] == ' ' || blanks[i] == '\t'
    requires rest == "" || (rest[0] != ' ' && rest[0] != '\t')
    ensures Space1(lex, blanks + rest) == Done((), rest)
  {
    TakeRead(lex, Blanks, blanks, rest);
  }

  /** A statement without a prefix is for client 1. */
  lemma NoPrefixIsClientOne(lex: Lex, s: string)
    requires s == "" || s[0] != '#'
    ensures ParseStatement(lex, s) == match ParseCommand(lex, s)
                                      case Fail => Parsed.Fail
                                      case Done(c, rest) => Done((1, c), rest)
  {
    hide ParseCommand, Unsigned, Space1;
    if s != "" {
      NotPrefix("#", s);
    }
  }

  lemma HeaderName(lex: Lex, name: string, tail: string)
    requires IsIdent(lex, name) && Ends(lex, IdentChars, tail)
    ensures Header(lex, "scenario " + (name + tail)) == Done(name, if ":" <= tail then tail[1..] else tail)
  {
    hide Ident, Word, IsIdent, Ends;
    HeaderWord(lex, name, tail);
    IdentRead(lex, name, tail);
  }

  lemma HeaderWord(lex: Lex, name: string, tail: string)
    requires IsIdent(lex, name)
    ensures Word(lex, "scenario " + (name + tail), "scenario") == Done((), name + tail)
  {
    hide Word, IsIdent;
    IdentStart(lex, name, tail);
    WordRead(lex, "scenario", name + tail);
    assert "scenario " + (name + tail) == Spaced("scenario", name + tail);
  }

  /** The colon after the name of a scenario may be missing. */
  lemma ColonIsOptional(lex: Lex, name: string)
    requires IsIdent(lex, name)
    ensures Header(lex, "scenario " + name) == Done(name, "") == Header(lex, "scenario " + (name + ":"))
  {
    hide Header, IsIdent;
    HeaderName(lex, name, "");
    HeaderName(lex, name, ":");
    assert name + "" == name;
  }

  /** Anything else after the name is an error of that line. */
  lemma HeaderWithMore(lex: Lex, lineNo: nat, name: string, more: string)
    requires IsIdent(lex, name) && more != "" && !IsSpace(more[0])
    ensures ParseHeader(lex, lineNo, "scenario " + (name + (" " + more))) == Err(DslError(lineNo, AfterHeader))
  {
    hide Header, IsIdent;
    HeaderName(lex, name, " " + more);
    assert TrimStart(" " + more) == more;
    TrimKeeps(more);
  }

  // ---- letters and numbers ----

  /** The ASCII characters of names. */
  lemma NameLetters(lex: Lex, c: char)
    requires c as int < 0x80
    ensures In(lex, IdentChars, c) <==>
              'a' <= c <= 'z' || 'A' <= c <= 'Z' || '0' <= c <= '9' || c == '_' || c == '-'
    ensures In(lex, Digits, c) <==> '0' <= c <= '9'
  {
  }

  /** Integers have 64 bits, client numbers 32, and durations count milliseconds in 64 bits without a sign. */
  lemma NumbersHaveBits(lex: Lex, n: int)
    ensures Integer(lex, ShowInt(n)).Done? <==> -0x8000_0000_0000_0000 <= n <= 0x7fff_ffff_ffff_ffff
    ensures n >= 0 ==> (ParseDuration(lex, ShowNat(n) + "ms").Done? <==> n <= 0xffff_ffff_ffff_ffff)
    ensures n >= 0 ==> (ClientPrefix(lex, "#" + (ShowNat(n) + " maintain")).1 == "maintain" <==> n <= 0xffff_ffff)
  {
    hide TakeSome, ShowNat, NatOf, Space1;
    var m: nat := if n < 0 then -n else n;
    DigitsRead(lex, m, "");
    assert ShowNat(m) + "" == ShowNat(m);
    if n < 0 {
      assert ShowInt(n)[1..] == ShowNat(m);
    } else {
      DigitsRead(lex, m, "ms");
      DigitsRead(lex, m, " maintain");
      PrefixEnds(lex, m);
    }
  }

  lemma PrefixEnds(lex: Lex, n: nat)
    requires TakeSome(lex, Digits, ShowNat(n) + " maintain") == Done(ShowNat(n), " maintain") && NatOf(ShowNat(n)) == n
    ensures ClientPrefix(lex, "#" + (ShowNat(n) + " maintain")).1 == "maintain" <==> n <= U32_MAX
  {
    hide TakeSome, ShowNat, NatOf, Space1;
    LitRead("#", ShowNat(n) + " maintain");
    SpaceRead(lex, "maintain");
    assert " " + "maintain" == " maintain";
    assert |"#" + (ShowNat(n) + " maintain")| > |"maintain"|;
  }

  /** The states a check can name. */
  lemma StateWords(word: string)
    requires word in ["created", "retry", "active", "completed", "cancelled", "failed"]
    ensures StateLit(word) == Done(word, "")
  {
    CommandRoundTrip.StateRead(word);
  }

  /** Of several payloads the last counts; without any the payload is an empty object. */
  lemma LastPayloadCounts(items: seq<PushItem>, v: Json, p: Pair)
    ensures PayloadOf([]) == Obj(map[]) && PayloadOf(items + [Payload(v)]) == v
    ensures PayloadOf(items + [Override(p)]) == PayloadOf(items)
  {
    assert (items + [Payload(v)])[..|items|] == items && (items + [Override(p)])[..|items|] == items;
  }

  // ---- unknown options ----

  /** Text that no option of a queue starts like. */
  predicate NoQueueOption(junk: string) {
    && junk != "" && !IsSpace(junk[0])
    && !("retryLimit" <= junk) && !("retryDelay" <= junk) && !("expireInSeconds" <= junk)
    && !("retentionSeconds" <= junk)
  }

  /** An unknown option is not skipped: it is left over, and the line is an error. */
  lemma UnknownQueueOption(lex: Lex, lineNo: nat, q: string, pairs: seq<Pair>, junk: string)
    requires IsIdent(lex, q) && PairsOk(pairs, QUEUE_KEYS) && NoQueueOption(junk)
    ensures ParseLine(lex, lineNo, Spaced("create", Spaced("queue", q + ShowPairs(pairs, " " + junk))))
            == Err(DslError(lineNo, TrailingInput))
  {
    var text := Spaced("create", Spaced("queue", q + ShowPairs(pairs, " " + junk)));
    CreateStops(lex, q, pairs, junk);
    CreateLeads(Spaced("queue", q + ShowPairs(pairs, " " + junk)));
    hide Trim, ParseCommand, ParseStatement, CreateQueueCmd, NoQueueOption, Spaced, ShowPairs, FoldQueue, Choice.Leads;
    Choice.OnlyAlternative(lex, 0, text);
    NoPrefixIsClientOne(lex, text);
    Remains(junk);
  }

  lemma CreateLeads(rest: string)
    ensures Choice.Leads(Spaced("create", rest)) == 0 && Spaced("create", rest) != "" && Spaced("create", rest)[0] != '#'
  {
    var text := Spaced("create", rest);
    assert text[0] == 'c' && text[1] == 'r' && text[2] == 'e';
  }

  lemma CreateStops(lex: Lex, q: string, pairs: seq<Pair>, junk: string)
    requires IsIdent(lex, q) && PairsOk(pairs, QUEUE_KEYS) && NoQueueOption(junk)
    ensures CreateQueueCmd(lex, Spaced("create", Spaced("queue", q + ShowPairs(pairs, " " + junk))))
            == Done(CreateQueue(q, FoldQueue(pairs)), " " + junk)
  {
    hide QueueOpts, Ident, Words2, FoldQueue, NoQueueOption, Spaced;
    var left := " " + junk;
    NotAnOption(lex, junk);
    QueueOptsUntil(lex, pairs, left);
    PairsStart(lex, pairs, left);
    IdentRead(lex, q, ShowPairs(pairs, left));
    IdentStart(lex, q, ShowPairs(pairs, left));
    Words2Read(lex, "create", "queue", q + ShowPairs(pairs, left));
  }

  lemma NotAnOption(lex: Lex, junk: string)
    requires NoQueueOption(junk)
    ensures QueueOpts(lex, " " + junk) == ([], " " + junk)
  {
    SpaceRead(lex, junk);
  }

  lemma Remains(junk: string)
    requires NoQueueOption(junk)
    ensures Trim(" " + junk) != ""
  {
    assert TrimStart(" " + junk) == junk;
    TrimKeeps(junk);
  }

  lemma {:induction false} TrimKeeps(s: string)
    requires s != "" && !IsSpace(s[0])
    ensures TrimEnd(s) != ""
    decreases |s|
  {
    if IsSpace(s[|s| - 1]) {
      TrimKeeps(s[..|s| - 1]);
    }
  }
}
