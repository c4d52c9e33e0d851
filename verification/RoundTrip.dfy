/** Parsing undoes printing, command by command and for whole scenarios. */
module RoundTrip {
  import opened Base
  import opened Json
  import opened Scenario
  import opened Grammar
  import opened Printer
  import Choice

  // ---- leaves ----

  /** `rest` does not go on with a character of the class. */
  predicate Ends(lex: Lex, class_: Class, rest: string) {
    rest == "" || !In(lex, class_, rest[0])
  }

  lemma LitRead(word: string, rest: string)
    ensures Lit(word + rest, word) == Done((), rest)
  {
    assert (word + rest)[|word|..] == rest;
  }

  lemma TakeRead(lex: Lex, class_: Class, a: string, rest: string)
    requires AllIn(lex, class_, a) && Ends(lex, class_, rest)
    ensures TakeWhile(lex, class_, a + rest) == Done(a, rest)
    ensures a != "" ==> TakeSome(lex, class_, a + rest) == Done(a, rest)
  {
    Choice.SpanAll(lex, class_, a, rest);
    assert (a + rest)[..|a|] == a && (a + rest)[|a|..] == rest;
  }

  lemma IdentRead(lex: Lex, name: string, rest: string)
    requires IsIdent(lex, name) && Ends(lex, IdentChars, rest)
    ensures Ident(lex, name + rest) == Done(name, rest)
  {
    TakeRead(lex, IdentChars, name, rest);
  }

  lemma SpaceRead(lex: Lex, rest: string)
    requires Ends(lex, Blanks, rest)
    ensures Space1(lex, " " + rest) == Done((), rest)
  {
    TakeRead(lex, Blanks, " ", rest);
  }

  /** A printed word is followed by one space, and the space by something else. */
  lemma WordRead(lex: Lex, word: string, rest: string)
    requires Ends(lex, Blanks, rest)
    ensures Word(lex, Spaced(word, rest), word) == Done((), rest)
  {
    LitRead(word, " " + rest);
    SpaceRead(lex, rest);
  }

  lemma MidRead(lex: Lex, word: string, rest: string)
    requires word != "" && !In(lex, Blanks, word[0]) && Ends(lex, Blanks, rest)
    ensures Words2Mid(lex, " " + Spaced(word, rest), word) == Done((), rest)
  {
    assert Spaced(word, rest)[0] == word[0];
    SpaceRead(lex, Spaced(word, rest));
    WordRead(lex, word, rest);
  }

  lemma Words2Read(lex: Lex, a: string, b: string, rest: string)
    requires b != "" && !In(lex, Blanks, b[0]) && Ends(lex, Blanks, rest)
    ensures Words2(lex, Spaced(a, Spaced(b, rest)), a, b) == Done((), rest)
  {
    assert Spaced(b, rest)[0] == b[0];
    WordRead(lex, a, Spaced(b, rest));
    LitRead(b, " " + rest);
    SpaceRead(lex, rest);
  }

  // ---- numbers ----

  lemma {:induction false} ShowNatReads(n: nat)
    ensures ShowNat(n) != "" && NatOf(ShowNat(n)) == n
    ensures forall i | 0 <= i < |ShowNat(n)| :: IsDigit(ShowNat(n)[i])
    decreases n
  {
    if n >= 10 {
      ShowNatReads(n / 10);
      var s := ShowNat(n);
      assert s[..|s| - 1] == ShowNat(n / 10);
    } else {
      assert ShowNat(n)[..0] == "";
    }
  }

  lemma UnsignedRead(lex: Lex, n: nat, max: int, rest: string)
    requires n <= max && Ends(lex, Digits, rest)
    ensures Unsigned(lex, ShowNat(n) + rest, max) == Done(n, rest)
  {
    ShowNatReads(n);
    TakeRead(lex, Digits, ShowNat(n), rest);
  }

  lemma DigitsRead(lex: Lex, n: nat, rest: string)
    requires Ends(lex, Digits, rest)
    ensures TakeSome(lex, Digits, ShowNat(n) + rest) == Done(ShowNat(n), rest)
    ensures NatOf(ShowNat(n)) == n && ShowNat(n) != "" && IsDigit(ShowNat(n)[0])
  {
    ShowNatReads(n);
    TakeRead(lex, Digits, ShowNat(n), rest);
  }

  lemma IntegerRead(lex: Lex, n: int, rest: string)
    requires IntOk(n) && Ends(lex, Digits, rest)
    ensures Integer(lex, ShowInt(n) + rest) == Done(n, rest)
  {
    hide TakeSome, ShowNat, NatOf;
    var digits := if n < 0 then ShowNat(-n) else ShowNat(n);
    DigitsRead(lex, if n < 0 then -n else n, rest);
    if n < 0 {
      assert (ShowInt(n) + rest)[1..] == digits + rest;
    } else {
      assert (ShowInt(n) + rest)[0] == digits[0];
    }
  }

  lemma DurationRead(lex: Lex, d: Duration)
    requires DurationOk(d)
    ensures ParseDuration(lex, ShowDuration(d)) == Done(d, "")
  {
    if d <= U64_MAX {
      UnsignedRead(lex, d, U64_MAX, "ms");
    } else {
      UnsignedRead(lex, d / 1000, U64_MAX, "s");
      assert !("ms" <= "s");
    }
  }

  // ---- white space and JSON ----

  lemma TrimNothing(s: string)
    requires s != "" && !IsSpace(s[0]) && LastOk(s)
    ensures Trim(s) == s
  {
  }

  lemma JsonRead(lex: Lex, v: Json)
    requires ShowsWell(lex, v)
    ensures JsonValue(lex, lex.show(v)) == Done(v, "")
    ensures Ends(lex, Blanks, lex.show(v))
  {
    TrimNothing(lex.show(v));
  }

  // ---- clauses ----

  lemma DurationStart(lex: Lex, d: Duration)
    ensures Ends(lex, Blanks, ShowDuration(d))
  {
    ShowNatReads(d);
    ShowNatReads(d / 1000);
    assert IsDigit(ShowDuration(d)[0]);
  }

  lemma NothingRead(lex: Lex)
    ensures Space1(lex, "").Fail?
  {
  }

  lemma WithinRead(lex: Lex, w: Option<Duration>)
    requires WithinOk(w)
    ensures Within(lex, ShowWithin(w)) == Done(w, "")
    ensures Ends(lex, IdentChars, ShowWithin(w))
  {
    hide ParseDuration, ShowDuration, Space1, Word, Lit;
    match w
    case None => NothingRead(lex);
    case Some(d) =>
      DurationRead(lex, d);
      DurationStart(lex, d);
      hide Words2Mid, Spaced, DurationOk;
      MidRead(lex, "within", ShowDuration(d));
  }

  lemma OutputRead(lex: Lex, output: Option<Json>)
    requires ValidLex(lex)
    ensures Output(lex, ShowOutput(lex, output)) == Done(output, "")
    ensures Ends(lex, IdentChars, ShowOutput(lex, output))
  {
    hide JsonValue, Space1, Word, Lit;
    match output
    case None => NothingRead(lex);
    case Some(v) =>
      assert ShowsWell(lex, v);
      JsonRead(lex, v);
      hide Words2Mid, Spaced, ValidLex;
      MidRead(lex, "output", lex.show(v));
  }

  lemma IdentStart(lex: Lex, name: string, rest: string)
    requires IsIdent(lex, name)
    ensures Ends(lex, Blanks, name + rest)
  {
    assert In(lex, IdentChars, (name + rest)[0]);
  }

  lemma ClaimingRead(lex: Lex, q: string, h: string, w: Option<Duration>)
    requires IsIdent(lex, q) && IsIdent(lex, h) && WithinOk(w)
    ensures Claiming(lex, ShowClaiming(q, h, w)) == Done((q, h, w), "")
  {
    hide Within, ShowWithin, Ident, Words2Mid, IsIdent, WithinOk, Ends, Spaced;
    var handle := h + ShowWithin(w);
    var arrow := Spaced("->", handle);
    WithinRead(lex, w);
    IdentRead(lex, h, ShowWithin(w));
    IdentStart(lex, h, ShowWithin(w));
    ArrowRead(lex, handle);
    BlankEnds(lex, arrow);
    IdentRead(lex, q, " " + arrow);
  }

  lemma ArrowRead(lex: Lex, rest: string)
    requires Ends(lex, Blanks, rest)
    ensures Words2Mid(lex, " " + Spaced("->", rest), "->") == Done((), rest)
  {
    MidRead(lex, "->", rest);
  }

  lemma BlankEnds(lex: Lex, rest: string)
    ensures Ends(lex, IdentChars, " " + rest)
  {
  }

  lemma {:induction false} NamesRead(lex: Lex, names: seq<string>)
    requires forall i | 0 <= i < |names| :: IsIdent(lex, names[i])
    ensures Idents(lex, ShowNames(names)) == (names, "")
    ensures Ends(lex, IdentChars, ShowNames(names))
    decreases |names|
  {
    if names == [] {
      assert Space1(lex, "").Fail?;
    } else {
      var tail := ShowNames(names[1..]);
      NamesRead(lex, names[1..]);
      IdentRead(lex, names[0], tail);
      IdentStart(lex, names[0], tail);
      SpaceRead(lex, names[0] + tail);
      assert names == [names[0]] + names[1..];
    }
  }

  lemma PrefixFirst(word: string, s: string)
    requires word != "" && word <= s
    ensures s[0] == word[0]
  {
  }

  lemma NotPrefix(word: string, s: string)
    requires word != "" && s != "" && s[0] != word[0]
    ensures !(word <= s)
  {
    if word <= s {
      PrefixFirst(word, s);
      assert false;
    }
  }

  // ---- options ----

  predicate PairsOk(pairs: seq<Pair>, keys: seq<string>) {
    forall i | 0 <= i < |pairs| :: pairs[i].0 in keys && IntOk(pairs[i].1)
  }

  const QUEUE_KEYS: seq<string> := ["retryLimit", "retryDelay", "expireInSeconds", "retentionSeconds"]
  const PUSH_KEYS: seq<string> := ["priority", "startAfter", "retryLimit", "retryDelay", "expireInSeconds"]

  lemma QueueKeyRead(key: string, rest: string)
    requires key in QUEUE_KEYS
    ensures QueueKey(key + rest) == Done(key, rest)
  {
    LitRead(key, rest);
    Choice.LitLeads(key + rest, key);
    var s := key + rest;
    assert s[0] == key[0] && s[2] == key[2] && s[5] == key[5];
  }

  lemma PushKeyRead(key: string, rest: string)
    requires key in PUSH_KEYS
    ensures PushKey(key + rest) == Done(key, rest)
    ensures (key + rest)[0] != 'm' && (key + rest)[0] != 'd'
  {
    LitRead(key, rest);
    var s := key + rest;
    assert s[0] == key[0] && s[5] == key[5];
  }

  lemma AssignedRead(lex: Lex, key: string, v: int, rest: string)
    requires IntOk(v) && Ends(lex, Digits, rest)
    ensures Assigned(lex, Done(key, "=" + (ShowInt(v) + rest))) == Done((key, v), rest)
  {
    LitRead("=", ShowInt(v) + rest);
    IntegerRead(lex, v, rest);
  }

  lemma PairsStart(lex: Lex, pairs: seq<Pair>, tail: string)
    requires tail == "" || tail[0] == ' '
    ensures ShowPairs(pairs, tail) == "" || ShowPairs(pairs, tail)[0] == ' '
  {
  }

  lemma KeyStart(lex: Lex, key: string, rest: string)
    requires key in QUEUE_KEYS + PUSH_KEYS
    ensures Ends(lex, Blanks, key + rest)
  {
    assert (key + rest)[0] == key[0];
  }

  lemma QueueOptRead(lex: Lex, key: string, v: int, tail: string, more: seq<Pair>, rest: string)
    requires key in QUEUE_KEYS && IntOk(v) && Ends(lex, Digits, tail) && QueueOpts(lex, tail) == (more, rest)
    ensures QueueOpts(lex, " " + (key + ("=" + (ShowInt(v) + tail)))) == ([(key, v)] + more, rest)
  {
    hide Space1, QueueKey, Assigned, ShowInt;
    var text := "=" + (ShowInt(v) + tail);
    KeyStart(lex, key, text);
    SpaceRead(lex, key + text);
    QueueKeyRead(key, text);
    AssignedRead(lex, key, v, tail);
  }

  lemma QueueOptsRead(lex: Lex, pairs: seq<Pair>)
    requires PairsOk(pairs, QUEUE_KEYS)
    ensures QueueOpts(lex, ShowPairs(pairs, "")) == (pairs, "")
  {
    NothingRead(lex);
    QueueOptsUntil(lex, pairs, "");
  }

  /** Options are read up to a rest that is none. */
  lemma {:induction false} QueueOptsUntil(lex: Lex, pairs: seq<Pair>, rest: string)
    requires PairsOk(pairs, QUEUE_KEYS) && QueueOpts(lex, rest) == ([], rest) && (rest == "" || rest[0] == ' ')
    ensures QueueOpts(lex, ShowPairs(pairs, rest)) == (pairs, rest)
    decreases |pairs|
  {
    hide QueueOpts, ShowInt, ShowPairs, PairsOk;
    ShownPairs(pairs, rest);
    if pairs != [] {
      PairsSplit(pairs, QUEUE_KEYS);
      var more := ShowPairs(pairs[1..], rest);
      PairsStart(lex, pairs[1..], rest);
      QueueOptsUntil(lex, pairs[1..], rest);
      QueueOptRead(lex, pairs[0].0, pairs[0].1, more, pairs[1..], rest);
      assert pairs == [(pairs[0].0, pairs[0].1)] + pairs[1..];
    }
  }

  lemma ShownPairs(pairs: seq<Pair>, tail: string)
    ensures pairs == [] ==> ShowPairs(pairs, tail) == tail
    ensures pairs != [] ==> ShowPairs(pairs, tail)
                            == " " + (pairs[0].0 + ("=" + (ShowInt(pairs[0].1) + ShowPairs(pairs[1..], tail))))
  {
  }

  lemma PairsSplit(pairs: seq<Pair>, keys: seq<string>)
    requires pairs != [] && PairsOk(pairs, keys)
    ensures pairs[0].0 in keys && IntOk(pairs[0].1) && PairsOk(pairs[1..], keys)
  {
  }

  function AsOverrides(pairs: seq<Pair>): seq<PushItem> {
    if pairs == [] then [] else [Override(pairs[0])] + AsOverrides(pairs[1..])
  }

  lemma OverrideRead(lex: Lex, key: string, v: int, rest: string)
    requires key in PUSH_KEYS && IntOk(v) && Ends(lex, Digits, rest)
    ensures OnePushItem(lex, key + ("=" + (ShowInt(v) + rest))) == Done(Override((key, v)), rest)
  {
    var text := "=" + (ShowInt(v) + rest);
    PushKeyRead(key, text);
    AssignedRead(lex, key, v, rest);
    hide PushKey, Assigned, Quoted, JsonValue, Space1;
    var s := key + text;
    NotPrefix("message", s);
    NotPrefix("data", s);
  }

  lemma PushItemsStep(lex: Lex, s: string, item: PushItem, after: string, more: seq<PushItem>)
    requires Ends(lex, Blanks, s) && OnePushItem(lex, s) == Done(item, after) && |after| <= |s|
    requires PushItems(lex, after) == (more, "")
    ensures PushItems(lex, " " + s) == ([item] + more, "")
  {
    SpaceRead(lex, s);
    hide Space1, OnePushItem;
  }

  lemma OverrideThen(lex: Lex, key: string, v: int, after: string, more: seq<PushItem>)
    requires key in PUSH_KEYS && IntOk(v) && Ends(lex, Digits, after) && PushItems(lex, after) == (more, "")
    ensures PushItems(lex, " " + (key + ("=" + (ShowInt(v) + after)))) == ([Override((key, v))] + more, "")
  {
    hide Space1, OnePushItem, ShowInt, PushItems;
    var text := "=" + (ShowInt(v) + after);
    KeyStart(lex, key, text);
    OverrideRead(lex, key, v, after);
    PushItemsStep(lex, key + text, Override((key, v)), after, more);
  }

  lemma {:induction false} PushItemsRead(lex: Lex, pairs: seq<Pair>, tail: string, items: seq<PushItem>)
    requires PairsOk(pairs, PUSH_KEYS) && (tail == "" || tail[0] == ' ') && PushItems(lex, tail) == (items, "")
    ensures PushItems(lex, ShowPairs(pairs, tail)) == (AsOverrides(pairs) + items, "")
    decreases |pairs|
  {
    hide Space1, OnePushItem, ShowInt, PushItems;
    if pairs == [] {
      assert AsOverrides(pairs) + items == items;
    } else {
      PairsStart(lex, pairs[1..], tail);
      PushItemsRead(lex, pairs[1..], tail, items);
      OverrideThen(lex, pairs[0].0, pairs[0].1, ShowPairs(pairs[1..], tail), AsOverrides(pairs[1..]) + items);
      assert AsOverrides(pairs) + items == [Override(pairs[0])] + (AsOverrides(pairs[1..]) + items);
    }
  }

  lemma DataRead(lex: Lex, v: Json)
    requires ShowsWell(lex, v)
    ensures PushItems(lex, " " + Spaced("data", lex.show(v))) == ([Payload(v)], "")
  {
    hide Space1, JsonValue, Quoted, SendOpt;
    var text := lex.show(v);
    var s := Spaced("data", text);
    JsonRead(lex, v);
    assert s[0] == "data"[0];
    SpaceRead(lex, s);
    LitRead("data", " " + text);
    SpaceRead(lex, text);
    NotPrefix("message", s);
    assert OnePushItem(lex, s) == Done(Payload(v), "");
    NothingRead(lex);
    assert [Payload(v)] + [] == [Payload(v)];
  }

  lemma QuotedRead(lex: Lex, text: string, rest: string)
    requires AllIn(lex, Unquoted, text)
    ensures Quoted(lex, "\"" + (text + ("\"" + rest))) == Done(text, rest)
  {
    LitRead("\"", text + ("\"" + rest));
    TakeRead(lex, Unquoted, text, "\"" + rest);
    LitRead("\"", rest);
  }

  lemma MessageRead(lex: Lex, v: Json, pairs: seq<Pair>)
    requires MessageOk(v) && PairsOk(pairs, PUSH_KEYS)
    ensures PushItems(lex, " " + Spaced("message", "\"" + (v.s + ("\"" + ShowPairs(pairs, "")))))
            == ([Payload(v)] + AsOverrides(pairs), "")
  {
    hide Space1, JsonValue, Quoted, SendOpt, ShowPairs;
    var tail := ShowPairs(pairs, "");
    var quoted := "\"" + (v.s + ("\"" + tail));
    var s := Spaced("message", quoted);
    NothingRead(lex);
    PushItemsRead(lex, pairs, "", []);
    QuotedRead(lex, v.s, tail);
    assert s[0] == "message"[0];
    SpaceRead(lex, s);
    LitRead("message", " " + quoted);
    SpaceRead(lex, quoted);
    assert MessageClause(lex, s) == Done(v, tail);
    assert AsOverrides(pairs) + [] == AsOverrides(pairs);
  }
}
