/** The syntax tree of a scenario, and the options its commands carry. */
module Scenario {
  import opened Base
  import opened Json
  import Engine

  /** Milliseconds. */
  type Duration = nat

  datatype QueueSettings = QueueSettings(
    retryLimit: Option<int>,
    retryDelay: Option<int>,
    expireInSeconds: Option<int>,
    retentionSeconds: Option<int>)

  datatype PushSettings = PushSettings(
    priority: Option<int>,
    startAfter: Option<int>,
    retryLimit: Option<int>,
    retryDelay: Option<int>,
    expireInSeconds: Option<int>)

  const NO_QUEUE_SETTINGS: QueueSettings := QueueSettings(None, None, None, None)
  const NO_PUSH_SETTINGS: PushSettings := PushSettings(None, None, None, None, None)

  datatype Command =
    | CreateQueue(queue: string, settings: QueueSettings)
    | DeleteQueue(queue: string)
    | Maintain
    | Push(queue: string, data: Json, overrides: PushSettings)
    | Consume(queue: string, handle: string, within: Option<Duration>)
    | SpawnConsume(queue: string, handle: string, within: Option<Duration>)
    | Await(handle: string)
    | Ack(handle: string, output: Option<Json>)
    | Fail(handle: string, output: Option<Json>)
    | AssertQueueEmpty(queue: string)
    | AssertQueueSize(queue: string, size: int)
    | CheckState(handle: string, state: string)
    | CheckAck(handle: string, within: Option<Duration>)
    | CheckEmpty(handle: string)
    | CheckData(handle: string, expected: Json)
    | CheckGone(handle: string)
    | AssertVarEq(handle: string, other: string)
    | AssertExactlyOneClaimed(handles: seq<string>)

  datatype Statement = Statement(line: nat, client: nat, command: Command)

  datatype Script = Script(name: string, statements: seq<Statement>)

  // ---- folding options: a later key overrides an earlier one ----

  type Pair = (string, int)

  function SetQueue(o: QueueSettings, p: Pair): QueueSettings {
    match p.0
    case "retryLimit" => o.(retryLimit := Some(p.1))
    case "retryDelay" => o.(retryDelay := Some(p.1))
    case "expireInSeconds" => o.(expireInSeconds := Some(p.1))
    case "retentionSeconds" => o.(retentionSeconds := Some(p.1))
    case _ => o
  }

  function SetPush(o: PushSettings, p: Pair): PushSettings {
    match p.0
    case "priority" => o.(priority := Some(p.1))
    case "startAfter" => o.(startAfter := Some(p.1))
    case "retryLimit" => o.(retryLimit := Some(p.1))
    case "retryDelay" => o.(retryDelay := Some(p.1))
    case "expireInSeconds" => o.(expireInSeconds := Some(p.1))
    case _ => o
  }

  function FoldQueue(pairs: seq<Pair>): QueueSettings {
    if pairs == [] then NO_QUEUE_SETTINGS else SetQueue(FoldQueue(pairs[..|pairs| - 1]), pairs[|pairs| - 1])
  }

  function FoldPush(pairs: seq<Pair>): PushSettings {
    if pairs == [] then NO_PUSH_SETTINGS else SetPush(FoldPush(pairs[..|pairs| - 1]), pairs[|pairs| - 1])
  }

  /** The option structs, whose `set` assigns a field. */
  class QueueOptions {
    var fields: QueueSettings

    constructor ()
      ensures fields == NO_QUEUE_SETTINGS
    {
      fields := NO_QUEUE_SETTINGS;
    }

    method Set(key: string, value: int)
      modifies this
      ensures fields == SetQueue(old(fields), (key, value))
    {
      fields := SetQueue(fields, (key, value));
    }
  }

  class SendOptions {
    var fields: PushSettings

    constructor ()
      ensures fields == NO_PUSH_SETTINGS
    {
      fields := NO_PUSH_SETTINGS;
    }

    method Set(key: string, value: int)
      modifies this
      ensures fields == SetPush(old(fields), (key, value))
    {
      fields := SetPush(fields, (key, value));
    }
  }

  /** The loop of `create_queue` over the options it read. */
  method CollectQueueOptions(pairs: seq<Pair>) returns (settings: QueueSettings)
    ensures settings == FoldQueue(pairs)
  {
    var options := new QueueOptions();
    var i := 0;
    while i < |pairs|
      invariant 0 <= i <= |pairs| && options.fields == FoldQueue(pairs[..i])
    {
      assert pairs[..i + 1][..i] == pairs[..i];
      options.Set(pairs[i].0, pairs[i].1);
      i := i + 1;
    }
    assert pairs[..|pairs|] == pairs;
    settings := options.fields;
  }

  method CollectSendOptions(pairs: seq<Pair>) returns (settings: PushSettings)
    ensures settings == FoldPush(pairs)
  {
    var options := new SendOptions();
    var i := 0;
    while i < |pairs|
      invariant 0 <= i <= |pairs| && options.fields == FoldPush(pairs[..i])
    {
      assert pairs[..i + 1][..i] == pairs[..i];
      options.Set(pairs[i].0, pairs[i].1);
      i := i + 1;
    }
    assert pairs[..|pairs|] == pairs;
    settings := options.fields;
  }

  // ---- to_json, and what the server reads back ----

  function PutInt(m: map<string, Json>, key: string, v: Option<int>): map<string, Json> {
    match v
    case None => m
    case Some(n) => m[key := Num(n)]
  }

  function QueueJson(o: QueueSettings): Json {
    Obj(PutInt(PutInt(PutInt(PutInt(map[], "retryLimit", o.retryLimit), "retryDelay", o.retryDelay),
                      "expireInSeconds", o.expireInSeconds), "retentionSeconds", o.retentionSeconds))
  }

  function PushJson(o: PushSettings): Json {
    Obj(PutInt(PutInt(PutInt(PutInt(PutInt(map[], "priority", o.priority), "startAfter", o.startAfter),
                             "retryLimit", o.retryLimit), "retryDelay", o.retryDelay),
               "expireInSeconds", o.expireInSeconds))
  }

  /** What goes over the wire: a field for each option given, under its own name, and no other. */
  lemma WireFormat(o: QueueSettings, p: PushSettings)
    ensures var m := QueueJson(o).fields;
            && m.Keys <= {"retryLimit", "retryDelay", "expireInSeconds", "retentionSeconds"}
            && Carries(m, "retryLimit", o.retryLimit) && Carries(m, "retryDelay", o.retryDelay)
            && Carries(m, "expireInSeconds", o.expireInSeconds) && Carries(m, "retentionSeconds", o.retentionSeconds)
    ensures var m := PushJson(p).fields;
            && m.Keys <= {"priority", "startAfter", "retryLimit", "retryDelay", "expireInSeconds"}
            && Carries(m, "priority", p.priority) && Carries(m, "startAfter", p.startAfter)
            && Carries(m, "retryLimit", p.retryLimit) && Carries(m, "retryDelay", p.retryDelay)
            && Carries(m, "expireInSeconds", p.expireInSeconds)
  {
  }

  predicate Carries(m: map<string, Json>, key: string, v: Option<int>) {
    if v.Some? then key in m && m[key] == Num(v.value) else key !in m
  }

  /** `o.get(key).and_then(as_i64)`. */
  function GetInt(v: Json, key: string): Option<int> {
    if v.Obj? && key in v.fields && v.fields[key].Num? then Some(v.fields[key].n) else None
  }

  /** What `create_queue` makes of an options object. */
  function ReadQueueOptions(v: Json): Engine.QueueOptions {
    Engine.QueueOptions(GetInt(v, "retryLimit"), GetInt(v, "retryDelay"),
                        GetInt(v, "expireInSeconds"), GetInt(v, "retentionSeconds"))
  }

  /** What `send` makes of an options object with integer fields. */
  function ReadSendOptions(v: Json): Engine.SendOptions {
    Engine.SendOptions(
      GetInt(v, "priority"),
      (match GetInt(v, "startAfter") case None => None case Some(n) => Some(Engine.Seconds(n))),
      GetInt(v, "retryLimit"), GetInt(v, "retryDelay"), GetInt(v, "expireInSeconds"))
  }

  /** The last value given for a key. */
  function LastValue(pairs: seq<Pair>, key: string): Option<int> {
    if pairs == [] then None
    else if pairs[|pairs| - 1].0 == key then Some(pairs[|pairs| - 1].1)
    else LastValue(pairs[..|pairs| - 1], key)
  }

  lemma {:induction false} FoldQueueKeepsLast(pairs: seq<Pair>)
    ensures FoldQueue(pairs) == QueueSettings(LastValue(pairs, "retryLimit"), LastValue(pairs, "retryDelay"),
                                              LastValue(pairs, "expireInSeconds"), LastValue(pairs, "retentionSeconds"))
    decreases |pairs|
  {
    if pairs != [] {
      FoldQueueKeepsLast(pairs[..|pairs| - 1]);
    }
  }

  lemma {:induction false} FoldPushKeepsLast(pairs: seq<Pair>)
    ensures FoldPush(pairs) == PushSettings(LastValue(pairs, "priority"), LastValue(pairs, "startAfter"),
                                            LastValue(pairs, "retryLimit"), LastValue(pairs, "retryDelay"),
                                            LastValue(pairs, "expireInSeconds"))
    decreases |pairs|
  {
    if pairs != [] {
      FoldPushKeepsLast(pairs[..|pairs| - 1]);
    }
  }

  /** Options on a line reach the server as written: for each key the last value, else the server's default. */
  lemma QueueOptionsReachTheServer(pairs: seq<Pair>, now: Time)
    ensures var q := Engine.NewQueue(ReadQueueOptions(QueueJson(FoldQueue(pairs))), now);
            && q.retryLimit == Engine.AsInt32Or(LastValue(pairs, "retryLimit"), 2)
            && q.retryDelay == Engine.AsInt32Or(LastValue(pairs, "retryDelay"), 0)
            && q.expireSeconds == Engine.AsInt32Or(LastValue(pairs, "expireInSeconds"), 900)
            && q.retentionSeconds == Engine.AsInt32Or(LastValue(pairs, "retentionSeconds"), 1_209_600)
    ensures var q := Engine.NewQueue(ReadQueueOptions(QueueJson(FoldQueue(pairs))), now);
            && (LastValue(pairs, "retryLimit").None? ==> q.retryLimit == 2)
            && (LastValue(pairs, "retryDelay").None? ==> q.retryDelay == 0)
            && (LastValue(pairs, "expireInSeconds").None? ==> q.expireSeconds == 900)
            && (LastValue(pairs, "retentionSeconds").None? ==> q.retentionSeconds == 1_209_600)
    ensures var q := Engine.NewQueue(ReadQueueOptions(QueueJson(FoldQueue(pairs))), now);
            forall v | -0x8000_0000 <= v <= 0x7fff_ffff ::
              && (LastValue(pairs, "retryLimit") == Some(v) ==> q.retryLimit == v)
              && (LastValue(pairs, "retryDelay") == Some(v) ==> q.retryDelay == v)
              && (LastValue(pairs, "expireInSeconds") == Some(v) ==> q.expireSeconds == v)
              && (LastValue(pairs, "retentionSeconds") == Some(v) ==> q.retentionSeconds == v)
  {
    hide QueueJson, GetInt, FoldQueue, LastValue, Engine.AsInt32;
    FoldQueueKeepsLast(pairs);
    QueueFieldsReadBack(FoldQueue(pairs));
    forall v | -0x8000_0000 <= v <= 0x7fff_ffff ensures Engine.AsInt32Or(Some(v), 0) == v {
      KeptInRange(v);
    }
  }

  lemma QueueFieldsReadBack(o: QueueSettings)
    ensures GetInt(QueueJson(o), "retryLimit") == o.retryLimit && GetInt(QueueJson(o), "retryDelay") == o.retryDelay
    ensures GetInt(QueueJson(o), "expireInSeconds") == o.expireInSeconds
    ensures GetInt(QueueJson(o), "retentionSeconds") == o.retentionSeconds
  {
  }

  lemma KeptInRange(v: int)
    requires -0x8000_0000 <= v <= 0x7fff_ffff
    ensures Engine.AsInt32(v) == v
  {
  }

  lemma SendOptionsReachTheServer(pairs: seq<Pair>)
    ensures var o := ReadSendOptions(PushJson(FoldPush(pairs)));
            && o.priority == LastValue(pairs, "priority")
            && o.retryLimit == LastValue(pairs, "retryLimit")
            && o.retryDelay == LastValue(pairs, "retryDelay")
            && o.expireInSeconds == LastValue(pairs, "expireInSeconds")
            && (o.startAfter.None? <==> LastValue(pairs, "startAfter").None?)
            && (o.startAfter.Some? ==> o.startAfter == Some(Engine.Seconds(LastValue(pairs, "startAfter").value)))
  {
    FoldPushKeepsLast(pairs);
    PushFieldsReadBack(FoldPush(pairs));
    hide PushJson, GetInt, FoldPush, LastValue;
  }

  lemma PushFieldsReadBack(o: PushSettings)
    ensures GetInt(PushJson(o), "priority") == o.priority && GetInt(PushJson(o), "startAfter") == o.startAfter
    ensures GetInt(PushJson(o), "retryLimit") == o.retryLimit && GetInt(PushJson(o), "retryDelay") == o.retryDelay
    ensures GetInt(PushJson(o), "expireInSeconds") == o.expireInSeconds
  {
  }
}
