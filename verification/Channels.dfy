/** Channel names: `boss.channel` counts characters, the Go client counts bytes. */
module Channels {
  const CHANNEL_PREFIX: string := "boss_"
  const CHANNEL_LIMIT: nat := 63

  /** The length of a character in UTF-8. */
  function Utf8Length(c: char): nat {
    if c as int < 0x80 then 1 else if c as int < 0x800 then 2 else if c as int < 0x1_0000 then 3 else 4
  }

  function ByteLength(s: string): nat {
    if s == "" then 0 else Utf8Length(s[0]) + ByteLength(s[1..])
  }

  predicate HexDigit(c: char) {
    '0' <= c <= '9' || 'a' <= c <= 'f'
  }

  /** The text form of an md5 digest. */
  predicate IsDigest(s: string) {
    |s| == 32 && forall i | 0 <= i < |s| :: HexDigit(s[i])
  }

  /** `boss.channel(queue_name)`; `md5` is left open. */
  function BossChannel(md5: string -> string, name: string): string {
    if |CHANNEL_PREFIX + name| <= CHANNEL_LIMIT then CHANNEL_PREFIX + name else CHANNEL_PREFIX + md5(name)
  }

  /** `Channel(queue)` of the Go client. */
  function ClientChannel(md5: string -> string, name: string): string {
    if ByteLength(CHANNEL_PREFIX + name) <= CHANNEL_LIMIT then CHANNEL_PREFIX + name
    else CHANNEL_PREFIX + md5(name)
  }

  /** Where the length of a character changes. */
  lemma Utf8Lengths()
    ensures Utf8Length('\0') == Utf8Length('\U{7f}') == 1
    ensures Utf8Length('\U{80}') == Utf8Length('\U{7ff}') == 2
    ensures Utf8Length('\U{800}') == Utf8Length('\U{ffff}') == 3
    ensures Utf8Length('\U{10000}') == Utf8Length('\U{10ffff}') == 4
  {
  }

  /** The two names, spelled out; `md5` is the text of a digest. */
  lemma ChannelNames(md5: string -> string, name: string)
    ensures BossChannel(md5, name) == if |name| <= 58 then "boss_" + name else "boss_" + md5(name)
    ensures ClientChannel(md5, name) == if ByteLength(name) <= 58 then "boss_" + name else "boss_" + md5(name)
  {
    ByteLengthConcat(CHANNEL_PREFIX, name);
    BytesAtLeastChars(CHANNEL_PREFIX);
  }

  lemma {:induction false} ByteLengthConcat(a: string, b: string)
    ensures ByteLength(a + b) == ByteLength(a) + ByteLength(b)
    decreases |a|
  {
    if a == "" {
      assert a + b == b;
    } else {
      ByteLengthConcat(a[1..], b);
      assert (a + b)[1..] == a[1..] + b;
    }
  }

  lemma {:induction false} BytesAtLeastChars(s: string)
    ensures ByteLength(s) >= |s|
    ensures (forall i | 0 <= i < |s| :: s[i] as int < 0x80) ==> ByteLength(s) == |s|
    decreases |s|
  {
    if s != "" {
      BytesAtLeastChars(s[1..]);
      assert (forall i | 0 <= i < |s| :: s[i] as int < 0x80) ==>
               forall i | 0 <= i < |s[1..]| :: s[1..][i] as int < 0x80;
    }
  }

  /** The server takes channel names of at most 63 bytes. A prefixed name that has 63 characters but more
      bytes is not hashed, and `pg_notify` raises an error. */
  predicate Notifiable(name: string) {
    |name| > 58 || ByteLength(name) <= 58
  }

  lemma NotifiableFits(md5: string -> string, name: string)
    requires IsDigest(md5(name))
    ensures Notifiable(name) <==> ByteLength(BossChannel(md5, name)) <= CHANNEL_LIMIT
  {
    BytesAtLeastChars(CHANNEL_PREFIX);
    if |name| <= 58 {
      ByteLengthConcat(CHANNEL_PREFIX, name);
    } else {
      ByteLengthConcat(CHANNEL_PREFIX, md5(name));
      BytesAtLeastChars(md5(name));
    }
  }

  lemma {:induction false} TwoByteNames(n: nat)
    ensures ByteLength(seq(n, _ => '\U{e9}')) == 2 * n
    decreases n
  {
    if n > 0 {
      TwoByteNames(n - 1);
      assert seq(n, _ => '\U{e9}')[1..] == seq(n - 1, _ => '\U{e9}');
    }
  }

  /** A name on which they differ: thirty times a letter of two bytes. */
  lemma ChannelsDiffer(md5: string -> string)
    requires IsDigest(md5(seq(30, _ => '\U{e9}')))
    ensures var name := seq(30, _ => '\U{e9}');
            ClientChannel(md5, name) != BossChannel(md5, name) && !Notifiable(name)
  {
    TwoByteNames(30);
    ChannelsAgree(md5, seq(30, _ => '\U{e9}'));
  }

  /** A listener built by the client hears a queue's notifications exactly when the server can send any. */
  lemma ChannelsAgree(md5: string -> string, name: string)
    requires IsDigest(md5(name))
    ensures ClientChannel(md5, name) == BossChannel(md5, name) <==> Notifiable(name)
  {
    ByteLengthConcat(CHANNEL_PREFIX, name);
    BytesAtLeastChars(CHANNEL_PREFIX);
    BytesAtLeastChars(name);
    if CHANNEL_PREFIX + name == CHANNEL_PREFIX + md5(name) {
      assert name == (CHANNEL_PREFIX + name)[5..] == (CHANNEL_PREFIX + md5(name))[5..] == md5(name);
      assert forall i | 0 <= i < |name| :: HexDigit(name[i]);
    }
  }

  /** Names of one-byte characters are always heard. */
  lemma OneByteNamesAgree(md5: string -> string, name: string)
    requires IsDigest(md5(name)) && forall i | 0 <= i < |name| :: name[i] as int < 0x80
    ensures ClientChannel(md5, name) == BossChannel(md5, name)
  {
    BytesAtLeastChars(name);
    ChannelsAgree(md5, name);
  }
}
