/** Packet events: validation and normalisation of raw events, flag tokens, and the
    direction-independent flow key (src/streaming/source_activity.py). */
module PacketEvents {
  import opened Prelude

  const MAX_PORT: int := 65535

  /** A TCP-flag cell: absent, a text, or a collection of items in some order. */
  datatype FlagValue = NoFlags | FlagText(text: string) | FlagItems(items: seq<string>)

  /** An event before validation. A number or a timestamp that cannot be read is absent. */
  datatype RawEvent = RawEvent(timestamp: Option<int>, sourceIp: Option<string>, destinationIp: Option<string>,
                               sourcePort: Option<real>, destinationPort: Option<real>, protocol: Option<string>,
                               packetLength: Option<real>, tcpFlags: FlagValue)

  datatype Address = Address(ip: string, port: int)

  datatype Packet = Packet(timestamp: int, source: Address, destination: Address, protocol: string,
                           length: real, flags: set<string>)

  ghost predicate InTimeOrder(packets: seq<Packet>) {
    forall i, j :: 0 <= i < j < |packets| ==> packets[i].timestamp <= packets[j].timestamp
  }

  datatype EventError = InvalidTimestamp | MissingValue | InvalidPort | InvalidLength

  // ---- Flag tokens ----

  predicate IsSpace(c: char) {
    c in " \t\n\r" || c as int == 11 || c as int == 12
  }

  function UpperChar(c: char): char {
    if 'a' <= c <= 'z' then c - 32 as char else c
  }

  function Upper(s: string): string {
    seq(|s|, i requires 0 <= i < |s| => UpperChar(s[i]))
  }

  function Separated(s: string): string {
    seq(|s|, i requires 0 <= i < |s| => if s[i] in "|,/" then ' ' else s[i])
  }

  /** The length of the leading part without white space. */
  function WordLength(s: string): (n: nat)
    ensures n <= |s|
  {
    if s == [] || IsSpace(s[0]) then 0 else 1 + WordLength(s[1..])
  }

  /** The maximal parts of `s` without white space. */
  function Words(s: string): set<string>
    decreases |s|
  {
    if s == [] then {}
    else if IsSpace(s[0]) then Words(s[1..])
    else {s[..WordLength(s)]} + Words(s[WordLength(s)..])
  }

  function Alias(token: string): string {
    if token == "S" then "SYN" else if token == "A" then "ACK" else if token == "R" then "RST" else token
  }

  function Joined(items: seq<string>): string {
    if items == [] then "" else if |items| == 1 then items[0] else items[0] + " " + Joined(items[1..])
  }

  function TokensOf(text: string): set<string> {
    set w | w in Words(Separated(Upper(text))) :: Alias(w)
  }

  function FlagTokens(value: FlagValue): set<string> {
    match value
    case NoFlags => {}
    case FlagText(text) => TokensOf(text)
    case FlagItems(items) => TokensOf(Joined(items))
  }

  // ---- Normalisation is idempotent ----

  /** A token as normalisation leaves it: a word in upper case, with no separator, not an alias. */
  predicate IsToken(w: string) {
    && w != []
    && (forall i :: 0 <= i < |w| ==> !IsSpace(w[i]) && w[i] !in "|,/" && UpperChar(w[i]) == w[i])
    && Alias(w) == w
  }

  predicate IsClean(s: string) {
    forall i :: 0 <= i < |s| ==> s[i] !in "|,/" && UpperChar(s[i]) == s[i]
  }

  lemma {:induction false} CleaningCleans(s: string)
    ensures IsClean(Separated(Upper(s)))
    ensures IsClean(s) ==> Separated(Upper(s)) == s
  {
  }

  lemma {:induction false} WordHasNoSpace(s: string)
    ensures forall i :: 0 <= i < WordLength(s) ==> !IsSpace(s[i])
    ensures WordLength(s) < |s| ==> IsSpace(s[WordLength(s)])
  {
    if s != [] && !IsSpace(s[0]) {
      WordHasNoSpace(s[1..]);
    }
  }

  lemma {:induction false} WordsAreWords(s: string, w: string)
    requires IsClean(s) && w in Words(s)
    ensures w != [] && IsClean(w) && forall i :: 0 <= i < |w| ==> !IsSpace(w[i])
    decreases |s|
  {
    if IsSpace(s[0]) {
      WordsAreWords(s[1..], w);
    } else {
      WordHasNoSpace(s);
      if w != s[..WordLength(s)] {
        WordsAreWords(s[WordLength(s)..], w);
      }
    }
  }

  lemma {:induction false} AliasOfWordIsToken(w: string)
    requires w != [] && IsClean(w) && forall i :: 0 <= i < |w| ==> !IsSpace(w[i])
    ensures IsToken(Alias(w))
  {
  }

  /** Every normalised flag is a token. */
  lemma {:induction false} FlagsAreTokens(value: FlagValue, flag: string)
    requires flag in FlagTokens(value)
    ensures IsToken(flag)
  {
    var text := if value.FlagText? then value.text else Joined(value.items);
    CleaningCleans(text);
    var w :| w in Words(Separated(Upper(text))) && Alias(w) == flag;
    WordsAreWords(Separated(Upper(text)), w);
    AliasOfWordIsToken(w);
  }

  /** The first word of a text that starts with a token and a space, or is a token. */
  lemma {:induction false} TokenIsWord(token: string, rest: string)
    requires forall i :: 0 <= i < |token| ==> !IsSpace(token[i])
    requires rest == [] || IsSpace(rest[0])
    ensures WordLength(token + rest) == |token|
  {
    var s := token + rest;
    if token != [] {
      TokenIsWord(token[1..], rest);
      assert s[1..] == token[1..] + rest;
    } else {
      assert s == rest;
    }
  }

  lemma {:induction false} JoinedTokensAreWords(items: seq<string>)
    requires forall i :: 0 <= i < |items| ==> IsToken(items[i])
    ensures IsClean(Joined(items))
    ensures forall w :: w in Words(Joined(items)) <==> w in items
    decreases |items|
  {
    if items != [] {
      var token, rest := items[0], items[1..];
      JoinedTokensAreWords(rest);
      var tail := if |items| == 1 then "" else " " + Joined(rest);
      var s := Joined(items);
      assert s == token + tail;
      TokenIsWord(token, tail);
      assert s[..|token|] == token && s[|token|..] == tail;
      assert Words(s) == {token} + Words(tail);
      assert tail != [] ==> tail[1..] == Joined(rest) && Words(tail) == Words(Joined(rest));
      assert items == [token] + rest;
    }
  }

  /** Flags that are normalised already stay as they are, in whatever order they are listed. */
  lemma {:induction false} FlagTokensAreStable(value: FlagValue, items: seq<string>)
    requires forall w :: w in items <==> w in FlagTokens(value)
    ensures FlagTokens(FlagItems(items)) == FlagTokens(value)
  {
    forall i | 0 <= i < |items|
      ensures IsToken(items[i])
    {
      assert items[i] in items;
      FlagsAreTokens(value, items[i]);
    }
    JoinedTokensAreWords(items);
    CleaningCleans(Joined(items));
    forall w | w in items
      ensures Alias(w) == w
    {
    }
  }

  // ---- Normalisation of events ----

  predicate Blank(s: Option<string>) {
    s.None? || forall i :: 0 <= i < |s.value| ==> IsSpace(s.value[i])
  }

  predicate ValidPort(port: Option<real>) {
    port.Some? && port.value == port.value.Floor as real && 0 <= port.value.Floor <= MAX_PORT
  }

  function Normalize(raw: RawEvent): Result<Packet, EventError> {
    if raw.timestamp.None? then Err(InvalidTimestamp)
    else if Blank(raw.sourceIp) || Blank(raw.destinationIp) || Blank(raw.protocol) then Err(MissingValue)
    else if !ValidPort(raw.sourcePort) || !ValidPort(raw.destinationPort) then Err(InvalidPort)
    else if raw.packetLength.None? || raw.packetLength.value < 0.0 then Err(InvalidLength)
    else
      Ok(Packet(raw.timestamp.value,
                Address(raw.sourceIp.value, raw.sourcePort.value.Floor),
                Address(raw.destinationIp.value, raw.destinationPort.value.Floor),
                raw.protocol.value, raw.packetLength.value, FlagTokens(raw.tcpFlags)))
  }

  /** A packet as it is fed to a second normalisation, its flags listed in some order. */
  function Renewed(p: Packet, items: seq<string>): RawEvent {
    RawEvent(Some(p.timestamp), Some(p.source.ip), Some(p.destination.ip), Some(p.source.port as real),
             Some(p.destination.port as real), Some(p.protocol), Some(p.length), FlagItems(items))
  }

  /** Normalising a normalised event changes nothing. */
  lemma {:induction false} NormalizeIsIdempotent(raw: RawEvent, items: seq<string>)
    requires Normalize(raw).Ok?
    requires forall w :: w in items <==> w in Normalize(raw).value.flags
    ensures Normalize(Renewed(Normalize(raw).value, items)) == Normalize(raw)
  {
    FlagTokensAreStable(raw.tcpFlags, items);
  }

  // ---- Flow keys ----

  /** Python's order on (ip, port) pairs. */
  predicate AddressBefore(a: Address, b: Address) {
    Before(a.ip, b.ip) || (a.ip == b.ip && a.port < b.port)
  }

  datatype Key = Key(forward: Address, backward: Address, protocol: string)

  /** The same key for both directions of a conversation: the smaller address comes first. */
  function KeyOf(p: Packet): Key {
    if AddressBefore(p.destination, p.source) then Key(p.destination, p.source, Upper(p.protocol))
    else Key(p.source, p.destination, Upper(p.protocol))
  }

  /** Two packets have the same key exactly when they join the same two addresses, in either
      direction, under the same protocol. */
  lemma {:induction false} KeysJoinDirections(p: Packet, q: Packet)
    ensures KeyOf(p) == KeyOf(q) <==>
      && Upper(p.protocol) == Upper(q.protocol)
      && ((p.source == q.source && p.destination == q.destination) ||
          (p.source == q.destination && p.destination == q.source))
  {
    BeforeIsTotal(p.source.ip, p.destination.ip);
    BeforeIsTotal(q.source.ip, q.destination.ip);
  }
}
