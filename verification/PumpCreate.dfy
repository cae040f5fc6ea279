/** The one variable-length encoder, `encode_pump_create_v2` (constants.rs), and the string
    limits that guard it (policy.rs). A Rust `str` is a sequence of Unicode scalar values,
    which is what `char` is here; its bytes are their UTF-8 form. */
module PumpCreate {
  import opened Runtime
  import opened Bytes

  const PUMP_CREATE_V2_DISC: seq<u8> := [0xd6, 0x90, 0x4c, 0xec, 0x5f, 0x8b, 0x31, 0xb4]
  const PUMP_CREATE_NAME_MAX := 32
  const PUMP_CREATE_SYMBOL_MAX := 13
  const PUMP_CREATE_URI_MAX := 200
  const PUMP_CREATE_V2_IX_DATA_MIN := 8 + 4 + 4 + 4 + 32 + 1 + 1

  datatype CreateArgs = CreateArgs(
    name: string, symbol: string, uri: string, creator: seq<u8>, isMayhemMode: bool, isCashbackEnabled: bool)

  /** `policy::require_pump_create_strings`, which counts characters, not bytes. */
  predicate StringsAccepted(name: string, symbol: string, uri: string) {
    && |name| <= PUMP_CREATE_NAME_MAX
    && |symbol| <= PUMP_CREATE_SYMBOL_MAX
    && |uri| <= PUMP_CREATE_URI_MAX
  }

  /** `policy::require_nonempty_pump_create_data`. */
  predicate DataAccepted(data: seq<u8>) {
    && data != []
    && |data| >= PUMP_CREATE_V2_IX_DATA_MIN
    && data[..8] == PUMP_CREATE_V2_DISC
  }

  // ----- UTF-8 (RFC 3629, section 3) -----

  function Utf8Char(c: char): (bytes: seq<u8>)
    ensures 1 <= |bytes| <= 4
  {
    var cp := c as int;
    if cp < 0x80 then [cp]
    else if cp < 0x800 then [0xC0 + cp / 64, 0x80 + cp % 64]
    else if cp < 0x1_0000 then [0xE0 + cp / 4096, 0x80 + cp / 64 % 64, 0x80 + cp % 64]
    else [0xF0 + cp / 0x4_0000, 0x80 + cp / 4096 % 64, 0x80 + cp / 64 % 64, 0x80 + cp % 64]
  }

  function Utf8(s: string): (bytes: seq<u8>)
    ensures |s| <= |bytes| <= 4 * |s|
  {
    if s == [] then [] else Utf8Char(s[0]) + Utf8(s[1..])
  }

  predicate IsContinuation(b: u8) {
    0x80 <= b < 0xC0
  }

  /** The number of octets the first octet announces, or 0 for one that starts no character. */
  function CharWidth(first: u8): nat {
    if first < 0x80 then 1 else if 0xC0 <= first < 0xE0 then 2
    else if 0xE0 <= first < 0xF0 then 3 else if 0xF0 <= first < 0xF8 then 4 else 0
  }

  /** The code point of the leading character of `bytes`, unless it is malformed. */
  function CodePoint(bytes: seq<u8>): Option<int>
    requires bytes != []
  {
    var width := CharWidth(bytes[0]);
    var at := (i: int) => if 0 <= i < |bytes| then bytes[i] as int else 0;
    if width == 0 || |bytes| < width || !forall i | 1 <= i < width :: IsContinuation(bytes[i]) then None
    else if width == 1 then Some(at(0))
    else if width == 2 then Some((at(0) - 0xC0) * 64 + (at(1) - 0x80))
    else if width == 3 then Some((at(0) - 0xE0) * 4096 + (at(1) - 0x80) * 64 + (at(2) - 0x80))
    else Some((at(0) - 0xF0) * 0x4_0000 + (at(1) - 0x80) * 4096 + (at(2) - 0x80) * 64 + (at(3) - 0x80))
  }

  function DecodeUtf8(bytes: seq<u8>): Option<string> {
    if bytes == [] then Some([]) else
    match CodePoint(bytes)
    case None => None
    case Some(cp) =>
      if !(0 <= cp < 0xD800 || 0xE000 <= cp < 0x11_0000) then None else
      match DecodeUtf8(bytes[CharWidth(bytes[0])..])
      case None => None
      case Some(rest) => Some([cp as char] + rest)
  }

  lemma Utf8CharRoundTrip(c: char, rest: seq<u8>)
    ensures var bytes := Utf8Char(c) + rest;
      && CharWidth(bytes[0]) == |Utf8Char(c)|
      && CodePoint(bytes) == Some(c as int)
      && bytes[|Utf8Char(c)|..] == rest
  {
    var cp := c as int;
    var bytes := Utf8Char(c) + rest;
    assert bytes[..|Utf8Char(c)|] == Utf8Char(c);
    assert cp / 64 / 64 == cp / 4096 && cp / 4096 / 64 == cp / 0x4_0000;
    assert forall i :: 1 <= i < |Utf8Char(c)| ==> bytes[i] == Utf8Char(c)[i];
  }

  lemma {:induction false} Utf8RoundTrip(s: string)
    ensures DecodeUtf8(Utf8(s)) == Some(s)
  {
    if s != [] {
      Utf8CharRoundTrip(s[0], Utf8(s[1..]));
      Utf8RoundTrip(s[1..]);
      assert [s[0]] + s[1..] == s;
    }
  }

  // ----- Borsh -----

  /** The length is cast to 32 bits before it is written. */
  function BorshString(s: string): seq<u8> {
    Prefixed(Utf8(s))
  }

  function Prefixed(bytes: seq<u8>): seq<u8> {
    LittleEndian(|bytes| % 0x1_0000_0000, 4) + bytes
  }

  function Flag(b: bool): u8 {
    if b then 1 else 0
  }

  function CreateV2Bytes(args: CreateArgs): seq<u8> {
    PUMP_CREATE_V2_DISC + BorshString(args.name) + BorshString(args.symbol) + BorshString(args.uri)
    + args.creator + [Flag(args.isMayhemMode)] + [Flag(args.isCashbackEnabled)]
  }

  method EncodeBorshString(s: string) returns (out: seq<u8>)
    ensures out == BorshString(s)
  {
    var bytes := Utf8(s);
    out := LittleEndian(|bytes| % 0x1_0000_0000, 4);
    out := out + bytes;
  }

  method EncodePumpCreateV2(args: CreateArgs) returns (data: seq<u8>)
    ensures data == CreateV2Bytes(args)
  {
    data := PUMP_CREATE_V2_DISC;
    var part := EncodeBorshString(args.name);
    data := data + part;
    part := EncodeBorshString(args.symbol);
    data := data + part;
    part := EncodeBorshString(args.uri);
    data := data + part;
    data := data + args.creator;
    data := data + [Flag(args.isMayhemMode)];
    data := data + [Flag(args.isCashbackEnabled)];
  }

  // ----- A reader of the format -----

  /** A string and what follows it. */
  function ReadString(data: seq<u8>): Option<(string, seq<u8>)> {
    if |data| < 4 then None else
    var n := FromLittleEndian(data[..4]);
    if |data| < 4 + n then None else
    match DecodeUtf8(data[4..4 + n])
    case None => None
    case Some(s) => Some((s, data[4 + n..]))
  }

  function ReadFlag(b: u8): Option<bool> {
    if b == 0 then Some(false) else if b == 1 then Some(true) else None
  }

  function ReadCreateV2(data: seq<u8>): Option<CreateArgs> {
    if |data| < 8 || data[..8] != PUMP_CREATE_V2_DISC then None else
    match ReadString(data[8..]) case None => None case Some((name, d1)) =>
    match ReadString(d1) case None => None case Some((symbol, d2)) =>
    match ReadString(d2) case None => None case Some((uri, d3)) =>
    ReadTail(name, symbol, uri, d3)
  }

  function ReadTail(name: string, symbol: string, uri: string, data: seq<u8>): Option<CreateArgs> {
    if |data| != 34 then None else
    match ReadFlag(data[32]) case None => None case Some(mayhem) =>
    match ReadFlag(data[33]) case None => None case Some(cashback) =>
    Some(CreateArgs(name, symbol, uri, data[..32], mayhem, cashback))
  }

  /** A written string reads back as itself, with what follows untouched, exactly when its
      byte length survives the cast to 32 bits. */
  lemma StringReadsBackIff(s: string, rest: seq<u8>)
    ensures ReadString(BorshString(s) + rest) == Some((s, rest)) <==> |Utf8(s)| < 0x1_0000_0000
  {
    if |Utf8(s)| < 0x1_0000_0000 {
      StringReadsBack(s, rest);
    } else {
      LongStringMisread(Utf8(s), rest);
    }
  }

  lemma StringReadsBack(s: string, rest: seq<u8>)
    requires |Utf8(s)| < 0x1_0000_0000
    ensures ReadString(BorshString(s) + rest) == Some((s, rest))
  {
    Utf8RoundTrip(s);
    var head := PrefixSplit(Utf8(s));
    ReadsBack(s, Utf8(s), head, rest);
  }

  /** A truncated length leaves some of the string behind, with what follows it. */
  lemma LongStringMisread(bytes: seq<u8>, rest: seq<u8>)
    requires |bytes| >= 0x1_0000_0000
    ensures var r := ReadString(Prefixed(bytes) + rest); r.Some? ==> |r.value.1| > |rest|
  {
    var n := |bytes| % 0x1_0000_0000;
    FourBytes(n);
    Sliced([], LittleEndian(n, 4), bytes + rest);
    assert Prefixed(bytes) + rest == LittleEndian(n, 4) + (bytes + rest);
  }

  lemma PrefixSplit(bytes: seq<u8>) returns (head: seq<u8>)
    requires |bytes| < 0x1_0000_0000
    ensures |head| == 4 && FromLittleEndian(head) == |bytes| && Prefixed(bytes) == head + bytes
  {
    FourBytes(|bytes|);
    head := LittleEndian(|bytes|, 4);
  }

  lemma ReadsBack(s: string, bytes: seq<u8>, head: seq<u8>, rest: seq<u8>)
    requires |head| == 4 && FromLittleEndian(head) == |bytes| && DecodeUtf8(bytes) == Some(s)
    ensures ReadString(head + bytes + rest) == Some((s, rest))
  {
    Sliced(head, bytes, rest);
  }

  lemma FourBytes(n: nat)
    requires n < 0x1_0000_0000
    ensures FromLittleEndian(LittleEndian(n, 4)) == n
  {
    assert Pow256(1) == 256 * Pow256(0);
    assert Pow256(2) == 256 * Pow256(1);
    assert Pow256(3) == 256 * Pow256(2);
    LittleEndianRoundTrip(n, 4);
  }

  lemma Sliced(head: seq<u8>, body: seq<u8>, rest: seq<u8>)
    ensures var data := head + body + rest;
      && data[..|head|] == head
      && data[|head|..|head| + |body|] == body
      && data[|head| + |body|..] == rest
  {}

  /** The fixed-width end of the data: creator and flags. */
  function Tail(args: CreateArgs): seq<u8> {
    args.creator + [Flag(args.isMayhemMode)] + [Flag(args.isCashbackEnabled)]
  }

  lemma TailReadsBack(args: CreateArgs)
    requires |args.creator| == 32
    ensures |Tail(args)| == 34 && ReadTail(args.name, args.symbol, args.uri, Tail(args)) == Some(args)
  {
    assert Tail(args)[..32] == args.creator;
  }

  lemma Regrouped(a: seq<u8>, b: seq<u8>, c: seq<u8>, d: seq<u8>, e: seq<u8>, f: seq<u8>, g: seq<u8>)
    ensures a + b + c + d + e + f + g == a + (b + (c + (d + (e + f + g))))
    ensures (a + (b + (c + (d + (e + f + g)))))[..|a|] == a
    ensures (a + (b + (c + (d + (e + f + g)))))[|a|..] == b + (c + (d + (e + f + g)))
  {}

  /** The three strings and the tail, read one after the other. */
  lemma PartsRead(data: seq<u8>, args: CreateArgs, d1: seq<u8>, d2: seq<u8>, d3: seq<u8>)
    requires |data| >= 8 && data[..8] == PUMP_CREATE_V2_DISC
    requires ReadString(data[8..]) == Some((args.name, d1))
    requires ReadString(d1) == Some((args.symbol, d2)) && ReadString(d2) == Some((args.uri, d3))
    requires ReadTail(args.name, args.symbol, args.uri, d3) == Some(args)
    ensures ReadCreateV2(data) == Some(args)
  {}

  /** For every accepted input the instruction data passes the program's own check and reads
      back as exactly what was encoded. */
  lemma CreateV2ReadsBack(args: CreateArgs)
    requires StringsAccepted(args.name, args.symbol, args.uri) && |args.creator| == 32
    ensures DataAccepted(CreateV2Bytes(args))
    ensures ReadCreateV2(CreateV2Bytes(args)) == Some(args)
  {
    var name, symbol, uri := BorshString(args.name), BorshString(args.symbol), BorshString(args.uri);
    Regrouped(PUMP_CREATE_V2_DISC, name, symbol, uri, args.creator, [Flag(args.isMayhemMode)],
              [Flag(args.isCashbackEnabled)]);
    StringReadsBack(args.name, symbol + (uri + Tail(args)));
    StringReadsBack(args.symbol, uri + Tail(args));
    StringReadsBack(args.uri, Tail(args));
    TailReadsBack(args);
    PartsRead(CreateV2Bytes(args), args, symbol + (uri + Tail(args)), uri + Tail(args), Tail(args));
  }

  /** Hence two accepted inputs never encode to the same instruction data. */
  lemma CreateV2Injective(a: CreateArgs, b: CreateArgs)
    requires StringsAccepted(a.name, a.symbol, a.uri) && |a.creator| == 32
    requires StringsAccepted(b.name, b.symbol, b.uri) && |b.creator| == 32
    ensures CreateV2Bytes(a) == CreateV2Bytes(b) <==> a == b
  {
    CreateV2ReadsBack(a);
    CreateV2ReadsBack(b);
  }
}
