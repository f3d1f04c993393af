/**
 * The versioned epoch pid record: six `key=value` lines, in which names are
 * lower-case hexadecimal so that no byte of theirs can disturb the line format.
 *
 * Every error here is `InvalidData`, except a path that is not UTF-8.
 */
module RecordCodec {
  import opened Basics
  import Decimal

  const U32_MAX: nat := 0xffff_ffff
  const U64_MAX: nat := 0xffff_ffff_ffff_ffff
  const EPOCH_PID_VERSION: nat := 2

  type U32 = x: nat | x <= 0xffff_ffff
  type U64 = x: nat | x <= 0xffff_ffff_ffff_ffff

  predicate Continuation(b: Byte) {
    0x80 <= b <= 0xbf
  }

  /** Well-formed UTF-8, section 4 of RFC 3629. */
  predicate ValidUtf8(s: seq<Byte>) {
    if s == [] then true
    else if s[0] <= 0x7f then ValidUtf8(s[1..])
    else if 0xc2 <= s[0] <= 0xdf then |s| >= 2 && Continuation(s[1]) && ValidUtf8(s[2..])
    else if 0xe0 <= s[0] <= 0xef then
      && |s| >= 3 && Continuation(s[1]) && Continuation(s[2]) && ValidUtf8(s[3..])
      && (s[0] == 0xe0 ==> s[1] >= 0xa0) && (s[0] == 0xed ==> s[1] <= 0x9f)
    else if 0xf0 <= s[0] <= 0xf4 then
      && |s| >= 4 && Continuation(s[1]) && Continuation(s[2]) && Continuation(s[3]) && ValidUtf8(s[4..])
      && (s[0] == 0xf0 ==> s[1] >= 0x90) && (s[0] == 0xf4 ==> s[1] <= 0x8f)
    else false
  }

  /** `String`: bytes known to be UTF-8. */
  type Utf8 = s: seq<Byte> | ValidUtf8(s) witness []

  /** The path is an `OsString`: any bytes. */
  datatype EpochPidRecord = EpochPidRecord(
    pid: U32, epoch: U64, executable: Utf8, startToken: U64, runtimeConfig: seq<Byte>)

  // ---- hexadecimal

  function NibbleChar(n: nat): char
    requires n < 16
  {
    if n < 10 then ('0' as int + n) as char else ('a' as int + n - 10) as char
  }

  function HexNibble(c: char): Result<nat> {
    if '0' <= c <= '9' then Ok(c as int - '0' as int)
    else if 'a' <= c <= 'f' then Ok(c as int - 'a' as int + 10)
    else Err(InvalidData)
  }

  lemma Nibbles(n: nat, c: char)
    requires n < 16
    ensures HexNibble(c) == Ok(n) <==> c == NibbleChar(n)
    ensures HexNibble(c).Ok? ==> HexNibble(c).value < 16
  {
  }

  function Hex(bytes: seq<Byte>): (s: string)
    ensures |s| == 2 * |bytes|
  {
    if bytes == [] then []
    else
      Hex(bytes[..|bytes| - 1]) + HexByte(bytes[|bytes| - 1])
  }

  function HexByte(byte: Byte): (s: string)
    ensures |s| == 2
  {
    [NibbleChar(byte / 16), NibbleChar(byte % 16)]
  }

  method HexEncode(bytes: seq<Byte>) returns (output: string)
    ensures output == Hex(bytes)
  {
    output := "";
    for i := 0 to |bytes|
      invariant output == Hex(bytes[..i])
    {
      output := output + [NibbleChar(bytes[i] / 16)];
      output := output + [NibbleChar(bytes[i] % 16)];
      assert bytes[..i + 1][..i] == bytes[..i];
    }
    assert bytes[..|bytes|] == bytes;
  }

  function HexDecode(value: string): Result<seq<Byte>> {
    var n := |value|;
    if n == 0 then Ok([])
    else if n % 2 == 1 then Err(InvalidData)
    else
      var front :- HexDecode(value[..n - 2]);
      var high :- HexNibble(value[n - 2]);
      var low :- HexNibble(value[n - 1]);
      Ok(front + [ByteOf(high, low)])
  }

  function ByteOf(high: nat, low: nat): Byte {
    if high < 16 && low < 16 then high * 16 + low else 0
  }

  predicate LowerHex(s: string) {
    |s| % 2 == 0 && forall c <- s :: HexNibble(c).Ok?
  }

  lemma DecodeSnoc(front: string, bytes: seq<Byte>, byte: Byte)
    requires HexDecode(front) == Ok(bytes) && |front| % 2 == 0
    ensures HexDecode(front + HexByte(byte)) == Ok(bytes + [byte])
  {
    var s := front + HexByte(byte);
    assert s[..|s| - 2] == front;
    assert s[|s| - 2] == HexByte(byte)[0] && s[|s| - 1] == HexByte(byte)[1];
    Nibbles(byte / 16, HexByte(byte)[0]);
    Nibbles(byte % 16, HexByte(byte)[1]);
    assert ByteOf(byte / 16, byte % 16) == byte;
  }

  lemma {:induction false} DecodeHex(bytes: seq<Byte>)
    ensures HexDecode(Hex(bytes)) == Ok(bytes)
  {
    if bytes != [] {
      var front, byte := bytes[..|bytes| - 1], bytes[|bytes| - 1];
      var hex := Hex(front);
      DecodeHex(front);
      DecodeSnoc(hex, front, byte);
      assert bytes == front + [byte];
    }
  }

  lemma HexSnoc(bytes: seq<Byte>, high: nat, low: nat)
    requires high < 16 && low < 16
    ensures Hex(bytes + [ByteOf(high, low)]) == Hex(bytes) + [NibbleChar(high), NibbleChar(low)]
  {
    var byte := ByteOf(high, low);
    assert (bytes + [byte])[..|bytes|] == bytes;
    assert byte / 16 == high && byte % 16 == low;
  }

  lemma {:induction false} HexOfDecoded(s: string)
    ensures HexDecode(s).Ok? <==> LowerHex(s)
    ensures HexDecode(s).Ok? ==> Hex(HexDecode(s).value) == s
  {
    var n := |s|;
    if n >= 2 {
      var front := s[..n - 2];
      HexOfDecoded(front);
      assert s == front + [s[n - 2], s[n - 1]];
      if n % 2 == 0 && HexDecode(front).Ok? && HexNibble(s[n - 2]).Ok? && HexNibble(s[n - 1]).Ok? {
        var bytes, high, low := HexDecode(front).value, HexNibble(s[n - 2]).value, HexNibble(s[n - 1]).value;
        Nibbles(0, s[n - 2]);
        Nibbles(0, s[n - 1]);
        Nibbles(high, s[n - 2]);
        Nibbles(low, s[n - 1]);
        HexSnoc(bytes, high, low);
      }
    }
  }

  /** Encoding and decoding are mutual inverses between bytes and even-length lower-case hexadecimal. */
  lemma HexInverses(bytes: seq<Byte>, s: string)
    ensures HexDecode(s) == Ok(bytes) <==> s == Hex(bytes)
    ensures HexDecode(s).Ok? <==> LowerHex(s)
  {
    DecodeHex(bytes);
    HexOfDecoded(s);
  }

  // ---- lines and fields

  function IndexOf(c: char, s: string): (r: Option<nat>)
    ensures r.Some? ==> r.value < |s| && s[r.value] == c
    ensures forall j :: 0 <= j < (if r.Some? then r.value else |s|) ==> s[j] != c
  {
    if s == [] then None
    else if s[0] == c then Some(0)
    else match IndexOf(c, s[1..]) case Some(i) => Some(i + 1) case None => None
  }

  /** `str::lines`: a line ends in a line feed, or a carriage return and a line feed. */
  function Lines(raw: string): seq<string> {
    if raw == [] then []
    else match IndexOf('\n', raw)
      case None => [raw]
      case Some(i) => [if i > 0 && raw[i - 1] == '\r' then raw[..i - 1] else raw[..i]] + Lines(raw[i + 1..])
  }

  type Fields = map<string, string>

  /** One line into the table; a line without `=` or a repeated key spoils it. */
  function Insert(fields: Option<Fields>, line: string): Option<Fields> {
    match (fields, IndexOf('=', line))
    case (Some(m), Some(i)) => if line[..i] in m then None else Some(m[line[..i] := line[i + 1..]])
    case _ => None
  }

  function Table(lines: seq<string>): Option<Fields> {
    if lines == [] then Some(map[]) else Insert(Table(lines[..|lines| - 1]), lines[|lines| - 1])
  }

  const EXPECTED: set<string> := {"epoch", "executable", "pid", "runtime-config", "start-token", "version"}

  function Number(fields: Fields, key: string, max: nat): Result<nat> {
    if key !in fields then Err(InvalidData)
    else match Decimal.Parse(fields[key], max) case Some(v) => Ok(v) case None => Err(InvalidData)
  }

  function Name(fields: Fields, key: string): Result<seq<Byte>> {
    if key !in fields then Err(InvalidData)
    else
      var bytes :- HexDecode(fields[key]);
      if ValidUtf8(bytes) then Ok(bytes) else Err(InvalidData)
  }

  function FromFields(fields: Fields): Result<EpochPidRecord> {
    if fields.Keys != EXPECTED then Err(InvalidData)
    else
      var version :- Number(fields, "version", U32_MAX);
      if version != EPOCH_PID_VERSION then Err(InvalidData)
      else
        var executable :- Name(fields, "executable");
        var runtimeConfig :- Name(fields, "runtime-config");
        var pid :- Number(fields, "pid", U32_MAX);
        var epoch :- Number(fields, "epoch", U64_MAX);
        var startToken :- Number(fields, "start-token", U64_MAX);
        Record(pid, epoch, executable, startToken, runtimeConfig)
  }

  function Record(pid: nat, epoch: nat, executable: seq<Byte>, startToken: nat,
                  path: seq<Byte>): Result<EpochPidRecord> {
    if pid <= U32_MAX && epoch <= U64_MAX && startToken <= U64_MAX && ValidUtf8(executable)
    then Ok(EpochPidRecord(pid, epoch, executable, startToken, path))
    else Err(InvalidData)
  }

  function Parse(raw: string): Result<EpochPidRecord> {
    match Table(Lines(raw))
    case None => Err(InvalidData)
    case Some(fields) => FromFields(fields)
  }

  datatype Pair = Pair(key: string, value: string)

  function Line(p: Pair): string {
    p.key + "=" + p.value + "\n"
  }

  function Text(pairs: seq<Pair>): string {
    if pairs == [] then "" else Line(pairs[0]) + Text(pairs[1..])
  }

  /** The six fields in the order they are written. */
  function Pairs(r: EpochPidRecord): seq<Pair> {
    [Pair("version", Decimal.Digits(EPOCH_PID_VERSION)),
     Pair("pid", Decimal.Digits(r.pid)),
     Pair("epoch", Decimal.Digits(r.epoch)),
     Pair("executable", Hex(r.executable)),
     Pair("start-token", Decimal.Digits(r.startToken)),
     Pair("runtime-config", Hex(r.runtimeConfig))]
  }

  function Serialize(r: EpochPidRecord): Result<string> {
    if ValidUtf8(r.runtimeConfig) then Ok(Text(Pairs(r))) else Err(InvalidInput)
  }

  /** The parser's loop: fields are collected line by line, giving up at the first bad one. */
  method ParseEpochRecord(raw: string) returns (r: Result<EpochPidRecord>)
    ensures r == Parse(raw)
  {
    var lines := Lines(raw);
    var fields: Fields := map[];
    for i := 0 to |lines|
      invariant Table(lines[..i]) == Some(fields)
    {
      assert lines[..i + 1][..i] == lines[..i];
      match IndexOf('=', lines[i]) {
        case None =>
          SpoiledPrefix(lines, i + 1);
          return Err(InvalidData);
        case Some(at) =>
          var key, value := lines[i][..at], lines[i][at + 1..];
          if key in fields {
            SpoiledPrefix(lines, i + 1);
            return Err(InvalidData);
          }
          fields := fields[key := value];
      }
    }
    assert lines[..|lines|] == lines;
    r := FromFields(fields);
  }

  lemma {:induction false} SpoiledPrefix(lines: seq<string>, n: nat)
    requires n <= |lines| && Table(lines[..n]) == None
    ensures Table(lines) == None
    decreases |lines| - n
  {
    if n == |lines| {
      assert lines[..n] == lines;
    } else {
      assert lines[..n + 1][..n] == lines[..n];
      SpoiledPrefix(lines, n + 1);
    }
  }

  // ---- round trip

  predicate Plain(s: string) {
    forall c <- s :: c != '\n' && c != '\r' && c != '='
  }

  lemma {:induction false} HexIsPlain(bytes: seq<Byte>)
    ensures Plain(Hex(bytes))
  {
    if bytes != [] {
      HexIsPlain(bytes[..|bytes| - 1]);
    }
  }

  lemma DigitsArePlain(n: nat)
    ensures Plain(Decimal.Digits(n))
  {
  }

  lemma {:induction false} IndexAfter(c: char, a: string, b: string)
    requires c !in a
    ensures IndexOf(c, a + [c] + b) == Some(|a|)
  {
    var s := a + [c] + b;
    if a == [] {
      assert s[0] == c;
    } else {
      assert s[1..] == a[1..] + [c] + b;
      IndexAfter(c, a[1..], b);
    }
  }

  predicate AllPlain(pairs: seq<Pair>) {
    forall i :: 0 <= i < |pairs| ==> Plain(pairs[i].key) && Plain(pairs[i].value)
  }

  predicate DistinctKeys(pairs: seq<Pair>) {
    forall i, j :: 0 <= i < j < |pairs| ==> pairs[i].key != pairs[j].key
  }

  function Assignments(pairs: seq<Pair>): seq<string> {
    seq(|pairs|, i requires 0 <= i < |pairs| => pairs[i].key + "=" + pairs[i].value)
  }

  lemma FirstLine(p: Pair, rest: string)
    requires Plain(p.key) && Plain(p.value)
    ensures Lines(Line(p) + rest) == [p.key + "=" + p.value] + Lines(rest)
  {
    var l := p.key + "=" + p.value;
    NoBreak(p);
    assert Line(p) + rest == l + ['\n'] + rest;
    CutLine(l, rest);
  }

  lemma NoBreak(p: Pair)
    requires Plain(p.key) && Plain(p.value)
    ensures var l := p.key + "=" + p.value; '\n' !in l && l[|l| - 1] != '\r'
  {
    var l := p.key + "=" + p.value;
    if p.value != [] {
      assert l[|l| - 1] == p.value[|p.value| - 1] && p.value[|p.value| - 1] in p.value;
    }
  }

  lemma CutLine(l: string, rest: string)
    requires l != [] && '\n' !in l && l[|l| - 1] != '\r'
    ensures Lines(l + ['\n'] + rest) == [l] + Lines(rest)
  {
    var raw := l + ['\n'] + rest;
    IndexAfter('\n', l, rest);
    assert raw[..|l|] == l && raw[|l| + 1..] == rest;
    assert raw[|l| - 1] == l[|l| - 1];
  }

  lemma {:induction false} TextLines(pairs: seq<Pair>)
    requires AllPlain(pairs)
    ensures Lines(Text(pairs)) == Assignments(pairs)
  {
    if pairs != [] {
      FirstLine(pairs[0], Text(pairs[1..]));
      TextLines(pairs[1..]);
    }
  }

  lemma InsertPlain(fields: Fields, p: Pair)
    requires Plain(p.key) && p.key !in fields
    ensures Insert(Some(fields), p.key + "=" + p.value) == Some(fields[p.key := p.value])
  {
    IndexAfter('=', p.key, p.value);
    assert (p.key + ['='] + p.value)[..|p.key|] == p.key;
    assert (p.key + ['='] + p.value)[|p.key| + 1..] == p.value;
  }

  lemma TableSnoc(lines: seq<string>, line: string)
    ensures Table(lines + [line]) == Insert(Table(lines), line)
  {
    assert (lines + [line])[..|lines|] == lines;
  }

  predicate HasKey(pairs: seq<Pair>, key: string) {
    exists i :: 0 <= i < |pairs| && pairs[i].key == key
  }

  predicate Holds(fields: Fields, p: Pair) {
    p.key in fields && fields[p.key] == p.value
  }

  /** The table of some assignments holds exactly the pairs they came from. */
  lemma {:induction false} TableOfPairs(pairs: seq<Pair>) returns (fields: Fields)
    requires AllPlain(pairs) && DistinctKeys(pairs)
    ensures Table(Assignments(pairs)) == Some(fields)
    ensures forall i :: 0 <= i < |pairs| ==> Holds(fields, pairs[i])
    ensures forall k :: k in fields ==> HasKey(pairs, k)
  {
    if pairs == [] {
      fields := map[];
    } else {
      var init, last := pairs[..|pairs| - 1], pairs[|pairs| - 1];
      var m := TableOfPairs(init);
      assert pairs == init + [last];
      NewKey(pairs);
      AssignmentsSnoc(init, last);
      TableSnoc(Assignments(init), last.key + "=" + last.value);
      InsertPlain(m, last);
      fields := m[last.key := last.value];
      GrowTable(init, last, m);
    }
  }

  lemma AssignmentsSnoc(init: seq<Pair>, last: Pair)
    ensures Assignments(init + [last]) == Assignments(init) + [last.key + "=" + last.value]
  {
  }

  lemma NewKey(pairs: seq<Pair>)
    requires |pairs| > 0 && DistinctKeys(pairs)
    ensures !HasKey(pairs[..|pairs| - 1], pairs[|pairs| - 1].key)
  {
  }

  lemma GrowTable(init: seq<Pair>, last: Pair, m: Fields)
    requires !HasKey(init, last.key)
    requires forall i :: 0 <= i < |init| ==> Holds(m, init[i])
    requires forall k :: k in m ==> HasKey(init, k)
    ensures var pairs, fields := init + [last], m[last.key := last.value];
            && (forall i :: 0 <= i < |pairs| ==> Holds(fields, pairs[i]))
            && (forall k :: k in fields ==> HasKey(pairs, k))
  {
    var pairs, fields := init + [last], m[last.key := last.value];
    forall i | 0 <= i < |pairs| ensures Holds(fields, pairs[i]) {
      if i < |init| {
        assert Holds(m, init[i]);
      }
    }
    forall k | k in fields ensures HasKey(pairs, k) {
      if k in m {
        var i :| 0 <= i < |init| && init[i].key == k;
        assert pairs[i].key == k;
      } else {
        assert pairs[|init|].key == k;
      }
    }
  }

  lemma PlainKeys()
    ensures Plain("version") && Plain("pid") && Plain("epoch")
    ensures Plain("executable") && Plain("start-token") && Plain("runtime-config")
  {
  }

  lemma PairsArePlain(r: EpochPidRecord)
    ensures AllPlain(Pairs(r))
  {
    PlainKeys();
    HexIsPlain(r.executable);
    HexIsPlain(r.runtimeConfig);
    DigitsArePlain(EPOCH_PID_VERSION);
    DigitsArePlain(r.pid);
    DigitsArePlain(r.epoch);
    DigitsArePlain(r.startToken);
  }

  /** All six keys differ in length. */
  lemma KeysAreDistinct(r: EpochPidRecord)
    ensures DistinctKeys(Pairs(r))
  {
    var lengths := [7, 3, 5, 10, 11, 14];
    assert forall i :: 0 <= i < 6 ==> |Pairs(r)[i].key| == lengths[i];
  }

  lemma FieldsOfRecord(r: EpochPidRecord, fields: Fields)
    requires ValidUtf8(r.runtimeConfig)
    requires forall i :: 0 <= i < |Pairs(r)| ==> Holds(fields, Pairs(r)[i])
    requires forall k :: k in fields ==> HasKey(Pairs(r), k)
    ensures FromFields(fields) == Ok(r)
  {
    ExpectedKeys(r, fields);
    Decimal.ParseDigits(EPOCH_PID_VERSION, U32_MAX);
    Decimal.ParseDigits(r.pid, U32_MAX);
    Decimal.ParseDigits(r.epoch, U64_MAX);
    Decimal.ParseDigits(r.startToken, U64_MAX);
    FieldsDenote(fields, r);
  }

  lemma ExpectedKeys(r: EpochPidRecord, fields: Fields)
    requires forall i :: 0 <= i < |Pairs(r)| ==> Holds(fields, Pairs(r)[i])
    requires forall k :: k in fields ==> HasKey(Pairs(r), k)
    ensures fields.Keys == EXPECTED
    ensures fields["version"] == Decimal.Digits(EPOCH_PID_VERSION) && fields["pid"] == Decimal.Digits(r.pid)
    ensures fields["epoch"] == Decimal.Digits(r.epoch) && fields["start-token"] == Decimal.Digits(r.startToken)
    ensures fields["executable"] == Hex(r.executable) && fields["runtime-config"] == Hex(r.runtimeConfig)
  {
    var ps := Pairs(r);
    assert Holds(fields, ps[0]) && Holds(fields, ps[1]) && Holds(fields, ps[2]);
    assert Holds(fields, ps[3]) && Holds(fields, ps[4]) && Holds(fields, ps[5]);
  }

  /** Parsing what was serialized gives the record back. */
  lemma RoundTrip(r: EpochPidRecord)
    ensures Serialize(r).Ok? <==> ValidUtf8(r.runtimeConfig)
    ensures Serialize(r).Ok? ==> Parse(Serialize(r).value) == Ok(r)
  {
    if ValidUtf8(r.runtimeConfig) {
      PairsArePlain(r);
      KeysAreDistinct(r);
      TextLines(Pairs(r));
      var fields := TableOfPairs(Pairs(r));
      FieldsOfRecord(r, fields);
    }
  }

  /** The same text with carriage returns before its line feeds. */
  function CrLfText(pairs: seq<Pair>): string {
    if pairs == [] then "" else pairs[0].key + "=" + pairs[0].value + "\r\n" + CrLfText(pairs[1..])
  }

  lemma CutCrLf(l: string, rest: string)
    requires '\n' !in l
    ensures Lines(l + "\r\n" + rest) == [l] + Lines(rest)
  {
    var front := l + ['\r'];
    assert l + "\r\n" + rest == front + ['\n'] + rest;
    IndexAfter('\n', front, rest);
    var raw := front + ['\n'] + rest;
    assert raw[|front| - 1] == '\r' && raw[..|front| - 1] == l && raw[|front| + 1..] == rest;
  }

  lemma {:induction false} CrLfLines(pairs: seq<Pair>)
    requires AllPlain(pairs)
    ensures Lines(CrLfText(pairs)) == Assignments(pairs)
  {
    if pairs != [] {
      NoBreak(pairs[0]);
      CutCrLf(pairs[0].key + "=" + pairs[0].value, CrLfText(pairs[1..]));
      CrLfLines(pairs[1..]);
    }
  }

  /** A record whose line endings were turned into carriage return and line feed still reads back. */
  lemma CrLfRoundTrip(r: EpochPidRecord)
    requires ValidUtf8(r.runtimeConfig)
    ensures Parse(CrLfText(Pairs(r))) == Ok(r)
  {
    RoundTrip(r);
    PairsArePlain(r);
    TextLines(Pairs(r));
    CrLfLines(Pairs(r));
  }

  // ---- which texts are accepted

  function KeyOf(line: string): string {
    match IndexOf('=', line) case Some(i) => line[..i] case None => ""
  }

  function ValueOf(line: string): string {
    match IndexOf('=', line) case Some(i) => line[i + 1..] case None => ""
  }

  function KeysOf(lines: seq<string>): seq<string> {
    seq(|lines|, i requires 0 <= i < |lines| => KeyOf(lines[i]))
  }

  function ValuesOf(lines: seq<string>): seq<string> {
    seq(|lines|, i requires 0 <= i < |lines| => ValueOf(lines[i]))
  }

  predicate AllSplit(lines: seq<string>) {
    forall i :: 0 <= i < |lines| ==> IndexOf('=', lines[i]).Some?
  }

  /** No key repeats, each has its value, and these are all the fields. */
  predicate Tabulates(keys: seq<string>, values: seq<string>, fields: Fields) {
    && |keys| == |values|
    && (forall i :: 0 <= i < |keys| ==> keys[i] in fields && fields[keys[i]] == values[i])
    && (forall i, j :: 0 <= i < j < |keys| ==> keys[i] != keys[j])
    && (forall k <- fields :: k in keys)
  }

  /** Every line is `key=value`, up to the first equals sign, and the fields are their table. */
  predicate Assigns(lines: seq<string>, fields: Fields) {
    AllSplit(lines) && Tabulates(KeysOf(lines), ValuesOf(lines), fields)
  }

  lemma TabulatesMore(keys: seq<string>, values: seq<string>, fields: Fields, key: string, value: string)
    requires Tabulates(keys, values, fields) && key !in fields
    ensures Tabulates(keys + [key], values + [value], fields[key := value])
  {
    forall i | 0 <= i < |keys| ensures keys[i] != key {
      assert keys[i] in fields;
    }
  }

  lemma TabulatesLess(keys: seq<string>, values: seq<string>, fields: Fields, key: string, value: string)
    requires Tabulates(keys + [key], values + [value], fields)
    ensures key in fields && fields[key] == value && Tabulates(keys, values, fields - {key})
  {
    var all := keys + [key];
    assert all[|keys|] == key && (values + [value])[|keys|] == value;
    forall i | 0 <= i < |keys| ensures keys[i] in fields && fields[keys[i]] == values[i] && keys[i] != key {
      assert all[i] == keys[i] && (values + [value])[i] == values[i] && all[i] != all[|keys|];
    }
    forall i, j | 0 <= i < j < |keys| ensures keys[i] != keys[j] {
      assert all[i] != all[j];
    }
    forall k | k in fields - {key} ensures k in keys {
      assert k in all;
    }
  }

  lemma LinesSnoc(init: seq<string>, line: string)
    ensures KeysOf(init + [line]) == KeysOf(init) + [KeyOf(line)]
    ensures ValuesOf(init + [line]) == ValuesOf(init) + [ValueOf(line)]
    ensures AllSplit(init + [line]) <==> AllSplit(init) && IndexOf('=', line).Some?
  {
    var lines := init + [line];
    assert lines[|init|] == line;
    assert forall i :: 0 <= i < |init| ==> lines[i] == init[i];
  }

  lemma InsertSplit(m: Fields, line: string)
    ensures Insert(Some(m), line) ==
            if IndexOf('=', line).Some? && KeyOf(line) !in m then Some(m[KeyOf(line) := ValueOf(line)]) else None
  {
  }

  lemma {:induction false} AssignsToTable(lines: seq<string>, fields: Fields)
    requires Assigns(lines, fields)
    ensures Table(lines) == Some(fields)
  {
    if lines == [] {
      assert fields.Keys == {};
    } else {
      var init, line := lines[..|lines| - 1], lines[|lines| - 1];
      var m := fields - {KeyOf(line)};
      assert lines == init + [line];
      LinesSnoc(init, line);
      TabulatesLess(KeysOf(init), ValuesOf(init), fields, KeyOf(line), ValueOf(line));
      AssignsToTable(init, m);
      InsertSplit(m, line);
      PutBack(fields, KeyOf(line), ValueOf(line));
    }
  }

  lemma PutBack(fields: Fields, key: string, value: string)
    requires key in fields && fields[key] == value
    ensures fields == (fields - {key})[key := value]
  {
  }

  lemma {:induction false} TableAssigns(lines: seq<string>)
    requires Table(lines).Some?
    ensures Assigns(lines, Table(lines).value)
  {
    if lines != [] {
      var init, line := lines[..|lines| - 1], lines[|lines| - 1];
      assert lines == init + [line];
      TableAssigns(init);
      InsertSplit(Table(init).value, line);
      LinesSnoc(init, line);
      TabulatesMore(KeysOf(init), ValuesOf(init), Table(init).value, KeyOf(line), ValueOf(line));
    }
  }

  /** The six fields, with values that denote the record. */
  predicate Denotes(fields: Fields, r: EpochPidRecord) {
    && fields.Keys == EXPECTED
    && Decimal.Parse(fields["version"], U32_MAX) == Some(EPOCH_PID_VERSION)
    && Decimal.Parse(fields["pid"], U32_MAX) == Some(r.pid)
    && Decimal.Parse(fields["epoch"], U64_MAX) == Some(r.epoch)
    && Decimal.Parse(fields["start-token"], U64_MAX) == Some(r.startToken)
    && fields["executable"] == Hex(r.executable)
    && fields["runtime-config"] == Hex(r.runtimeConfig) && ValidUtf8(r.runtimeConfig)
  }

  lemma FieldsDenote(fields: Fields, r: EpochPidRecord)
    ensures FromFields(fields) == Ok(r) <==> Denotes(fields, r)
  {
    if fields.Keys == EXPECTED {
      HexInverses(r.executable, fields["executable"]);
      HexInverses(r.runtimeConfig, fields["runtime-config"]);
      DecimalBounds(fields["pid"], U32_MAX);
      DecimalBounds(fields["epoch"], U64_MAX);
      DecimalBounds(fields["start-token"], U64_MAX);
    }
  }

  lemma DecimalBounds(s: string, max: nat)
    ensures Decimal.Parse(s, max).Some? ==> Decimal.Parse(s, max).value <= max
  {
  }

  /** A text is accepted as a record exactly when its lines assign six values that denote it. */
  lemma ParseAccepts(raw: string, r: EpochPidRecord)
    ensures Parse(raw) == Ok(r) <==> exists fields: Fields :: Assigns(Lines(raw), fields) && Denotes(fields, r)
  {
    if Parse(raw) == Ok(r) {
      var fields := Table(Lines(raw)).value;
      TableAssigns(Lines(raw));
      FieldsDenote(fields, r);
    }
    if fields: Fields :| Assigns(Lines(raw), fields) && Denotes(fields, r) {
      AssignsToTable(Lines(raw), fields);
      FieldsDenote(fields, r);
    }
  }

  // ---- the order of lines is irrelevant

  lemma InsertCommutes(fields: Option<Fields>, a: string, b: string)
    ensures Insert(Insert(fields, a), b) == Insert(Insert(fields, b), a)
  {
    if fields.Some? && IndexOf('=', a).Some? && IndexOf('=', b).Some? {
      var i, j := IndexOf('=', a).value, IndexOf('=', b).value;
      var m := fields.value;
      assert m[a[..i] := a[i + 1..]][b[..j] := b[j + 1..]] == m[b[..j] := b[j + 1..]][a[..i] := a[i + 1..]]
          || a[..i] == b[..j];
    }
  }

  lemma {:induction false} InsertMoves(front: seq<string>, line: string, back: seq<string>)
    ensures Table(front + [line] + back) == Insert(Table(front + back), line)
  {
    if back == [] {
      assert front + [line] + back == front + [line] && front + back == front;
      TableSnoc(front, line);
    } else {
      var init, last := back[..|back| - 1], back[|back| - 1];
      assert front + [line] + back == (front + [line] + init) + [last];
      assert front + back == (front + init) + [last];
      TableSnoc(front + [line] + init, last);
      TableSnoc(front + init, last);
      InsertMoves(front, line, init);
      InsertCommutes(Table(front + init), line, last);
    }
  }

  lemma FindLine(init: seq<string>, line: string, b: seq<string>) returns (front: seq<string>, back: seq<string>)
    requires multiset(init + [line]) == multiset(b)
    ensures b == front + [line] + back && multiset(init) == multiset(front + back)
  {
    assert line in multiset(init + [line]);
    var i :| 0 <= i < |b| && b[i] == line;
    front, back := b[..i], b[i + 1..];
    assert b == front + [line] + back;
    assert multiset(init) == multiset(b) - multiset{line};
  }

  lemma {:induction false} TablePermutes(a: seq<string>, b: seq<string>)
    requires multiset(a) == multiset(b)
    ensures Table(a) == Table(b)
    decreases |a|
  {
    if a == [] {
      assert |multiset(b)| == |b|;
    } else {
      var init, last := a[..|a| - 1], a[|a| - 1];
      assert a == init + [last];
      var front, back := FindLine(init, last, b);
      TablePermutes(init, front + back);
      TableSnoc(init, last);
      InsertMoves(front, last, back);
    }
  }

  /** Two texts with the same lines in any order parse alike, errors included. */
  lemma ParsePermutes(raw: string, shuffled: string)
    requires multiset(Lines(raw)) == multiset(Lines(shuffled))
    ensures Parse(raw) == Parse(shuffled)
  {
    TablePermutes(Lines(raw), Lines(shuffled));
  }

  // ---- epochs in file names

  /** `epoch_from_file_name`, where `None` is a path without a UTF-8 file name. */
  function EpochFromFileName(name: Option<string>, prefix: string, suffix: string): Result<U64> {
    match name
    case None => Err(InvalidInput)
    case Some(n) =>
      if !(prefix <= n) then Err(InvalidInput)
      else
        var rest := n[|prefix|..];
        if |rest| < |suffix| || rest[|rest| - |suffix|..] != suffix then Err(InvalidInput)
        else match Decimal.Parse(rest[..|rest| - |suffix|], U64_MAX)
          case Some(v) => Ok(v)
          case None => Err(InvalidInput)
  }

  function EpochFileName(prefix: string, epoch: U64, suffix: string): string {
    prefix + Decimal.Digits(epoch) + suffix
  }

  lemma EpochNameRoundTrip(prefix: string, epoch: U64, suffix: string)
    ensures EpochFromFileName(Some(EpochFileName(prefix, epoch, suffix)), prefix, suffix) == Ok(epoch)
  {
    var digits := Decimal.Digits(epoch);
    var name := prefix + digits + suffix;
    assert name[|prefix|..] == digits + suffix;
    assert (digits + suffix)[|digits|..] == suffix && (digits + suffix)[..|digits|] == digits;
    Decimal.ParseDigits(epoch, U64_MAX);
  }

  /**
   * An accepted name need not be the one generated for its epoch: it is so
   * exactly when its numeral has no plus sign and no superfluous leading zero.
   */
  lemma AcceptedName(name: string, prefix: string, suffix: string)
    requires EpochFromFileName(Some(name), prefix, suffix).Ok?
    ensures |name| >= |prefix| + |suffix|
    ensures name == EpochFileName(prefix, EpochFromFileName(Some(name), prefix, suffix).value, suffix) <==>
            Decimal.Canonical(name[|prefix|..|name| - |suffix|])
  {
    var rest := name[|prefix|..];
    var mid := rest[..|rest| - |suffix|];
    var epoch := EpochFromFileName(Some(name), prefix, suffix).value;
    assert mid == name[|prefix|..|name| - |suffix|];
    assert name == prefix + mid + suffix;
    Decimal.FormatsBack(mid, U64_MAX);
    if name == EpochFileName(prefix, epoch, suffix) {
      var digits := Decimal.Digits(epoch);
      assert |digits| == |mid|;
      assert mid == name[|prefix|..|prefix| + |mid|] == digits;
    }
  }

  /** Two different accepted names of one epoch. */
  lemma PaddedNameAccepted()
    ensures EpochFromFileName(Some("core-+07.pid"), "core-", ".pid") == Ok(7)
    ensures EpochFromFileName(Some("core-7.pid"), "core-", ".pid") == Ok(7)
  {
    assert "core-+07.pid"[|"core-"|..] == "+07.pid" && "+07.pid"[..3] == "+07" && "+07.pid"[3..] == ".pid";
    assert "core-7.pid"[|"core-"|..] == "7.pid" && "7.pid"[..1] == "7" && "7.pid"[1..] == ".pid";
    assert "+07"[1..] == "07" && "07"[..1] == "0" && "0"[..0] == "" && "7"[..0] == "";
    assert Decimal.Value("0") == Some(0);
  }
}
