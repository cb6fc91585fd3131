/** Access tokens: header, payload and signature, each in base64url without padding, joined by dots. */
module Token {
  import opened Domain

  type Byte = b: nat | b < 256
  type Sextet = v: nat | v < 64

  // ---- base64url (section 5 of RFC 4648) ----

  /** The character of a sextet. */
  function Letter(v: Sextet): (c: char)
    ensures Value(c) == Some(v)
    ensures c != '.' && c != '='
  {
    if v < 26 then 'A' + v as char
    else if v < 52 then 'a' + (v - 26) as char
    else if v < 62 then '0' + (v - 52) as char
    else if v == 62 then '-' else '_'
  }

  /** The sextet of a character.  The plain base64 characters for 62 and 63 are read as well. */
  function Value(c: char): Option<Sextet> {
    if 'A' <= c <= 'Z' then Some((c - 'A') as nat)
    else if 'a' <= c <= 'z' then Some(26 + (c - 'a') as nat)
    else if '0' <= c <= '9' then Some(52 + (c - '0') as nat)
    else if c == '-' || c == '+' then Some(62)
    else if c == '_' || c == '/' then Some(63)
    else None
  }

  /** What is read: the letters, the digits, and of the remaining characters those of either alphabet. */
  lemma BothAlphabetsAreRead(c: char)
    ensures Value(c) == Some(62) <==> c in {'-', '+'}
    ensures Value(c) == Some(63) <==> c in {'_', '/'}
    ensures Value(c) == None <==>
      !('A' <= c <= 'Z') && !('a' <= c <= 'z') && !('0' <= c <= '9') && c !in {'-', '+', '_', '/'}
    ensures Value(c).Some? && Value(c).value < 62 ==> Letter(Value(c).value) == c
  {
  }

  function ByteAt(data: seq<Byte>, k: nat): Byte {
    if k < |data| then data[k] else 0
  }

  /** Three bytes give four characters; a shorter tail is padded. */
  function Padded(data: seq<Byte>): string {
    seq(4 * Groups(|data|), k requires 0 <= k => PaddedAt(data, k / 4, k % 4))
  }

  function Groups(n: nat): nat {
    (n + 2) / 3
  }

  /** The character j of the group g. */
  function PaddedAt(data: seq<Byte>, g: nat, j: nat): char {
    var a, b, c := ByteAt(data, 3 * g), ByteAt(data, 3 * g + 1), ByteAt(data, 3 * g + 2);
    if j == 0 then Letter(a / 4)
    else if j == 1 then Letter(a % 4 * 16 + b / 16)
    else if j == 2 then if 3 * g + 1 < |data| then Letter(b % 16 * 4 + c / 64) else '='
    else if 3 * g + 2 < |data| then Letter(c % 64) else '='
  }

  function StripRight(s: string, c: char): string {
    if s != "" && s[|s| - 1] == c then StripRight(s[..|s| - 1], c) else s
  }

  function Encode(data: seq<Byte>): string {
    StripRight(Padded(data), '=')
  }

  /** The library's lenient reader, from the character k on: characters outside the alphabet are
      skipped, and reading ends where padding completes a group.  `pos` characters of the group have
      been read, `left` are the bits not yet used, `pads` counts the padding since the last one. */
  function Read(s: string, k: nat, pos: nat, left: nat, pads: nat): Option<seq<Byte>>
    requires k <= |s| && pos < 4 && left < 64
    requires pos == 2 ==> left < 16
    requires pos == 3 ==> left < 4
    decreases |s| - k
  {
    if k == |s| then if pos == 0 then Some([]) else None
    else if s[k] == '=' then
      if pos < 2 then Read(s, k + 1, pos, left, pads)
      else if pos + pads + 1 >= 4 then Some([])
      else Read(s, k + 1, pos, left, pads + 1)
    else
      match Value(s[k])
      case None => Read(s, k + 1, pos, left, pads)
      case Some(v) =>
        if pos == 0 then Read(s, k + 1, 1, v, 0)
        else if pos == 1 then Then(left * 4 + v / 16, Read(s, k + 1, 2, v % 16, 0))
        else if pos == 2 then Then(left * 16 + v / 4, Read(s, k + 1, 3, v % 4, 0))
        else Then(left * 64 + v, Read(s, k + 1, 0, 0, 0))
  }

  function Then(b: Byte, rest: Option<seq<Byte>>): Option<seq<Byte>> {
    if rest.None? then None else Some([b] + rest.value)
  }

  /** What completes a text of n characters to a multiple of four. */
  function Padding(n: nat): string {
    if 4 - n % 4 != 4 then seq(4 - n % 4, k => '=') else ""
  }

  function Decode(s: string): Option<seq<Byte>> {
    Read(s + Padding(|s|), 0, 0, 0, 0)
  }

  lemma HeadIsRead(s: string, k: nat, a: Byte, v: Sextet)
    requires k + 2 <= |s| && s[k] == Letter(a / 4) && s[k + 1] == Letter(v) && v / 16 == a % 4
    ensures Read(s, k, 0, 0, 0) == Then(a, Read(s, k + 2, 2, v % 16, 0))
  {
    assert Read(s, k, 0, 0, 0) == Read(s, k + 1, 1, a / 4, 0);
    assert a / 4 * 4 + v / 16 == a;
  }

  lemma NextIsRead(s: string, k: nat, left: nat, b: Byte, u: Sextet)
    requires k < |s| && s[k] == Letter(u) && left == b / 16 && u / 4 == b % 16
    ensures Read(s, k, 2, left, 0) == Then(b, Read(s, k + 1, 3, u % 4, 0))
  {
    assert left * 16 + u / 4 == b;
  }

  lemma LastIsRead(s: string, k: nat, left: nat, c: Byte)
    requires k < |s| && s[k] == Letter(c % 64) && left == c / 64
    ensures Read(s, k, 3, left, 0) == Then(c, Read(s, k + 1, 0, 0, 0))
  {
    assert left * 64 + c % 64 == c;
  }

  lemma DoublePaddingEnds(s: string, k: nat, left: nat)
    requires k + 2 <= |s| && s[k] == '=' && s[k + 1] == '=' && left < 16
    ensures Read(s, k, 2, left, 0) == Some([])
  {
    assert Read(s, k + 1, 2, left, 1) == Some([]);
  }

  lemma PaddedIndex(data: seq<Byte>, g: nat, k: nat)
    requires 3 * g < |data| && 4 * g <= k < 4 * g + 4
    ensures k < |Padded(data)| && Padded(data)[k] == PaddedAt(data, g, k - 4 * g)
  {
    assert k / 4 == g && k % 4 == k - 4 * g;
  }

  lemma FullIsRead(s: string, k: nat, a: Byte, b: Byte, c: Byte)
    requires k + 4 <= |s| && s[k] == Letter(a / 4) && s[k + 1] == Letter(a % 4 * 16 + b / 16)
    requires s[k + 2] == Letter(b % 16 * 4 + c / 64) && s[k + 3] == Letter(c % 64)
    ensures Read(s, k, 0, 0, 0) == Then(a, Then(b, Then(c, Read(s, k + 4, 0, 0, 0))))
  {
    var v, u := a % 4 * 16 + b / 16, b % 16 * 4 + c / 64;
    HeadIsRead(s, k, a, v);
    NextIsRead(s, k + 2, v % 16, b, u);
    LastIsRead(s, k + 3, u % 4, c);
  }

  lemma TwoAreRead(s: string, k: nat, a: Byte, b: Byte)
    requires k + 4 <= |s| && s[k] == Letter(a / 4) && s[k + 1] == Letter(a % 4 * 16 + b / 16)
    requires s[k + 2] == Letter(b % 16 * 4) && s[k + 3] == '='
    ensures Read(s, k, 0, 0, 0) == Some([a, b])
  {
    var v, u := a % 4 * 16 + b / 16, b % 16 * 4;
    HeadIsRead(s, k, a, v);
    NextIsRead(s, k + 2, v % 16, b, u);
    assert Read(s, k + 3, 3, u % 4, 0) == Some([]);
    assert [a] + ([b] + []) == [a, b];
  }

  lemma OneIsRead(s: string, k: nat, a: Byte)
    requires k + 4 <= |s| && s[k] == Letter(a / 4) && s[k + 1] == Letter(a % 4 * 16)
    requires s[k + 2] == '=' && s[k + 3] == '='
    ensures Read(s, k, 0, 0, 0) == Some([a])
  {
    var v := a % 4 * 16;
    HeadIsRead(s, k, a, v);
    DoublePaddingEnds(s, k + 2, v % 16);
    assert [a] + [] == [a];
  }

  predicate SpellsGroup(s: string, data: seq<Byte>, g: nat) {
    4 * g + 4 <= |s| && forall k | 4 * g <= k < 4 * g + 4 :: s[k] == PaddedAt(data, g, k - 4 * g)
  }

  ghost predicate Spells(s: string, data: seq<Byte>) {
    |s| == 4 * Groups(|data|) && forall g: nat | 3 * g < |data| :: SpellsGroup(s, data, g)
  }

  lemma PaddedSpellsGroup(data: seq<Byte>, g: nat)
    requires 3 * g < |data|
    ensures SpellsGroup(Padded(data), data, g)
  {
    assert g < Groups(|data|);
    forall k | 4 * g <= k < 4 * g + 4 ensures Padded(data)[k] == PaddedAt(data, g, k - 4 * g) {
      PaddedIndex(data, g, k);
    }
  }

  lemma PaddedSpells(data: seq<Byte>)
    ensures Spells(Padded(data), data)
  {
    forall g: nat | 3 * g < |data| {
      PaddedSpellsGroup(data, g);
    }
  }

  lemma GroupIsRead(s: string, data: seq<Byte>, g: nat)
    requires 3 * g + 3 <= |data| && SpellsGroup(s, data, g)
    ensures Read(s, 4 * g, 0, 0, 0)
      == Then(data[3 * g], Then(data[3 * g + 1], Then(data[3 * g + 2], Read(s, 4 * g + 4, 0, 0, 0))))
  {
    FullIsRead(s, 4 * g, data[3 * g], data[3 * g + 1], data[3 * g + 2]);
  }

  lemma TailIsRead(s: string, data: seq<Byte>, g: nat)
    requires 3 * g < |data| < 3 * g + 3 && SpellsGroup(s, data, g)
    ensures Read(s, 4 * g, 0, 0, 0) == Some(data[3 * g..])
  {
    if 3 * g + 1 == |data| {
      OneIsRead(s, 4 * g, data[3 * g]);
      assert data[3 * g..] == [data[3 * g]];
    } else {
      TwoAreRead(s, 4 * g, data[3 * g], data[3 * g + 1]);
      assert data[3 * g..] == [data[3 * g], data[3 * g + 1]];
    }
  }

  /** The bytes from the group g on. */
  function From(data: seq<Byte>, g: nat): seq<Byte> {
    if 3 * g < |data| then data[3 * g..] else []
  }

  lemma GroupBefore(s: string, data: seq<Byte>, g: nat)
    requires 3 * g + 3 <= |data| && SpellsGroup(s, data, g)
    requires Read(s, 4 * g + 4, 0, 0, 0) == Some(From(data, g + 1))
    ensures Read(s, 4 * g, 0, 0, 0) == Some(From(data, g))
  {
    GroupIsRead(s, data, g);
    var k := 3 * g;
    assert From(data, g) == [data[k]] + ([data[k + 1]] + ([data[k + 2]] + From(data, g + 1)));
  }

  /** From any group on, the padded text is read as the bytes it came from. */
  lemma {:induction false} SpelledIsRead(s: string, data: seq<Byte>, g: nat)
    requires Spells(s, data) && g <= Groups(|data|)
    ensures 4 * g <= |s| && Read(s, 4 * g, 0, 0, 0) == Some(From(data, g))
    decreases Groups(|data|) - g
  {
    if g < Groups(|data|) {
      assert SpellsGroup(s, data, g);
      if 3 * g + 3 <= |data| {
        SpelledIsRead(s, data, g + 1);
        GroupBefore(s, data, g);
      } else {
        TailIsRead(s, data, g);
      }
    }
  }

  lemma {:induction false} StripRightAt(s: string, m: nat, c: char)
    requires m <= |s| && (m > 0 ==> s[m - 1] != c) && forall k | m <= k < |s| :: s[k] == c
    ensures StripRight(s, c) == s[..m]
  {
    if m < |s| {
      StripRightAt(s[..|s| - 1], m, c);
      assert s[..|s| - 1][..m] == s[..m];
    } else {
      assert s[..m] == s;
    }
  }

  /** The number of characters that carry bits. */
  function EncodedLength(n: nat): nat {
    n / 3 * 4 + if n % 3 == 0 then 0 else n % 3 + 1
  }

  predicate InAlphabet(s: string) {
    forall k | 0 <= k < |s| :: Value(s[k]).Some? && s[k] != '.'
  }

  /** Which characters carry bits. */
  lemma PaddedChar(data: seq<Byte>, k: nat)
    requires k < |Padded(data)|
    ensures k < EncodedLength(|data|) ==> Value(Padded(data)[k]).Some? && Padded(data)[k] !in {'.', '='}
    ensures k >= EncodedLength(|data|) ==> Padded(data)[k] == '='
  {
    assert 3 * (k / 4) < |data|;
    PaddedIndex(data, k / 4, k);
  }

  lemma LengthIsRestored(n: nat)
    ensures 4 * Groups(n) == EncodedLength(n) + |Padding(EncodedLength(n))|
  {
    assert n / 3 * 4 % 4 == 0;
  }

  lemma EncodeStrips(data: seq<Byte>)
    ensures EncodedLength(|data|) <= |Padded(data)|
    ensures Encode(data) == Padded(data)[..EncodedLength(|data|)]
    ensures forall k | EncodedLength(|data|) <= k < |Padded(data)| :: Padded(data)[k] == '='
    ensures InAlphabet(Encode(data))
  {
    LengthIsRestored(|data|);
    forall k | 0 <= k < |Padded(data)| {
      PaddedChar(data, k);
    }
    StripRightAt(Padded(data), EncodedLength(|data|), '=');
  }

  /** What stripping removes is what decoding puts back. */
  lemma PaddingIsRestored(data: seq<Byte>)
    ensures Encode(data) + Padding(|Encode(data)|) == Padded(data)
  {
    EncodeStrips(data);
    LengthIsRestored(|data|);
  }

  /** Decoding undoes encoding for every byte string. */
  lemma DecodeUndoesEncode(data: seq<Byte>)
    ensures Decode(Encode(data)) == Some(data)
  {
    PaddingIsRestored(data);
    PaddedSpells(data);
    SpelledIsRead(Padded(data), data, 0);
  }

  /** Each character of the encoded text, by its group and its place in it. */
  lemma EncodedAt(data: seq<Byte>, k: nat)
    requires k < EncodedLength(|data|)
    ensures |Encode(data)| == EncodedLength(|data|) && Encode(data)[k] == PaddedAt(data, k / 4, k % 4)
  {
    EncodeStrips(data);
    PaddedIndex(data, k / 4, k);
  }

  lemma OneEncodes(data: seq<Byte>)
    requires |data| == 1
    ensures Encode(data) == [Letter(data[0] / 4), Letter(data[0] % 4 * 16)]
  {
    EncodedAt(data, 0);
    EncodedAt(data, 1);
  }

  lemma TwoEncode(data: seq<Byte>)
    requires |data| == 2
    ensures Encode(data) == [Letter(data[0] / 4), Letter(data[0] % 4 * 16 + data[1] / 16), Letter(data[1] % 16 * 4)]
  {
    EncodedAt(data, 0);
    EncodedAt(data, 1);
    EncodedAt(data, 2);
  }

  lemma ThreeSpell(text: string, data: seq<Byte>)
    requires |data| == 3 && |text| == 4
    requires text[0] == PaddedAt(data, 0, 0) && text[1] == PaddedAt(data, 0, 1)
    requires text[2] == PaddedAt(data, 0, 2) && text[3] == PaddedAt(data, 0, 3)
    ensures text == [Letter(data[0] / 4), Letter(data[0] % 4 * 16 + data[1] / 16),
                     Letter(data[1] % 16 * 4 + data[2] / 64), Letter(data[2] % 64)]
  {
  }

  lemma ThreeEncode(data: seq<Byte>)
    requires |data| == 3
    ensures Encode(data) == [Letter(data[0] / 4), Letter(data[0] % 4 * 16 + data[1] / 16),
                             Letter(data[1] % 16 * 4 + data[2] / 64), Letter(data[2] % 64)]
  {
    EncodedAt(data, 0);
    EncodedAt(data, 1);
    EncodedAt(data, 2);
    EncodedAt(data, 3);
    ThreeSpell(Encode(data), data);
  }

  lemma SomeLetters()
    ensures Letter(25) == 'Z' && Letter(32) == 'g' && Letter(38) == 'm' && Letter(60) == '8'
    ensures Letter(61) == '9' && Letter(47) == 'v' && Letter(62) == '-' && Letter(63) == '_'
  {
  }

  /** The first test vectors of section 10 of RFC 4648, without padding: "f", "fo" and "foo". */
  lemma KnownTexts(data: seq<Byte>)
    requires 1 <= |data| <= 3 && data[0] == 0x66 && forall k | 1 <= k < |data| :: data[k] == 0x6f
    ensures Encode(data) == if |data| == 1 then "Zg" else if |data| == 2 then "Zm8" else "Zm9v"
  {
    SomeLetters();
    if |data| == 1 {
      OneEncodes(data);
    } else if |data| == 2 {
      TwoEncode(data);
    } else {
      ThreeEncode(data);
    }
  }

  /** The two characters in which the URL-safe alphabet differs. */
  lemma UrlSafeText(data: seq<Byte>)
    requires |data| == 3 && data[0] == 0xfb && data[1] == 0xff && data[2] == 0xbf
    ensures Encode(data) == "-_-_"
  {
    SomeLetters();
    ThreeEncode(data);
  }

  // ---- Tokens (section 7.1 of RFC 7515, section 4.1.4 of RFC 7519) ----

  datatype Json =
    | Null
    | Bool(b: bool)
    | Number(n: real)
    | Text(s: string)
    | List(elements: seq<Json>)
    | Object(fields: map<string, Json>)

  /** The library calls: the keyed hash of a text, and writing and reading JSON as UTF-8. */
  datatype Library = Library(
    mac: string -> seq<Byte>,
    dumps: Json -> seq<Byte>,
    loads: seq<Byte> -> Option<Json>)

  const HEADER: Json := Object(map["alg" := Text("HS256"), "typ" := Text("JWT")])

  function Claims(username: string, role: string, merchant: string, permissions: Json, now: int, ttl: int): Json {
    Object(map[
      "sub" := Text(username), "role" := Text(role), "merchant_id" := Text(merchant),
      "permissions" := permissions, "iat" := Number(now as real), "exp" := Number((now + ttl) as real),
      "iss" := Text("resolverai")])
  }

  /** None is the error for a role that is not configured. */
  function CreateAccessToken(lib: Library, roles: map<string, Json>, username: string, role: string,
                             merchant: string, now: int, ttl: int): Option<string>
  {
    if role !in roles then None
    else Some(Sign(lib, Encode(lib.dumps(HEADER)),
                   Encode(lib.dumps(Claims(username, role, merchant, roles[role], now, ttl)))))
  }

  function Sign(lib: Library, header: string, payload: string): string {
    header + "." + payload + "." + Encode(lib.mac(header + "." + payload))
  }

  /** The parts between the dots; there is always at least one. */
  function Split(s: string): (parts: seq<string>)
    ensures parts != []
  {
    if s == "" then [""]
    else if s[0] == '.' then [""] + Split(s[1..])
    else var parts := Split(s[1..]); [[s[0]] + parts[0]] + parts[1..]
  }

  function Last(parts: seq<string>): string
    requires parts != []
  {
    parts[|parts| - 1]
  }

  predicate Truthy(j: Json) {
    match j
    case Null => false
    case Bool(b) => b
    case Number(n) => n != 0.0
    case Text(s) => s != ""
    case List(elements) => elements != []
    case Object(fields) => fields != map[]
  }

  /** Whether the payload is refused at the given time, by its expiry or because an exception is raised. */
  predicate Refused(payload: Json, now: real) {
    if !payload.Object? then true
    else if "exp" !in payload.fields || !Truthy(payload.fields["exp"]) then false
    else
      match payload.fields["exp"]
      case Number(n) => now > n
      case Bool(b) => now > 1.0
      case _ => true
  }

  function DecodeAccessToken(lib: Library, token: string, now: real): Option<Json> {
    var parts := Split(token);
    if |parts| != 3 then None
    else
      var signature := Decode(parts[2]);
      if signature != Some(lib.mac(parts[0] + "." + parts[1])) then None
      else
        match Decode(parts[1])
        case None => None
        case Some(bytes) =>
          var payload := lib.loads(bytes);
          if payload.None? || Refused(payload.value, now) then None else payload
  }

  predicate NoDot(s: string) {
    forall k | 0 <= k < |s| :: s[k] != '.'
  }

  lemma {:induction false} SplitWithoutDot(s: string)
    requires NoDot(s)
    ensures Split(s) == [s]
  {
    if s != "" {
      SplitWithoutDot(s[1..]);
      assert [s[0]] + s[1..] == s;
    }
  }

  lemma {:induction false} SplitAtDot(a: string, rest: string)
    requires NoDot(a)
    ensures Split(a + "." + rest) == [a] + Split(rest)
  {
    var s := a + "." + rest;
    if a == "" {
      assert s[1..] == rest;
    } else {
      SplitAtDot(a[1..], rest);
      assert s[1..] == a[1..] + "." + rest;
      assert [a[0]] + a[1..] == a;
    }
  }

  /** A text splits into parts without dots, and joining them gives it back. */
  lemma {:induction false} SplitJoins(s: string)
    ensures NoDot(Split(s)[0])
    ensures |Split(s)| == 3 ==> s == Split(s)[0] + "." + Split(s)[1] + "." + Split(s)[2] && NoDot(Split(s)[1])
    ensures |Split(s)| == 2 ==> s == Split(s)[0] + "." + Split(s)[1] && NoDot(Split(s)[1])
    ensures |Split(s)| == 1 ==> s == Split(s)[0]
  {
    if s != "" {
      SplitJoins(s[1..]);
      assert s == [s[0]] + s[1..];
    }
  }

  /** The signed text splits into exactly the three parts it was made of. */
  lemma SignedHasThreeParts(lib: Library, header: string, payload: string)
    requires NoDot(header) && NoDot(payload)
    ensures Split(Sign(lib, header, payload)) == [header, payload, Encode(lib.mac(header + "." + payload))]
  {
    var signature := Encode(lib.mac(header + "." + payload));
    EncodeStrips(lib.mac(header + "." + payload));
    assert Sign(lib, header, payload) == header + "." + (payload + "." + signature);
    SplitAtDot(header, payload + "." + signature);
    SplitAtDot(payload, signature);
    SplitWithoutDot(signature);
  }

  lemma SignedDecodes(lib: Library, header: seq<Byte>, payload: seq<Byte>, now: real)
    ensures DecodeAccessToken(lib, Sign(lib, Encode(header), Encode(payload)), now)
      == var p := lib.loads(payload); if p.None? || Refused(p.value, now) then None else p
  {
    EncodeStrips(header);
    EncodeStrips(payload);
    SignedHasThreeParts(lib, Encode(header), Encode(payload));
    DecodeUndoesEncode(lib.mac(Encode(header) + "." + Encode(payload)));
    DecodeUndoesEncode(payload);
  }

  /** A created token decodes to its own payload up to and including the second of its expiry, and to
      nothing later; an expiry of zero is no expiry. */
  lemma CreatedTokenDecodes(lib: Library, roles: map<string, Json>, username: string, role: string,
                            merchant: string, issued: int, ttl: int, now: real)
    requires role in roles
    requires var p := Claims(username, role, merchant, roles[role], issued, ttl); lib.loads(lib.dumps(p)) == Some(p)
    ensures var p := Claims(username, role, merchant, roles[role], issued, ttl);
      DecodeAccessToken(lib, CreateAccessToken(lib, roles, username, role, merchant, issued, ttl).value, now)
      == if now <= (issued + ttl) as real || issued + ttl == 0 then Some(p) else None
  {
    var p := Claims(username, role, merchant, roles[role], issued, ttl);
    SignedDecodes(lib, lib.dumps(HEADER), lib.dumps(p), now);
    assert p.fields["exp"] == Number((issued + ttl) as real);
    assert Refused(p, now) <==> issued + ttl != 0 && now > (issued + ttl) as real;
  }

  /** When a signed payload is refused, whoever signed it: if it is no object, if its expiry has passed (true
      counts as 1), or if its expiry is a text, a list or an object that is not empty.  An expiry that is
      absent, null, false, zero or empty is none. */
  lemma RefusedExactlyWhen(lib: Library, header: seq<Byte>, bytes: seq<Byte>, payload: Json, now: real)
    requires lib.loads(bytes) == Some(payload)
    ensures DecodeAccessToken(lib, Sign(lib, Encode(header), Encode(bytes)), now) in {None, Some(payload)}
    ensures DecodeAccessToken(lib, Sign(lib, Encode(header), Encode(bytes)), now) == None <==>
      || !payload.Object?
      || ("exp" in payload.fields
          && match payload.fields["exp"] {
               case Null => false
               case Bool(b) => b && now > 1.0
               case Number(n) => n != 0.0 && now > n
               case Text(s) => |s| > 0
               case List(elements) => |elements| > 0
               case Object(fields) => fields.Keys != {}
             })
  {
    SignedDecodes(lib, header, bytes, now);
    if payload.Object? && "exp" in payload.fields && payload.fields["exp"].Object? {
      var fields := payload.fields["exp"].fields;
      assert fields == map[] <==> fields.Keys == {};
    }
  }

  /** What a token is made of: a fixed header, and the user's name, role, merchant and permissions with the time
      of issue and of expiry.  None is made for a role that is not configured. */
  lemma CreatedTokenSays(lib: Library, roles: map<string, Json>, username: string, role: string,
                         merchant: string, issued: int, ttl: int)
    ensures CreateAccessToken(lib, roles, username, role, merchant, issued, ttl).Some? <==> role in roles
    ensures HEADER == Object(map["alg" := Text("HS256"), "typ" := Text("JWT")])
    ensures role in roles ==>
      var p := Claims(username, role, merchant, roles[role], issued, ttl);
      && p.fields.Keys == {"sub", "role", "merchant_id", "permissions", "iat", "exp", "iss"}
      && p.fields["sub"] == Text(username) && p.fields["role"] == Text(role) && p.fields["merchant_id"] == Text(merchant)
      && p.fields["permissions"] == roles[role] && p.fields["iss"] == Text("resolverai")
      && p.fields["iat"] == Number(issued as real) && p.fields["exp"] == Number((issued + ttl) as real)
  {
  }

  lemma AcceptedIsSigned(lib: Library, token: string, now: real)
    requires DecodeAccessToken(lib, token, now).Some?
    ensures var parts := Split(token);
      && |parts| == 3 && Decode(parts[2]) == Some(lib.mac(parts[0] + "." + parts[1]))
      && token == parts[0] + "." + parts[1] + "." + parts[2]
  {
    SplitJoins(token);
  }

  /** What a text and a created token have in common if it is accepted with the token's signature: it is
      that token, or its signed part is another text with the same keyed hash. */
  lemma SignatureBindsContent(lib: Library, header: string, payload: string, token: string, now: real)
    requires NoDot(header) && NoDot(payload)
    requires DecodeAccessToken(lib, token, now).Some?
    requires Last(Split(token)) == Last(Split(Sign(lib, header, payload)))
    ensures
      || token == Sign(lib, header, payload)
      || (&& |Split(token)| == 3
          && var signed := Split(token)[0] + "." + Split(token)[1];
             signed != header + "." + payload && lib.mac(signed) == lib.mac(header + "." + payload))
  {
    var mac := lib.mac(header + "." + payload);
    SignedHasThreeParts(lib, header, payload);
    AcceptedIsSigned(lib, token, now);
    DecodeUndoesEncode(mac);
    var parts := Split(token);
    assert parts[2] == Encode(mac);
    assert lib.mac(parts[0] + "." + parts[1]) == mac;
  }
}
