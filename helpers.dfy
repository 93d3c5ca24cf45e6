/** The helper functions the controllers call: backup codes for a new account,
    the push-notification payloads sent to the Expo gateway, and the envelope in
    which a chat message is stored encrypted. Randomness (`nanoid`,
    `crypto.randomBytes`) and the AES block cipher are parameters. */
module Helpers {
  import opened Common

  // ---------------------------------------------------------------------------
  // Backup codes

  const BackupCodeCount: nat := 4

  /** `generateBackupCodes`: a loop that pushes one fresh `nanoid()` per round;
      `draw(i)` is the code the generator yields in round `i`. */
  method GenerateBackupCodes(draw: nat -> string) returns (codes: seq<string>)
    ensures |codes| == BackupCodeCount
    ensures forall i :: 0 <= i < |codes| ==> codes[i] == draw(i)
  {
    codes := [];
    for i := 0 to BackupCodeCount
      invariant |codes| == i
      invariant forall j :: 0 <= j < i ==> codes[j] == draw(j)
    {
      codes := codes + [draw(i)];
    }
  }

  // ---------------------------------------------------------------------------
  // Push notifications

  datatype PushMessage = PushMessage(to: string, sound: string, title: string, body: string, data: map<string, string>)

  const DefaultTitle: string := "Title"
  const DefaultBody: string := "Body"
  const DefaultData: map<string, string> := map["someData" := "goes here"]

  /** A default parameter: it applies only when the argument is `undefined`. */
  function Default<T>(arg: Option<T>, default: T): T
  {
    if arg.Some? then arg.value else default
  }

  function Targets(messages: seq<PushMessage>): (r: seq<string>)
    ensures |r| == |messages|
    ensures forall i :: 0 <= i < |r| ==> r[i] == messages[i].to
  {
    if messages == [] then [] else [messages[0].to] + Targets(messages[1..])
  }

  /** The payloads `sendPushNotification` posts to the gateway, or `None` when
      its first argument is not an array (then nothing is sent). `tokens` is
      `None` for any non-array argument. */
  function PushPayloads(tokens: Option<seq<string>>, title: Option<string>, body: Option<string>,
                        data: Option<map<string, string>>): (r: Option<seq<PushMessage>>)
    ensures r.None? <==> tokens.None?
    ensures r.Some? ==> Targets(r.value) == tokens.value
    ensures r.Some? ==> forall m :: m in r.value ==>
              && m.sound == "default"
              && m.title == Default(title, DefaultTitle)
              && m.body == Default(body, DefaultBody)
              && m.data == Default(data, DefaultData)
  {
    match tokens
    case None => None
    case Some(ts) =>
      var ms := seq(|ts|, i requires 0 <= i < |ts| =>
        PushMessage(ts[i], "default", Default(title, DefaultTitle), Default(body, DefaultBody), Default(data, DefaultData)));
      assert Targets(ms) == ts;
      Some(ms)
  }

  // ---------------------------------------------------------------------------
  // Hex text (Buffer.toString('hex') and Buffer.from(s, 'hex'))

  function HexDigit(n: nat): char
    requires n < 16
  {
    if n < 10 then ('0' as int + n) as char else ('a' as int + n - 10) as char
  }

  predicate IsHexChar(c: char)
  {
    '0' <= c <= '9' || 'a' <= c <= 'f' || 'A' <= c <= 'F'
  }

  function HexValue(c: char): (n: nat)
    requires IsHexChar(c)
    ensures n < 16
  {
    if '0' <= c <= '9' then c as int - '0' as int
    else if 'a' <= c <= 'f' then c as int - 'a' as int + 10
    else c as int - 'A' as int + 10
  }

  /** Two lower-case hex digits per byte, high nibble first. */
  function Hex(bytes: seq<bv8>): (s: string)
    ensures |s| == 2 * |bytes|
    ensures forall i :: 0 <= i < |s| ==> IsHexChar(s[i])
  {
    if bytes == [] then ""
    else [HexDigit(bytes[0] as int / 16), HexDigit(bytes[0] as int % 16)] + Hex(bytes[1..])
  }

  /** Node's hex decoding: one byte per pair of hex digits, stopping at the
      first pair that is not hex and dropping a trailing odd digit. */
  function Unhex(s: string): (r: seq<bv8>)
    ensures 2 * |r| <= |s|
    ensures forall i :: 0 <= i < 2 * |r| ==> IsHexChar(s[i])
    ensures |s| >= 2 && IsHexChar(s[0]) && IsHexChar(s[1]) ==> r != []
  {
    if |s| < 2 || !IsHexChar(s[0]) || !IsHexChar(s[1]) then []
    else [(HexValue(s[0]) * 16 + HexValue(s[1])) as bv8] + Unhex(s[2..])
  }

  lemma HexDigitValue(n: nat)
    requires n < 16
    ensures IsHexChar(HexDigit(n)) && HexValue(HexDigit(n)) == n
  {
  }

  lemma ByteAsInt(b: bv8)
    ensures 0 <= b as int < 256 && (b as int) as bv8 == b
  {
  }

  lemma Nibbles(n: int)
    requires 0 <= n < 256
    ensures n / 16 < 16 && n / 16 * 16 + n % 16 == n
  {
  }

  /** The two hex digits of a number below 256 read back as that number. */
  lemma HexPairValue(n: nat)
    requires n < 256
    ensures var hi, lo := HexDigit(n / 16), HexDigit(n % 16);
            IsHexChar(hi) && IsHexChar(lo) && HexValue(hi) * 16 + HexValue(lo) == n
  {
    Nibbles(n);
    HexDigitValue(n / 16);
    HexDigitValue(n % 16);
  }

  /** The two hex digits of a byte decode to that byte. */
  lemma HexPair(b: bv8)
    ensures var hi, lo := HexDigit(b as int / 16), HexDigit(b as int % 16);
            IsHexChar(hi) && IsHexChar(lo) && (HexValue(hi) * 16 + HexValue(lo)) as bv8 == b
  {
    ByteAsInt(b);
    HexPairValue(b as int);
  }

  /** Decoding the hex text of a buffer gives the buffer back. */
  lemma {:induction false} UnhexHex(bytes: seq<bv8>)
    ensures Unhex(Hex(bytes)) == bytes
  {
    if bytes != [] {
      var s := Hex(bytes);
      assert s == [HexDigit(bytes[0] as int / 16), HexDigit(bytes[0] as int % 16)] + Hex(bytes[1..]);
      assert s[2..] == Hex(bytes[1..]);
      HexPair(bytes[0]);
      UnhexHex(bytes[1..]);
    }
  }

  // ---------------------------------------------------------------------------
  // The stored message envelope (AES-256-CTR)

  /** What the chat schema stores as a message's `content`. */
  datatype Envelope = Envelope(iv: string, encryptedData: string)

  /** The key stream AES-256-CTR derives from the server's secret key and an IV:
      `keystream(iv)(i)` is the byte XOR-ed into byte `i` of the message. The
      block cipher itself is not modelled. */
  type Keystream = seq<bv8> -> (nat -> bv8)

  /** Counter mode: each byte XOR-ed with the key stream byte at its position,
      so the output has the input's length (no padding). */
  function Ctr(data: seq<bv8>, stream: nat -> bv8): (r: seq<bv8>)
    ensures |r| == |data|
  {
    seq(|data|, i requires 0 <= i < |data| => data[i] ^ stream(i))
  }

  /** `encryptMessage`: `iv` is the 16 random bytes of `crypto.randomBytes(16)`
      and `plaintext` the UTF-8 bytes of the message. */
  function EncryptMessage(plaintext: seq<bv8>, iv: seq<bv8>, keystream: Keystream): (r: Envelope)
    requires |iv| == 16
    ensures |r.iv| == 32
    ensures |r.encryptedData| == 2 * |plaintext|
    ensures forall i :: 0 <= i < |r.encryptedData| ==> IsHexChar(r.encryptedData[i])
  {
    Envelope(Hex(iv), Hex(Ctr(plaintext, keystream(iv))))
  }

  /** `decryptMessage`: the IV and the ciphertext read back from hex, then the
      same key stream applied again. */
  function DecryptMessage(message: Envelope, keystream: Keystream): (r: seq<bv8>)
    ensures 2 * |r| <= |message.encryptedData|
  {
    Ctr(Unhex(message.encryptedData), keystream(Unhex(message.iv)))
  }

  /** Decrypting a stored envelope with the same key gives the plaintext back. */
  lemma DecryptEncrypt(plaintext: seq<bv8>, iv: seq<bv8>, keystream: Keystream)
    requires |iv| == 16
    ensures DecryptMessage(EncryptMessage(plaintext, iv, keystream), keystream) == plaintext
  {
    var c := Ctr(plaintext, keystream(iv));
    UnhexHex(iv);
    UnhexHex(c);
    var d := Ctr(c, keystream(iv));
    forall i | 0 <= i < |plaintext| ensures d[i] == plaintext[i] {
      assert d[i] == (plaintext[i] ^ keystream(iv)(i)) ^ keystream(iv)(i);
    }
  }
}
