/** Credential buffers: reading a one-line secret, its base64 form, and wiping. */
module Secrets {
  import opened Prelude

  const NEWLINE: Byte := 10
  const MAX_TOKEN: nat := 4096

  ghost predicate Zero(s: seq<Byte>) {
    forall i :: 0 <= i < |s| ==> s[i] == 0
  }

  predicate Visible(b: Byte) {
    0x21 <= b <= 0x7E
  }

  lemma Edges()
    ensures Visible('!' as int as Byte) && Visible('~' as int as Byte)
    ensures !Visible(' ' as int as Byte) && !Visible(0x7F) && !Visible(NEWLINE)
  {
  }

  /** One visible nonempty line, with its newline. */
  ghost predicate VisibleLine(s: seq<Byte>, maximum: nat) {
    && 2 <= |s| <= maximum
    && s[|s| - 1] == NEWLINE
    && forall i :: 0 <= i < |s| - 1 ==> Visible(s[i])
  }

  method Wipe(a: array<Byte>)
    modifies a
    ensures Zero(a[..])
  {
    for i := 0 to a.Length
      invariant forall j :: 0 <= j < i ==> a[j] == 0
    {
      a[i] := 0;
    }
  }

  /** _strict_visible_line: the line without its newline in a fresh buffer; the input is wiped either
      way, and so is a rejected copy. */
  method StrictVisibleLine(payload: array<Byte>, maximum: nat) returns (value: array<Byte>, ok: bool)
    modifies payload
    ensures Zero(payload[..]) && fresh(value)
    ensures ok <==> VisibleLine(old(payload[..]), maximum)
    ensures ok ==> value[..] == old(payload[..payload.Length - 1])
    ensures !ok ==> Zero(value[..])
  {
    var n := payload.Length;
    value := new Byte[0];
    ok := 2 <= n <= maximum && payload[n - 1] == NEWLINE;
    if ok {
      value := new Byte[n - 1](i requires 0 <= i < n - 1 reads payload => payload[i]);
      for i := 0 to n - 1
        invariant value[..] == old(payload[..n - 1]) && payload[..] == old(payload[..])
        invariant ok <==> forall j :: 0 <= j < i ==> Visible(old(payload[..])[j])
      {
        if !Visible(value[i]) {
          ok := false;
          assert value[i] == old(payload[..])[i];
        }
      }
      if !ok {
        Wipe(value);
      }
    }
    Wipe(payload);
  }

  // ----- Base64 -----

  function Symbol(k: nat): (b: Byte)
    requires k < 64
    ensures Visible(b)
  {
    if k < 26 then (65 + k) as Byte
    else if k < 52 then (97 + k - 26) as Byte
    else if k < 62 then (48 + k - 52) as Byte
    else if k == 62 then 43
    else 47
  }

  function Quad(x: Byte, y: Byte, z: Byte): (q: seq<Byte>)
    ensures |q| == 4 && forall i :: 0 <= i < 4 ==> Visible(q[i])
  {
    var (a, b, c) := (x as nat, y as nat, z as nat);
    [Symbol(a / 4), Symbol(a % 4 * 16 + b / 16), Symbol(b % 16 * 4 + c / 64), Symbol(c % 64)]
  }

  const PAD: Byte := 61

  /** Four visible bytes for every three begun. */
  function Base64(s: seq<Byte>): (line: seq<Byte>)
    ensures |line| == (|s| + 2) / 3 * 4
    ensures forall i :: 0 <= i < |line| ==> Visible(line[i])
  {
    if |s| == 0 then []
    else if |s| == 1 then Quad(s[0], 0, 0)[..2] + [PAD, PAD]
    else if |s| == 2 then Quad(s[0], s[1], 0)[..3] + [PAD]
    else Quad(s[0], s[1], s[2]) + Base64(s[3..])
  }

  // ----- Decoding -----

  /** The place of a symbol in the alphabet. */
  function Place(b: Byte): (p: Option<nat>)
    ensures p.Some? ==> p.value < 64
  {
    if 65 <= b <= 90 then Some(b as int - 65)
    else if 97 <= b <= 122 then Some(b as int - 97 + 26)
    else if 48 <= b <= 57 then Some(b as int - 48 + 52)
    else if b == 43 then Some(62)
    else if b == 47 then Some(63)
    else None
  }

  lemma PlaceOfSymbol(k: nat)
    requires k < 64
    ensures Place(Symbol(k)) == Some(k) && Symbol(k) != PAD
  {
  }

  /** Three bytes from four symbols. */
  function Triple(a: Byte, b: Byte, c: Byte, d: Byte): (t: Option<seq<Byte>>)
    ensures t.Some? ==> |t.value| == 3
  {
    if Place(a).None? || Place(b).None? || Place(c).None? || Place(d).None? then None
    else Some(Bytes(Place(a).value, Place(b).value, Place(c).value, Place(d).value))
  }

  function Bytes(a: nat, b: nat, c: nat, d: nat): (t: seq<Byte>)
    requires a < 64 && b < 64 && c < 64 && d < 64
    ensures |t| == 3
  {
    [(a * 4 + b / 16) as Byte, (b % 16 * 16 + c / 4) as Byte, (c % 4 * 64 + d) as Byte]
  }

  lemma TripleOfQuad(x: Byte, y: Byte, z: Byte)
    ensures var q := Quad(x, y, z); Triple(q[0], q[1], q[2], q[3]) == Some([x, y, z])
  {
    var a, b, c := x as nat, y as nat, z as nat;
    TripleOfSymbols(a / 4, a % 4 * 16 + b / 16, b % 16 * 4 + c / 64, c % 64);
    SextetsCarry(a, b, c);
  }

  lemma TripleOfSymbols(a: nat, b: nat, c: nat, d: nat)
    requires a < 64 && b < 64 && c < 64 && d < 64
    ensures Triple(Symbol(a), Symbol(b), Symbol(c), Symbol(d)) == Some(Bytes(a, b, c, d))
  {
    PlaceOfSymbol(a);
    PlaceOfSymbol(b);
    PlaceOfSymbol(c);
    PlaceOfSymbol(d);
  }

  /** Four groups of six bits say the same as three of eight. */
  lemma SextetsCarry(a: nat, b: nat, c: nat)
    requires a < 256 && b < 256 && c < 256
    ensures a / 4 * 4 + (a % 4 * 16 + b / 16) / 16 == a
    ensures (a % 4 * 16 + b / 16) % 16 * 16 + (b % 16 * 4 + c / 64) / 4 == b
    ensures (b % 16 * 4 + c / 64) % 4 * 64 + c % 64 == c
  {
    assert (a % 4 * 16 + b / 16) / 16 == a % 4 && (a % 4 * 16 + b / 16) % 16 == b / 16;
    assert (b % 16 * 4 + c / 64) / 4 == b % 16 && (b % 16 * 4 + c / 64) % 4 == c / 64;
  }

  /** Padding stands for zero bits. */
  function Decode(line: seq<Byte>): Option<seq<Byte>> {
    if line == [] then Some([])
    else if |line| < 4 then None
    else if |line| == 4 && line[2] == PAD && line[3] == PAD then Cut(Triple(line[0], line[1], Symbol(0), Symbol(0)), 1)
    else if |line| == 4 && line[3] == PAD then Cut(Triple(line[0], line[1], line[2], Symbol(0)), 2)
    else
      var first, rest := Triple(line[0], line[1], line[2], line[3]), Decode(line[4..]);
      if first.None? || rest.None? then None else Some(first.value + rest.value)
  }

  function Cut(t: Option<seq<Byte>>, n: nat): Option<seq<Byte>>
    requires t.Some? ==> n <= |t.value|
  {
    if t.Some? then Some(t.value[..n]) else None
  }

  lemma {:induction false} DecodeOfBase64(s: seq<Byte>)
    ensures Decode(Base64(s)) == Some(s)
  {
    if |s| == 1 {
      TripleOfQuad(s[0], 0, 0);
      PaddedQuad(s[0], 0);
      assert [s[0], 0 as Byte, 0 as Byte][..1] == s;
    } else if |s| == 2 {
      TripleOfQuad(s[0], s[1], 0);
      PaddedQuad(s[0], s[1]);
      assert [s[0], s[1], 0 as Byte][..2] == s;
    } else if |s| >= 3 {
      var q := Quad(s[0], s[1], s[2]);
      TripleOfQuad(s[0], s[1], s[2]);
      DecodeOfBase64(s[3..]);
      assert Base64(s)[4..] == Base64(s[3..]);
      QuadIsUnpadded(s[0], s[1], s[2]);
      assert [s[0], s[1], s[2]] + s[3..] == s;
    }
  }

  /** Zero bytes at the end of a quad are zero bits at the end of its symbols. */
  lemma PaddedQuad(x: Byte, y: Byte)
    ensures Quad(x, y, 0)[3] == Symbol(0) && Quad(x, 0, 0)[2] == Symbol(0)
    ensures Quad(x, y, 0)[2] != PAD
  {
    PlaceOfSymbol(y as nat % 16 * 4);
  }

  lemma QuadIsUnpadded(x: Byte, y: Byte, z: Byte)
    ensures Quad(x, y, z)[3] != PAD
  {
    PlaceOfSymbol(z as nat % 64);
  }

  /** The line is the encoding of something. */
  ghost predicate Canonical(line: seq<Byte>) {
    exists bytes: seq<Byte> :: bytes != [] && Encodes(bytes, line)
  }

  predicate Encodes(bytes: seq<Byte>, line: seq<Byte>) {
    line == Base64(bytes)
  }

  /** The uploader's second check: the line decodes to something, which encodes to the line again. */
  predicate DecodesAndBack(line: seq<Byte>) {
    Decode(line).Some? && Decode(line).value != [] && Encodes(Decode(line).value, line)
  }

  lemma CanonicalExactly(line: seq<Byte>)
    ensures DecodesAndBack(line) <==> Canonical(line)
  {
    if Canonical(line) {
      var bytes :| bytes != [] && Encodes(bytes, line);
      DecodeOfBase64(bytes);
    }
  }

  // ----- What the uploader takes -----

  /** The framing the uploader demands of the secret it is handed, and its canonical encoding. */
  ghost predicate UploadAccepts(secret: seq<Byte>) {
    VisibleLine(secret, MAX_TOKEN) && Canonical(secret[..|secret| - 1])
  }

  /** The framing and encoding checks on the secret. */
  method Acceptable(secret: array<Byte>) returns (ok: bool)
    ensures ok <==> UploadAccepts(secret[..])
  {
    var n := secret.Length;
    ok := 2 <= n <= MAX_TOKEN && secret[n - 1] == NEWLINE;
    if ok {
      for i := 0 to n - 1
        invariant ok <==> forall j :: 0 <= j < i ==> Visible(secret[j])
      {
        ok := ok && Visible(secret[i]);
      }
      assert secret[..][..n - 1] == secret[..n - 1];
      CanonicalExactly(secret[..n - 1]);
      ok := ok && DecodesAndBack(secret[..n - 1]);
    }
  }

  /** The longest token that can be uploaded: base64 grows it by a third before the uploader applies the token's
      own limit. */
  const MAX_UPLOADABLE: nat := 3069

  /** A token the reader accepts, of up to 4095 bytes, reaches the host exactly when it has at most 3069. */
  lemma UploadableExactly(token: seq<Byte>, encoded: seq<Byte>)
    requires token != [] && Encodes(token, encoded)
    ensures UploadAccepts(encoded + [NEWLINE]) <==> |token| <= MAX_UPLOADABLE
  {
    var secret := encoded + [NEWLINE];
    LineFits(encoded, |token|);
    assert secret[..|secret| - 1] == encoded;
  }

  lemma LineFits(encoded: seq<Byte>, n: nat)
    requires n > 0 && |encoded| == (n + 2) / 3 * 4
    requires forall i :: 0 <= i < |encoded| ==> Visible(encoded[i])
    ensures VisibleLine(encoded + [NEWLINE], MAX_TOKEN) <==> n <= MAX_UPLOADABLE
  {
    var secret := encoded + [NEWLINE];
    assert forall i :: 0 <= i < |secret| - 1 ==> secret[i] == encoded[i];
    assert |secret| <= MAX_TOKEN <==> n <= MAX_UPLOADABLE;
  }

  /** A buffer holding the line for these bytes. */
  method NewSecret(bytes: seq<Byte>) returns (secret: array<Byte>)
    requires bytes != []
    ensures fresh(secret) && secret[..] == Base64(bytes) + [NEWLINE]
    ensures UploadAccepts(secret[..]) <==> |bytes| <= MAX_UPLOADABLE
  {
    var line := Base64(bytes) + [NEWLINE];
    UploadableExactly(bytes, Base64(bytes));
    secret := new Byte[|line|](i requires 0 <= i < |line| => line[i]);
    assert secret[..] == line;
  }

  /** What the run makes of the line the credential command printed. */
  function PayloadOf(credential: seq<Byte>): seq<Byte>
    requires credential != []
  {
    Base64(credential[..|credential| - 1]) + [NEWLINE]
  }

  /** What the credential command printed, read, checked and encoded: of the buffers used, only the payload still
      holds anything. */
  method EncodeCredential(credential: seq<Byte>)
    returns (payload: array<Byte>, ok: bool, ghost used: set<array<Byte>>)
    ensures fresh(payload) && fresh(used) && payload in used
    ensures ok <==> VisibleLine(credential, MAX_TOKEN)
    ensures if ok then payload[..] == PayloadOf(credential) else Zero(payload[..])
    ensures forall b :: b in used && b != payload ==> Zero(b[..])
  {
    var raw := new Byte[|credential|](i requires 0 <= i < |credential| => credential[i]);
    assert raw[..] == credential;
    assert raw.Length > 0 ==> raw[..raw.Length - 1] == credential[..|credential| - 1];
    payload, ok := StrictVisibleLine(raw, MAX_TOKEN);
    used := {raw, payload};
    if ok {
      var token := payload;
      payload := NewSecret(token[..]);
      Wipe(token);
      used := used + {payload};
    }
  }

  /** "communityai-secret-transport-v1" */
  const SENTINEL: seq<Byte> :=
    [99, 111, 109, 109, 117, 110, 105, 116, 121, 97, 105, 45, 115, 101, 99, 114,
     101, 116, 45, 116, 114, 97, 110, 115, 112, 111, 114, 116, 45, 118, 49]
}
