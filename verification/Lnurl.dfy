/** The LNURL text of a URL (LUD-01): regrouped bits, checksum, charset, upper case. */
module Lnurl {
  import opened Options
  import opened Bech32
  import BitGroups

  /** Strings of the code are strings of bytes. */
  type ByteChar = c: char | c as int < 256 witness 'a'
  type Text = seq<ByteChar>

  const CHARSET: string := "qpzry9x8gf2tvdw0s3jn54khce6mua7l"

  /** Conversion to a byte keeps the low eight bits. */
  function ByteOf(n: nat): Byte {
    (n % 256) as bv8
  }

  function NatOf(b: Byte): nat {
    b as nat
  }

  function Nats(t: Text): seq<nat> {
    seq(|t|, i requires 0 <= i < |t| => t[i] as int)
  }

  function Bytes(s: seq<nat>): seq<Byte> {
    seq(|s|, i requires 0 <= i < |s| => ByteOf(s[i]))
  }

  function Letter(b: Byte): ByteChar
    requires NatOf(b) < 32
  {
    CHARSET[NatOf(b)]
  }

  function Upper(c: ByteChar): ByteChar {
    if 'a' <= c <= 'z' then ((c as int) - 32) as char else c
  }

  function ToUpper(t: Text): Text {
    seq(|t|, i requires 0 <= i < |t| => Upper(t[i]))
  }

  lemma NatSmall(b: Byte)
    ensures NatOf(b) < 32 <==> b < 32
  {
  }

  function Letters(word: seq<Byte>): Text
    requires Symbols(word)
  {
    seq(|word|, i requires 0 <= i < |word| => (NatSmall(word[i]); Letter(word[i])))
  }

  lemma WordSymbols(hrp: seq<Byte>, data: seq<Byte>)
    requires Symbols(data)
    ensures Symbols(data + Checksum(hrp, data))
  {
    hide Checksum;
    ChecksumValid(hrp, data);
  }

  const SEPARATOR: Text := "1"

  /** Data with its checksum. */
  function Word(hrp: Text, data: seq<Byte>): seq<Byte> {
    data + Checksum(Bytes(Nats(hrp)), data)
  }

  lemma WordIsSymbols(hrp: Text, data: seq<Byte>)
    requires Symbols(data)
    ensures Symbols(Word(hrp, data))
  {
    WordSymbols(Bytes(Nats(hrp)), data);
  }

  /** The text of a word: prefix, separator, letters of data and checksum. */
  function Encoded(hrp: Text, data: seq<Byte>): Text
    requires Symbols(data)
  {
    WordIsSymbols(hrp, data);
    hrp + SEPARATOR + Letters(Word(hrp, data))
  }

  /** Refused exactly when some data byte is no symbol. */
  method Bech32Encode(hrp: Text, data: seq<Byte>) returns (r: Option<Text>)
    ensures r == if Symbols(data) then Some(Encoded(hrp, data)) else None
  {
    var check := Bech32Checksum(Bytes(Nats(hrp)), data);
    var combined := data + check;
    ChecksumValid(Bytes(Nats(hrp)), data);
    hide Checksum, CHARSET;
    var sb := hrp + SEPARATOR;
    for k := 0 to |combined|
      invariant Symbols(combined[..k])
      invariant sb == hrp + SEPARATOR + Letters(combined[..k])
    {
      NatSmall(combined[k]);
      if combined[k] >= 32 {
        assert k < |data|;
        return None;
      }
      assert Letters(combined[..k + 1]) == Letters(combined[..k]) + [Letter(combined[k])];
      sb := sb + [Letter(combined[k])];
    }
    assert combined[..|combined|] == combined;
    assert forall i :: 0 <= i < |data| ==> data[i] == combined[i];
    return Some(sb);
  }

  /** What the LNURL of `url` is: the upper-cased bech32 text of its regrouped bytes. */
  ghost predicate LnurlOf(url: Text, text: Text) {
    exists groups: seq<nat> ::
      && BitGroups.Padded(Nats(url), 8, groups, 5)
      && Symbols(Bytes(groups))
      && text == ToUpper(Encoded("lnurl", Bytes(groups)))
  }

  /** Reading an upper-case letter back. */
  function SymbolOf(c: char): nat {
    if c == 'Q' then 0
    else if c == 'P' then 1
    else if c == 'Z' then 2
    else if c == 'R' then 3
    else if c == 'Y' then 4
    else if c == '9' then 5
    else if c == 'X' then 6
    else if c == '8' then 7
    else if c == 'G' then 8
    else if c == 'F' then 9
    else if c == '2' then 10
    else if c == 'T' then 11
    else if c == 'V' then 12
    else if c == 'D' then 13
    else if c == 'W' then 14
    else if c == '0' then 15
    else if c == 'S' then 16
    else if c == '3' then 17
    else if c == 'J' then 18
    else if c == 'N' then 19
    else if c == '5' then 20
    else if c == '4' then 21
    else if c == 'K' then 22
    else if c == 'H' then 23
    else if c == 'C' then 24
    else if c == 'E' then 25
    else if c == '6' then 26
    else if c == 'M' then 27
    else if c == 'U' then 28
    else if c == 'A' then 29
    else if c == '7' then 30
    else if c == 'L' then 31
    else 32
  }

  lemma LetterRead(i: nat)
    requires i < 32
    ensures CHARSET[i] as int < 256 && SymbolOf(Upper(CHARSET[i])) == i
  {
  }

  lemma GroupSymbols(groups: seq<nat>)
    requires BitGroups.Digits(groups, 5)
    ensures Symbols(Bytes(groups)) && forall i :: 0 <= i < |groups| ==> NatOf(Bytes(groups)[i]) == groups[i]
  {
    assert BitGroups.Pow2(5) == 32;
    forall i | 0 <= i < |groups| ensures Bytes(groups)[i] < 32 && NatOf(Bytes(groups)[i]) == groups[i] {
      ByteOfSmall(groups[i]);
      NatSmall(ByteOf(groups[i]));
    }
  }

  lemma ByteOfSmall(n: nat)
    requires n < 256
    ensures NatOf(ByteOf(n)) == n
  {
  }

  lemma TextDigits(t: Text)
    ensures BitGroups.Digits(Nats(t), 8)
  {
    assert BitGroups.Pow2(8) == 256;
  }

  /** Never fails. */
  method LnurlEncode(url: Text) returns (r: Option<Text>)
    ensures r.Some? && LnurlOf(url, r.value)
  {
    hide Checksum, CHARSET, Encoded;
    TextDigits(url);
    var conv := BitGroups.ConvertBits(Nats(url), 8, 5, true);
    if conv.None? {
      return None;
    }
    var groups := conv.value;
    GroupSymbols(groups);
    var encoded := Bech32Encode("lnurl", Bytes(groups));
    if encoded.None? {
      return None;
    }
    assert BitGroups.Padded(Nats(url), 8, groups, 5);
    return Some(ToUpper(encoded.value));
  }

  /** Upper-cased text of a word can be read back. */
  lemma WordRead(a: seq<Byte>, b: seq<Byte>)
    requires Symbols(a) && Symbols(b) && ToUpper(Letters(a)) == ToUpper(Letters(b))
    ensures a == b
  {
    hide CHARSET, SymbolOf;
    assert |a| == |ToUpper(Letters(a))| == |b|;
    forall i | 0 <= i < |a| ensures a[i] == b[i] {
      NatSmall(a[i]);
      NatSmall(b[i]);
      assert Upper(Letter(a[i])) == ToUpper(Letters(a))[i] == Upper(Letter(b[i]));
      LetterRead(NatOf(a[i]));
      LetterRead(NatOf(b[i]));
      NatInjective(a[i], b[i]);
    }
  }

  lemma NatInjective(a: Byte, b: Byte)
    requires NatOf(a) == NatOf(b)
    ensures a == b
  {
  }

  lemma EncodedRead(hrp: Text, a: seq<Byte>, b: seq<Byte>)
    requires Symbols(a) && Symbols(b) && ToUpper(Encoded(hrp, a)) == ToUpper(Encoded(hrp, b))
    ensures a == b
  {
    hide CHARSET, Checksum, Letter;
    var h := Bytes(Nats(hrp));
    var wa, wb := a + Checksum(h, a), b + Checksum(h, b);
    WordSymbols(h, a);
    WordSymbols(h, b);
    var n := |hrp| + 1;
    assert ToUpper(Encoded(hrp, a))[n..] == ToUpper(Letters(wa));
    assert ToUpper(Encoded(hrp, b))[n..] == ToUpper(Letters(wb));
    WordRead(wa, wb);
    ChecksumValid(h, a);
    ChecksumValid(h, b);
    assert a == wa[..|wa| - 6] && b == wb[..|wb| - 6];
  }

  /** Two URLs with the same LNURL are the same URL. */
  lemma LnurlInjective(u: Text, v: Text, text: Text)
    requires LnurlOf(u, text) && LnurlOf(v, text)
    ensures u == v
  {
    hide Encoded;
    var g: seq<nat> :| BitGroups.Padded(Nats(u), 8, g, 5) && Symbols(Bytes(g)) && text == ToUpper(Encoded("lnurl", Bytes(g)));
    var k: seq<nat> :| BitGroups.Padded(Nats(v), 8, k, 5) && Symbols(Bytes(k)) && text == ToUpper(Encoded("lnurl", Bytes(k)));
    EncodedRead("lnurl", Bytes(g), Bytes(k));
    GroupSymbols(g);
    GroupSymbols(k);
    assert |g| == |Bytes(g)| == |Bytes(k)| == |k|;
    assert g == k;
    TextDigits(u);
    TextDigits(v);
    BitGroups.GroupsInjective(Nats(u), Nats(v), g);
    assert |u| == |Nats(u)| == |v|;
    forall i | 0 <= i < |u| ensures u[i] == v[i] { assert Nats(u)[i] == Nats(v)[i]; }
  }

  /** A URL has one LNURL. */
  lemma LnurlUnique(url: Text, s: Text, t: Text)
    requires LnurlOf(url, s) && LnurlOf(url, t)
    ensures s == t
  {
    hide Encoded;
    var g: seq<nat> :| BitGroups.Padded(Nats(url), 8, g, 5) && Symbols(Bytes(g)) && s == ToUpper(Encoded("lnurl", Bytes(g)));
    var k: seq<nat> :| BitGroups.Padded(Nats(url), 8, k, 5) && Symbols(Bytes(k)) && t == ToUpper(Encoded("lnurl", Bytes(k)));
    BitGroups.DigitsUnique(g, k, 5);
  }

  /** An LNURL is upper case throughout and starts with its prefix and the separator. */
  lemma LnurlShape(url: Text, text: Text)
    requires LnurlOf(url, text)
    ensures |text| >= 6 && text[..6] == "LNURL1" && forall i :: 0 <= i < |text| ==> !('a' <= text[i] <= 'z')
  {
    hide Checksum, CHARSET, Letter;
    var g: seq<nat> :| BitGroups.Padded(Nats(url), 8, g, 5) && Symbols(Bytes(g)) && text == ToUpper(Encoded("lnurl", Bytes(g)));
    var t := Encoded("lnurl", Bytes(g));
    assert t[0] == 'l' && t[1] == 'n' && t[2] == 'u' && t[3] == 'r' && t[4] == 'l' && t[5] == '1';
    assert text[..6] == ['L', 'N', 'U', 'R', 'L', '1'];
  }
}
