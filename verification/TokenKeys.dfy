/** Resume tokens as ordering keys: hex text compared as the server compares bytes. */
module TokenKeys {
  import opened Prelude

  const TIMESTAMP_MARKER := 0x82

  predicate HexDigit(c: char) {
    '0' <= c <= '9' || 'a' <= c <= 'f' || 'A' <= c <= 'F'
  }

  function Lower(c: char): char {
    if 'A' <= c <= 'Z' then ((c as int) + 32) as char else c
  }

  function ToLower(s: string): string {
    seq(|s|, k requires 0 <= k < |s| => Lower(s[k]))
  }

  predicate Hex(s: string) {
    |s| % 2 == 0 && forall k :: 0 <= k < |s| ==> HexDigit(s[k])
  }

  /** The ordering key of a token's payload; None where the coarse guard has to do. */
  function KeyOf(payload: Option<string>): Option<string> {
    if payload.Some? && payload.value != "" && Hex(payload.value) then Some(ToLower(payload.value)) else None
  }

  method TokenKey(payload: Option<string>) returns (key: Option<string>)
    ensures key == KeyOf(payload)
    ensures key.Some? <==> payload.Some? && exists bytes :: bytes != [] && Spells(payload.value, bytes)
    ensures key.Some? ==> forall bytes :: Spells(payload.value, bytes) ==> key.value == LowerText(bytes)
  {
    KeysAreHexTexts(payload);
    if payload.None? || payload.value == "" {
      return None;
    }
    var s := payload.value;
    if |s| % 2 != 0 {
      return None;
    }
    for k := 0 to |s|
      invariant forall j :: 0 <= j < k ==> HexDigit(s[j])
    {
      if !HexDigit(s[k]) {
        return None;
      }
    }
    return Some(ToLower(s));
  }

  // ----- the bytes a payload stands for

  function Digit(c: char): int
    requires HexDigit(c)
  {
    if c <= '9' then c as int - '0' as int
    else if c <= 'F' then c as int - 'A' as int + 10
    else c as int - 'a' as int + 10
  }

  function Bytes(s: string): seq<int>
    requires Hex(s)
  {
    if s == "" then [] else [16 * Digit(s[0]) + Digit(s[1])] + Bytes(s[2..])
  }

  // ----- hex text, from the two digit tables

  const LOWER := "0123456789abcdef"
  const UPPER := "0123456789ABCDEF"

  ghost predicate Writes(c: char, digit: int) {
    0 <= digit < 16 && (c == LOWER[digit] || c == UPPER[digit])
  }

  /** `s` is hex text of these bytes, each digit in either case. */
  ghost predicate Spells(s: string, bytes: seq<int>)
    decreases |bytes|
  {
    if bytes == [] then s == ""
    else
      && |s| >= 2 && 0 <= bytes[0] < 256
      && Writes(s[0], bytes[0] / 16) && Writes(s[1], bytes[0] % 16)
      && Spells(s[2..], bytes[1..])
  }

  ghost function LowerText(bytes: seq<int>): string {
    if bytes == [] || !(0 <= bytes[0] < 256) then ""
    else [LOWER[bytes[0] / 16], LOWER[bytes[0] % 16]] + LowerText(bytes[1..])
  }

  lemma DigitsAreWritten(c: char, digit: int)
    ensures Writes(c, digit) ==> HexDigit(c) && Digit(c) == digit && Lower(c) == LOWER[digit]
    ensures HexDigit(c) ==> Writes(c, Digit(c))
  {
    assert LOWER[..10] == UPPER[..10] == "0123456789";
    assert LOWER[10..] == "abcdef" && UPPER[10..] == "ABCDEF";
  }

  /** The text of some bytes is accepted, read back as those bytes, and lower-cased digit by digit. */
  lemma {:induction false} SpelledIsHex(s: string, bytes: seq<int>)
    requires Spells(s, bytes)
    ensures Hex(s) && Bytes(s) == bytes && ToLower(s) == LowerText(bytes) && |s| == 2 * |bytes|
    decreases |bytes|
  {
    hide Writes, Digit, Lower, HexDigit;
    if bytes != [] {
      DigitsAreWritten(s[0], bytes[0] / 16);
      DigitsAreWritten(s[1], bytes[0] % 16);
      SpelledIsHex(s[2..], bytes[1..]);
      assert forall k :: 2 <= k < |s| ==> s[k] == s[2..][k - 2];
      assert ToLower(s) == [Lower(s[0]), Lower(s[1])] + ToLower(s[2..]);
    }
  }

  /** Whatever is accepted is the text of its bytes. */
  lemma {:induction false} HexIsSpelled(s: string)
    requires Hex(s)
    ensures Spells(s, Bytes(s)) && (s != "" ==> Bytes(s) != [])
  {
    hide Writes, Lower, HexDigit, Digit;
    if s != "" {
      DigitsAreWritten(s[0], 0);
      DigitsAreWritten(s[1], 0);
      DigitsKeepOrder(s[0], s[1]);
      assert Hex(s[2..]);
      HexIsSpelled(s[2..]);
      assert Bytes(s)[1..] == Bytes(s[2..]);
    }
  }

  /** Exactly the hex texts of some bytes have a key, in whatever case, and it is their lower-case text. */
  lemma KeysAreHexTexts(payload: Option<string>)
    ensures KeyOf(payload).Some? <==> payload.Some? && exists bytes :: bytes != [] && Spells(payload.value, bytes)
    ensures forall bytes :: payload.Some? && bytes != [] && Spells(payload.value, bytes) ==>
              KeyOf(payload) == Some(LowerText(bytes))
  {
    hide Spells, LowerText, Bytes, Writes;
    if payload.Some? {
      var s := payload.value;
      forall bytes | bytes != [] && Spells(s, bytes)
        ensures KeyOf(payload) == Some(LowerText(bytes))
      {
        SpelledIsHex(s, bytes);
      }
      if KeyOf(payload).Some? {
        HexIsSpelled(s);
      }
    }
  }

  /** Memory order. */
  ghost predicate BytesLe(a: seq<int>, b: seq<int>) {
    a == [] || (b != [] && (a[0] < b[0] || (a[0] == b[0] && BytesLe(a[1..], b[1..]))))
  }

  /** Text order, character code by character code. */
  predicate TextLe(a: string, b: string) {
    a == "" || (b != "" && (a[0] < b[0] || (a[0] == b[0] && TextLe(a[1..], b[1..]))))
  }

  lemma DigitsKeepOrder(c: char, d: char)
    requires HexDigit(c) && HexDigit(d)
    ensures Lower(c) < Lower(d) <==> Digit(c) < Digit(d)
    ensures Lower(c) == Lower(d) <==> Digit(c) == Digit(d)
    ensures 0 <= Digit(c) < 16 && 0 <= Digit(d) < 16
  {
  }

  /** Comparing keys as text is comparing the payloads' bytes, whatever the case of the digits. */
  lemma {:induction false} KeyOrderIsByteOrder(a: string, b: string)
    requires Hex(a) && Hex(b)
    ensures TextLe(ToLower(a), ToLower(b)) <==> BytesLe(Bytes(a), Bytes(b))
  {
    if a != "" && b != "" {
      var x, y := ToLower(a), ToLower(b);
      DigitsKeepOrder(a[0], b[0]);
      DigitsKeepOrder(a[1], b[1]);
      assert x[1..][1..] == ToLower(a[2..]) && y[1..][1..] == ToLower(b[2..]);
      assert Hex(a[2..]) && Hex(b[2..]);
      KeyOrderIsByteOrder(a[2..], b[2..]);
      assert Bytes(a)[1..] == Bytes(a[2..]) && Bytes(b)[1..] == Bytes(b[2..]);
      assert x[1..] != "" && y[1..] != "";
    }
  }

  /** Seconds of the cluster time a payload opens with, if it has the known layout. */
  function SecondsOf(payload: Option<string>): Option<int> {
    if payload.None? || !Hex(payload.value) then None
    else
      var b := Bytes(payload.value);
      if |b| < 5 || b[0] != TIMESTAMP_MARKER then None
      else Some(((b[1] * 256 + b[2]) * 256 + b[3]) * 256 + b[4])
  }

  /** The marker, and the next four bytes as one big-endian number; anything shorter or else has no time. */
  lemma SecondsAreBigEndian(s: string, bytes: seq<int>)
    requires Spells(s, bytes)
    ensures SecondsOf(Some(s)) ==
            if |bytes| >= 5 && bytes[0] == 130
            then Some(bytes[1] * 16777216 + bytes[2] * 65536 + bytes[3] * 256 + bytes[4])
            else None
  {
    SpelledIsHex(s, bytes);
  }

  lemma {:induction false} BytesInRange(s: string)
    requires Hex(s)
    ensures forall k :: 0 <= k < |Bytes(s)| ==> 0 <= Bytes(s)[k] < 256
    ensures |Bytes(s)| == |s| / 2
  {
    if s != "" {
      assert Hex(s[2..]);
      BytesInRange(s[2..]);
      DigitsKeepOrder(s[0], s[1]);
    }
  }

  /** A prefix of two ordered byte strings is ordered too. */
  lemma {:induction false} HeadsInOrder(a: seq<int>, b: seq<int>, n: nat)
    requires BytesLe(a, b) && n <= |a| && n <= |b|
    ensures BytesLe(a[..n], b[..n])
  {
    if n > 0 && a[0] == b[0] {
      HeadsInOrder(a[1..], b[1..], n - 1);
      assert a[..n][1..] == a[1..][..n - 1] && b[..n][1..] == b[1..][..n - 1];
    }
  }

  lemma FourBytesInOrder(a: seq<int>, b: seq<int>)
    requires |a| == 4 && |b| == 4 && BytesLe(a, b)
    requires forall k :: 0 <= k < 4 ==> 0 <= a[k] < 256 && 0 <= b[k] < 256
    ensures ((a[0] * 256 + a[1]) * 256 + a[2]) * 256 + a[3] <= ((b[0] * 256 + b[1]) * 256 + b[2]) * 256 + b[3]
  {
    if a[0] == b[0] {
      assert BytesLe(a[1..], b[1..]);
      if a[1] == b[1] {
        assert BytesLe(a[1..][1..], b[1..][1..]);
        if a[2] == b[2] {
          assert BytesLe(a[1..][1..][1..], b[1..][1..][1..]);
        }
      }
    }
  }

  /** Keys in order means commit seconds in order, wherever both can be read. */
  lemma KeyOrderKeepsTime(p: Option<string>, q: Option<string>)
    requires KeyOf(p).Some? && KeyOf(q).Some? && TextLe(KeyOf(p).value, KeyOf(q).value)
    requires SecondsOf(p).Some? && SecondsOf(q).Some?
    ensures SecondsOf(p).value <= SecondsOf(q).value
  {
    var a, b := Bytes(p.value), Bytes(q.value);
    KeyOrderIsByteOrder(p.value, q.value);
    BytesInRange(p.value);
    BytesInRange(q.value);
    assert BytesLe(a[1..], b[1..]);
    HeadsInOrder(a[1..], b[1..], 4);
    assert forall k :: 0 <= k < 4 ==> a[1..][..4][k] == a[1 + k] && b[1..][..4][k] == b[1 + k];
    FourBytesInOrder(a[1..][..4], b[1..][..4]);
  }

  // ----- text order is a total order

  lemma {:induction false} TextLeTotal(a: string, b: string)
    ensures TextLe(a, b) || TextLe(b, a)
    ensures TextLe(a, a)
  {
    if a != "" {
      TextLeTotal(a[1..], if b == "" then "" else b[1..]);
    }
  }

  lemma {:induction false} TextLeAntisymmetric(a: string, b: string)
    requires TextLe(a, b) && TextLe(b, a)
    ensures a == b
  {
    if a != "" && b != "" {
      TextLeAntisymmetric(a[1..], b[1..]);
    }
  }

  lemma {:induction false} TextLeTransitive(a: string, b: string, c: string)
    requires TextLe(a, b) && TextLe(b, c)
    ensures TextLe(a, c)
  {
    if a != "" && a[0] == b[0] == c[0] {
      TextLeTransitive(a[1..], b[1..], c[1..]);
    }
  }
}
