/** Go's encoding/hex: lower-case on the way out, either case on the way in. */
module Hex {
  import opened Prelude

  function Digit(v: nat): char
    requires v < 16
  {
    if v < 10 then '0' + v as char else 'a' + (v - 10) as char
  }

  function Value(c: char): (v: Option<nat>)
    ensures v.Some? ==> v.value < 16
  {
    if '0' <= c <= '9' then Some((c - '0') as nat)
    else if 'a' <= c <= 'f' then Some((c - 'a') as nat + 10)
    else if 'A' <= c <= 'F' then Some((c - 'A') as nat + 10)
    else None
  }

  function Encode(bytes: seq<byte>): string {
    if bytes == [] then [] else [Digit(bytes[0] / 16), Digit(bytes[0] % 16)] + Encode(bytes[1..])
  }

  /** None for an odd length or a character that is not a hex digit. */
  function Decode(s: string): Option<seq<byte>> {
    if s == [] then Some([])
    else if |s| == 1 || Value(s[0]).None? || Value(s[1]).None? then None
    else
      var rest := Decode(s[2..]);
      if rest.None? then None else Some([16 * Value(s[0]).value + Value(s[1]).value] + rest.value)
  }

  lemma {:induction false} DecodeEncode(bytes: seq<byte>)
    ensures Decode(Encode(bytes)) == Some(bytes)
  {
    if bytes != [] {
      var s := Encode(bytes);
      assert s[2..] == Encode(bytes[1..]);
      DecodeEncode(bytes[1..]);
      assert Value(s[0]) == Some(bytes[0] / 16) && Value(s[1]) == Some(bytes[0] % 16);
      assert bytes == [bytes[0]] + bytes[1..];
    }
  }

  /** A byte is two lower-case digits, the high one first. */
  lemma {:induction false} EncodedAt(bytes: seq<byte>, i: nat)
    requires i < |bytes|
    ensures |Encode(bytes)| == 2 * |bytes|
    ensures Encode(bytes)[2 * i] == "0123456789abcdef"[bytes[i] / 16]
    ensures Encode(bytes)[2 * i + 1] == "0123456789abcdef"[bytes[i] % 16]
  {
    DigitIs(bytes[0] / 16);
    DigitIs(bytes[0] % 16);
    if |bytes| > 1 {
      EncodedAt(bytes[1..], if i > 0 then i - 1 else 0);
    }
  }

  lemma DigitIs(v: nat)
    requires v < 16
    ensures Digit(v) == "0123456789abcdef"[v]
  {
  }

  /** The digit of value v, in either case. */
  ghost predicate IsDigit(c: char, v: nat) {
    v < 16 && (c == "0123456789abcdef"[v] || c == "0123456789ABCDEF"[v])
  }

  lemma ValueIs(c: char)
    ensures Value(c).Some? ==> IsDigit(c, Value(c).value)
    ensures Value(c).Some? <==> c in "0123456789abcdefABCDEF"
  {
  }

  lemma {:induction false} ValuesAt(s: string, i: nat)
    requires Decode(s).Some? && i < |Decode(s).value|
    ensures |s| == 2 * |Decode(s).value| && Value(s[2 * i]).Some? && Value(s[2 * i + 1]).Some?
    ensures Decode(s).value[i] == 16 * Value(s[2 * i]).value + Value(s[2 * i + 1]).value
  {
    var rest := s[2..];
    if i > 0 {
      ValuesAt(rest, i - 1);
      assert rest[2 * (i - 1)] == s[2 * i] && rest[2 * (i - 1) + 1] == s[2 * i + 1];
    } else if |rest| > 0 {
      ValuesAt(rest, 0);
    }
  }

  /** Each byte decoded is that of two digits. */
  lemma DecodedAt(s: string, i: nat) returns (high: nat, low: nat)
    requires Decode(s).Some? && i < |Decode(s).value|
    ensures |s| == 2 * |Decode(s).value| && IsDigit(s[2 * i], high) && IsDigit(s[2 * i + 1], low)
    ensures Decode(s).value[i] == 16 * high + low
  {
    ValuesAt(s, i);
    ValueIs(s[2 * i]);
    ValueIs(s[2 * i + 1]);
    high, low := Value(s[2 * i]).value, Value(s[2 * i + 1]).value;
  }

  lemma {:induction false} DecodesIff(s: string)
    ensures Decode(s).Some? <==> |s| % 2 == 0 && forall i :: 0 <= i < |s| ==> s[i] in "0123456789abcdefABCDEF"
  {
    DigitsDecode(s);
    forall i | 0 <= i < |s| ensures Value(s[i]).Some? <==> s[i] in "0123456789abcdefABCDEF" {
      ValueIs(s[i]);
    }
  }

  lemma {:induction false} DigitsDecode(s: string)
    ensures Decode(s).Some? <==> |s| % 2 == 0 && forall i :: 0 <= i < |s| ==> Value(s[i]).Some?
  {
    if |s| >= 2 {
      DigitsDecode(s[2..]);
      if Decode(s).None? && |s| % 2 == 0 && Decode(s[2..]).None? {
        var i :| 0 <= i < |s[2..]| && Value(s[2..][i]).None?;
        assert s[i + 2] == s[2..][i];
      }
      assert forall i :: 2 <= i < |s| ==> s[i] == s[2..][i - 2];
    }
  }
}
