/**
  The PKCE helpers of the music player's sign-in: the random code verifier
  and the unpadded base64url encoding of the SHA-256 digest that becomes the
  code challenge (RFC 7636, sections 4.1 and 4.2; base64url is section 5 of
  RFC 4648).

  The random bytes and the digest bytes are inputs. `btoa` over a string of
  one character per byte is the standard base64 of those bytes (section 4
  of RFC 4648, with '=' padding); it is written out here together with the
  matching decoder, so that the encoder's output can be decoded back.
*/
module Pkce {
  import opened Optional

  type byte = x: int | 0 <= x < 256
  type sextet = x: int | 0 <= x < 64

  /** The 62 characters the verifier is drawn from: upper-case letters, lower-case letters, digits. */
  const Possible: string := "ABCDEFGHIJKLMNOPQRSTUVWXYZ" + "abcdefghijklmnopqrstuvwxyz" + "0123456789"

  predicate IsAlphanumeric(c: char)
  {
    'A' <= c <= 'Z' || 'a' <= c <= 'z' || '0' <= c <= '9'
  }

  /** `unreserved` of section 4.1 of RFC 7636: ALPHA / DIGIT / "-" / "." / "_" / "~". */
  predicate IsUnreserved(c: char)
  {
    IsAlphanumeric(c) || c == '-' || c == '.' || c == '_' || c == '~'
  }

  /** A code verifier (and, by section 4.2, a code challenge): 43 to 128 unreserved characters. */
  predicate ValidPkceString(s: string)
  {
    43 <= |s| <= 128 && forall i :: 0 <= i < |s| ==> IsUnreserved(s[i])
  }

  lemma PossibleIsAlphanumeric()
    ensures |Possible| == 62
    ensures forall i :: 0 <= i < |Possible| ==> IsAlphanumeric(Possible[i])
  {
    var upper, lower, digits := "ABCDEFGHIJKLMNOPQRSTUVWXYZ", "abcdefghijklmnopqrstuvwxyz", "0123456789";
    assert forall i :: 0 <= i < 26 ==> 'A' <= upper[i] <= 'Z';
    assert forall i :: 0 <= i < 26 ==> 'a' <= lower[i] <= 'z';
    assert forall i :: 0 <= i < 10 ==> '0' <= digits[i] <= '9';
  }

  /** `generateRandomString`: the `reduce` that appends one character per random byte. */
  function GenerateRandomString(values: seq<byte>): (s: string)
    ensures |s| == |values|
    ensures forall i :: 0 <= i < |values| ==> s[i] == Possible[values[i] % |Possible|]
    decreases |values|
  {
    if values == [] then ""
    else GenerateRandomString(values[..|values| - 1]) + [Possible[values[|values| - 1] % |Possible|]]
  }

  /** The 64-character verifier (any length from 43 to 128, in fact) meets section 4.1 of RFC 7636. */
  lemma VerifierIsValid(values: seq<byte>)
    requires 43 <= |values| <= 128
    ensures ValidPkceString(GenerateRandomString(values))
  {
    PossibleIsAlphanumeric();
    var s := GenerateRandomString(values);
    forall i | 0 <= i < |s|
      ensures IsUnreserved(s[i])
    {
      assert s[i] == Possible[values[i] % 62];
    }
  }

  /** The standard base64 alphabet: 'A'-'Z', 'a'-'z', '0'-'9', '+', '/'. */
  function StdChar(v: sextet): char
  {
    if v < 26 then (65 + v) as char
    else if v < 52 then (97 + v - 26) as char
    else if v < 62 then (48 + v - 52) as char
    else if v == 62 then '+'
    else '/'
  }

  /** The inverse of the alphabet; '=' and every other character have no value. */
  function StdValue(c: char): Option<sextet>
  {
    if 'A' <= c <= 'Z' then Some(c as int - 65)
    else if 'a' <= c <= 'z' then Some(c as int - 97 + 26)
    else if '0' <= c <= '9' then Some(c as int - 48 + 52)
    else if c == '+' then Some(62)
    else if c == '/' then Some(63)
    else None
  }

  predicate IsStdChar(c: char)
  {
    IsAlphanumeric(c) || c == '+' || c == '/'
  }

  lemma StdCharDecodes(v: sextet)
    ensures StdValue(StdChar(v)) == Some(v)
    ensures IsStdChar(StdChar(v))
  {
  }

  /** Three bytes as four characters. */
  function Quad(b0: byte, b1: byte, b2: byte): string
  {
    [StdChar(b0 / 4), StdChar((b0 % 4) * 16 + b1 / 16), StdChar((b1 % 16) * 4 + b2 / 64), StdChar(b2 % 64)]
  }

  /** `btoa`: standard base64, the last group padded with '='. */
  function Btoa(bytes: seq<byte>): string
    decreases |bytes|
  {
    if |bytes| == 0 then ""
    else if |bytes| == 1 then
      [StdChar(bytes[0] / 4), StdChar((bytes[0] % 4) * 16), '=', '=']
    else if |bytes| == 2 then
      [StdChar(bytes[0] / 4), StdChar((bytes[0] % 4) * 16 + bytes[1] / 16), StdChar((bytes[1] % 16) * 4), '=']
    else
      Quad(bytes[0], bytes[1], bytes[2]) + Btoa(bytes[3..])
  }

  /** Every group of up to three bytes becomes four characters of `btoa`'s output. */
  lemma {:induction false} BtoaLength(bytes: seq<byte>)
    ensures |Btoa(bytes)| == 4 * ((|bytes| + 2) / 3)
    decreases |bytes|
  {
    if |bytes| > 2 {
      BtoaLength(bytes[3..]);
    }
  }

  /** The characters of `btoa`'s output without its padding. */
  function Unpadded(bytes: seq<byte>): string
    decreases |bytes|
  {
    if |bytes| == 0 then ""
    else if |bytes| == 1 then
      [StdChar(bytes[0] / 4), StdChar((bytes[0] % 4) * 16)]
    else if |bytes| == 2 then
      [StdChar(bytes[0] / 4), StdChar((bytes[0] % 4) * 16 + bytes[1] / 16), StdChar((bytes[1] % 16) * 4)]
    else
      Quad(bytes[0], bytes[1], bytes[2]) + Unpadded(bytes[3..])
  }

  /** The padding `btoa` adds after n bytes. */
  function Padding(n: nat): string
  {
    if n % 3 == 1 then "==" else if n % 3 == 2 then "=" else ""
  }

  lemma {:induction false} BtoaIsUnpaddedPlusPadding(bytes: seq<byte>)
    ensures Btoa(bytes) == Unpadded(bytes) + Padding(|bytes|)
    decreases |bytes|
  {
    if |bytes| > 2 {
      var rest := bytes[3..];
      BtoaIsUnpaddedPlusPadding(rest);
      assert Padding(|rest|) == Padding(|bytes|);
    }
  }

  /** ceil(4n/3) characters before the padding. */
  lemma {:induction false} UnpaddedLength(bytes: seq<byte>)
    ensures |Unpadded(bytes)| == (4 * |bytes| + 2) / 3
    decreases |bytes|
  {
    if |bytes| > 2 {
      UnpaddedLength(bytes[3..]);
    }
  }

  lemma {:induction false} UnpaddedIsStd(bytes: seq<byte>)
    ensures forall i :: 0 <= i < |Unpadded(bytes)| ==> IsStdChar(Unpadded(bytes)[i])
    decreases |bytes|
  {
    var u := Unpadded(bytes);
    if |bytes| == 1 {
      StdCharDecodes(bytes[0] / 4);
      StdCharDecodes((bytes[0] % 4) * 16);
    } else if |bytes| == 2 {
      StdCharDecodes(bytes[0] / 4);
      StdCharDecodes((bytes[0] % 4) * 16 + bytes[1] / 16);
      StdCharDecodes((bytes[1] % 16) * 4);
    } else if |bytes| > 2 {
      var rest := bytes[3..];
      UnpaddedIsStd(rest);
      StdCharDecodes(bytes[0] / 4);
      StdCharDecodes((bytes[0] % 4) * 16 + bytes[1] / 16);
      StdCharDecodes((bytes[1] % 16) * 4 + bytes[2] / 64);
      StdCharDecodes(bytes[2] % 64);
      assert u == Quad(bytes[0], bytes[1], bytes[2]) + Unpadded(rest);
      forall i | 0 <= i < |u|
        ensures IsStdChar(u[i])
      {
        if i >= 4 {
          assert u[i] == Unpadded(rest)[i - 4];
        }
      }
    }
  }

  /** `.replace(/c/g, '')`: every occurrence of `c` removed, every other character kept in order. */
  function RemoveAll(s: string, c: char): (r: string)
    ensures c !in r
    ensures multiset(r) == multiset(s)[c := 0]
    ensures c !in s ==> r == s
    decreases |s|
  {
    if s == [] then []
    else
      assert s == [s[0]] + s[1..];
      if s[0] == c then RemoveAll(s[1..], c)
      else [s[0]] + RemoveAll(s[1..], c)
  }

  /** `.replace(/from/g, to)`: every occurrence of `from` becomes `to`. */
  function ReplaceAll(s: string, from: char, to: char): (r: string)
    ensures |r| == |s|
    ensures forall i :: 0 <= i < |s| ==> r[i] == (if s[i] == from then to else s[i])
  {
    seq(|s|, i requires 0 <= i < |s| => if s[i] == from then to else s[i])
  }

  /** `base64encode`: `btoa`, then the padding removed and '+' and '/' made URL-safe. */
  function Base64Encode(bytes: seq<byte>): (r: string)
    ensures '=' !in r && '+' !in r && '/' !in r
  {
    ReplaceAll(ReplaceAll(RemoveAll(Btoa(bytes), '='), '+', '-'), '/', '_')
  }

  lemma {:induction false} RemoveAllAppend(s: string, t: string, c: char)
    ensures RemoveAll(s + t, c) == RemoveAll(s, c) + RemoveAll(t, c)
    decreases |s|
  {
    if s == [] {
      assert s + t == t;
    } else {
      assert (s + t)[0] == s[0];
      assert (s + t)[1..] == s[1..] + t;
      RemoveAllAppend(s[1..], t, c);
    }
  }

  predicate IsUrlChar(c: char)
  {
    IsAlphanumeric(c) || c == '-' || c == '_'
  }

  /** The URL-safe counterpart of a standard character. */
  function UrlChar(c: char): char
  {
    if c == '+' then '-' else if c == '/' then '_' else c
  }

  /** The padding consists of '=' only, so removing '=' removes all of it. */
  lemma PaddingRemoved(n: nat)
    ensures RemoveAll(Padding(n), '=') == ""
  {
    assert forall x :: x in Padding(n) ==> x == '=';
  }

  /** The unpadded characters are all from the standard alphabet, so none is '='. */
  lemma UnpaddedHasNoPadding(bytes: seq<byte>)
    ensures '=' !in Unpadded(bytes)
  {
    UnpaddedIsStd(bytes);
    var u := Unpadded(bytes);
    forall i | 0 <= i < |u| ensures u[i] != '=' { assert IsStdChar(u[i]); }
  }

  /** Removing the '=' characters from `btoa`'s output leaves exactly the unpadded characters. */
  lemma BtoaWithoutPadding(bytes: seq<byte>)
    ensures RemoveAll(Btoa(bytes), '=') == Unpadded(bytes)
  {
    var u, p := Unpadded(bytes), Padding(|bytes|);
    calc {
      RemoveAll(Btoa(bytes), '=');
    == { BtoaIsUnpaddedPlusPadding(bytes); }
      RemoveAll(u + p, '=');
    == { RemoveAllAppend(u, p, '='); }
      RemoveAll(u, '=') + RemoveAll(p, '=');
    == { UnpaddedHasNoPadding(bytes); PaddingRemoved(|bytes|); }
      u + "";
    == { assert u + "" == u; }
      u;
    }
  }

  /**
    The encoder's output is the unpadded base64 characters made URL-safe:
    ceil(4n/3) characters, all from the base64url alphabet of section 5 of RFC 4648.
  */
  lemma Base64EncodeIsUnpaddedUrl(bytes: seq<byte>)
    ensures var r := Base64Encode(bytes); var u := Unpadded(bytes);
      |r| == |u| && forall i :: 0 <= i < |u| ==> r[i] == UrlChar(u[i])
    ensures |Base64Encode(bytes)| == (4 * |bytes| + 2) / 3
    ensures forall i :: 0 <= i < |Base64Encode(bytes)| ==> IsUrlChar(Base64Encode(bytes)[i])
  {
    BtoaWithoutPadding(bytes);
    UnpaddedLength(bytes);
    UnpaddedIsStd(bytes);
  }

  /** Re-padding to a multiple of four characters. */
  function Repad(s: string): string
  {
    if |s| % 4 == 2 then s + "==" else if |s| % 4 == 3 then s + "=" else s
  }

  /** '-' and '_' mapped back to '+' and '/'. */
  function UrlToStd(s: string): string
  {
    ReplaceAll(ReplaceAll(s, '-', '+'), '_', '/')
  }

  /** All four characters of a full group decoded. */
  function DecodeFull(q: string): Option<seq<byte>>
    requires |q| == 4
  {
    var v0, v1, v2, v3 := StdValue(q[0]), StdValue(q[1]), StdValue(q[2]), StdValue(q[3]);
    if v0.None? || v1.None? || v2.None? || v3.None? then None
    else
      var a, b, c, d := v0.value, v1.value, v2.value, v3.value;
      Some([a * 4 + b / 16, (b % 16) * 16 + c / 4, (c % 4) * 64 + d])
  }

  /** The last group, which may end in "==" (one byte) or "=" (two bytes). */
  function DecodeLast(q: string): Option<seq<byte>>
    requires |q| == 4
  {
    var v0, v1, v2 := StdValue(q[0]), StdValue(q[1]), StdValue(q[2]);
    if q[2] == '=' && q[3] == '=' then
      if v0.None? || v1.None? then None
      else Some([v0.value * 4 + v1.value / 16])
    else if q[3] == '=' then
      if v0.None? || v1.None? || v2.None? then None
      else Some([v0.value * 4 + v1.value / 16, (v1.value % 16) * 16 + v2.value / 4])
    else DecodeFull(q)
  }

  /** Standard base64 decoding (`atob`): groups of four, padding only in the last. */
  function Atob(s: string): Option<seq<byte>>
    decreases |s|
  {
    if |s| == 0 then Some([])
    else if |s| < 4 then None
    else if |s| == 4 then DecodeLast(s)
    else
      match DecodeFull(s[..4])
      case None => None
      case Some(head) =>
        match Atob(s[4..])
        case None => None
        case Some(tail) => Some(head + tail)
  }

  lemma QuadDecodes(b0: byte, b1: byte, b2: byte)
    ensures DecodeFull(Quad(b0, b1, b2)) == Some([b0, b1, b2])
  {
    var a, b, c, d := b0 / 4, (b0 % 4) * 16 + b1 / 16, (b1 % 16) * 4 + b2 / 64, b2 % 64;
    StdCharDecodes(a);
    StdCharDecodes(b);
    StdCharDecodes(c);
    StdCharDecodes(d);
    assert b / 16 == b0 % 4 && b % 16 == b1 / 16;
    assert c / 4 == b1 % 16 && c % 4 == b2 / 64;
  }

  /** Standard base64 decodes back to the bytes it encodes. */
  lemma {:induction false} BtoaRoundTrip(bytes: seq<byte>)
    ensures Atob(Btoa(bytes)) == Some(bytes)
    decreases |bytes|
  {
    if |bytes| == 0 {
    } else if |bytes| == 1 {
      var b := (bytes[0] % 4) * 16;
      StdCharDecodes(bytes[0] / 4);
      StdCharDecodes(b);
      assert b / 16 == bytes[0] % 4;
      assert [bytes[0]] == bytes;
    } else if |bytes| == 2 {
      var b := (bytes[0] % 4) * 16 + bytes[1] / 16;
      var c := (bytes[1] % 16) * 4;
      StdCharDecodes(bytes[0] / 4);
      StdCharDecodes(b);
      StdCharDecodes(c);
      assert b / 16 == bytes[0] % 4 && b % 16 == bytes[1] / 16;
      assert c / 4 == bytes[1] % 16;
      assert [bytes[0], bytes[1]] == bytes;
    } else {
      var q := Quad(bytes[0], bytes[1], bytes[2]);
      QuadDecodes(bytes[0], bytes[1], bytes[2]);
      BtoaRoundTrip(bytes[3..]);
      var s := Btoa(bytes);
      assert s == q + Btoa(bytes[3..]);
      assert bytes == [bytes[0], bytes[1], bytes[2]] + bytes[3..];
      if |bytes| == 3 {
        assert bytes[3..] == [] && s == q;
        StdCharDecodes((bytes[1] % 16) * 4 + bytes[2] / 64);
        StdCharDecodes(bytes[2] % 64);
        assert q[2] != '=' && q[3] != '=';
        assert Atob(s) == DecodeLast(q) == DecodeFull(q);
        assert bytes == [bytes[0], bytes[1], bytes[2]];
      } else {
        BtoaIsUnpaddedPlusPadding(bytes[3..]);
        assert |Btoa(bytes[3..])| > 0;
        assert s[..4] == q && s[4..] == Btoa(bytes[3..]);
      }
    }
  }

  /** Mapping '-' and '_' back undoes the URL-safe mapping of standard characters. */
  lemma UrlToStdUndoesUrlChar(u: string, r: string)
    requires forall i :: 0 <= i < |u| ==> IsStdChar(u[i])
    requires |r| == |u| && forall i :: 0 <= i < |u| ==> r[i] == UrlChar(u[i])
    ensures UrlToStd(r) == u
  {
    var back := UrlToStd(r);
    forall i | 0 <= i < |u|
      ensures back[i] == u[i]
    {
      assert IsStdChar(u[i]);
    }
  }

  /** Padding the unpadded characters to a multiple of four restores exactly `btoa`'s padding. */
  lemma {:induction false} RepadRestoresPadding(bytes: seq<byte>)
    ensures Repad(Unpadded(bytes)) == Unpadded(bytes) + Padding(|bytes|)
    decreases |bytes|
  {
    if |bytes| > 2 {
      var rest := bytes[3..];
      RepadRestoresPadding(rest);
      assert |Unpadded(bytes)| == 4 + |Unpadded(rest)|;
      assert |Unpadded(bytes)| % 4 == |Unpadded(rest)| % 4;
      assert Padding(|bytes|) == Padding(|rest|);
    }
  }

  /**
    Re-padding the encoder's output and mapping '-' and '_' back to '+' and
    '/' gives `btoa`'s standard base64, which decodes to the input bytes.
  */
  lemma Base64EncodeRoundTrip(bytes: seq<byte>)
    ensures Repad(UrlToStd(Base64Encode(bytes))) == Btoa(bytes)
    ensures Atob(Repad(UrlToStd(Base64Encode(bytes)))) == Some(bytes)
  {
    Base64EncodeIsUnpaddedUrl(bytes);
    BtoaIsUnpaddedPlusPadding(bytes);
    UnpaddedIsStd(bytes);
    UrlToStdUndoesUrlChar(Unpadded(bytes), Base64Encode(bytes));
    RepadRestoresPadding(bytes);
    BtoaRoundTrip(bytes);
  }

  /** The S256 code challenge: the base64url encoding of the verifier's SHA-256 digest. */
  function CodeChallenge(digest: seq<byte>): (challenge: string)
    ensures |challenge| == (4 * |digest| + 2) / 3
    ensures forall i :: 0 <= i < |challenge| ==> IsUrlChar(challenge[i])
  {
    Base64EncodeIsUnpaddedUrl(digest);
    Base64Encode(digest)
  }

  /** A 32-byte digest gives a 43-character challenge, within the limits of sections 4.1 and 4.2 of RFC 7636. */
  lemma ChallengeOfDigestIsValid(digest: seq<byte>)
    requires |digest| == 32
    ensures |CodeChallenge(digest)| == 43
    ensures ValidPkceString(CodeChallenge(digest))
  {
    Base64EncodeIsUnpaddedUrl(digest);
  }
}
