/** Base64 as the signer uses it.

    The signature returned by the key store is turned into text with Node's
    `Buffer.toString('base64')` (the padded alphabet of RFC 4648 section 4) and
    then rewritten by three global replacements: `+` to `-`, `/` to `_`, and
    every `=` removed.  The `base64url` library that encodes the JWT header and
    payload produces the unpadded URL-safe alphabet of RFC 4648 section 5
    directly.  Both encoders are written out here so that the rewrite can be
    proved to land exactly on the URL-safe encoding. */
module Encoding {

  newtype byte = x: int | 0 <= x < 256

  /** Digit `d` of the base64 alphabet: RFC 4648 section 4 when `url` is false,
      the URL and filename safe alphabet of section 5 when it is true. */
  function Alphabet(d: int, url: bool): char
    requires 0 <= d < 64
  {
    if d < 26 then ('A' as int + d) as char
    else if d < 52 then ('a' as int + (d - 26)) as char
    else if d < 62 then ('0' as int + (d - 52)) as char
    else if d == 62 then (if url then '-' else '+')
    else (if url then '_' else '/')
  }

  /** The characters the URL-safe alphabet is made of. */
  predicate IsUrlSafe(c: char) {
    ('A' <= c <= 'Z') || ('a' <= c <= 'z') || ('0' <= c <= '9') || c == '-' || c == '_'
  }

  /** The 6-bit groups of `data`, most significant bit first; a final group of
      one or two bytes is filled with zero bits to a whole number of groups. */
  function Sextets(data: seq<byte>): (r: seq<int>)
    ensures |r| == (4 * |data| + 2) / 3
    ensures forall i :: 0 <= i < |r| ==> 0 <= r[i] < 64
    decreases |data|
  {
    if |data| == 0 then []
    else
      var b0 := data[0] as int;
      if |data| == 1 then [b0 / 4, (b0 % 4) * 16]
      else
        var b1 := data[1] as int;
        if |data| == 2 then [b0 / 4, (b0 % 4) * 16 + b1 / 16, (b1 % 16) * 4]
        else
          var b2 := data[2] as int;
          [b0 / 4, (b0 % 4) * 16 + b1 / 16, (b1 % 16) * 4 + b2 / 64, b2 % 64] + Sextets(data[3..])
  }

  /** Spells a sequence of digits in the chosen alphabet. */
  function Spell(digits: seq<int>, url: bool): (s: string)
    requires forall i :: 0 <= i < |digits| ==> 0 <= digits[i] < 64
    ensures |s| == |digits|
  {
    seq(|digits|, i requires 0 <= i < |digits| => Alphabet(digits[i], url))
  }

  /** The `=` characters that complete the last quantum of a padded encoding of `n` bytes. */
  function Padding(n: nat): string {
    if n % 3 == 1 then "==" else if n % 3 == 2 then "=" else ""
  }

  /** `Buffer.from(data).toString('base64')`: padded base64 of RFC 4648 section 4. */
  function Base64(data: seq<byte>): (s: string)
    ensures |s| == 4 * ((|data| + 2) / 3)
  {
    Spell(Sextets(data), false) + Padding(|data|)
  }

  /** Unpadded base64url of RFC 4648 section 5, the encoding of the `base64url`
      library and the one JWS compact serialization requires. */
  function Base64Url(data: seq<byte>): (s: string)
    ensures |s| == (4 * |data| + 2) / 3
    ensures forall i :: 0 <= i < |s| ==> IsUrlSafe(s[i])
  {
    Spell(Sextets(data), true)
  }

  /** `s.replace(/from/g, to)` for a one-character pattern. */
  function ReplaceAll(s: string, from: char, to: char): (r: string)
    ensures |r| == |s|
    ensures forall i :: 0 <= i < |s| ==> r[i] == (if s[i] == from then to else s[i])
  {
    if s == [] then [] else [if s[0] == from then to else s[0]] + ReplaceAll(s[1..], from, to)
  }

  /** `s.replace(/c/g, '')`: every occurrence of `c` deleted, the rest kept in order. */
  function RemoveAll(s: string, c: char): (r: string)
    ensures c !in r
    ensures forall x :: x != c ==> multiset(r)[x] == multiset(s)[x]
  {
    if s == [] then []
    else
      assert s == [s[0]] + s[1..];
      if s[0] == c then RemoveAll(s[1..], c) else [s[0]] + RemoveAll(s[1..], c)
  }

  /** The signature text of a JWT: base64 rewritten with the three replacements
      applied in the order the handler applies them. */
  function SignatureText(signature: seq<byte>): string {
    RemoveAll(ReplaceAll(ReplaceAll(Base64(signature), '+', '-'), '/', '_'), '=')
  }

  lemma {:induction false} RemoveAllAppend(a: string, b: string, c: char)
    ensures RemoveAll(a + b, c) == RemoveAll(a, c) + RemoveAll(b, c)
    decreases |a|
  {
    if a == [] {
      assert a + b == b;
    } else {
      assert (a + b)[1..] == a[1..] + b;
      RemoveAllAppend(a[1..], b, c);
    }
  }

  lemma {:induction false} RemoveAllAbsent(s: string, c: char)
    requires c !in s
    ensures RemoveAll(s, c) == s
    decreases |s|
  {
    if s != [] {
      assert s[0] in s;
      assert forall x :: x in s[1..] ==> x in s;
      RemoveAllAbsent(s[1..], c);
      assert s == [s[0]] + s[1..];
    }
  }

  /** Rewriting the padded standard encoding digit by digit gives the URL-safe digit. */
  lemma RewriteDigit(d: int)
    requires 0 <= d < 64
    ensures var std := Alphabet(d, false);
            var once := if std == '+' then '-' else std;
            (if once == '/' then '_' else once) == Alphabet(d, true)
    ensures Alphabet(d, false) != '='
  {
  }

  /** The hand-written rewrite of the signature is exactly unpadded base64url:
      replacing `+` and `/` and dropping `=` turns RFC 4648 section 4 into
      section 5 without padding. */
  lemma SignatureTextIsBase64Url(signature: seq<byte>)
    ensures SignatureText(signature) == Base64Url(signature)
  {
    var digits := Sextets(signature);
    var std := Spell(digits, false);
    var pad := Padding(|signature|);
    var url := Spell(digits, true);
    forall i | 0 <= i < |digits| {
      RewriteDigit(digits[i]);
    }
    var swapped := ReplaceAll(ReplaceAll(std + pad, '+', '-'), '/', '_');
    assert swapped == url + pad;
    assert '=' !in url by {
      forall i | 0 <= i < |url| ensures url[i] != '=' {
        RewriteDigit(digits[i]);
      }
    }
    RemoveAllAppend(url, pad, '=');
    RemoveAllAbsent(url, '=');
    assert RemoveAll(pad, '=') == "" by {
      assert pad == "" || pad == "=" || pad == "==";
      assert "=="[1..] == "=" && "="[1..] == "";
    }
  }

  /** The signature text never contains the characters a JWS compact
      serialization reserves: no `+`, `/`, `=` and no `.` separator. */
  lemma SignatureTextIsUrlSafe(signature: seq<byte>)
    ensures forall i :: 0 <= i < |SignatureText(signature)| ==> IsUrlSafe(SignatureText(signature)[i])
    ensures '.' !in SignatureText(signature) && '+' !in SignatureText(signature)
    ensures '/' !in SignatureText(signature) && '=' !in SignatureText(signature)
  {
    SignatureTextIsBase64Url(signature);
  }
}
