/**
 * The push-subscription key conversion: a URL-safe base64 string (the
 * alphabet of section 5 of RFC 4648, padding optional) is padded with `=`
 * to a multiple of four characters, turned into the standard alphabet of
 * section 4, decoded by the browser's `atob`, and copied code unit by code
 * unit into a fresh byte array.
 *
 * `atob` is a parameter: it yields the decoded binary string, or None when
 * it throws on its input.
 */
module Push {
  import opened Common

  /** A `Uint8Array` element. */
  newtype byte = x: int | 0 <= x < 256

  /** `(4 - (length % 4)) % 4`. */
  function PadCount(length: nat): (n: nat)
    ensures n <= 3
    ensures (length + n) % 4 == 0
    ensures n == 0 <==> length % 4 == 0
  {
    (4 - length % 4) % 4
  }

  /** `'='.repeat(n)`. */
  function Equals(n: nat): (r: string)
    ensures |r| == n
    ensures forall i :: 0 <= i < n ==> r[i] == '='
  {
    if n == 0 then "" else Equals(n - 1) + "="
  }

  /** `s.replace(/from/g, to)`: every `from` becomes `to`, every other character stays. */
  function ReplaceAll(s: string, from: char, to: char): (r: string)
    ensures |r| == |s|
    ensures forall i :: 0 <= i < |s| ==> r[i] == (if s[i] == from then to else s[i])
  {
    if |s| == 0 then "" else ReplaceAll(s[..|s| - 1], from, to) + [if s[|s| - 1] == from then to else s[|s| - 1]]
  }

  /** The string handed to `atob`: padded, then `-` to `+`, then `_` to `/`. */
  function Prepared(base64Str: string): string
  {
    ReplaceAll(ReplaceAll(base64Str + Equals(PadCount(|base64Str|)), '-', '+'), '_', '/')
  }

  predicate IsUrlOnly(c: char) { c == '-' || c == '_' }

  /**
   * The prepared string is the input followed by at most three `=`, has a
   * length that is a multiple of four, contains no `-` or `_`, and differs
   * from the input only where the input had `-` (now `+`) or `_` (now `/`).
   */
  lemma PreparedShape(s: string)
    ensures var p := Prepared(s);
            |p| % 4 == 0 && |s| <= |p| <= |s| + 3
            && (forall i :: 0 <= i < |p| ==> !IsUrlOnly(p[i]))
            && (forall i :: |s| <= i < |p| ==> p[i] == '=')
            && (forall i :: 0 <= i < |s| ==>
                  p[i] == (if s[i] == '-' then '+' else if s[i] == '_' then '/' else s[i]))
  {
    var padded := s + Equals(PadCount(|s|));
    assert forall i :: 0 <= i < |s| ==> padded[i] == s[i];
    assert forall i :: |s| <= i < |padded| ==> padded[i] == '=';
  }

  /** The section-5 form of a standard base64 string: `+` to `-`, `/` to `_`, then the padding dropped. */
  function UrlSafe(body: string): string
  {
    ReplaceAll(ReplaceAll(body, '+', '-'), '/', '_')
  }

  /**
   * Round trip: a standard base64 string of whole quads, its `=` padding
   * stripped and its alphabet made URL-safe, is turned back into exactly
   * the original string.
   */
  lemma {:induction false} PreparedUndoesUrlSafe(body: string, k: nat)
    requires k <= 3 && (|body| + k) % 4 == 0
    requires forall i :: 0 <= i < |body| ==> body[i] != '=' && !IsUrlOnly(body[i])
    ensures Prepared(UrlSafe(body)) == body + Equals(k)
  {
    var u := UrlSafe(body);
    assert PadCount(|u|) == k;
    var padded := u + Equals(k);
    var p := Prepared(u);
    var t := body + Equals(k);
    assert |p| == |t|;
    forall i | 0 <= i < |p|
      ensures p[i] == t[i]
    {
      if i < |body| {
        assert padded[i] == u[i];
      } else {
        assert padded[i] == '=';
      }
    }
  }

  /** `outputArray[i] = charCodeAt(i)`: a `Uint8Array` keeps the code unit modulo 256. */
  function CodeByte(c: char): (b: byte)
    ensures (c as int) < 256 ==> b as int == c as int
  {
    ((c as int) % 256) as byte
  }

  /** The bytes of a decoded binary string, one per code unit. */
  function Bytes(raw: string): (r: seq<byte>)
    ensures |r| == |raw|
    ensures forall i :: 0 <= i < |raw| ==> r[i] == CodeByte(raw[i])
  {
    if |raw| == 0 then [] else Bytes(raw[..|raw| - 1]) + [CodeByte(raw[|raw| - 1])]
  }

  /**
   * urlB64ToUint8Array: None when `atob` throws; otherwise a fresh array of
   * the decoded length holding the decoded binary string's bytes. The loop
   * fills each index once, in increasing order, over an array that starts
   * out all zeros.
   */
  method UrlB64ToUint8Array(base64Str: string, atob: string -> Option<string>) returns (out: Option<array<byte>>)
    ensures out.None? <==> atob(Prepared(base64Str)).None?
    ensures out.Some? ==> fresh(out.value) && out.value[..] == Bytes(atob(Prepared(base64Str)).value)
  {
    var padding := Equals(PadCount(|base64Str|));
    var base64 := ReplaceAll(ReplaceAll(base64Str + padding, '-', '+'), '_', '/');
    var decoded := atob(base64);
    if decoded.None? {
      return None;
    }
    var rawData := decoded.value;
    var outputArray := new byte[|rawData|](_ => 0);
    ghost var bytes := Bytes(rawData);
    for i := 0 to |rawData|
      invariant forall j :: 0 <= j < i ==> outputArray[j] == bytes[j]
      invariant forall j :: i <= j < |rawData| ==> outputArray[j] == 0
    {
      outputArray[i] := CodeByte(rawData[i]);
    }
    assert outputArray[..] == bytes;
    return Some(outputArray);
  }
}
