/** `URLSearchParams` as `getTasks` uses it: `append` and `toString`, whose output is the
    application/x-www-form-urlencoded serialisation of section 5.2 of the WHATWG URL
    Standard: each name and value is UTF-8 encoded, the bytes `*-._`, digits and ASCII
    letters stay as they are, the space becomes `+`, every other byte becomes `%XX`
    with upper-case hexadecimal, and the `name=value` pairs are joined with `&`. */
module Url {

  /** The UTF-8 bytes of one character. */
  function Utf8(c: char): (bytes: seq<nat>)
    ensures 1 <= |bytes| <= 4
    ensures forall i :: 0 <= i < |bytes| ==> bytes[i] < 256
    ensures (c as int) < 0x80 <==> bytes == [c as int]
  {
    var n := c as int;
    if n < 0x80 then [n]
    else if n < 0x800 then [0xC0 + n / 64, 0x80 + n % 64]
    else if n < 0x10000 then [0xE0 + n / 4096, 0x80 + (n / 64) % 64, 0x80 + n % 64]
    else [0xF0 + n / 262144, 0x80 + (n / 4096) % 64, 0x80 + (n / 64) % 64, 0x80 + n % 64]
  }

  /** The bytes the serialiser leaves as they are. */
  predicate IsUnreservedByte(b: nat) {
    b == 0x2A || b == 0x2D || b == 0x2E || b == 0x5F
    || (0x30 <= b <= 0x39) || (0x41 <= b <= 0x5A) || (0x61 <= b <= 0x7A)
  }

  function UpperHex(d: nat): char
    requires d < 16
  {
    "0123456789ABCDEF"[d]
  }

  function EncodeByte(b: nat): (r: string)
    requires b < 256
  {
    if b == 0x20 then "+"
    else if IsUnreservedByte(b) then [b as char]
    else ['%', UpperHex(b / 16), UpperHex(b % 16)]
  }

  function EncodeBytes(bytes: seq<nat>): string
    requires forall i :: 0 <= i < |bytes| ==> bytes[i] < 256
  {
    if |bytes| == 0 then "" else EncodeByte(bytes[0]) + EncodeBytes(bytes[1..])
  }

  /** The form-urlencoded serialisation of one name or value. */
  function FormEncode(s: string): string {
    if |s| == 0 then "" else EncodeBytes(Utf8(s[0])) + FormEncode(s[1..])
  }

  /** `params.toString()` for the list of appended pairs. */
  function Serialize(pairs: seq<(string, string)>): string {
    if |pairs| == 0 then ""
    else if |pairs| == 1 then FormEncode(pairs[0].0) + "=" + FormEncode(pairs[0].1)
    else FormEncode(pairs[0].0) + "=" + FormEncode(pairs[0].1) + "&" + Serialize(pairs[1..])
  }

  class SearchParams {
    var pairs: seq<(string, string)>

    /** `new URLSearchParams()`. */
    constructor ()
      ensures pairs == []
    {
      pairs := [];
    }

    /** `params.append(name, value)`: a new pair at the end; earlier pairs stay. */
    method Append(name: string, value: string)
      modifies this
      ensures pairs == old(pairs) + [(name, value)]
    {
      pairs := pairs + [(name, value)];
    }

    /** `params.toString()`. */
    function ToString(): string
      reads this
    {
      Serialize(pairs)
    }
  }

  // ---------------------------------------------------------------------------
  // Properties of the serialiser
  // ---------------------------------------------------------------------------

  /** Characters a name or value made of unreserved ASCII characters keeps as they are. */
  predicate IsUnreservedChar(c: char) {
    (c as int) < 0x80 && IsUnreservedByte(c as int)
  }

  /** A string of unreserved characters is its own encoding (`AVAILABLE` is sent as
      `AVAILABLE`). */
  lemma {:induction false} UnreservedIsUnchanged(s: string)
    requires forall i :: 0 <= i < |s| ==> IsUnreservedChar(s[i])
    ensures FormEncode(s) == s
  {
    if |s| > 0 {
      UnreservedIsUnchanged(s[1..]);
      assert EncodeBytes(Utf8(s[0])) == [s[0]];
      assert [s[0]] + s[1..] == s;
    }
  }

  /** Characters the serialiser never writes into an encoded name or value. */
  predicate IsSeparator(c: char) {
    c == '&' || c == '=' || c == ' ' || c == '?' || c == '#'
  }

  lemma {:induction false} EncodedBytesHaveNoSeparator(bytes: seq<nat>)
    requires forall i :: 0 <= i < |bytes| ==> bytes[i] < 256
    ensures forall i :: 0 <= i < |EncodeBytes(bytes)| ==> !IsSeparator(EncodeBytes(bytes)[i])
  {
    if |bytes| > 0 {
      EncodedBytesHaveNoSeparator(bytes[1..]);
      var head, tail := EncodeByte(bytes[0]), EncodeBytes(bytes[1..]);
      assert EncodeBytes(bytes) == head + tail;
      assert forall i :: 0 <= i < |head| ==> !IsSeparator(head[i]);
    }
  }

  /** An encoded name or value holds no `&`, `=`, space, `?` or `#`, so the query string
      splits back into its pairs and cannot end the query early. */
  lemma {:induction false} EncodedHasNoSeparator(s: string)
    ensures forall i :: 0 <= i < |FormEncode(s)| ==> !IsSeparator(FormEncode(s)[i])
  {
    if |s| > 0 {
      EncodedBytesHaveNoSeparator(Utf8(s[0]));
      EncodedHasNoSeparator(s[1..]);
      var head, tail := EncodeBytes(Utf8(s[0])), FormEncode(s[1..]);
      assert FormEncode(s) == head + tail;
    }
  }

  /** The serialisation is empty exactly when no pair was appended: every pair writes
      at least its `=`. */
  lemma SerializeEmptyExactly(pairs: seq<(string, string)>)
    ensures Serialize(pairs) == "" <==> |pairs| == 0
  {
  }

  /** The serialisation of pairs appended one after another: the `&`-joined list. */
  lemma {:induction false} SerializeAppend(pairs: seq<(string, string)>, p: (string, string))
    ensures Serialize(pairs + [p]) ==
      if |pairs| == 0 then FormEncode(p.0) + "=" + FormEncode(p.1)
      else Serialize(pairs) + "&" + FormEncode(p.0) + "=" + FormEncode(p.1)
  {
    if |pairs| > 1 {
      assert (pairs + [p])[1..] == pairs[1..] + [p];
      SerializeAppend(pairs[1..], p);
    } else if |pairs| == 1 {
      assert (pairs + [p])[1..] == [p];
    }
  }
}
