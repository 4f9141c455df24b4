/** Little-endian reads from a byte buffer, NUL-terminated strings and the
    upper-casing of single-byte strings (format/rol.js). */
module Binary {
  import opened Wrappers

  /** Unsigned 16-bit little-endian word at offset o (DataView.getUint16(o, true)). */
  function U16(data: seq<bv8>, o: nat): (r: nat)
    requires o + 2 <= |data|
    ensures r < 0x1_0000
  {
    data[o] as nat + 0x100 * data[o + 1] as nat
  }

  /** Unsigned 32-bit little-endian word at offset o (DataView.getUint32(o, true)). */
  function U32(data: seq<bv8>, o: nat): (r: nat)
    requires o + 4 <= |data|
    ensures r < 0x1_0000_0000
  {
    U16(data, o) + 0x1_0000 * U16(data, o + 2)
  }

  /** The index of the first NUL byte at or after o, if the buffer has one. */
  function NulFrom(data: seq<bv8>, o: nat): (r: Option<nat>)
    ensures r.Some? ==> o <= r.value < |data| && data[r.value] == 0
    decreases |data| - o
  {
    if o >= |data| then None
    else if data[o] == 0 then Some(o)
    else NulFrom(data, o + 1)
  }

  /** No NUL lies between o and the one found, nor after o when none is. */
  lemma {:induction false} NulFromIsFirst(data: seq<bv8>, o: nat)
    ensures NulFrom(data, o).Some? ==> forall k | o <= k < NulFrom(data, o).value :: data[k] != 0
    ensures NulFrom(data, o).None? ==> forall k | o <= k < |data| :: data[k] != 0
    decreases |data| - o
  {
    if o < |data| && data[o] != 0 {
      NulFromIsFirst(data, o + 1);
    }
  }

  /** Single-byte characters, one per byte (String.fromCharCode on a byte array). */
  function Chars(bytes: seq<bv8>): (s: string)
    ensures |s| == |bytes|
  {
    if bytes == [] then [] else [bytes[0] as int as char] + Chars(bytes[1..])
  }

  /** Each character has the code of its byte. */
  lemma {:induction false} CharsOfBytes(bytes: seq<bv8>)
    ensures forall k | 0 <= k < |bytes| :: Chars(bytes)[k] as int == bytes[k] as int
  {
    if bytes != [] {
      CharsOfBytes(bytes[1..]);
    }
  }

  /** The string that loadString returns: the bytes from o up to the first
      NUL. Reading past the end of the buffer without meeting a NUL raises. */
  function StringAt(data: seq<bv8>, o: nat): Result<string> {
    match NulFrom(data, o)
    case None => RangeError
    case Some(e) => Ok(Chars(data[o..e]))
  }

  /** The name is exactly the bytes before the first NUL, and a buffer with no
      NUL after o is a RangeError. */
  lemma StringAtIsPrefixBeforeNul(data: seq<bv8>, o: nat)
    ensures StringAt(data, o).Ok? <==> exists e | o <= e < |data| :: data[e] == 0
    ensures StringAt(data, o).Ok? ==>
      var s := StringAt(data, o).value;
      && o + |s| < |data|
      && data[o + |s|] == 0
      && (forall k | 0 <= k < |s| :: data[o + k] != 0 && s[k] as int == data[o + k] as int)
  {
    if NulFrom(data, o).Some? {
      var e := NulFrom(data, o).value;
      assert data[e] == 0;
      CharsOfBytes(data[o..e]);
    }
    NulFromIsFirst(data, o);
  }

  /** loadString: scan to the NUL, then convert the bytes before it. */
  method LoadString(data: seq<bv8>, offset: nat) returns (r: Result<string>)
    ensures r == StringAt(data, offset)
  {
    var stringEnd := offset;
    while stringEnd < |data| && data[stringEnd] != 0
      invariant offset <= stringEnd
      invariant NulFrom(data, stringEnd) == NulFrom(data, offset)
      decreases |data| - stringEnd
    {
      stringEnd := stringEnd + 1;
    }
    if stringEnd >= |data| {
      return RangeError;
    }
    r := Ok(Chars(data[offset..stringEnd]));
  }

  /** String.prototype.toUpperCase on one character below 0x100. Latin-1 has
      three characters whose upper case lies elsewhere: MICRO SIGN (0xB5),
      SHARP S (0xDF, two characters) and Y WITH DIAERESIS (0xFF). The
      mapping is meant for Latin-1 input only, as names decoded from bytes
      are: any character above 0xFF is returned unchanged, which for most of
      them is not what toUpperCase does. */
  function UpperChar(c: char): (u: string)
    ensures 1 <= |u| <= 2
  {
    if 'a' <= c <= 'z' then [(c as int - 0x20) as char]
    else if c as int == 0xB5 then [0x39C as char]
    else if c as int == 0xDF then "SS"
    else if 0xE0 <= c as int <= 0xFE && c as int != 0xF7 then [(c as int - 0x20) as char]
    else if c as int == 0xFF then [0x178 as char]
    else [c]
  }

  function ToUpperCase(s: string): string {
    if s == [] then [] else UpperChar(s[0]) + ToUpperCase(s[1..])
  }

  predicate NoLowerAscii(s: string) {
    forall k | 0 <= k < |s| :: !('a' <= s[k] <= 'z')
  }

  /** Upper-casing never leaves an ASCII lower-case letter. */
  lemma {:induction false} ToUpperCaseHasNoLowerAscii(s: string)
    ensures NoLowerAscii(ToUpperCase(s))
  {
    if s != [] {
      ToUpperCaseHasNoLowerAscii(s[1..]);
      var u, rest := UpperChar(s[0]), ToUpperCase(s[1..]);
      assert ToUpperCase(s) == u + rest;
      forall k | 0 <= k < |u + rest| ensures !('a' <= (u + rest)[k] <= 'z') {
        if k >= |u| { assert (u + rest)[k] == rest[k - |u|]; }
      }
    }
  }

  /** A name holding an ASCII lower-case letter is the upper case of no string,
      so a bank entry under such a name can never be looked up by update. */
  lemma LowerCaseNameNeverMatches(name: string, s: string)
    requires !NoLowerAscii(name)
    ensures ToUpperCase(s) != name
  {
    ToUpperCaseHasNoLowerAscii(s);
  }

  /** Upper-casing twice is upper-casing once. */
  lemma {:induction false} ToUpperCaseIdempotent(s: string)
    ensures ToUpperCase(ToUpperCase(s)) == ToUpperCase(s)
  {
    if s != [] {
      var u, rest := UpperChar(s[0]), ToUpperCase(s[1..]);
      ToUpperCaseIdempotent(s[1..]);
      UpperAppend(u, rest);
      assert ToUpperCase(u) == u by {
        if |u| == 1 {
          assert ToUpperCase(u) == UpperChar(u[0]) + ToUpperCase([]);
        } else {
          assert u == "SS";
          assert ToUpperCase(u) == UpperChar('S') + ToUpperCase("S");
        }
      }
    }
  }

  lemma {:induction false} UpperAppend(a: string, b: string)
    ensures ToUpperCase(a + b) == ToUpperCase(a) + ToUpperCase(b)
  {
    if a != [] {
      assert (a + b)[1..] == a[1..] + b;
      UpperAppend(a[1..], b);
    } else {
      assert a + b == b;
    }
  }
}
