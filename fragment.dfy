/** What the browser does to a string assigned to `window.location.hash`: the URL parser's
    fragment state of the WHATWG URL Standard, which drops tabs and newlines and
    percent-encodes, as UTF-8 bytes, every character of the fragment percent-encode set. */
module Fragment {
  /** The fragment percent-encode set of the WHATWG URL Standard: the C0 controls, space, `"`,
      `<`, `>`, the backtick, and every code point after `~`. */
  predicate InFragmentEncodeSet(c: char)
  {
    c <= ' ' || c == '"' || c == '<' || c == '>' || c == '`' || c > '~'
  }

  /** A string in which the fragment parser changes nothing. */
  predicate FragmentSafe(s: string)
  {
    forall i :: 0 <= i < |s| ==> !InFragmentEncodeSet(s[i])
  }

  /** An upper-case hexadecimal digit. */
  function HexDigit(n: int): (c: char)
    requires 0 <= n < 16
    ensures !InFragmentEncodeSet(c) && c != '/'
  {
    if n < 10 then ('0' as int + n) as char else ('A' as int + n - 10) as char
  }

  /** The UTF-8 bytes of a code point. */
  function Utf8(c: char): (bytes: seq<int>)
    ensures 1 <= |bytes| <= 4
    ensures forall i :: 0 <= i < |bytes| ==> 0 <= bytes[i] < 256
  {
    var n := c as int;
    if n < 0x80 then [n]
    else if n < 0x800 then [0xC0 + n / 0x40, 0x80 + n % 0x40]
    else if n < 0x1_0000 then [0xE0 + n / 0x1000, 0x80 + (n / 0x40) % 0x40, 0x80 + n % 0x40]
    else [0xF0 + n / 0x4_0000, 0x80 + (n / 0x1000) % 0x40, 0x80 + (n / 0x40) % 0x40, 0x80 + n % 0x40]
  }

  /** `%XX` for each byte. */
  function PercentBytes(bytes: seq<int>): (r: string)
    requires forall i :: 0 <= i < |bytes| ==> 0 <= bytes[i] < 256
    ensures |r| == 3 * |bytes|
    ensures FragmentSafe(r) && '/' !in r
    ensures bytes != [] ==> r[0] == '%'
  {
    if bytes == [] then ""
    else ['%', HexDigit(bytes[0] / 16), HexDigit(bytes[0] % 16)] + PercentBytes(bytes[1..])
  }

  /** One character as the fragment parser writes it: a tab or a newline is dropped, a member
      of the encode set becomes the `%XX` of its UTF-8 bytes, any other character stays. */
  function EncodeChar(c: char): (r: string)
    ensures FragmentSafe(r)
    ensures '/' in r <==> c == '/'
    ensures r == [c] <==> !InFragmentEncodeSet(c)
  {
    if c == '\t' || c == '\n' || c == '\r' then ""
    else if InFragmentEncodeSet(c) then PercentBytes(Utf8(c))
    else [c]
  }

  /** What `location.hash` reads back after a string is assigned to it: the string with each
      character encoded as above. The setter drops a leading `#` and the getter puts it
      back, so the `#` of the hash needs no case of its own. */
  function EncodeFragment(s: string): (r: string)
    ensures FragmentSafe(r)
    ensures '/' in r <==> '/' in s
  {
    if s == [] then "" else EncodeChar(s[0]) + EncodeFragment(s[1..])
  }

  /** Encoding works character by character. */
  lemma {:induction false} EncodeAppend(a: string, b: string)
    ensures EncodeFragment(a + b) == EncodeFragment(a) + EncodeFragment(b)
  {
    if a == [] {
      assert a + b == b;
    } else {
      assert (a + b)[1..] == a[1..] + b;
      EncodeAppend(a[1..], b);
    }
  }

  /** A string comes back unchanged exactly when the fragment parser has nothing to encode
      or drop in it. */
  lemma {:induction false} EncodeKeepsExactlySafe(s: string)
    ensures EncodeFragment(s) == s <==> FragmentSafe(s)
  {
    if s != [] && FragmentSafe(s) {
      assert FragmentSafe(s[1..]);
      EncodeKeepsExactlySafe(s[1..]);
      assert EncodeChar(s[0]) == [s[0]];
      assert [s[0]] + s[1..] == s;
    }
  }

  /** A space reads back as `%20`, between parts that are kept as they are. */
  lemma {:induction false} SpaceIsEncoded(a: string, b: string)
    requires FragmentSafe(a) && FragmentSafe(b)
    ensures EncodeFragment(a + " " + b) == a + "%20" + b
  {
    assert Utf8(' ') == [0x20];
    assert EncodeChar(' ') == "%20";
    assert a + " " + b == a + ([' '] + b);
    EncodeSafePrefix(a, [' '] + b);
    assert ([' '] + b)[1..] == b;
    EncodeKeepsExactlySafe(b);
  }

  /** A prefix with nothing to encode is kept as it is in front of the encoded rest. */
  lemma EncodeSafePrefix(p: string, s: string)
    requires FragmentSafe(p)
    ensures EncodeFragment(p + s) == p + EncodeFragment(s)
  {
    EncodeAppend(p, s);
    EncodeKeepsExactlySafe(p);
  }

  lemma SafeAppend(a: string, b: string)
    requires FragmentSafe(a) && FragmentSafe(b)
    ensures FragmentSafe(a + b)
  {
    assert forall i :: |a| <= i < |a + b| ==> (a + b)[i] == b[i - |a|];
  }
}
