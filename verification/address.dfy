/** `parse_addr_response` and the per-line scan of an inquiry buffer.

    A Bluetooth device address is 48 bits written as NAP:UAP:LAP, 4, 2 and 6 hex
    digits (Bluetooth Core Specification, Vol 2, Part B, section 1.2). Replies such
    as `+ADDR:98d3:31:fb1e2c` carry it in colon form; the AT+PAIR/BIND/LINK
    commands take it in comma form. */
module Address {
  import opened Wrappers
  import opened Text

  /** An address in both encodings: `colon` for display, `comma` for commands. */
  datatype Addr = Addr(colon: string, comma: string)

  /** One character of the class `[0-9A-F]` under IGNORECASE. */
  predicate IsHex(c: char) {
    '0' <= c <= '9' || 'a' <= c <= 'f' || 'A' <= c <= 'F'
  }

  predicate AllHex(s: string) {
    forall i :: 0 <= i < |s| ==> IsHex(s[i])
  }

  /** Every character of `s[lo..hi]` is a hex digit. */
  predicate HexRun(s: string, lo: int, hi: int)
    requires 0 <= lo <= hi <= |s|
  {
    forall m :: lo <= m < hi ==> IsHex(s[m])
  }

  /** The pattern `([0-9A-F]{4}):([0-9A-F]{2}):([0-9A-F]{6})` matches `s` at `i`:
      fourteen characters, colons at offsets 4 and 7. */
  predicate MatchAt(s: string, i: int) {
    && 0 <= i && i + 14 <= |s|
    && HexRun(s, i, i + 4) && s[i + 4] == ':'
    && HexRun(s, i + 5, i + 7) && s[i + 7] == ':'
    && HexRun(s, i + 8, i + 14)
  }

  /** `i` is where `re.search` reports the match: the leftmost one. */
  predicate Leftmost(s: string, i: int) {
    MatchAt(s, i) && forall k :: 0 <= k < i ==> !MatchAt(s, k)
  }

  /** Both forms built from the same three groups, as written (case kept). */
  function Encode(nap: string, uap: string, lap: string): Addr {
    Addr(nap + ":" + uap + ":" + lap, nap + "," + uap + "," + lap)
  }

  /** The three groups of the match at `i`. */
  function AddrAt(s: string, i: int): Addr
    requires MatchAt(s, i)
  {
    Encode(s[i..i + 4], s[i + 5..i + 7], s[i + 8..i + 14])
  }

  /** The leftmost match at or after `i`, scanning one position at a time. */
  function FirstMatchFrom(s: string, i: nat): (r: Option<nat>)
    ensures r.Some? ==> i <= r.value && MatchAt(s, r.value)
    ensures r.Some? ==> forall k :: i <= k < r.value ==> !MatchAt(s, k)
    ensures r.None? ==> forall k :: i <= k ==> !MatchAt(s, k)
    decreases |s| - i
  {
    if i + 14 > |s| then None
    else if MatchAt(s, i) then Some(i)
    else FirstMatchFrom(s, i + 1)
  }

  /** `parse_addr_response`: None when the text holds no address anywhere;
      otherwise the groups of the leftmost match, in both encodings. */
  function ParseAddrResponse(s: string): (r: Option<Addr>)
    ensures r.None? <==> forall k :: !MatchAt(s, k)
    ensures r.Some? ==> exists i :: Leftmost(s, i) && r.value == AddrAt(s, i)
  {
    match FirstMatchFrom(s, 0)
    case None => None
    case Some(i) => Some(AddrAt(s, i))
  }

  /** Whatever the leftmost match is, the parser reports exactly it. */
  lemma ParseAtLeftmost(s: string, i: int)
    requires Leftmost(s, i)
    ensures ParseAddrResponse(s) == Some(AddrAt(s, i))
  {
    assert FirstMatchFrom(s, 0).Some?;
  }

  /** An address written as `nap:uap:lap` anywhere in a reply is found, groups
      and case intact, provided no earlier address starts before it. */
  lemma ParseEmbedded(pre: string, nap: string, uap: string, lap: string, post: string)
    requires |nap| == 4 && |uap| == 2 && |lap| == 6
    requires AllHex(nap) && AllHex(uap) && AllHex(lap)
    requires forall k :: 0 <= k < |pre| ==> !MatchAt(pre + Encode(nap, uap, lap).colon + post, k)
    ensures ParseAddrResponse(pre + Encode(nap, uap, lap).colon + post) == Some(Encode(nap, uap, lap))
  {
    var s := pre + Encode(nap, uap, lap).colon + post;
    var p := |pre|;
    assert s[p..p + 14] == Encode(nap, uap, lap).colon;
    assert forall m :: 0 <= m < 4 ==> s[p + m] == nap[m];
    assert forall m :: 0 <= m < 2 ==> s[p + 5 + m] == uap[m];
    assert forall m :: 0 <= m < 6 ==> s[p + 8 + m] == lap[m];
    assert MatchAt(s, p);
    assert s[p..p + 4] == nap && s[p + 5..p + 7] == uap && s[p + 8..p + 14] == lap;
    ParseAtLeftmost(s, p);
  }

  /** Parsing the display form of a parsed address gives the same address back. */
  lemma ParseIdempotent(s: string)
    requires ParseAddrResponse(s).Some?
    ensures ParseAddrResponse(ParseAddrResponse(s).value.colon) == ParseAddrResponse(s)
  {
    var i :| Leftmost(s, i) && ParseAddrResponse(s).value == AddrAt(s, i);
    var nap, uap, lap := s[i..i + 4], s[i + 5..i + 7], s[i + 8..i + 14];
    assert Encode(nap, uap, lap).colon == "" + Encode(nap, uap, lap).colon + "";
    ParseEmbedded("", nap, uap, lap, "");
  }

  /** The scan step's tail: every line of the buffer that holds an address
      contributes the address it parses to, in line order. */
  function AddrsInLines(lines: seq<string>): (addrs: seq<Addr>)
    ensures |addrs| <= |lines|
  {
    if lines == [] then []
    else
      var head := match ParseAddrResponse(lines[0]) case Some(a) => [a] case None => [];
      head + AddrsInLines(lines[1..])
  }

  /** The loop of `_inquire_addresses` over `buf.splitlines()`. */
  method CollectAddrs(buf: string) returns (addrs: seq<Addr>)
    ensures addrs == AddrsInLines(Lines(buf))
  {
    var lines := Lines(buf);
    addrs := [];
    for i := 0 to |lines|
      invariant addrs + AddrsInLines(lines[i..]) == AddrsInLines(lines)
    {
      assert lines[i..][1..] == lines[i + 1..];
      var parsed := ParseAddrResponse(lines[i]);
      if parsed.Some? {
        addrs := addrs + [parsed.value];
      }
    }
    assert lines[|lines|..] == [];
  }

  /** No character of an address is a line boundary. */
  lemma MatchHasNoLineBreak(s: string, k: int, m: int)
    requires MatchAt(s, k) && k <= m < k + 14
    ensures !IsLineBreak(s[m])
  {
  }

  /** A match lies inside a substring exactly when the substring matches there. */
  lemma MatchShift(s: string, off: int, t: string, k: int)
    requires 0 <= off && off + |t| <= |s| && t == s[off..off + |t|]
    requires 0 <= k && k + 14 <= |t|
    ensures MatchAt(t, k) <==> MatchAt(s, off + k)
    ensures MatchAt(t, k) ==> AddrAt(t, k) == AddrAt(s, off + k)
  {
    SliceShift(s, off, t, k, k + 4);
    SliceShift(s, off, t, k + 5, k + 7);
    SliceShift(s, off, t, k + 8, k + 14);
  }

  lemma SliceShift(s: string, off: int, t: string, lo: int, hi: int)
    requires 0 <= off && off + |t| <= |s| && t == s[off..off + |t|]
    requires 0 <= lo <= hi <= |t|
    ensures t[lo..hi] == s[off + lo..off + hi]
  {
    forall m | 0 <= m < hi - lo
      ensures t[lo..hi][m] == s[off + lo..off + hi][m]
    {
      assert t[lo + m] == s[off..off + |t|][lo + m];
    }
  }

  /** Matches in a buffer, seen from its first line: none starts on the line
      boundary, and those starting in the first line lie wholly inside it. */
  lemma FirstLineMatches(buf: string)
    requires buf != []
    ensures forall k :: LineEnd(buf) <= k < NextLineStart(buf) ==> !MatchAt(buf, k)
    ensures forall k :: 0 <= k < LineEnd(buf) ==>
              (MatchAt(buf, k) <==> MatchAt(buf[..LineEnd(buf)], k))
    ensures forall k :: 0 <= k < LineEnd(buf) && MatchAt(buf, k) ==>
              AddrAt(buf[..LineEnd(buf)], k) == AddrAt(buf, k)
  {
    var j, n := LineEnd(buf), NextLineStart(buf);
    var line := buf[..j];
    forall k | j <= k < n
      ensures !MatchAt(buf, k)
    {
      if MatchAt(buf, k) {
        assert IsLineBreak(buf[k]);
        MatchHasNoLineBreak(buf, k, k);
      }
    }
    forall k | 0 <= k < j
      ensures MatchAt(buf, k) <==> MatchAt(line, k)
      ensures MatchAt(buf, k) ==> AddrAt(line, k) == AddrAt(buf, k)
    {
      if k + 14 <= j {
        MatchShift(buf, 0, line, k);
      } else if MatchAt(buf, k) {
        assert IsLineBreak(buf[j]);
        MatchHasNoLineBreak(buf, k, j);
      }
    }
  }

  /** Scanning the buffer line by line finds first the very address that a
      single search over the whole buffer finds: addresses never span lines. */
  lemma {:induction false} LineScanAgrees(buf: string)
    ensures var found := AddrsInLines(Lines(buf));
            ParseAddrResponse(buf) == if found == [] then None else Some(found[0])
    decreases |buf|
  {
    if buf != [] {
      var j, n := LineEnd(buf), NextLineStart(buf);
      var line, rest := buf[..j], buf[n..];
      assert Lines(buf) == [line] + Lines(rest);
      LineScanAgrees(rest);
      var found := AddrsInLines(Lines(buf));
      assert found == (match ParseAddrResponse(line) case Some(a) => [a] case None => [])
                      + AddrsInLines(Lines(rest)) by {
        assert Lines(buf)[0] == line && Lines(buf)[1..] == Lines(rest);
      }
      if ParseAddrResponse(line).Some? {
        FirstLineWins(buf);
      } else {
        RestWins(buf);
      }
    }
  }

  /** When the first line holds an address, it is the buffer's first address. */
  lemma FirstLineWins(buf: string)
    requires buf != [] && ParseAddrResponse(buf[..LineEnd(buf)]).Some?
    ensures ParseAddrResponse(buf) == ParseAddrResponse(buf[..LineEnd(buf)])
  {
    var line := buf[..LineEnd(buf)];
    var i :| Leftmost(line, i) && ParseAddrResponse(line).value == AddrAt(line, i);
    FirstLineMatches(buf);
    assert Leftmost(buf, i);
    ParseAtLeftmost(buf, i);
  }

  /** When the first line holds none, the buffer's first address is the rest's. */
  lemma RestWins(buf: string)
    requires buf != [] && ParseAddrResponse(buf[..LineEnd(buf)]).None?
    ensures ParseAddrResponse(buf) == ParseAddrResponse(buf[NextLineStart(buf)..])
  {
    var n := NextLineStart(buf);
    NothingBeforeRest(buf);
    if ParseAddrResponse(buf[n..]).Some? {
      RestWinsSome(buf, n);
    } else {
      RestWinsNone(buf, n);
    }
  }

  lemma NothingBeforeRest(buf: string)
    requires buf != [] && ParseAddrResponse(buf[..LineEnd(buf)]).None?
    ensures forall k :: 0 <= k < NextLineStart(buf) ==> !MatchAt(buf, k)
  {
    FirstLineMatches(buf);
  }

  lemma RestWinsSome(buf: string, n: nat)
    requires n <= |buf| && forall k :: 0 <= k < n ==> !MatchAt(buf, k)
    requires ParseAddrResponse(buf[n..]).Some?
    ensures ParseAddrResponse(buf) == ParseAddrResponse(buf[n..])
  {
    var rest := buf[n..];
    var i :| Leftmost(rest, i) && ParseAddrResponse(rest).value == AddrAt(rest, i);
    forall k | n <= k < n + i ensures !MatchAt(buf, k) {
      MatchShift(buf, n, rest, k - n);
    }
    MatchShift(buf, n, rest, i);
    assert Leftmost(buf, n + i);
    ParseAtLeftmost(buf, n + i);
  }

  lemma RestWinsNone(buf: string, n: nat)
    requires n <= |buf| && forall k :: 0 <= k < n ==> !MatchAt(buf, k)
    requires ParseAddrResponse(buf[n..]).None?
    ensures ParseAddrResponse(buf).None?
  {
    var rest := buf[n..];
    forall k | n <= k ensures !MatchAt(buf, k) {
      if k + 14 <= |buf| {
        MatchShift(buf, n, rest, k - n);
      }
    }
  }
}
