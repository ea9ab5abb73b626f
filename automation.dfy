/// Acquisition: the identifiers read from a profile URL, the merges of the
/// sources fetched for a GitHub user or a Wikipedia article together with
/// the identity checks that reject an empty merge, and the line-by-line
/// parser that turns an article's infobox wikitext into a dictionary.
/// Every fetch is an input that either produced a value or failed.
module Automation {
  import opened Wrappers
  import opened Strings
  import opened Json
  import opened Types

  // ---------------------------------------------------------------------------
  // `marker([^stops]+)` searched for anywhere in a URL

  /** At index `i` the text `marker` starts and is followed by a character outside `stops`. */
  predicate MatchesAt(s: string, marker: string, stops: set<char>, i: nat) {
    i + |marker| < |s| && OccursAt(s, marker, i) && s[i + |marker|] !in stops
  }

  /** The capture `[^stops]+` of a match at `i`: everything up to the next character in `stops`. */
  function CaptureAt(s: string, marker: string, stops: set<char>, i: nat): (r: string)
    requires MatchesAt(s, marker, stops, i)
    ensures r != [] && forall k :: 0 <= k < |r| ==> r[k] !in stops
    ensures OccursAt(s, marker + r, i)
    ensures i + |marker| + |r| == |s| || s[i + |marker| + |r|] in stops
  {
    var rest := s[i + |marker|..];
    var n := FirstIndexIn(rest, stops);
    assert s[i..i + |marker| + n] == s[i..i + |marker|] + rest[..n];
    rest[..n]
  }

  /** The leftmost match at or after `from`, or `|s|` when there is none. */
  function FirstMatchFrom(s: string, marker: string, stops: set<char>, from: nat): (i: nat)
    ensures from <= i || i == |s|
    ensures i <= |s|
    ensures i < |s| ==> MatchesAt(s, marker, stops, i)
    ensures forall j :: from <= j < i ==> !MatchesAt(s, marker, stops, j)
    decreases |s| - from
  {
    if from >= |s| then |s|
    else if MatchesAt(s, marker, stops, from) then from
    else FirstMatchFrom(s, marker, stops, from + 1)
  }

  /** `s.match(/marker([^stops]+)/)?.[1]`. */
  function Capture(s: string, marker: string, stops: set<char>): Option<string> {
    var i := FirstMatchFrom(s, marker, stops, 0);
    if i < |s| then Some(CaptureAt(s, marker, stops, i)) else None
  }

  const UsernameStops: set<char> := {'/', '?', '#'}

  /**
   * The path segment after the first `github.com/` that is followed by one,
   * up to `/`, `?` or `#`; the empty string when there is none.
   */
  function ExtractGitHubUsername(url: string): (r: string)
    ensures r == "" <==> forall i :: 0 <= i < |url| ==> !MatchesAt(url, "github.com/", UsernameStops, i)
    ensures r != "" ==> exists i :: OccursAt(url, "github.com/" + r, i)
    ensures forall k :: 0 <= k < |r| ==> r[k] !in UsernameStops
  {
    Capture(url, "github.com/", UsernameStops).GetOr("")
  }

  /** A profile URL written the usual way yields exactly its user name. */
  lemma {:induction false} UsernameOfProfileUrl(name: string, rest: string)
    requires name != [] && forall k :: 0 <= k < |name| ==> name[k] !in UsernameStops
    requires rest == [] || rest[0] in UsernameStops
    ensures ExtractGitHubUsername("https://github.com/" + name + rest) == name
  {
    var path := name + rest;
    var url := "https://github.com/" + path;
    AppendAssociates("https://github.com/", name, rest);
    MarkerAfterScheme(path);
    assert url[19..] == path;
    FirstIndexOfPlainPrefix(name, rest, UsernameStops);
    assert path[..|name|] == name;
  }

  /** Behind `https://`, the first `github.com/` followed by a user name character is the host. */
  lemma {:induction false} MarkerAfterScheme(path: string)
    requires path != [] && path[0] !in UsernameStops
    ensures FirstMatchFrom("https://github.com/" + path, "github.com/", UsernameStops, 0) == 8
  {
    var url := "https://github.com/" + path;
    assert url[..8] == "https://";
    forall j | 0 <= j < 8
      ensures !OccursAt(url, "github.com/", j)
    {
      if OccursAt(url, "github.com/", j) {
        CharOfOccurrence(url, "github.com/", j, 6);
        assert false;
      }
    }
    assert url[8..19] == "github.com/";
    assert MatchesAt(url, "github.com/", UsernameStops, 8);
  }

  lemma {:induction false} FirstIndexOfPlainPrefix(a: string, b: string, seps: set<char>)
    requires forall k :: 0 <= k < |a| ==> a[k] !in seps
    requires b == [] || b[0] in seps
    ensures FirstIndexIn(a + b, seps) == |a|
  {
    var n := FirstIndexIn(a + b, seps);
    if n < |a| {
      assert false;
    } else if n > |a| {
      CharOfConcat(a, b, |a|);
      assert false;
    }
  }

  lemma {:induction false} CharOfOccurrence(s: string, sub: string, i: nat, k: nat)
    requires OccursAt(s, sub, i) && k < |sub|
    ensures s[i + k] == sub[k]
  {
    assert s[i..i + |sub|][k] == s[i + k];
  }

  lemma CharOfConcat(a: string, b: string, i: int)
    requires 0 <= i < |a| + |b|
    ensures (a + b)[i] == if i < |a| then a[i] else b[i - |a|]
  {
  }

  // ---------------------------------------------------------------------------
  // Percent-encoding of a URI component

  /** The value of a hexadecimal digit, either case. */
  function HexValue(c: char): Option<nat> {
    if '0' <= c <= '9' then Some(c as int - '0' as int)
    else if 'a' <= c <= 'f' then Some(c as int - 'a' as int + 10)
    else if 'A' <= c <= 'F' then Some(c as int - 'A' as int + 10)
    else None
  }

  /** The byte written by an escape `%XY` at the start of `s`. */
  function EscapedByte(s: string): (b: Option<nat>)
    ensures b.Some? ==> b.value < 256
  {
    if |s| < 3 || s[0] != '%' then None
    else match (HexValue(s[1]), HexValue(s[2]))
      case (Some(h), Some(l)) => if h < 16 && l < 16 then Some(16 * h + l) else None
      case _ => None
  }

  /** The low six bits of an escaped continuation byte (`0x80..0xBF`) at the start of `s`. */
  function ContinuationAt(s: string): (r: Option<nat>)
    ensures r.Some? ==> r.value < 64
  {
    match EscapedByte(s)
    case Some(b) => if 0x80 <= b < 0xC0 then Some(b - 0x80) else None
    case None => None
  }

  /** A code point Dafny can hold as a character (no surrogate, at most `0x10FFFF`). */
  predicate IsScalar(v: int) {
    (0 <= v < 0xD800) || (0xE000 <= v < 0x110000)
  }

  /**
   * The escape sequence at the start of `s` (which starts with `%`), as the
   * character it encodes in UTF-8 and the number of text characters it
   * spans; `None` for a malformed escape, a byte that cannot start a
   * sequence, a missing continuation, an overlong form, a surrogate or a
   * value past `0x10FFFF`, all of which make `decodeURIComponent` throw.
   */
  function DecodeEscape(s: string): (r: Option<(char, nat)>)
    ensures r.Some? ==> 3 <= r.value.1 <= |s|
  {
    match EscapedByte(s)
    case None => None
    case Some(b) =>
      if b < 0x80 then Some((b as char, 3))
      else if 0xC0 <= b < 0xE0 then DecodeTwo(b, s)
      else if 0xE0 <= b < 0xF0 then DecodeThree(b, s)
      else if 0xF0 <= b < 0xF8 then DecodeFour(b, s)
      else None
  }

  /** A two-byte sequence led by `b`; the code point must need two bytes. */
  function DecodeTwo(b: nat, s: string): (r: Option<(char, nat)>)
    requires 0xC0 <= b < 0xE0 && |s| >= 3
    ensures r.Some? ==> r.value.1 == 6 <= |s|
  {
    match ContinuationAt(s[3..])
    case Some(c2) =>
      var v := (b - 0xC0) * 64 + c2;
      if 0x80 <= v then Some((v as char, 6)) else None
    case None => None
  }

  /** A three-byte sequence led by `b`; the code point must need three bytes and not be a surrogate. */
  function DecodeThree(b: nat, s: string): (r: Option<(char, nat)>)
    requires 0xE0 <= b < 0xF0 && |s| >= 3
    ensures r.Some? ==> r.value.1 == 9 <= |s|
  {
    match (ContinuationAt(s[3..]), if |s| >= 6 then ContinuationAt(s[6..]) else None)
    case (Some(c2), Some(c3)) =>
      var v := (b - 0xE0) * 4096 + c2 * 64 + c3;
      if 0x800 <= v && IsScalar(v) then Some((v as char, 9)) else None
    case _ => None
  }

  /** A four-byte sequence led by `b`; the code point must need four bytes and be at most `0x10FFFF`. */
  function DecodeFour(b: nat, s: string): (r: Option<(char, nat)>)
    requires 0xF0 <= b < 0xF8 && |s| >= 3
    ensures r.Some? ==> r.value.1 == 12 <= |s|
  {
    match (ContinuationAt(s[3..]), if |s| >= 6 then ContinuationAt(s[6..]) else None,
           if |s| >= 9 then ContinuationAt(s[9..]) else None)
    case (Some(c2), Some(c3), Some(c4)) =>
      var v := (b - 0xF0) * 262144 + c2 * 4096 + c3 * 64 + c4;
      if 0x10000 <= v < 0x110000 then Some((v as char, 12)) else None
    case _ => None
  }

  /** `decodeURIComponent(s)`: every escape decoded, any malformed one throws a `URIError` whose message is "URI malformed". */
  function DecodeUriComponent(s: string): (r: Result<string>)
    ensures r.Err? ==> r.error == "URI malformed"
    ensures r.Ok? ==> |r.value| <= |s|
    ensures r.Ok? && s != [] ==> r.value != []
    ensures (forall k :: 0 <= k < |s| ==> s[k] != '%') ==> r == Ok(s)
    decreases |s|
  {
    if s == [] then Ok([])
    else if s[0] != '%' then
      assert s == [s[0]] + s[1..];
      match DecodeUriComponent(s[1..])
      case Ok(t) => Ok([s[0]] + t)
      case Err(e) => Err(e)
    else
      match DecodeEscape(s)
      case None => Err("URI malformed")
      case Some((c, n)) =>
        match DecodeUriComponent(s[n..])
        case Ok(t) => Ok([c] + t)
        case Err(e) => Err(e)
  }

  /** A `%` without two hexadecimal digits after it is malformed: the title `100%_Wolf` throws "URI malformed". */
  lemma MalformedEscape()
    ensures DecodeUriComponent("100% Wolf") == Err("URI malformed")
  {
    var s := "100% Wolf";
    assert EscapedByte(s[3..]).None? by { assert s[3..][2] == 'W'; }
    assert DecodeUriComponent(s[3..]).Err?;
    assert s[2..][1..] == s[3..] && s[1..][1..] == s[2..];
  }

  /** The characters `encodeURIComponent` leaves as they are. */
  predicate Unreserved(c: char) {
    ('A' <= c <= 'Z') || ('a' <= c <= 'z') || ('0' <= c <= '9')
    || c == '-' || c == '_' || c == '.' || c == '!' || c == '~' || c == '*' || c == '\'' || c == '(' || c == ')'
  }

  function HexDigitUpper(d: nat): (c: char)
    requires d < 16
    ensures HexValue(c) == Some(d)
  {
    "0123456789ABCDEF"[d]
  }

  /** `%XY` for one byte, with upper-case digits. */
  function EscapeByte(b: nat): (r: string)
    requires b < 256
    ensures |r| == 3 && r[0] == '%'
  {
    ['%', HexDigitUpper(b / 16), HexDigitUpper(b % 16)]
  }

  /** The UTF-8 bytes of one character. */
  function Utf8Bytes(c: char): (bs: seq<nat>)
    ensures 1 <= |bs| <= 4
    ensures forall k :: 0 <= k < |bs| ==> bs[k] < 256
  {
    var v := c as int;
    if v < 0x80 then [v]
    else if v < 0x800 then [0xC0 + v / 64, 0x80 + v % 64]
    else if v < 0x10000 then [0xE0 + v / 4096, 0x80 + v / 64 % 64, 0x80 + v % 64]
    else [0xF0 + v / 262144, 0x80 + v / 4096 % 64, 0x80 + v / 64 % 64, 0x80 + v % 64]
  }

  /** The escapes of a run of bytes, one `%XY` each. */
  function Escapes(bs: seq<nat>): (r: string)
    requires forall k :: 0 <= k < |bs| ==> bs[k] < 256
    ensures |r| == 3 * |bs|
  {
    if bs == [] then [] else EscapeByte(bs[0]) + Escapes(bs[1..])
  }

  /** The escapes of the UTF-8 bytes of one character. */
  function EscapeChar(c: char): (r: string)
    ensures |r| >= 3 && r[0] == '%'
  {
    Escapes(Utf8Bytes(c))
  }

  /** `encodeURIComponent(s)`: the title as the summary request puts it in its path. */
  function EncodeUriComponent(s: string): string
    decreases |s|
  {
    if s == [] then []
    else (if Unreserved(s[0]) then [s[0]] else EscapeChar(s[0])) + EncodeUriComponent(s[1..])
  }

  /** What the reader sees at the start of one escape, and what follows it. */
  lemma {:induction false} ReadEscape(b: nat, rest: string)
    requires b < 256
    ensures EscapedByte(EscapeByte(b) + rest) == Some(b)
    ensures 0x80 <= b < 0xC0 ==> ContinuationAt(EscapeByte(b) + rest) == Some(b - 0x80)
    ensures (EscapeByte(b) + rest)[3..] == rest
  {
    var t := EscapeByte(b) + rest;
    assert t[1] == HexDigitUpper(b / 16) && t[2] == HexDigitUpper(b % 16);
  }

  /** The first escape of a run, and what follows it. */
  lemma {:induction false} EscapesCons(bs: seq<nat>, rest: string)
    requires bs != [] && forall k :: 0 <= k < |bs| ==> bs[k] < 256
    ensures Escapes(bs) + rest == EscapeByte(bs[0]) + (Escapes(bs[1..]) + rest)
  {
    var head, tail := EscapeByte(bs[0]), Escapes(bs[1..]);
    assert Escapes(bs) == head + tail;
    AppendAssociates(head, tail, rest);
  }

  lemma {:induction false} AppendAssociates(a: string, b: string, c: string)
    ensures (a + b) + c == a + (b + c)
  {
    assert forall k :: 0 <= k < |a| + |b| + |c| ==> ((a + b) + c)[k] == (a + (b + c))[k];
  }

  /** The byte and the continuation value read from the first escape of a run. */
  lemma {:induction false} LeadOfEscapes(bs: seq<nat>, rest: string)
    requires bs != [] && forall k :: 0 <= k < |bs| ==> bs[k] < 256
    ensures EscapedByte(Escapes(bs) + rest) == Some(bs[0])
    ensures 0x80 <= bs[0] < 0xC0 ==> ContinuationAt(Escapes(bs) + rest) == Some(bs[0] - 0x80)
    ensures (Escapes(bs) + rest)[3..] == Escapes(bs[1..]) + rest
  {
    EscapesCons(bs, rest);
    ReadEscape(bs[0], Escapes(bs[1..]) + rest);
  }

  lemma {:induction false} DecodeEscapeChar(c: char, rest: string)
    ensures DecodeEscape(EscapeChar(c) + rest) == Some((c, |EscapeChar(c)|))
  {
    var v := c as int;
    if v < 0x80 {
      LeadOfEscapes(Utf8Bytes(c), rest);
    } else if v < 0x800 {
      DecodeTwoBytes(c, rest);
    } else if v < 0x10000 {
      DecodeThreeBytes(c, rest);
    } else {
      DecodeFourBytes(c, rest);
    }
  }

  lemma {:induction false} DecodeTwoBytes(c: char, rest: string)
    requires 0x80 <= c as int < 0x800
    ensures DecodeEscape(EscapeChar(c) + rest) == Some((c, 6))
  {
    var v := c as int;
    var bs := Utf8Bytes(c);
    var t := Escapes(bs) + rest;
    LeadOfEscapes(bs, rest);
    LeadOfEscapes(bs[1..], rest);
    assert (0xC0 + v / 64 - 0xC0) * 64 + v % 64 == v;
    assert DecodeTwo(bs[0], t) == Some((c, 6));
  }

  lemma {:induction false} DecodeThreeBytes(c: char, rest: string)
    requires 0x800 <= c as int < 0x10000
    ensures DecodeEscape(EscapeChar(c) + rest) == Some((c, 9))
  {
    var v := c as int;
    var t := EscapeChar(c) + rest;
    ThreeByteEscapes(c, rest);
    ThreeByteValue(v);
    assert DecodeThree(0xE0 + v / 4096, t) == Some((c, 9));
  }

  lemma {:induction false} ThreeByteEscapes(c: char, rest: string)
    requires 0x800 <= c as int < 0x10000
    ensures var v := c as int; var t := EscapeChar(c) + rest;
      |t| >= 9
      && EscapedByte(t) == Some(0xE0 + v / 4096)
      && ContinuationAt(t[3..]) == Some(v / 64 % 64)
      && ContinuationAt(t[6..]) == Some(v % 64)
  {
    var bs := Utf8Bytes(c);
    var t := Escapes(bs) + rest;
    var t1 := Escapes(bs[1..]) + rest;
    LeadOfEscapes(bs, rest);
    LeadOfEscapes(bs[1..], rest);
    assert bs[1..][1..] == bs[2..];
    LeadOfEscapes(bs[2..], rest);
    assert t[6..] == t1[3..];
  }

  lemma {:induction false} DecodeFourBytes(c: char, rest: string)
    requires 0x10000 <= c as int
    ensures DecodeEscape(EscapeChar(c) + rest) == Some((c, 12))
  {
    var v := c as int;
    var t := EscapeChar(c) + rest;
    FourByteEscapes(c, rest);
    FourByteValue(v);
    assert DecodeFour(0xF0 + v / 262144, t) == Some((c, 12));
  }

  lemma {:induction false} FourByteEscapes(c: char, rest: string)
    requires 0x10000 <= c as int
    ensures var v := c as int; var t := EscapeChar(c) + rest;
      |t| >= 12
      && EscapedByte(t) == Some(0xF0 + v / 262144)
      && ContinuationAt(t[3..]) == Some(v / 4096 % 64)
      && ContinuationAt(t[6..]) == Some(v / 64 % 64)
      && ContinuationAt(t[9..]) == Some(v % 64)
  {
    var bs := Utf8Bytes(c);
    var t := Escapes(bs) + rest;
    var t1 := Escapes(bs[1..]) + rest;
    var t2 := Escapes(bs[2..]) + rest;
    LeadOfEscapes(bs, rest);
    LeadOfEscapes(bs[1..], rest);
    assert bs[1..][1..] == bs[2..];
    LeadOfEscapes(bs[2..], rest);
    assert bs[2..][1..] == bs[3..];
    LeadOfEscapes(bs[3..], rest);
    assert t[6..] == t1[3..];
    assert t[9..] == t2[3..];
  }

  lemma ThreeByteValue(v: nat)
    requires v < 0x10000
    ensures v / 4096 < 16
    ensures (v / 4096) * 4096 + (v / 64 % 64) * 64 + v % 64 == v
  {
    assert v == (v / 64) * 64 + v % 64;
    assert v / 64 == (v / 64 / 64) * 64 + v / 64 % 64;
    assert v / 64 / 64 == v / 4096;
  }

  lemma FourByteValue(v: nat)
    requires v < 0x110000
    ensures v / 262144 < 8
    ensures (v / 262144) * 262144 + (v / 4096 % 64) * 4096 + (v / 64 % 64) * 64 + v % 64 == v
  {
    assert v == (v / 64) * 64 + v % 64;
    assert v / 64 == (v / 64 / 64) * 64 + v / 64 % 64;
    assert v / 64 / 64 == v / 4096;
    assert v / 4096 == (v / 4096 / 64) * 64 + v / 4096 % 64;
    assert v / 4096 / 64 == v / 262144;
  }

  /** Decoding undoes encoding: the summary request names exactly the article asked for. */
  lemma {:induction false} DecodeEncode(s: string)
    ensures DecodeUriComponent(EncodeUriComponent(s)) == Ok(s)
    decreases |s|
  {
    if s != [] {
      var tail := EncodeUriComponent(s[1..]);
      DecodeEncode(s[1..]);
      assert s == [s[0]] + s[1..];
      if Unreserved(s[0]) {
        DecodeKept(s[0], tail, s[1..]);
      } else {
        DecodeEscaped(s[0], tail, s[1..]);
      }
    }
  }

  /** An unreserved character is read back as itself. */
  lemma {:induction false} DecodeKept(c: char, tail: string, decoded: string)
    requires Unreserved(c) && DecodeUriComponent(tail) == Ok(decoded)
    ensures DecodeUriComponent([c] + tail) == Ok([c] + decoded)
  {
    var t := [c] + tail;
    assert t[1..] == tail;
  }

  /** The escapes of a character are read back as that character. */
  lemma {:induction false} DecodeEscaped(c: char, tail: string, decoded: string)
    requires DecodeUriComponent(tail) == Ok(decoded)
    ensures DecodeUriComponent(EscapeChar(c) + tail) == Ok([c] + decoded)
  {
    var e := EscapeChar(c);
    var t := e + tail;
    DecodeEscapeChar(c, tail);
    assert t[|e|..] == tail;
  }

  // ---------------------------------------------------------------------------
  // Wikipedia article title

  const TitleStops: set<char> := {'#', '?'}

  /** `s.replace(/_/g, ' ')`. */
  function UnderscoresToSpaces(s: string): (r: string)
    ensures |r| == |s|
    ensures forall k :: 0 <= k < |s| ==> r[k] == if s[k] == '_' then ' ' else s[k]
  {
    seq(|s|, k requires 0 <= k < |s| => if s[k] == '_' then ' ' else s[k])
  }

  /**
   * The path after the first `wikipedia.org/wiki/`, up to `#` or `?`, with
   * underscores read as spaces and then percent-decoded; the empty title when
   * the URL has no such path. A malformed escape throws.
   */
  function ExtractWikipediaTitle(url: string): (r: Result<string>)
    ensures (forall i :: 0 <= i < |url| ==> !MatchesAt(url, "wikipedia.org/wiki/", TitleStops, i)) ==> r == Ok("")
    ensures r.Ok? && r.value == "" ==> forall i :: 0 <= i < |url| ==> !MatchesAt(url, "wikipedia.org/wiki/", TitleStops, i)
  {
    match Capture(url, "wikipedia.org/wiki/", TitleStops)
    case None => Ok("")
    case Some(segment) => DecodeUriComponent(UnderscoresToSpaces(segment))
  }

  /** A title path without escapes reads back with its underscores as spaces. */
  lemma TitleWithoutEscapes(url: string, segment: string)
    requires Capture(url, "wikipedia.org/wiki/", TitleStops) == Some(segment)
    requires forall k :: 0 <= k < |segment| ==> segment[k] != '%'
    ensures ExtractWikipediaTitle(url) == Ok(UnderscoresToSpaces(segment))
  {
  }

  // ---------------------------------------------------------------------------
  // Markup cleaning

  /** No two whitespace characters stand next to each other. */
  predicate NoDoubleSpace(s: string) {
    forall i :: 0 <= i < |s| - 1 ==> !(IsSpace(s[i]) && IsSpace(s[i + 1]))
  }

  /**
   * `s.replace(/\s{2,}/g, ' ')`: every run of two or more whitespace
   * characters becomes one space; a lone whitespace character stays as it is.
   */
  function CollapseWhitespace(s: string): (r: string)
    ensures NoDoubleSpace(r)
    ensures r == [] <==> s == []
    ensures r != [] ==> (IsSpace(r[0]) <==> IsSpace(s[0]))
    decreases |s|
  {
    if s == [] then []
    else
      var n := SpaceRun(s);
      if n >= 2 then " " + CollapseWhitespace(s[n..])
      else [s[0]] + CollapseWhitespace(s[1..])
  }

  /** A piece cut out of a string without double whitespace has none either. */
  lemma NoDoubleSpaceSlice(s: string, a: nat, b: nat)
    requires a <= b <= |s| && NoDoubleSpace(s)
    ensures NoDoubleSpace(s[a..b])
  {
    var t := s[a..b];
    forall i | 0 <= i < |t| - 1
      ensures !(IsSpace(t[i]) && IsSpace(t[i + 1]))
    {
      assert t[i] == s[a + i] && t[i + 1] == s[a + i + 1];
    }
  }

  /**
   * The last steps of `cleanWikiMarkup`: whatever `strip` (the chain of
   * template, link, reference and tag removals before them) leaves, its
   * whitespace runs are collapsed and the ends trimmed.
   */
  function CleanWikiMarkup(strip: string -> string, text: string): (r: string)
    ensures NoDoubleSpace(r)
    ensures r == [] || (!IsSpace(r[0]) && !IsSpace(r[|r| - 1]))
  {
    var collapsed := CollapseWhitespace(strip(text));
    var front := TrimStart(collapsed);
    NoDoubleSpaceSlice(collapsed, |collapsed| - |front|, |collapsed|);
    NoDoubleSpaceSlice(front, 0, |TrimEnd(front)|);
    Trim(collapsed)
  }

  /** A string without double whitespace is left as it is by the collapse. */
  lemma {:induction false} CollapseKeepsSingleSpaces(s: string)
    requires NoDoubleSpace(s)
    ensures CollapseWhitespace(s) == s
    decreases |s|
  {
    if s != [] {
      var n := SpaceRun(s);
      FirstTwoSpaces(s);
      if n >= 2 {
        assert false;
      }
      NoDoubleSpaceSlice(s, 1, |s|);
      CollapseKeepsSingleSpaces(s[1..]);
      assert s == [s[0]] + s[1..];
    }
  }

  lemma FirstTwoSpaces(s: string)
    ensures SpaceRun(s) >= 2 ==> IsSpace(s[0]) && IsSpace(s[1])
  {
  }

  /** Trimming a string whose ends are not whitespace changes nothing. */
  lemma TrimKeepsTrimmed(s: string)
    requires s == [] || (!IsSpace(s[0]) && !IsSpace(s[|s| - 1]))
    ensures Trim(s) == s
  {
    assert TrimStart(s) == s;
    assert TrimEnd(s) == s;
  }

  /** A cleaned value goes through the whitespace steps unchanged. */
  lemma CleanIsIdempotent(strip: string -> string, text: string)
    ensures var r := CleanWikiMarkup(strip, text); Trim(CollapseWhitespace(r)) == r
  {
    var r := CleanWikiMarkup(strip, text);
    CollapseKeepsSingleSpaces(r);
    TrimKeepsTrimmed(r);
  }

  // ---------------------------------------------------------------------------
  // Infobox wikitext

  /** The whitespace from `j` on reaches the end of the text or a line break: `\s*$` under the `m` flag. */
  predicate ClosesLine(s: string, j: nat)
    decreases |s| - j
  {
    j >= |s| || IsLineTerminator(s[j]) || (IsSpace(s[j]) && ClosesLine(s, j + 1))
  }

  /** `\n}}` at `e`, followed by whitespace up to a line end. */
  predicate BlockEndAt(s: string, e: nat) {
    OccursAt(s, "\n}}", e) && ClosesLine(s, e + 3)
  }

  /** The first block end at or after `from` (the lazy `[\s\S]*?`), or `|s|` when there is none. */
  function BlockEndFrom(s: string, from: nat): (e: nat)
    ensures e <= |s| && (from <= |s| ==> from <= e)
    ensures e < |s| ==> BlockEndAt(s, e)
    ensures forall j :: from <= j < e ==> !BlockEndAt(s, j)
    decreases |s| - from
  {
    if from >= |s| then |s|
    else if BlockEndAt(s, from) then from
    else BlockEndFrom(s, from + 1)
  }

  /**
   * The body of the first infobox that closes, searching from `p`: the text
   * between the end of the line holding `{{Infobox` and the first `\n}}`
   * that ends its line (`/\{\{Infobox[^\n]*\n([\s\S]*?)\n\}\}\s*$/m`).
   */
  function InfoboxBlockFrom(s: string, p: nat): (r: Option<string>)
    ensures r.Some? ==> exists i :: p <= i && OccursAt(s, "{{Infobox", i)
    decreases |s| - p
  {
    if p >= |s| then None
    else if OccursAt(s, "{{Infobox", p) then
      var q := p + 9 + FirstIndexIn(s[p + 9..], {'\n'});
      if q < |s| && BlockEndFrom(s, q + 1) < |s| then Some(s[q + 1..BlockEndFrom(s, q + 1)])
      else InfoboxBlockFrom(s, p + 1)
    else InfoboxBlockFrom(s, p + 1)
  }

  /** The characters `[A-Za-z_\s]` a field name is made of. */
  predicate IsKeyChar(c: char) {
    ('A' <= c <= 'Z') || ('a' <= c <= 'z') || c == '_' || IsSpace(c)
  }

  /** Length of the run of field-name characters at the start of `s`. */
  function KeyRun(s: string): (n: nat)
    ensures n <= |s|
    ensures forall k :: 0 <= k < n ==> IsKeyChar(s[k])
    ensures n < |s| ==> !IsKeyChar(s[n])
  {
    if s != [] && IsKeyChar(s[0]) then 1 + KeyRun(s[1..]) else 0
  }

  const LineTerminators: set<char> := {'\n', '\r', '\U{2028}', '\U{2029}'}

  /** A `| key = value` line: the trimmed key and the value up to the end of the line. */
  datatype Field = Field(key: string, value: string)

  /**
   * `line.match(/^\s*\|\s*([A-Za-z_\s]+?)\s*=\s*(.*)/)`: after optional
   * whitespace a `|`, then one or more name characters, then `=`; the key is
   * the name trimmed and the value what follows the `=` and its whitespace.
   */
  function FieldOf(line: string): Option<Field> {
    var body := TrimStart(line);
    if body == [] || body[0] != '|' then None
    else
      var after := body[1..];
      var n := KeyRun(after);
      if n == 0 || n == |after| || after[n] != '=' then None
      else
        var v := TrimStart(after[n + 1..]);
        Some(Field(Trim(after[..n]), v[..FirstIndexIn(v, LineTerminators)]))
  }

  /** The parser's variables: the dictionary so far and the field being read. */
  datatype ParseState = ParseState(infobox: map<string, string>, currentKey: string, currentValue: string)

  /**
   * The dictionary once the field being read, if any, is stored; `clean` is
   * what a stored value goes through (`cleanWikiMarkup`, see `Cleaner`).
   */
  function Flush(clean: string -> string, st: ParseState): map<string, string> {
    if st.currentKey != "" then st.infobox[st.currentKey := clean(st.currentValue)]
    else st.infobox
  }

  /** One line: a field line stores the pending field and opens its own; any other line extends the open field. */
  function Step(clean: string -> string, read: string -> Option<Field>, st: ParseState, line: string): ParseState {
    match read(line)
    case Some(f) => ParseState(Flush(clean, st), f.key, f.value)
    case None =>
      if st.currentKey != "" then st.(currentValue := st.currentValue + " " + Trim(line)) else st
  }

  /** The parser's variables after the given lines. */
  function Scan(clean: string -> string, read: string -> Option<Field>, lines: seq<string>): ParseState
    decreases |lines|
  {
    if lines == [] then ParseState(map[], "", "")
    else Step(clean, read, Scan(clean, read, lines[..|lines| - 1]), lines[|lines| - 1])
  }

  /** `cleanWikiMarkup` with the given markup stripping, as the value cleaner of the parser. */
  function Cleaner(strip: string -> string): string -> string {
    text => CleanWikiMarkup(strip, text)
  }

  /** The dictionary `parseInfoboxFromWikitext` returns. */
  function InfoboxOf(strip: string -> string, wikitext: string): map<string, string> {
    match InfoboxBlockFrom(wikitext, 0)
    case None => map[]
    case Some(content) => Flush(Cleaner(strip), Scan(Cleaner(strip), FieldOf, Split(content, {'\n'})))
  }

  /** The line-by-line parse of the infobox block. */
  method ParseInfoboxFromWikitext(strip: string -> string, wikitext: string) returns (infobox: map<string, string>)
    ensures infobox == InfoboxOf(strip, wikitext)
  {
    infobox := map[];
    var block := InfoboxBlockFrom(wikitext, 0);
    if block.None? {
      return;
    }
    var lines := Split(block.value, {'\n'});
    var currentKey := "";
    var currentValue := "";
    for i := 0 to |lines|
      invariant ParseState(infobox, currentKey, currentValue) == Scan(Cleaner(strip), FieldOf, lines[..i])
    {
      ScanLast(Cleaner(strip), FieldOf, lines, i);
      var line := lines[i];
      var fieldMatch := FieldOf(line);
      if fieldMatch.Some? {
        if currentKey != "" {
          CleanerApplies(strip, currentValue);
          infobox := infobox[currentKey := CleanWikiMarkup(strip, currentValue)];
        }
        currentKey := fieldMatch.value.key;
        currentValue := fieldMatch.value.value;
      } else if currentKey != "" {
        currentValue := currentValue + " " + Trim(line);
      }
    }
    assert lines[..|lines|] == lines;
    if currentKey != "" {
      CleanerApplies(strip, currentValue);
      infobox := infobox[currentKey := CleanWikiMarkup(strip, currentValue)];
    }
  }

  /** The parse of one more line is one more step. */
  lemma ScanLast(clean: string -> string, read: string -> Option<Field>, lines: seq<string>, i: nat)
    requires i < |lines|
    ensures Scan(clean, read, lines[..i + 1]) == Step(clean, read, Scan(clean, read, lines[..i]), lines[i])
  {
    assert lines[..i + 1][..i] == lines[..i];
  }

  lemma CleanerApplies(strip: string -> string, text: string)
    ensures Cleaner(strip)(text) == CleanWikiMarkup(strip, text)
  {
  }

  /** Without an `{{Infobox` the dictionary is empty. */
  lemma NoInfoboxNoFields(strip: string -> string, wikitext: string)
    requires !Contains(wikitext, "{{Infobox")
    ensures InfoboxOf(strip, wikitext) == map[]
  {
    if InfoboxBlockFrom(wikitext, 0).Some? {
      assert false;
    }
  }

  // The dictionary described field by field.

  /** The lines that continue a field: those up to the next field line, each trimmed and added after a space. */
  function Continuation(read: string -> Option<Field>, lines: seq<string>): string
    decreases |lines|
  {
    if lines == [] || read(lines[0]).Some? then ""
    else Piece(lines[0]) + Continuation(read, lines[1..])
  }

  /** A continuation line as it is added to the field: trimmed, after a space. */
  function Piece(line: string): string {
    " " + Trim(line)
  }

  /** Adding a continuation line is adding its piece. */
  lemma AppendPiece(a: string, line: string)
    ensures a + " " + Trim(line) == a + Piece(line)
  {
    assert (a + " " + Trim(line))[..|a|] == a;
  }

  /** Line `j` is a field line with key `k`. */
  predicate OpensField(read: string -> Option<Field>, lines: seq<string>, j: int, k: string) {
    0 <= j < |lines| && read(lines[j]).Some? && read(lines[j]).value.key == k
  }

  /** Line `j` is the last field line with key `k`. */
  predicate LastOpens(read: string -> Option<Field>, lines: seq<string>, j: int, k: string) {
    OpensField(read, lines, j, k) && forall i :: j < i < |lines| ==> !OpensField(read, lines, i, k)
  }

  /** The raw text of the field opened at line `j`: its value and its continuation lines. */
  function FieldText(read: string -> Option<Field>, lines: seq<string>, j: nat): string
    requires j < |lines| && read(lines[j]).Some?
  {
    read(lines[j]).value.value + Continuation(read, lines[j + 1..])
  }

  /** The index of the last field line, or -1 when there is none. */
  function LastField(read: string -> Option<Field>, lines: seq<string>): (m: int)
    ensures -1 <= m < |lines|
    ensures m >= 0 ==> read(lines[m]).Some?
    ensures forall i :: m < i < |lines| ==> read(lines[i]).None?
    decreases |lines|
  {
    if lines == [] then -1
    else if read(lines[|lines| - 1]).Some? then |lines| - 1
    else LastField(read, lines[..|lines| - 1])
  }

  /** A line added after a field line, or after any line that is one, leaves the continuation as it was. */
  lemma {:induction false} ContinuationStops(read: string -> Option<Field>, xs: seq<string>, line: string)
    requires read(line).Some? || exists i :: 0 <= i < |xs| && read(xs[i]).Some?
    ensures Continuation(read, xs + [line]) == Continuation(read, xs)
    decreases |xs|
  {
    if xs == [] {
      assert xs + [line] == [line];
    } else {
      assert (xs + [line])[0] == xs[0];
      assert (xs + [line])[1..] == xs[1..] + [line];
      if read(xs[0]).None? {
        assert read(line).Some? || exists i :: 0 <= i < |xs[1..]| && read(xs[1..][i]).Some? by {
          if read(line).None? {
            var i :| 0 <= i < |xs| && read(xs[i]).Some?;
            assert i != 0 && xs[1..][i - 1] == xs[i];
          }
        }
        ContinuationStops(read, xs[1..], line);
      }
    }
  }

  /** A line that is not a field line, added after lines none of which is one, extends the continuation. */
  lemma {:induction false} ContinuationGrows(read: string -> Option<Field>, xs: seq<string>, line: string)
    requires read(line).None?
    requires forall i :: 0 <= i < |xs| ==> read(xs[i]).None?
    ensures Continuation(read, xs + [line]) == Continuation(read, xs) + Piece(line)
    decreases |xs|
  {
    if xs == [] {
      assert xs + [line] == [line];
      assert [line][1..] == [];
    } else {
      var ys := xs + [line];
      assert ys[0] == xs[0] && ys[1..] == xs[1..] + [line];
      assert read(ys[0]).None?;
      forall i | 0 <= i < |xs[1..]|
        ensures read(xs[1..][i]).None?
      {
        assert xs[1..][i] == xs[i + 1];
      }
      ContinuationGrows(read, xs[1..], line);
      ConcatAssoc(Piece(xs[0]), Continuation(read, xs[1..]), Piece(line));
    }
  }

  lemma ConcatAssoc(a: string, b: string, c: string)
    ensures a + (b + c) == a + b + c
  {
  }

  /** The field being read is the one opened by the last field line. */
  ghost predicate Pending(read: string -> Option<Field>, lines: seq<string>, st: ParseState) {
    var m := LastField(read, lines);
    (m < 0 ==> st.currentKey == "")
    && (m >= 0 ==> st.currentKey == read(lines[m]).value.key)
    && (m >= 0 && st.currentKey != "" ==> st.currentValue == FieldText(read, lines, m))
  }

  /** The stored keys are the non-empty keys of the field lines. */
  ghost predicate KeysMatch(clean: string -> string, read: string -> Option<Field>, lines: seq<string>, st: ParseState) {
    forall k :: k in Flush(clean, st) <==> k != "" && exists j :: OpensField(read, lines, j, k)
  }

  /** A stored key holds the cleaned text of its last field line. */
  ghost predicate ValuesMatch(clean: string -> string, read: string -> Option<Field>, lines: seq<string>, st: ParseState) {
    forall j, k :: k != "" && LastOpens(read, lines, j, k) ==>
      k in Flush(clean, st) && Flush(clean, st)[k] == clean(FieldText(read, lines, j))
  }

  ghost predicate ScanInvariant(clean: string -> string, read: string -> Option<Field>, lines: seq<string>, st: ParseState) {
    Pending(read, lines, st) && KeysMatch(clean, read, lines, st) && ValuesMatch(clean, read, lines, st)
  }

  /**
   * The dictionary holds exactly the non-empty keys of the field lines, and
   * a key's value is the cleaned text of its last field line (a repeated key
   * keeps its last value), that is the line's value followed by the trimmed
   * lines under it up to the next field line. Lines before the first field
   * line belong to no field.
   */
  lemma {:induction false} InfoboxFields(clean: string -> string, read: string -> Option<Field>, lines: seq<string>)
    ensures ScanInvariant(clean, read, lines, Scan(clean, read, lines))
    decreases |lines|
  {
    if lines != [] {
      var init := lines[..|lines| - 1];
      var line := lines[|lines| - 1];
      assert lines == init + [line];
      InfoboxFields(clean, read, init);
      var st := Scan(clean, read, init);
      if read(line).Some? {
        FieldPending(clean, read, init, line, st);
        FieldKeys(clean, read, init, line, st);
        FieldValues(clean, read, init, line, st);
      } else {
        OtherPending(clean, read, init, line, st);
        OtherKeys(clean, read, init, line, st);
        OtherValues(clean, read, init, line, st);
      }
    }
  }

  /** Adding a line does not change which earlier lines are field lines. */
  lemma OpensInPrefix(read: string -> Option<Field>, init: seq<string>, line: string, j: int, k: string)
    requires 0 <= j < |init|
    ensures OpensField(read, init + [line], j, k) <==> OpensField(read, init, j, k)
  {
    assert (init + [line])[j] == init[j];
  }

  /** After a field line, the last field line is that one. */
  lemma LastFieldOfField(read: string -> Option<Field>, init: seq<string>, line: string)
    requires read(line).Some?
    ensures LastField(read, init + [line]) == |init|
  {
    assert (init + [line])[|init|] == line;
  }

  /** After any other line, the last field line is as it was. */
  lemma LastFieldOfOther(read: string -> Option<Field>, init: seq<string>, line: string)
    requires read(line).None?
    ensures LastField(read, init + [line]) == LastField(read, init)
  {
    var lines := init + [line];
    assert lines[|init|] == line && lines[..|init|] == init;
  }

  /** A field's text does not change when a line is added after a later field line. */
  lemma FieldTextStops(read: string -> Option<Field>, init: seq<string>, line: string, j: nat, m: nat)
    requires j < m < |init| && read(init[j]).Some? && read(init[m]).Some?
    ensures FieldText(read, init + [line], j) == FieldText(read, init, j)
  {
    var lines := init + [line];
    assert lines[j] == init[j];
    assert lines[j + 1..] == init[j + 1..] + [line];
    assert init[j + 1..][m - j - 1] == init[m];
    ContinuationStops(read, init[j + 1..], line);
  }

  lemma FieldPending(clean: string -> string, read: string -> Option<Field>, init: seq<string>, line: string, st: ParseState)
    requires read(line).Some?
    ensures Pending(read, init + [line], Step(clean, read, st, line))
  {
    var lines := init + [line];
    LastFieldOfField(read, init, line);
    assert lines[|init|] == line && lines[|init| + 1..] == [];
  }

  lemma FieldKeys(clean: string -> string, read: string -> Option<Field>, init: seq<string>, line: string, st: ParseState)
    requires read(line).Some?
    requires KeysMatch(clean, read, init, st)
    ensures KeysMatch(clean, read, init + [line], Step(clean, read, st, line))
  {
    var lines := init + [line];
    var st' := Step(clean, read, st, line);
    var f := read(line).value;
    forall k
      ensures k in Flush(clean, st') <==> k != "" && exists j :: OpensField(read, lines, j, k)
    {
      assert lines[|init|] == line;
      if k != "" && k != f.key && exists j :: OpensField(read, lines, j, k) {
        var j :| OpensField(read, lines, j, k);
        OpensInPrefix(read, init, line, j, k);
      }
      if k in Flush(clean, st) {
        var j :| OpensField(read, init, j, k);
        OpensInPrefix(read, init, line, j, k);
      }
      if k == f.key {
        assert lines[|init|] == line;
        assert OpensField(read, lines, |init|, k);
      }
    }
  }

  lemma FieldValues(clean: string -> string, read: string -> Option<Field>, init: seq<string>, line: string, st: ParseState)
    requires read(line).Some?
    requires ValuesMatch(clean, read, init, st)
    ensures ValuesMatch(clean, read, init + [line], Step(clean, read, st, line))
  {
    var lines := init + [line];
    var st' := Step(clean, read, st, line);
    var f := read(line).value;
    var n := |init|;
    forall j, k | k != "" && LastOpens(read, lines, j, k)
      ensures k in Flush(clean, st') && Flush(clean, st')[k] == clean(FieldText(read, lines, j))
    {
      assert lines[n] == line;
      if j < n {
        assert k != f.key by {
          assert OpensField(read, lines, n, f.key);
        }
        forall i | j < i < n
          ensures !OpensField(read, init, i, k)
        {
          OpensInPrefix(read, init, line, i, k);
        }
        OpensInPrefix(read, init, line, j, k);
        assert LastOpens(read, init, j, k);
        assert lines[j + 1..] == init[j + 1..] + [line];
        ContinuationStops(read, init[j + 1..], line);
        assert lines[j] == init[j];
      } else {
        assert lines[n + 1..] == [];
        assert k == f.key;
        assert FieldText(read, lines, n) == f.value + "";
        assert f.value + "" == f.value;
      }
    }
  }

  /** A field's text grows by the piece of a line added after it and the lines under it, none a field line. */
  lemma FieldTextGrows(read: string -> Option<Field>, init: seq<string>, line: string, m: nat)
    requires read(line).None?
    requires m < |init| && read(init[m]).Some?
    requires forall i :: m < i < |init| ==> read(init[i]).None?
    ensures FieldText(read, init + [line], m) == FieldText(read, init, m) + Piece(line)
  {
    var lines := init + [line];
    assert lines[m] == init[m];
    var ys := init[m + 1..];
    assert lines[m + 1..] == ys + [line];
    forall i | 0 <= i < |ys|
      ensures read(ys[i]).None?
    {
      assert ys[i] == init[m + 1 + i];
    }
    ContinuationGrows(read, ys, line);
    ConcatAssoc(read(init[m]).value.value, Continuation(read, ys), Piece(line));
  }

  lemma OtherPending(clean: string -> string, read: string -> Option<Field>, init: seq<string>, line: string, st: ParseState)
    requires read(line).None?
    requires Pending(read, init, st)
    ensures Pending(read, init + [line], Step(clean, read, st, line))
  {
    var lines := init + [line];
    var m := LastField(read, init);
    LastFieldOfOther(read, init, line);
    if m >= 0 {
      assert lines[m] == init[m];
      if st.currentKey != "" {
        FieldTextGrows(read, init, line, m);
        AppendPiece(st.currentValue, line);
      }
    }
  }

  lemma OtherKeys(clean: string -> string, read: string -> Option<Field>, init: seq<string>, line: string, st: ParseState)
    requires read(line).None?
    requires KeysMatch(clean, read, init, st)
    ensures KeysMatch(clean, read, init + [line], Step(clean, read, st, line))
  {
    var lines := init + [line];
    var st' := Step(clean, read, st, line);
    assert Flush(clean, st').Keys == Flush(clean, st).Keys;
    forall k
      ensures k in Flush(clean, st') <==> k != "" && exists j :: OpensField(read, lines, j, k)
    {
      assert lines[|init|] == line;
      if exists j :: OpensField(read, lines, j, k) {
        var j :| OpensField(read, lines, j, k);
        OpensInPrefix(read, init, line, j, k);
      }
      if exists j :: OpensField(read, init, j, k) {
        var j :| OpensField(read, init, j, k);
        OpensInPrefix(read, init, line, j, k);
      }
    }
  }

  lemma OtherValues(clean: string -> string, read: string -> Option<Field>, init: seq<string>, line: string, st: ParseState)
    requires read(line).None?
    requires Pending(read, init, st) && ValuesMatch(clean, read, init, st)
    ensures ValuesMatch(clean, read, init + [line], Step(clean, read, st, line))
  {
    var lines := init + [line];
    var st' := Step(clean, read, st, line);
    var n := |init|;
    var m := LastField(read, init);
    LastFieldOfOther(read, init, line);
    forall j, k | k != "" && LastOpens(read, lines, j, k)
      ensures k in Flush(clean, st') && Flush(clean, st')[k] == clean(FieldText(read, lines, j))
    {
      assert lines[n] == line;
      assert j < n;
      forall i | j < i < n
        ensures !OpensField(read, init, i, k)
      {
        OpensInPrefix(read, init, line, i, k);
      }
      OpensInPrefix(read, init, line, j, k);
      assert LastOpens(read, init, j, k);
      if j < m {
        assert k != st.currentKey by {
          OpensInPrefix(read, init, line, m, st.currentKey);
        }
        FieldTextStops(read, init, line, j, m);
      } else {
        assert k == st.currentKey;
        FieldTextGrows(read, init, line, m);
        AppendPiece(st.currentValue, line);
      }
    }
  }

  /** The parsed dictionary, field by field. */
  lemma InfoboxOfFields(strip: string -> string, wikitext: string, content: string, lines: seq<string>)
    requires InfoboxBlockFrom(wikitext, 0) == Some(content) && lines == Split(content, {'\n'})
    ensures forall k :: k in InfoboxOf(strip, wikitext) <==> k != "" && exists j :: OpensField(FieldOf, lines, j, k)
    ensures forall j, k :: k != "" && LastOpens(FieldOf, lines, j, k) ==>
      k in InfoboxOf(strip, wikitext) && InfoboxOf(strip, wikitext)[k] == CleanWikiMarkup(strip, FieldText(FieldOf, lines, j))
  {
    var st := Scan(Cleaner(strip), FieldOf, lines);
    InfoboxFields(Cleaner(strip), FieldOf, lines);
    assert InfoboxOf(strip, wikitext) == Flush(Cleaner(strip), st);
    assert KeysMatch(Cleaner(strip), FieldOf, lines, st);
    assert ValuesMatch(Cleaner(strip), FieldOf, lines, st);
  }

  // ---------------------------------------------------------------------------
  // Merging the fetched sources

  /** The outcome of one of the fetches run side by side: its data, or a failure the scraper swallows. */
  datatype Fetch<T> = Fetched(data: T) | Failed

  /** A fetched object, or `{}` when the fetch failed. */
  function RecordOr(f: Fetch<Record>): Record {
    if f.Fetched? then f.data else map[]
  }

  /** The key `k` of a spread `{ ...low, ...high }`: `high`'s when it has one, else `low`'s. */
  function Over(high: Record, low: Record, k: string): Value {
    if k in high then high[k] else Get(low, k)
  }

  /** The record built by the GitHub merge: REST user keys, then DOM keys over them, then the repositories and the source flags. */
  function MergeGitHub(dom: Record, api: Record, repos: seq<Value>): (r: Record)
    ensures Get(r, "repositories") == Arr(repos)
    ensures Get(r, "_sources") == Obj(map["actionbook" := Bool(|dom| > 0), "githubApi" := Bool(|api| > 0), "repos" := Num(|repos|)])
    ensures forall k :: k != "repositories" && k != "_sources" ==>
      (k in r <==> k in dom || k in api) && Get(r, k) == Over(dom, api, k)
  {
    var sources := map["actionbook" := Bool(|dom| > 0), "githubApi" := Bool(|api| > 0), "repos" := Num(|repos|)];
    (api + dom)["repositories" := Arr(repos)]["_sources" := Obj(sources)]
  }

  /** The merged `login` and `name` are the DOM's over the REST user's. */
  lemma {:induction false} MergedIdentity(dom: Record, api: Record, repos: seq<Value>)
    ensures Get(MergeGitHub(dom, api, repos), "login") == Over(dom, api, "login")
    ensures Get(MergeGitHub(dom, api, repos), "name") == Over(dom, api, "name")
  {
    assert "login" != "repositories" && "login" != "_sources";
    assert "name" != "repositories" && "name" != "_sources";
  }

  /**
   * `scrapeGitHubProfile` with its three fetches (DOM extraction, REST user,
   * REST repositories) given as outcomes. No username in the URL is an
   * error; otherwise the fetch fails exactly when the merged record has
   * neither a truthy `login` nor a truthy `name`, a failed sub-fetch only
   * taking its source out of the merge.
   */
  function ScrapeGitHubProfile(url: string, dom: Fetch<Record>, api: Fetch<Record>, repos: Fetch<seq<Value>>, now: int): (r: Result<ScrapedData>)
    ensures ExtractGitHubUsername(url) == "" ==> r.Err?
    ensures ExtractGitHubUsername(url) != "" ==>
      (r.Ok? <==> Truthy(Over(RecordOr(dom), RecordOr(api), "login")) || Truthy(Over(RecordOr(dom), RecordOr(api), "name")))
    ensures r.Ok? ==> r.value.url == url && r.value.scrapedAt == now && r.value.json.Raw?
    ensures r.Ok? ==> Get(r.value.json.fields, "repositories") == Arr(if repos.Fetched? then repos.data else [])
  {
    var username := ExtractGitHubUsername(url);
    if username == "" then Err("Could not extract GitHub username from URL: " + url)
    else
      var merged := MergeGitHub(RecordOr(dom), RecordOr(api), if repos.Fetched? then repos.data else []);
      MergedIdentity(RecordOr(dom), RecordOr(api), if repos.Fetched? then repos.data else []);
      if !Truthy(Get(merged, "login")) && !Truthy(Get(merged, "name")) then Err("No GitHub profile data retrieved from any source")
      else Ok(ScrapedData(Raw(merged), url, now))
  }

  /** With both profile sources failed, no GitHub profile is produced, whatever the repositories. */
  lemma GitHubNeedsAProfileSource(url: string, repos: Fetch<seq<Value>>, now: int)
    ensures ScrapeGitHubProfile(url, Failed, Failed, repos, now).Err?
  {
    var merged := MergeGitHub(map[], map[], if repos.Fetched? then repos.data else []);
    assert Get(merged, "login") == Null && Get(merged, "name") == Null;
  }

  /** `x.k` for any value: the member of an object, `undefined` for anything else. */
  function Member(v: Value, k: string): Value {
    if v.Obj? then Get(v.fields, k) else Null
  }

  /** The record `fetchWikipediaApi` builds from the REST summary: the same seven keys whatever the summary holds. */
  function SummaryFields(data: Value): (r: Record)
    ensures r.Keys == {"title", "name", "description", "intro", "image", "thumbnail", "url"}
    ensures r["title"] == r["name"] == Member(data, "title")
    ensures r["intro"] == Member(data, "extract")
    ensures r["thumbnail"] == Member(Member(data, "thumbnail"), "source")
    ensures Truthy(Member(Member(data, "originalimage"), "source")) ==> r["image"] == Member(Member(data, "originalimage"), "source")
    ensures !Truthy(Member(Member(data, "originalimage"), "source")) ==> r["image"] == r["thumbnail"]
  {
    map[
      "title" := Member(data, "title"),
      "name" := Member(data, "title"),
      "description" := Member(data, "description"),
      "intro" := Member(data, "extract"),
      "image" := Or(Member(Member(data, "originalimage"), "source"), Member(Member(data, "thumbnail"), "source")),
      "thumbnail" := Member(Member(data, "thumbnail"), "source"),
      "url" := Member(Member(Member(data, "content_urls"), "desktop"), "page")
    ]
  }

  /** The REST summary as the merge sees it: `{}` when the request failed or returned nothing to read members from. */
  function SummaryOf(f: Fetch<Value>): Record {
    if f.Fetched? && !f.data.Null? then SummaryFields(f.data) else map[]
  }

  /**
   * The wikitext `fetchWikipediaInfobox` parses: the response's
   * `parse.wikitext['*']`, or `""` when that is falsy; `None` when it is a
   * truthy non-string, on which the parse throws.
   */
  function WikitextOf(data: Value): Option<string> {
    var v := Member(Member(Member(data, "parse"), "wikitext"), "*");
    if !Truthy(v) then Some("") else if v.Str? then Some(v.s) else None
  }

  /** The dictionary of infobox fields as JSON strings. */
  function StrFields(m: map<string, string>): (r: Record)
    ensures r.Keys == m.Keys
    ensures forall k :: k in m ==> r[k] == Str(m[k])
  {
    map k | k in m :: Str(m[k])
  }

  /** The infobox fetch as the merge sees it: `{}` when the request or the parse failed. */
  function InfoboxFetch(strip: string -> string, f: Fetch<Value>): Record {
    if f.Fetched? && !f.data.Null? then
      match WikitextOf(f.data)
      case Some(wikitext) => StrFields(InfoboxOf(strip, wikitext))
      case None => map[]
    else map[]
  }

  /**
   * The record built by the Wikipedia merge: DOM keys, then the summary's
   * over them; `infobox` the DOM's infobox with the parsed fields over it;
   * then the source flags.
   */
  function MergeWikipedia(dom: Record, summary: Record, box: Record): (r: Record)
    ensures Get(r, "infobox") == Obj(FieldsOf(Get(dom, "infobox")) + box)
    ensures Get(r, "_sources") == Obj(map["actionbook" := Bool(|dom| > 0), "wikiApi" := Bool(|summary| > 0), "infobox" := Bool(|box| > 0)])
    ensures forall k :: k != "infobox" && k != "_sources" ==>
      (k in r <==> k in dom || k in summary) && Get(r, k) == Over(summary, dom, k)
  {
    var sources := map["actionbook" := Bool(|dom| > 0), "wikiApi" := Bool(|summary| > 0), "infobox" := Bool(|box| > 0)];
    (dom + summary)["infobox" := Obj(FieldsOf(Get(dom, "infobox")) + box)]["_sources" := Obj(sources)]
  }

  /** The parsed infobox overrides the DOM's infobox key by key and keeps the DOM's other keys. */
  lemma InfoboxPrecedence(dom: Record, summary: Record, box: Record, k: string)
    ensures var merged := FieldsOf(Get(MergeWikipedia(dom, summary, box), "infobox"));
      (k in merged <==> k in box || k in FieldsOf(Get(dom, "infobox")))
      && Get(merged, k) == Over(box, FieldsOf(Get(dom, "infobox")), k)
  {
  }

  /** Whether the merged Wikipedia record identifies an article. */
  predicate IdentifiesArticle(merged: Record) {
    Truthy(Get(merged, "title")) || Truthy(Get(merged, "name")) || Truthy(Get(merged, "intro")) || Truthy(Get(merged, "first_paragraph"))
  }

  /**
   * `scrapeWikipediaProfile` with its three fetches (REST summary, wikitext,
   * DOM extraction) given as outcomes: a title that does not percent-decode
   * is its error, no title an error of its own, and otherwise the fetch
   * fails exactly when the merged record has no truthy title, name, intro
   * nor first paragraph.
   */
  function ScrapeWikipediaProfile(url: string, summary: Fetch<Value>, wikitext: Fetch<Value>, dom: Fetch<Record>,
                                  strip: string -> string, now: int): (r: Result<ScrapedData>)
    ensures ExtractWikipediaTitle(url).Err? ==> r == Err(ExtractWikipediaTitle(url).error)
    ensures ExtractWikipediaTitle(url) == Ok("") ==> r.Err?
    ensures ExtractWikipediaTitle(url).Ok? && ExtractWikipediaTitle(url).value != "" ==>
      (r.Ok? <==> IdentifiesArticle(MergeWikipedia(RecordOr(dom), SummaryOf(summary), InfoboxFetch(strip, wikitext))))
    ensures r.Ok? ==> r.value == ScrapedData(Raw(MergeWikipedia(RecordOr(dom), SummaryOf(summary), InfoboxFetch(strip, wikitext))), url, now)
  {
    match ExtractWikipediaTitle(url)
    case Err(e) => Err(e)
    case Ok(title) =>
      if title == "" then Err("Could not extract Wikipedia article title from URL: " + url)
      else
        var merged := MergeWikipedia(RecordOr(dom), SummaryOf(summary), InfoboxFetch(strip, wikitext));
        if !IdentifiesArticle(merged) then Err("No Wikipedia data retrieved from any source")
        else Ok(ScrapedData(Raw(merged), url, now))
  }

  /**
   * Once the summary request returns an object, its seven keys replace the
   * DOM's even where the summary lacks them: the DOM's title, image or
   * description never show through.
   */
  lemma SummaryShadowsDom(dom: Record, data: Value, box: Record, k: string)
    requires data.Obj?
    requires k in {"title", "name", "description", "intro", "image", "thumbnail", "url"}
    ensures Get(MergeWikipedia(dom, SummaryOf(Fetched(data)), box), k) == SummaryFields(data)[k]
  {
    assert k != "infobox" && k != "_sources";
  }

  /** With every source failed, no Wikipedia profile is produced. */
  lemma WikipediaNeedsASource(url: string, strip: string -> string, now: int)
    ensures ScrapeWikipediaProfile(url, Failed, Failed, Failed, strip, now).Err?
  {
    var merged := MergeWikipedia(map[], map[], map[]);
    assert !IdentifiesArticle(merged) by {
      assert Get(merged, "title") == Null && Get(merged, "name") == Null;
      assert Get(merged, "intro") == Null && Get(merged, "first_paragraph") == Null;
    }
  }

  /** An article whose summary carries a title is always produced, whatever the other sources did. */
  lemma SummaryTitleSuffices(url: string, data: Value, wikitext: Fetch<Value>, dom: Fetch<Record>, strip: string -> string, now: int)
    requires ExtractWikipediaTitle(url).Ok? && ExtractWikipediaTitle(url).value != ""
    requires data.Obj? && Truthy(Get(data.fields, "title"))
    ensures ScrapeWikipediaProfile(url, Fetched(data), wikitext, dom, strip, now).Ok?
  {
    SummaryShadowsDom(RecordOr(dom), data, InfoboxFetch(strip, wikitext), "title");
  }
}
