/**
 * The line structure of a SIP message as section 7 of RFC 3261 lays it
 * out: a start line and header lines, each terminated by CRLF, and an
 * empty line that ends the header section. `Join` writes lines out,
 * `SplitLines` reads them back; `FindHeader` looks a header field up by
 * name among `Name: value` lines.
 */
module SipText {
  import opened Wrappers

  const CRLF: string := "\r\n"

  predicate IsBreak(c: char) { c == '\r' || c == '\n' }

  /** No CR and no LF anywhere in `s`: `s` can be a line of a message. */
  predicate NoBreaks(s: string) { '\r' !in s && '\n' !in s }

  /** Every CR is followed by LF and every LF is preceded by CR: no bare CR and no bare LF. */
  predicate CrlfOnly(s: string)
  {
    (forall i :: 0 <= i < |s| && s[i] == '\r' ==> i + 1 < |s| && s[i + 1] == '\n') &&
    (forall i :: 0 <= i < |s| && s[i] == '\n' ==> 0 < i && s[i - 1] == '\r')
  }

  predicate StartsWith(s: string, p: string) { |p| <= |s| && s[..|p|] == p }

  predicate EndsWith(s: string, p: string) { |p| <= |s| && s[|s| - |p|..] == p }

  /** Each line followed by CRLF. */
  function Join(lines: seq<string>): string
  {
    if lines == [] then "" else lines[0] + CRLF + Join(lines[1..])
  }

  /** The index of the first CR or LF in `s`, or `|s|` if there is none. */
  function LineEnd(s: string): (k: nat)
    ensures k <= |s| && NoBreaks(s[..k]) && (k < |s| ==> IsBreak(s[k]))
  {
    if s == [] then 0
    else if IsBreak(s[0]) then 0
    else
      var k := 1 + LineEnd(s[1..]);
      assert s[..k] == [s[0]] + s[1..][..k - 1];
      k
  }

  /**
   * Cuts `s` into CRLF-terminated lines; `None` when `s` does not end in
   * CRLF or holds a CR or LF that is not part of a CRLF pair.
   */
  function SplitLines(s: string): Option<seq<string>>
    decreases |s|
  {
    if s == [] then Some([])
    else
      var k := LineEnd(s);
      if k + 1 < |s| && s[k] == '\r' && s[k + 1] == '\n' then
        match SplitLines(s[k + 2..])
        case None => None
        case Some(rest) => Some([s[..k]] + rest)
      else None
  }

  lemma {:induction false} LineEndOfLine(a: string, b: string)
    requires NoBreaks(a)
    ensures LineEnd(a + CRLF + b) == |a|
  {
    if a != [] {
      assert (a + CRLF + b)[1..] == a[1..] + CRLF + b;
      LineEndOfLine(a[1..], b);
    }
  }

  /** Splitting what `Join` wrote gives back the lines, when no line holds a CR or LF. */
  lemma {:induction false} SplitJoin(lines: seq<string>)
    requires forall i :: 0 <= i < |lines| ==> NoBreaks(lines[i])
    ensures SplitLines(Join(lines)) == Some(lines)
  {
    if lines != [] {
      var s := Join(lines);
      var a := lines[0];
      LineEndOfLine(a, Join(lines[1..]));
      assert s[|a| + 2..] == Join(lines[1..]);
      assert s[..|a|] == a;
      SplitJoin(lines[1..]);
      assert lines == [a] + lines[1..];
    }
  }

  /** Joining what `SplitLines` read gives back the text, and the lines hold no CR or LF. */
  lemma {:induction false} JoinSplit(s: string)
    requires SplitLines(s).Some?
    ensures Join(SplitLines(s).value) == s
    ensures forall i :: 0 <= i < |SplitLines(s).value| ==> NoBreaks(SplitLines(s).value[i])
  {
    if s != [] {
      var k := LineEnd(s);
      var tail := s[k + 2..];
      JoinSplit(tail);
      var rest := SplitLines(tail).value;
      var ls := SplitLines(s).value;
      assert ls == [s[..k]] + rest;
      assert ls[1..] == rest;
      assert Join(ls) == s[..k] + CRLF + Join(rest);
      assert s == s[..k] + CRLF + tail;
    }
  }

  /** Text written by `Join` from break-free lines has no bare CR or LF. */
  lemma {:induction false} JoinCrlfOnly(lines: seq<string>)
    requires forall i :: 0 <= i < |lines| ==> NoBreaks(lines[i])
    ensures CrlfOnly(Join(lines))
  {
    if lines != [] {
      var a := lines[0];
      var t := Join(lines[1..]);
      JoinCrlfOnly(lines[1..]);
      var s := Join(lines);
      assert s == a + CRLF + t;
      forall i | 0 <= i < |s| && s[i] == '\r' ensures i + 1 < |s| && s[i + 1] == '\n' {
        if i >= |a| + 2 { assert s[i] == t[i - |a| - 2]; assert s[i + 1] == t[i + 1 - |a| - 2]; }
      }
      forall i | 0 <= i < |s| && s[i] == '\n' ensures 0 < i && s[i - 1] == '\r' {
        if i >= |a| + 2 { assert s[i] == t[i - |a| - 2]; if i > |a| + 2 { assert s[i - 1] == t[i - 1 - |a| - 2]; } }
      }
    }
  }

  /** The text `Join` writes ends with what it writes for any suffix of the lines. */
  lemma {:induction false} JoinEndsWith(lines: seq<string>, k: nat)
    requires k <= |lines|
    ensures EndsWith(Join(lines), Join(lines[k..]))
  {
    if k > 0 {
      JoinEndsWith(lines[1..], k - 1);
      assert lines[1..][k - 1..] == lines[k..];
    }
  }

  /** What `Join` writes starts with the first line and its CRLF. */
  lemma JoinStartsWith(lines: seq<string>)
    requires |lines| >= 1
    ensures StartsWith(Join(lines), lines[0] + CRLF)
  {
    var p := lines[0] + CRLF;
    assert Join(lines) == p + Join(lines[1..]);
    assert (p + Join(lines[1..]))[..|p|] == p;
  }

  /** What `Join` writes ends with the last two lines, each with its CRLF. */
  lemma JoinEndsWithLastTwo(lines: seq<string>)
    requires |lines| >= 2
    ensures EndsWith(Join(lines), lines[|lines| - 2] + CRLF + (lines[|lines| - 1] + CRLF))
  {
    var n := |lines|;
    var tail := lines[n - 2..];
    JoinEndsWith(lines, n - 2);
    assert tail[1..] == [lines[n - 1]] && [lines[n - 1]][1..] == [];
    assert Join([lines[n - 1]]) == lines[n - 1] + CRLF + "";
    assert Join(tail) == lines[n - 2] + CRLF + Join(tail[1..]);
  }

  /** A header field line, `Name: value`. */
  datatype Header = Header(name: string, value: string)

  function HeaderLine(h: Header): string { h.name + ": " + h.value }

  function HeaderLines(hs: seq<Header>): (r: seq<string>)
    ensures |r| == |hs| && forall i :: 0 <= i < |hs| ==> r[i] == HeaderLine(hs[i])
  {
    seq(|hs|, i requires 0 <= i < |hs| => HeaderLine(hs[i]))
  }

  predicate NoColon(s: string) { ':' !in s }

  /** The value of the first line of `lines` that reads `name: value`. */
  function FindHeader(lines: seq<string>, name: string): Option<string>
  {
    if lines == [] then None
    else if StartsWith(lines[0], name + ": ") then Some(lines[0][|name| + 2..])
    else FindHeader(lines[1..], name)
  }

  /** A header line answers a lookup exactly for its own name, when names hold no colon. */
  lemma HeaderLineMatches(h: Header, name: string)
    requires NoColon(h.name) && NoColon(name)
    ensures StartsWith(HeaderLine(h), name + ": ") <==> h.name == name
  {
    var s := HeaderLine(h);
    var p := name + ": ";
    if h.name == name {
      assert s[..|p|] == p;
    } else {
      // an index below |p| at which the line and the looked-up prefix differ
      var d: nat;
      if |h.name| < |name| {
        d := |h.name|;
        assert s[d] == ':' && p[d] == name[d];
      } else if |h.name| > |name| {
        d := |name|;
        assert s[d] == h.name[d] && p[d] == ':';
      } else {
        d :| d < |name| && h.name[d] != name[d];
        assert s[d] == h.name[d] && p[d] == name[d];
      }
      assert d < |p| && d < |s| && s[d] != p[d];
      if |p| <= |s| { assert s[..|p|][d] != p[d]; }
    }
  }

  /** Looking up the name of the `i`-th header finds its value, when no earlier header has that name. */
  lemma {:induction false} FindHeaderAt(hs: seq<Header>, i: nat)
    requires i < |hs|
    requires forall j :: 0 <= j <= i ==> NoColon(hs[j].name)
    requires forall j :: 0 <= j < i ==> hs[j].name != hs[i].name
    ensures FindHeader(HeaderLines(hs), hs[i].name) == Some(hs[i].value)
  {
    var ls := HeaderLines(hs);
    HeaderLineMatches(hs[0], hs[i].name);
    if i == 0 {
      assert HeaderLine(hs[0])[|hs[0].name| + 2..] == hs[0].value;
    } else {
      assert ls[1..] == HeaderLines(hs[1..]);
      FindHeaderAt(hs[1..], i - 1);
    }
  }

  /**
   * The value of header field `name` in message text `msg`: the text is
   * read as CRLF-terminated lines, the first is the start line, the last
   * the empty line that ends the headers, and the lines in between are
   * searched in order. `None` when the text is not of that shape or has no
   * such field.
   */
  function HeaderField(msg: string, name: string): Option<string>
  {
    match SplitLines(msg)
    case None => None
    case Some(ls) =>
      if |ls| < 2 || ls[|ls| - 1] != "" then None
      else FindHeader(ls[1..|ls| - 1], name)
  }
}
