/**
 * The SIP OPTIONS request the probe sends (RFC 3261, section 11): a fixed
 * line-based template filled in with the target, the local transport
 * endpoint and the per-request identifiers.
 */
module OptionsRequest {
  import opened Wrappers
  import opened SipText
  import Decimal
  import ProbeStats

  /** The branch prefix that marks an RFC 3261 branch identifier (section 8.1.1.7). */
  function MagicCookie(): string { "z9hG4bK" }

  /** The fixed sender the probe announces in From and Contact, and its From tag. */
  function SenderUri(): string { "<sip:random_sender@example.com>" }
  function FromTag(): string { "73686572617A" }

  /** The values the template is filled in with. */
  datatype ProbeRequest = ProbeRequest(
    server: string,   // target host
    port: nat,        // target port
    lanIp: string,    // local address written into Via
    lanPort: nat,     // local (ephemeral) port written into Via
    branch: string,   // Via branch suffix
    callId: string,   // Call-ID
    cseq: string)     // CSeq sequence number

  /**
   * The request, as `OPTIONS_TEMPLATE.format(...)` writes it: the lines of
   * `OptionsLines`, each followed by CRLF.
   */
  function BuildOptions(q: ProbeRequest): (r: string)
    ensures StartsWith(r, "OPTIONS " + RequestUri(q) + " SIP/2.0\r\n")
    ensures EndsWith(r, "Content-Length: 0\r\n\r\n")
  {
    var ls := OptionsLines(q);
    JoinStartsWith(ls);
    JoinEndsWithLastTwo(ls);
    assert ls[9] + CRLF + (ls[10] + CRLF) == "Content-Length: 0\r\n\r\n" by {
      assert ls[9] == HeaderLine(ContentLengthHeader());
    }
    Join(ls)
  }

  /** The request-URI, `sip:host:port`. */
  function RequestUri(q: ProbeRequest): string
  {
    "sip:" + q.server + ":" + Decimal.Render(q.port)
  }

  /**
   * The header fields of the template, in its order: Via with the local
   * endpoint and the branch, Max-Forwards, To (the request-URI), From with
   * its tag, Call-ID, CSeq, Contact, Accept and a zero Content-Length.
   */
  function OptionsHeaders(q: ProbeRequest): seq<Header>
  {
    [ViaHeader(q), MaxForwardsHeader(), ToHeader(q), FromHeader(), CallIdHeader(q),
     CSeqHeader(q), ContactHeader(), AcceptHeader(), ContentLengthHeader()]
  }

  function ViaHeader(q: ProbeRequest): Header
  {
    Header("Via", "SIP/2.0/UDP " + q.lanIp + ":" + Decimal.Render(q.lanPort) + ";branch=" + MagicCookie() + "4ce2." + q.branch)
  }

  function ToHeader(q: ProbeRequest): Header { Header("To", "<" + RequestUri(q) + ">") }

  function CallIdHeader(q: ProbeRequest): Header { Header("Call-ID", q.callId) }

  function CSeqHeader(q: ProbeRequest): Header { Header("CSeq", q.cseq + " OPTIONS") }

  function MaxForwardsHeader(): Header { Header("Max-Forwards", "70") }
  function FromHeader(): Header { Header("From", SenderUri() + ";tag=" + FromTag()) }
  function ContactHeader(): Header { Header("Contact", SenderUri()) }
  function AcceptHeader(): Header { Header("Accept", "application/sdp") }
  function ContentLengthHeader(): Header { Header("Content-Length", "0") }

  /** The template's lines without their CRLF: the request line, one line per header field, the empty line. */
  function OptionsLines(q: ProbeRequest): seq<string>
  {
    ["OPTIONS " + RequestUri(q) + " SIP/2.0"] + HeaderLines(OptionsHeaders(q)) + [""]
  }

  /** The text fields hold no CR or LF (the builder does not check this; its callers must). */
  predicate FieldsAreLines(q: ProbeRequest)
  {
    NoBreaks(q.server) && NoBreaks(q.lanIp) && NoBreaks(q.branch) &&
    NoBreaks(q.callId) && NoBreaks(q.cseq)
  }

  /**
   * The values `send_options_request` fills in: branch and CSeq are both
   * the clock reading `now` (seconds) truncated to an integer.
   */
  function NewRequest(server: string, port: nat, lanIp: string, lanPort: nat, now: real, callId: string): (q: ProbeRequest)
    requires now >= 0.0
    ensures q.branch == q.cseq && Decimal.AllDigits(q.cseq) && Decimal.Value(q.cseq) == now.Floor
    ensures q.server == server && q.port == port && q.lanIp == lanIp && q.lanPort == lanPort && q.callId == callId
  {
    var stamp := Decimal.Render(now.Floor);
    Decimal.ValueOfRender(now.Floor);
    ProbeRequest(server, port, lanIp, lanPort, stamp, callId, stamp)
  }

  /** A numeral holds no CR or LF. */
  lemma DigitsHaveNoBreaks(s: string)
    requires Decimal.AllDigits(s)
    ensures NoBreaks(s)
  {
    assert forall i :: 0 <= i < |s| ==> Decimal.IsDigit(s[i]);
  }

  /** Every line of the request is free of CR and LF when the text fields are. */
  lemma OptionsLinesAreLines(q: ProbeRequest)
    requires FieldsAreLines(q)
    ensures forall i :: 0 <= i < |OptionsLines(q)| ==> NoBreaks(OptionsLines(q)[i])
  {
    var ls, hs := OptionsLines(q), OptionsHeaders(q);
    DigitsHaveNoBreaks(Decimal.Render(q.port));
    HeadersAreLines(q);
    forall i | 0 <= i < |ls| ensures NoBreaks(ls[i]) {
      if 1 <= i < 10 { assert ls[i] == HeaderLine(hs[i - 1]); }
    }
  }

  /** Every header line of the request is free of CR and LF when the text fields are. */
  lemma HeadersAreLines(q: ProbeRequest)
    requires FieldsAreLines(q)
    ensures forall k :: 0 <= k < |OptionsHeaders(q)| ==> NoBreaks(HeaderLine(OptionsHeaders(q)[k]))
  {
    DigitsHaveNoBreaks(Decimal.Render(q.port));
    ViaIsLine(q);
    FixedHeadersAreLines();
  }

  lemma ViaIsLine(q: ProbeRequest)
    requires NoBreaks(q.lanIp) && NoBreaks(q.branch)
    ensures NoBreaks(HeaderLine(ViaHeader(q)))
  {
    DigitsHaveNoBreaks(Decimal.Render(q.lanPort));
    var via := "SIP/2.0/UDP " + q.lanIp + ":" + Decimal.Render(q.lanPort) + ";branch=";
    assert NoBreaks(via + MagicCookie() + "4ce2.");
  }

  /** The header lines the template fixes hold no CR or LF. */
  lemma FixedHeadersAreLines()
    ensures NoBreaks(HeaderLine(MaxForwardsHeader())) && NoBreaks(HeaderLine(FromHeader()))
    ensures NoBreaks(HeaderLine(ContactHeader())) && NoBreaks(HeaderLine(AcceptHeader()))
    ensures NoBreaks(HeaderLine(ContentLengthHeader()))
  {
    SenderIsLine();
    MaxForwardsIsLine();
    AcceptIsLine();
    ContentLengthIsLine();
  }

  // One lemma per fixed header: the solver's cost of ruling CR and LF out
  // of string literals grows quickly with the literals in one proof.
  lemma MaxForwardsIsLine() ensures NoBreaks(HeaderLine(MaxForwardsHeader()))
  {
    assert NoBreaks("Max-Forwards") && NoBreaks("70") by { }
    HeaderLineIsLine(MaxForwardsHeader());
  }

  lemma AcceptIsLine() ensures NoBreaks(HeaderLine(AcceptHeader()))
  {
    assert NoBreaks("Accept") && NoBreaks("application/sdp") by { }
    HeaderLineIsLine(AcceptHeader());
  }

  lemma ContentLengthIsLine() ensures NoBreaks(HeaderLine(ContentLengthHeader()))
  {
    assert NoBreaks("Content-Length") && NoBreaks("0") by { }
    HeaderLineIsLine(ContentLengthHeader());
  }

  /** A header line holds no CR or LF when its name and value hold none. */
  lemma HeaderLineIsLine(h: Header)
    requires NoBreaks(h.name) && NoBreaks(h.value)
    ensures NoBreaks(HeaderLine(h))
  {
  }

  /** The sender URI and the From tag hold no CR or LF. */
  lemma SenderIsLine()
    ensures NoBreaks(HeaderLine(ContactHeader())) && NoBreaks(HeaderLine(FromHeader()))
  {
    var uri := SenderUri();
    assert NoBreaks(uri) && NoBreaks(FromTag()) by { }
    assert NoBreaks("Contact: " + uri);
    assert NoBreaks("From: " + uri + ";tag=" + FromTag());
  }

  /**
   * Read back as CRLF-terminated lines, the request is exactly its 11
   * lines: the request line, nine header lines, and one empty line that
   * ends the headers and is the only empty line; it holds no bare CR or LF.
   */
  lemma RequestLineStructure(q: ProbeRequest)
    requires FieldsAreLines(q)
    ensures SplitLines(BuildOptions(q)) == Some(OptionsLines(q))
    ensures |OptionsLines(q)| == 11
    ensures OptionsLines(q)[0] == "OPTIONS " + RequestUri(q) + " SIP/2.0"
    ensures OptionsLines(q)[10] == ""
    ensures forall i :: 0 <= i < 10 ==> OptionsLines(q)[i] != ""
    ensures CrlfOnly(BuildOptions(q))
  {
    var ls := OptionsLines(q);
    OptionsLinesAreLines(q);
    SplitJoin(ls);
    JoinCrlfOnly(ls);
    var hs := OptionsHeaders(q);
    forall i | 0 <= i < 10 ensures ls[i] != "" {
      if i > 0 { assert ls[i] == HeaderLine(hs[i - 1]); }
    }
  }

  /** The header names of the request are told apart by a lookup: none has a colon, no two are equal. */
  lemma OptionsHeaderNamesDistinct(q: ProbeRequest)
    ensures forall j :: 0 <= j < |OptionsHeaders(q)| ==> NoColon(OptionsHeaders(q)[j].name)
    ensures forall i, j :: 0 <= j < i < |OptionsHeaders(q)| ==> OptionsHeaders(q)[j].name != OptionsHeaders(q)[i].name
  {
    var hs := OptionsHeaders(q);
    assert "From"[0] != "CSeq"[0];
    assert "Call-ID"[1] != "Contact"[1];
  }

  /**
   * Looking the header fields up by name in the lines read back from the
   * request finds the values filled in: Via carries the local address and
   * port and the branch after the magic cookie, To carries the request-URI,
   * Call-ID the call-id, CSeq the sequence number with method OPTIONS, and
   * Content-Length is 0.
   */
  lemma RequestHeaderValues(q: ProbeRequest)
    requires FieldsAreLines(q)
    ensures var m := BuildOptions(q);
      && HeaderField(m, "Via") == Some("SIP/2.0/UDP " + q.lanIp + ":" + Decimal.Render(q.lanPort) +
                                       ";branch=" + MagicCookie() + "4ce2." + q.branch)
      && HeaderField(m, "Max-Forwards") == Some("70")
      && HeaderField(m, "To") == Some("<" + RequestUri(q) + ">")
      && HeaderField(m, "From") == Some(SenderUri() + ";tag=" + FromTag())
      && HeaderField(m, "Call-ID") == Some(q.callId)
      && HeaderField(m, "CSeq") == Some(q.cseq + " OPTIONS")
      && HeaderField(m, "Contact") == Some(SenderUri())
      && HeaderField(m, "Accept") == Some("application/sdp")
      && HeaderField(m, "Content-Length") == Some("0")
  {
    var hs := OptionsHeaders(q);
    HeaderSectionOfRequest(q);
    OptionsHeaderNamesDistinct(q);
    FindHeaderAt(hs, 0);
    FindHeaderAt(hs, 1);
    FindHeaderAt(hs, 2);
    FindHeaderAt(hs, 3);
    FindHeaderAt(hs, 4);
    FindHeaderAt(hs, 5);
    FindHeaderAt(hs, 6);
    FindHeaderAt(hs, 7);
    FindHeaderAt(hs, 8);
  }

  /** The header section read back from the request is the request's header lines. */
  lemma HeaderSectionOfRequest(q: ProbeRequest)
    requires FieldsAreLines(q)
    ensures forall name :: HeaderField(BuildOptions(q), name) == FindHeader(HeaderLines(OptionsHeaders(q)), name)
  {
    RequestLineStructure(q);
    var ls := OptionsLines(q);
    assert ls[1..|ls| - 1] == HeaderLines(OptionsHeaders(q));
  }

  /**
   * Two requests get the same branch (and CSeq) exactly when their clock
   * readings fall in the same whole second.
   */
  lemma BranchSameIffSameSecond(server: string, port: nat, lanIp: string, lanPort: nat, t1: real, t2: real, callId1: string, callId2: string)
    requires t1 >= 0.0 && t2 >= 0.0
    ensures NewRequest(server, port, lanIp, lanPort, t1, callId1).branch == NewRequest(server, port, lanIp, lanPort, t2, callId2).branch
        <==> t1.Floor == t2.Floor
  {
    if NewRequest(server, port, lanIp, lanPort, t1, callId1).branch == NewRequest(server, port, lanIp, lanPort, t2, callId2).branch {
      Decimal.RenderInjective(t1.Floor, t2.Floor);
    }
  }

  /**
   * In a request built at clock reading `now`, the Via branch and the CSeq
   * number are the same decimal numeral, that of `int(now)`, and CSeq names
   * method OPTIONS.
   */
  lemma ClockStampInBranchAndCSeq(server: string, port: nat, lanIp: string, lanPort: nat, now: real, callId: string)
    requires now >= 0.0
    requires NoBreaks(server) && NoBreaks(lanIp) && NoBreaks(callId)
    ensures var q := NewRequest(server, port, lanIp, lanPort, now, callId);
      && HeaderField(BuildOptions(q), "Via") == Some("SIP/2.0/UDP " + lanIp + ":" + Decimal.Render(lanPort) +
                                                     ";branch=" + MagicCookie() + "4ce2." + Decimal.Render(now.Floor))
      && HeaderField(BuildOptions(q), "CSeq") == Some(Decimal.Render(now.Floor) + " OPTIONS")
  {
    var q := NewRequest(server, port, lanIp, lanPort, now, callId);
    DigitsHaveNoBreaks(q.cseq);
    RequestHeaderValues(q);
  }

  /**
   * Consecutive attempts of a run can share a branch: an attempt starts
   * `rtt` plus the request interval after the previous one, so when both
   * clock readings fall in the same second they get the same branch and
   * the same CSeq, which breaks the uniqueness RFC 3261 section 8.1.1.7
   * demands of a branch. For example, readings 100.2 and 100.75 with a
   * 50 ms reply.
   */
  lemma NextAttemptSameBranch(server: string, port: nat, lanIp: string, lanPort: nat, now: real, rtt: real, callId1: string, callId2: string)
    requires now >= 0.0 && rtt >= 0.0
    requires now + rtt + ProbeStats.RequestInterval < now.Floor as real + 1.0
    ensures var q1 := NewRequest(server, port, lanIp, lanPort, now, callId1);
      var q2 := NewRequest(server, port, lanIp, lanPort, now + rtt + ProbeStats.RequestInterval, callId2);
      q1.branch == q2.branch && q1.cseq == q2.cseq
  {
    var later := now + rtt + ProbeStats.RequestInterval;
    assert later.Floor == now.Floor;
    BranchSameIffSameSecond(server, port, lanIp, lanPort, now, later, callId1, callId2);
  }

  /**
   * A branch unique within a run: the numeral of
   * `NumRequests * int(now) + attempt` for attempt `attempt` of the run,
   * which carries both the second of the clock reading and the attempt.
   */
  function AttemptBranch(now: real, attempt: nat): (b: string)
    requires now >= 0.0 && attempt < ProbeStats.NumRequests
    ensures Decimal.AllDigits(b)
    ensures Decimal.Value(b) / ProbeStats.NumRequests == now.Floor
    ensures Decimal.Value(b) % ProbeStats.NumRequests == attempt
  {
    var n := ProbeStats.NumRequests * now.Floor + attempt;
    Decimal.ValueOfRender(n);
    Decimal.Render(n)
  }

  /**
   * The request for attempt `attempt` of a run, with the branch made
   * unique: it differs from what `send_options_request` builds only in
   * its branch.
   */
  function NewAttemptRequest(server: string, port: nat, lanIp: string, lanPort: nat, now: real, attempt: nat, callId: string): (q: ProbeRequest)
    requires now >= 0.0 && attempt < ProbeStats.NumRequests
    ensures q == NewRequest(server, port, lanIp, lanPort, now, callId).(branch := q.branch)
    ensures Decimal.AllDigits(q.branch) && Decimal.Value(q.branch) % ProbeStats.NumRequests == attempt
  {
    NewRequest(server, port, lanIp, lanPort, now, callId).(branch := AttemptBranch(now, attempt))
  }

  /**
   * With `NewAttemptRequest`, two requests share a branch only when they
   * are the same attempt of a run, in the same second; distinct attempts
   * of one run never do.
   */
  lemma AttemptBranchesDistinct(server: string, port: nat, lanIp: string, lanPort: nat, t1: real, t2: real, i: nat, j: nat, callId1: string, callId2: string)
    requires t1 >= 0.0 && t2 >= 0.0 && i < ProbeStats.NumRequests && j < ProbeStats.NumRequests
    ensures NewAttemptRequest(server, port, lanIp, lanPort, t1, i, callId1).branch == NewAttemptRequest(server, port, lanIp, lanPort, t2, j, callId2).branch
        <==> i == j && t1.Floor == t2.Floor
  {
    var b1 := NewAttemptRequest(server, port, lanIp, lanPort, t1, i, callId1).branch;
    var b2 := NewAttemptRequest(server, port, lanIp, lanPort, t2, j, callId2).branch;
    if b1 == b2 {
      assert Decimal.Value(b1) == Decimal.Value(b2);
    }
  }
}
