# sip-options: SIP OPTIONS probe, modelled in Dafny

`sip-options.py` probes a SIP server. It sends `NUM_REQUESTS` (10) SIP
OPTIONS requests over UDP, one after another. After each reply it waits
half a second, so attempts start the reply time plus 0.5 s apart. It times each reply and
prints a summary: packets sent and received, loss percentage, and
min/max/avg round-trip time. This project models the two parts of the
program that carry logic and proves what they guarantee.

- **The request builder** (module `OptionsRequest`). It fills in the
  template `OPTIONS_TEMPLATE` with the target host and port, the local
  address and port, the branch, the Call-ID and the CSeq. The branch and
  the CSeq are both the clock reading truncated to whole seconds. The
  request is modelled as a list of lines, each followed by CRLF.
  `BuildOptions` is `Join(OptionsLines(q))`. Each header is a
  `Header(name, value)` record. Three helper modules support it:
  - `SipText` holds CRLF line splitting and joining, with both
    round-trips proved, plus header lookup by name.
  - `Decimal` renders a `nat` the way `str(int)` does and reads it back.
  - `Wrappers` holds `Option`.

  The proved facts are these:
  - the request line is `OPTIONS sip:host:port SIP/2.0`;
  - the request ends with `Content-Length: 0` and exactly one empty line;
  - read back, the request is exactly 11 CRLF-terminated lines, and only
    the last is empty;
  - there is no bare CR or LF;
  - looking up each header by name gives the value that was filled in;
  - Via's branch and CSeq carry the same clock stamp;
  - two requests share a branch exactly when they are built in the same
    second, so consecutive attempts of a run can share one (see Findings);
    a corrected request that adds the attempt index to the branch gives
    every attempt of a run its own branch.
- **The probe run** (module `ProbeStats`). The run is imperative:
  `RunProbes` loops over the per-attempt outcomes (`Some(rtt)` or
  `None`) and updates the four counters and the RTT list as `main` does.
  Its loop invariants keep these facts at every step:
  - sent = succeeded + failed;
  - succeeded = |rtt list|;
  - total RTT = sum of the list.

  `RunProbes` is proved equal to the specification function `TallyOf`.
  `Summarize` is the end-of-run summary with the zero-success case made
  explicit: when nothing replied it reports 100% loss and no RTT statistics. The
  source's unguarded version is modelled separately; see Findings.

Inputs the program gets from the OS are parameters of the model:
- the clock reading (`now: real`, in seconds);
- the Call-ID;
- the local IP and port;
- each attempt's outcome.

## Model

| member | source | states |
|---|---|---|
| OptionsRequest.BuildOptions | sip-options.py:29-41 | the request starts with the request line `OPTIONS sip:<server>:<port> SIP/2.0` + CRLF, and ends with `Content-Length: 0` + CRLF + CRLF, so Content-Length is 0 and one empty line closes the headers |
| OptionsRequest.RequestLineStructure | sip-options.py:29-41 | when the filled-in fields hold no CR/LF, the request reads back as exactly 11 CRLF-terminated lines: ten non-empty lines (the request line and the nine header lines) followed by one empty line, with no bare CR or LF anywhere |
| OptionsRequest.RequestHeaderValues | sip-options.py:30-39 | a lookup of each header by name in the request finds the filled-in value: Via carries the local IP and port and the branch after `z9hG4bK4ce2.`; Max-Forwards is 70; To is `<sip:server:port>`, the request-URI; From and Contact are the fixed sender; Call-ID is the given call-id; CSeq is the cseq followed by ` OPTIONS`; Accept is `application/sdp`; Content-Length is 0 |
| OptionsRequest.HeaderSectionOfRequest | sip-options.py:31-39 | the header section read back from the request is exactly the nine header lines, in template order |
| OptionsRequest.OptionsHeaderNamesDistinct | sip-options.py:31-39 | the nine header names contain no colon and are pairwise distinct, so each lookup by name is unambiguous |
| OptionsRequest.NewRequest | sip-options.py:52-66 | branch and cseq are the same string: a digit string whose value is the clock reading truncated to whole seconds; the other fields are passed through unchanged |
| OptionsRequest.ClockStampInBranchAndCSeq | sip-options.py:31-36 | in a request built at clock reading `now`, the Via branch ends with the decimal numeral of `int(now)`, and CSeq is that same numeral followed by method `OPTIONS` |
| OptionsRequest.BranchSameIffSameSecond | sip-options.py:52 | two requests get the same branch (and CSeq) if and only if their clock readings fall in the same whole second |
| OptionsRequest.NextAttemptSameBranch | sip-options.py:52 | as written, an attempt that starts `rtt` + 0.5 s after the previous one, still within the same second, gets the same branch and the same CSeq as the previous one |
| OptionsRequest.AttemptBranch | sip-options.py:52 | the corrected branch is a numeral whose value divided by `NUM_REQUESTS` is `int(now)` and whose remainder is the attempt index |
| OptionsRequest.NewAttemptRequest | sip-options.py:52-66 | the corrected request differs from the one line 52 builds only in its branch, which encodes the attempt index |
| OptionsRequest.AttemptBranchesDistinct | sip-options.py:52 | with the corrected branch, two requests share a branch if and only if they are the same attempt index in the same second; distinct attempts of one run never share one |
| Decimal.Render | sip-options.py:52 | `str(int)` of a natural number is a non-empty digit string with no leading zero (except `0` itself) |
| Decimal.ValueOfRender | sip-options.py:58-66 | reading a rendered number back gives the number, so the port, local port and clock stamp fill in the template faithfully |
| Decimal.RenderInjective | sip-options.py:52 | distinct numbers render to distinct numerals |
| SipText.SplitJoin | sip-options.py:29-41 | splitting CRLF-joined lines that hold no CR/LF gives back exactly those lines |
| SipText.JoinSplit | sip-options.py:29-41 | joining the lines read from a text gives back the text, and no line read holds a CR or LF |
| SipText.JoinCrlfOnly | sip-options.py:29-41 | text joined from break-free lines has every CR followed by LF and every LF preceded by CR |
| SipText.FindHeaderAt | sip-options.py:31-39 | looking up the name of the i-th header line gives its value when no earlier header has that name |
| SipText.HeaderLineMatches | sip-options.py:31-39 | a `Name: value` line matches a lookup for `name` if and only if Name is `name` (when neither has a colon) |
| ProbeStats.RunProbes | sip-options.py:103-119 | the loop ends with the tally `TallyOf(outcomes)`: sent is the number of attempts, the RTT list holds the replies' RTTs in order, total is their sum, and sent = succeeded + failed |
| ProbeStats.TallyOf | sip-options.py:104-119 | the final tally is consistent: sent = succeeded + failed, succeeded = length of the RTT list, total RTT = sum of the list |
| ProbeStats.SuccessesAndFailuresCount | sip-options.py:111-119 | every attempt counts as exactly one success or one failure |
| ProbeStats.SuccessesMembers | sip-options.py:113-116 | an RTT is in the list if and only if some attempt replied with it |
| ProbeStats.SuccessesGrowByAppending | sip-options.py:116 | later attempts only append: the RTT list after i attempts is a prefix of the list after j >= i attempts |
| ProbeStats.Min | sip-options.py:131 | `min(rtt_list)` is an element of the list and no element is below it |
| ProbeStats.Max | sip-options.py:131 | `max(rtt_list)` is an element of the list and no element is above it |
| ProbeStats.LossPercent | sip-options.py:128 | the loss percentage lies in [0, 100], times sent equals (sent − received) × 100, is 0 if and only if every packet was received, and is 100 if and only if none was |
| ProbeStats.RttSummary | sip-options.py:127-131 | for a non-empty RTT list: min and max are elements of the list and bound every element, avg = total / count, and min <= avg <= max |
| ProbeStats.Summarize | sip-options.py:126-133 | no statistics for an empty run; otherwise sent and received are the counters, loss is `LossPercent` in [0, 100] and is 100 exactly when nothing replied, and RTT statistics are present exactly when at least one reply arrived, with min/max/avg as in `RttSummary` |
| ProbeStats.ProbeMain | sip-options.py:103-133 | a full run of `NUM_REQUESTS` attempts always prints a summary with sent = 10 and received = the number of replies, and that summary is `Summarize(TallyOf(outcomes))` |
| ProbeStats.NoReplyMeansFullLoss | sip-options.py:126-133 | a non-empty run with no reply reports 100% loss, 0 received and no RTT statistics |
| ProbeStats.AllRepliedWithin | sip-options.py:126-131 | a non-empty run in which every attempt replied within `bound` ms reports 0% loss, and min, max and avg within [0, bound] |
| ProbeStats.SumBounds | sip-options.py:114 | the sum of n values each in [lo, hi] lies in [n·lo, n·hi] |
| ProbeStats.SummarizeAsWritten | sip-options.py:126-133 | the summary exactly as the source computes it; it agrees with `Summarize` whenever at least one reply arrived or nothing was sent |
| ProbeStats.AsWrittenDividesByZero | sip-options.py:127 | as written, a non-empty run with no reply reaches the division by zero at line 127 instead of a summary |

## Left out

- UDP socket creation, binding, the receive timeout, `sendto` and `recvfrom` (sip-options.py:47-49, 72-75, 83, 101) are network I/O. Each attempt is modelled only by its outcome, `Some(rtt)` or `None`.
- `time.time()`, `uuid.uuid4()` and `socket.gethostbyname(socket.gethostname())` (sip-options.py:52-55, 69, 76) are the clock, randomness and DNS. The clock reading, the Call-ID, the local IP and port and each RTT are model inputs.
- The RTT computation `(end_time - start_time) * 1000` (sip-options.py:79) is float arithmetic on clock readings. RTTs are exact `real`s in the model and no IEEE rounding is modelled.
- The asyncio structure and the `asyncio.sleep(REQUEST_INTERVAL)` delay (sip-options.py:43, 103, 112, 122, 136) are scheduling with no logical content.
- The exception and exit paths (sip-options.py:86-101) end the process and are not modelled. A receive timeout raises `socket.timeout`, an `OSError`, which the generic `except Exception` at line 95 catches, and then `sys.exit(1)` runs. So as written, `send_options_request` never returns `None`, and the fold's failure branch (lines 117-118) is unreachable. The model follows the fold's code and accepts `None` outcomes, so it also covers a variant that reports a timeout as a failure.
- On Ctrl+C (sip-options.py:91-93) the program exits without any summary, so the model has no partial-run report.
- All `print` output and its `:.2f` formatting (sip-options.py:80, 110, 129-133) is console rendering. `Summarize` returns the values that would be printed.
- The encoding of the request to bytes (`request.encode()`, sip-options.py:72) is left out. The model's request is a `string`; every template literal is ASCII, and the filled-in fields are passed through unchanged.
- OptionsRequest.FieldsAreLines: the structural lemmas require that the filled-in text fields contain no CR or LF. The source does not check this. A server name or Call-ID containing a line break would add lines to the request, and the model does not state what happens then.
- The fixed target `SIP_SERVER`/`SIP_PORT` (sip-options.py:16-17) becomes the `server` and `port` fields of `ProbeRequest`, so every lemma holds for any target, 5060 included.
- OptionsRequest.NewRequest: the clock reading is assumed to be at or after the epoch (`now >= 0`). For a clock set before 1970, `int()` truncates toward zero and would give `-1` for -1.5 and `0` for -0.5. The model does not render negative numbers.
- Branch uniqueness across runs is not modelled: a run lasts at least five seconds (ten pauses of 0.5 s), but the corrected branch is only proved distinct among the attempts of one run.

## Findings

| source | as written | input that shows it | evidently intended | confidence | as-written member | corrected member |
|---|---|---|---|---|---|---|
| sip-options.py:126-131 | the summary is guarded only by `total_sent_requests > 0`; line 127 divides `total_rtt` by `total_successful_responses`, and line 131 takes `min`/`max` of `rtt_list` | a run of 10 attempts that all come back with no reply (`None`): sent = 10, successful = 0, so line 127 raises ZeroDivisionError (the failure path is currently unreachable because a timeout exits the process, so the defect is latent) | report 100% loss with no RTT statistics when nothing replied | not executed | ProbeStats.AsWrittenDividesByZero | ProbeStats.NoReplyMeansFullLoss |
| sip-options.py:52 | the branch and CSeq are `str(int(time.time()))`, whole seconds, while attempts start only the RTT plus `REQUEST_INTERVAL` (0.5 s, lines 20 and 122) apart | two consecutive attempts at clock readings 100.2 and 100.75 (a 50 ms reply, then the 0.5 s pause) both send branch `z9hG4bK4ce2.100` and CSeq `100 OPTIONS`, breaking the branch uniqueness of section 8.1.1.7 of RFC 3261 | a branch unique to each attempt, for example one that also encodes the attempt index | not executed | OptionsRequest.NextAttemptSameBranch | OptionsRequest.AttemptBranchesDistinct |
