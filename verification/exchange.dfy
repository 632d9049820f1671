/** The command exchange (`send_command`) and the module detector
    (`detect_module`) over an abstract serial link.

    The link is an oracle. Everything the core does to the outside world is an
    event appended to a trace: reading the cancellation signal, opening the port at
    a bit rate, writing a payload. The `World` answers from the trace so far: whether
    an open succeeds, whether the cancellation signal is set when it is read, and
    what a write yields, a write fault or the reply text the module sends back. */
module Exchange {
  import opened Wrappers
  import opened Text

  /** `LINE_ENDINGS`: the two terminators a command may carry. */
  datatype LineEnding = NoEnding | CrLf

  function Terminator(e: LineEnding): string {
    match e
    case NoEnding => ""
    case CrLf => "\r\n"
  }

  datatype SerialProfile = SerialProfile(baud: int, ending: LineEnding)

  /** `DETECTION_PROFILES`, in the order they are tried. */
  const DetectionProfiles: seq<SerialProfile> := [
    SerialProfile(38400, CrLf),
    SerialProfile(9600, NoEnding),
    SerialProfile(38400, NoEnding),
    SerialProfile(9600, CrLf)
  ]

  /** The two module families: HC-05 (ROLE/PAIR/BIND/LINK dialect) and HC-06. */
  datatype Family = HC05 | HC06

  datatype Detection = Detection(family: Family, profile: SerialProfile, roleResponse: string)

  datatype Event = Polled | Opened(port: string, baud: int) | Wrote(payload: string)

  datatype Reply = WriteFault | Answer(text: string)

  /** The behaviour of the modules, the ports and the operator's cancel button,
      each a function of the trace that ends with the event being answered. */
  datatype World = World(
    opens: seq<Event> -> bool,
    reply: seq<Event> -> Reply,
    cancelled: seq<Event> -> bool)

  /** The outside world as the core sees it: its fixed behaviour and the trace
      of everything done to it so far. */
  class Io {
    const world: World
    var trace: seq<Event>

    constructor (world: World)
      ensures this.world == world && trace == []
    {
      this.world := world;
      trace := [];
    }

    /** `stop_event.is_set()` */
    method Poll() returns (cancelled: bool)
      modifies this
      ensures trace == old(trace) + [Polled]
      ensures cancelled == world.cancelled(trace)
    {
      trace := trace + [Polled];
      cancelled := world.cancelled(trace);
    }

    /** `serial.Serial(port, baudrate=baud, ...)`: false when it raises. */
    method Open(port: string, baud: int) returns (up: bool)
      modifies this
      ensures trace == old(trace) + [Opened(port, baud)]
      ensures up == world.opens(trace)
    {
      trace := trace + [Opened(port, baud)];
      up := world.opens(trace);
    }

    /** `ser.write(payload)` followed by `read_response`. */
    method Write(payload: string) returns (reply: Reply)
      modifies this
      ensures trace == old(trace) + [Wrote(payload)]
      ensures reply == world.reply(trace)
    {
      trace := trace + [Wrote(payload)];
      reply := world.reply(trace);
    }
  }

  /** `command.encode("ascii", errors="ignore")`: non-ASCII characters dropped. */
  function Ascii(s: string): (r: string)
    ensures forall c :: c in r ==> c as int < 128
    ensures forall c :: c in s && c as int < 128 ==> c in r
  {
    if s == [] then []
    else (if s[0] as int < 128 then [s[0]] else []) + Ascii(s[1..])
  }

  /** What goes on the wire for one command. */
  function Payload(command: string, ending: LineEnding): string {
    Ascii(command) + Terminator(ending)
  }

  /** The success rule of one attempt: any completed read when no
      acknowledgement is expected, otherwise "OK" anywhere in the upper-cased reply. */
  predicate Accepts(expectOk: bool, response: string) {
    !expectOk || Contains(Upper(response), "OK")
  }

  datatype Exchanged = Exchanged(ok: bool, response: string, trace: seq<Event>)

  /** How many payloads a stretch of trace writes. */
  function WriteCount(events: seq<Event>): nat {
    if events == [] then 0
    else (if events[0].Wrote? then 1 else 0) + WriteCount(events[1..])
  }

  /** The attempts left in `send_command`'s loop, `response` being the last
      reply read (the empty string before the first). Each attempt reads the
      cancellation signal, then writes; the loop ends at the first set signal,
      write fault or accepted reply, or when no attempt is left, and the result
      carries the latest reply read. */
  function Attempts(w: World, t: seq<Event>, payload: string, expectOk: bool, left: int, response: string)
    : (x: Exchanged)
    ensures |t| <= |x.trace| && x.trace[..|t|] == t
    decreases left
  {
    if left <= 0 then Exchanged(false, response, t)
    else
      var t1 := t + [Polled];
      if w.cancelled(t1) then Exchanged(false, response, t1)
      else
        var t2 := t1 + [Wrote(payload)];
        match w.reply(t2)
        case WriteFault => Exchanged(false, response, t2)
        case Answer(r) =>
          if Accepts(expectOk, r) then Exchanged(true, r, t2)
          else
            var x := Attempts(w, t2, payload, expectOk, left - 1, r);
            assert x.trace[..|t|] == x.trace[..|t2|][..|t|];
            x
  }

  /** `events` holds nothing but cancellation checks and writes of `payload`. */
  predicate OnlyWrites(events: seq<Event>, payload: string) {
    forall e :: e in events ==> e == Polled || e == Wrote(payload)
  }

  /** An attempt's check and write in front of what the exchange does next. */
  lemma AttemptStep(t: seq<Event>, payload: string, tr: seq<Event>, bound: int)
    requires IsPrefix(t + [Polled, Wrote(payload)], tr)
    requires OnlyWrites(tr[|t| + 2..], payload) && WriteCount(tr[|t| + 2..]) <= bound
    ensures OnlyWrites(tr[|t|..], payload) && WriteCount(tr[|t|..]) <= bound + 1
  {
    var s := tr[|t| + 2..];
    assert tr[|t|..|t| + 2] == [Polled, Wrote(payload)];
    assert tr[|t|..] == [Polled, Wrote(payload)] + s;
    assert ([Polled, Wrote(payload)] + s)[1..] == [Wrote(payload)] + s;
    assert ([Wrote(payload)] + s)[1..] == s;
  }

  /** One exchange writes only its own payload, at most once per attempt. */
  lemma {:induction false} AttemptsWrites(w: World, t: seq<Event>, payload: string, expectOk: bool, left: int, response: string)
    ensures var x := Attempts(w, t, payload, expectOk, left, response);
            && OnlyWrites(x.trace[|t|..], payload)
            && WriteCount(x.trace[|t|..]) <= (if left < 0 then 0 else left)
    decreases left, 1
  {
    var x := Attempts(w, t, payload, expectOk, left, response);
    if left <= 0 {
      assert x.trace[|t|..] == [];
    } else if w.cancelled(t + [Polled]) {
      assert x.trace[|t|..] == [Polled];
      assert WriteCount([Polled]) == WriteCount([]);
    } else {
      AttemptWrites(w, t, payload, expectOk, left, response);
    }
  }

  /** The same once an attempt has found the signal clear and written. */
  lemma {:induction false} AttemptWrites(w: World, t: seq<Event>, payload: string, expectOk: bool, left: int, response: string)
    requires left > 0 && !w.cancelled(t + [Polled])
    ensures var x := Attempts(w, t, payload, expectOk, left, response);
            && OnlyWrites(x.trace[|t|..], payload)
            && WriteCount(x.trace[|t|..]) <= left
    decreases left, 0
  {
    var x := Attempts(w, t, payload, expectOk, left, response);
    var t2 := t + [Polled] + [Wrote(payload)];
    assert t2 == t + [Polled, Wrote(payload)];
    if w.reply(t2).Answer? && !Accepts(expectOk, w.reply(t2).text) {
      assert x == Attempts(w, t2, payload, expectOk, left - 1, w.reply(t2).text);
      AttemptsWrites(w, t2, payload, expectOk, left - 1, w.reply(t2).text);
    } else {
      assert x.trace == t2;
      assert x.trace[|t2|..] == [];
    }
    AttemptStep(t, payload, x.trace, left - 1);
  }

  /** Event `i` of `tr` lets `send_command`'s loop go on: a cancellation check
      that found the signal clear, or a write whose reply arrived but was not
      accepted. */
  predicate Continues(w: World, tr: seq<Event>, i: nat, expectOk: bool)
    requires i < |tr|
  {
    && (tr[i] == Polled ==> !w.cancelled(tr[..i + 1]))
    && (tr[i].Wrote? ==> w.reply(tr[..i + 1]).Answer? && !Accepts(expectOk, w.reply(tr[..i + 1]).text))
  }

  /** Every event of `tr` from `from` on, except the last, lets the loop go on. */
  predicate ContinuesFrom(w: World, tr: seq<Event>, from: nat, expectOk: bool) {
    forall i: nat :: from <= i < |tr| - 1 ==> Continues(w, tr, i, expectOk)
  }

  /** The loop goes on only past events that let it: it stops at the first set
      signal, the first write fault and the first accepted reply. */
  lemma {:induction false} AttemptsContinueOnlyOnRejection(
    w: World, t: seq<Event>, payload: string, expectOk: bool, left: int, response: string)
    ensures ContinuesFrom(w, Attempts(w, t, payload, expectOk, left, response).trace, |t|, expectOk)
    decreases left
  {
    var x := Attempts(w, t, payload, expectOk, left, response);
    if left > 0 {
      var t1 := t + [Polled];
      var t2 := t1 + [Wrote(payload)];
      if !w.cancelled(t1) {
        assert x.trace[..|t2|] == t2;
        assert x.trace[..|t| + 1] == t1 by { assert x.trace[..|t| + 1] == x.trace[..|t2|][..|t| + 1]; }
        assert x.trace[|t|] == Polled && x.trace[|t| + 1] == Wrote(payload) by {
          assert x.trace[|t|] == t2[|t|] && x.trace[|t| + 1] == t2[|t| + 1];
        }
        if w.reply(t2).Answer? && !Accepts(expectOk, w.reply(t2).text) {
          var xr := Attempts(w, t2, payload, expectOk, left - 1, w.reply(t2).text);
          assert x == xr;
          AttemptsContinueOnlyOnRejection(w, t2, payload, expectOk, left - 1, w.reply(t2).text);
          forall i: nat | |t| <= i < |x.trace| - 1
            ensures Continues(w, x.trace, i, expectOk)
          {
            if i == |t| + 1 {
              assert x.trace[..i + 1] == t2;
            } else if i >= |t2| {
              assert Continues(w, xr.trace, i, expectOk);
            }
          }
        } else {
          assert x.trace == t2;
          assert Continues(w, x.trace, |t|, expectOk);
          assert ContinuesFrom(w, x.trace, |t|, expectOk);
        }
      }
    }
  }

  /** An exchange succeeds exactly when its last event is a write whose reply
      was accepted, and it then returns that reply; with no attempt allowed it
      touches nothing and fails with the reply it started from. */
  lemma {:induction false} AttemptsOutcome(w: World, t: seq<Event>, payload: string, expectOk: bool, left: int, response: string)
    ensures var x := Attempts(w, t, payload, expectOk, left, response);
            && (x.ok <==>
                  && |x.trace| > |t| && x.trace[|x.trace| - 1].Wrote?
                  && w.reply(x.trace).Answer? && Accepts(expectOk, w.reply(x.trace).text))
            && (x.ok ==> x.response == w.reply(x.trace).text)
            && (left <= 0 ==> x == Exchanged(false, response, t))
    decreases left
  {
    var x := Attempts(w, t, payload, expectOk, left, response);
    if left > 0 {
      var t1 := t + [Polled];
      var t2 := t1 + [Wrote(payload)];
      if w.cancelled(t1) {
        assert x == Exchanged(false, response, t1);
      } else if w.reply(t2).WriteFault? {
        assert x == Exchanged(false, response, t2);
      } else if Accepts(expectOk, w.reply(t2).text) {
        assert x == Exchanged(true, w.reply(t2).text, t2);
      } else {
        assert x == Attempts(w, t2, payload, expectOk, left - 1, w.reply(t2).text);
        AttemptsOutcome(w, t2, payload, expectOk, left - 1, w.reply(t2).text);
      }
    }
  }

  /** With OK not required, an exchange that fails has read no reply. */
  lemma AnyReplyAccepted(w: World, t: seq<Event>, payload: string, left: int)
    ensures var x := Attempts(w, t, payload, false, left, "");
            !x.ok ==> x.response == ""
  {
  }

  /** `send_command(ser, command, profile, expect_ok=..., retries=...)`. */
  function Send(w: World, t: seq<Event>, command: string, profile: SerialProfile, expectOk: bool, retries: int)
    : Exchanged
  {
    Attempts(w, t, Payload(command, profile.ending), expectOk, retries, "")
  }

  /** The retry loop of `send_command`, run against the link. */
  method SendCommand(io: Io, command: string, profile: SerialProfile, expectOk: bool, retries: int)
    returns (ok: bool, response: string)
    modifies io
    ensures Exchanged(ok, response, io.trace) == Send(io.world, old(io.trace), command, profile, expectOk, retries)
  {
    var payload := Payload(command, profile.ending);
    response := "";
    var attempt := 1;
    while attempt <= retries
      invariant Attempts(io.world, io.trace, payload, expectOk, retries - attempt + 1, response)
             == Send(io.world, old(io.trace), command, profile, expectOk, retries)
      decreases retries - attempt
    {
      var stop := io.Poll();
      if stop {
        return false, response;
      }
      var reply := io.Write(payload);
      if reply.WriteFault? {
        return false, response;
      }
      response := reply.text;
      if Accepts(expectOk, response) {
        return true, response;
      }
      attempt := attempt + 1;
    }
    return false, response;
  }

  /** `a` is a prefix of `b`. */
  predicate IsPrefix<T(==)>(a: seq<T>, b: seq<T>) {
    |a| <= |b| && b[..|a|] == a
  }

  lemma PrefixTrans(a: seq<Event>, b: seq<Event>, c: seq<Event>)
    requires IsPrefix(a, b) && IsPrefix(b, c)
    ensures IsPrefix(a, c)
  {
    assert c[..|a|] == c[..|b|][..|a|];
  }

  /** A trace that extends `a` and one more event extends `a`. */
  lemma PrefixDrop(a: seq<Event>, e: Event, b: seq<Event>)
    requires IsPrefix(a + [e], b)
    ensures IsPrefix(a, b)
  {
    assert b[..|a|] == (a + [e])[..|a|];
  }

  /** The events after a prefix split at an intermediate prefix. */
  lemma SuffixSplit(a: seq<Event>, b: seq<Event>, c: seq<Event>)
    requires IsPrefix(a, b) && IsPrefix(b, c)
    ensures c[|a|..] == b[|a|..] + c[|b|..]
  {
    assert c[..|b|] == b;
    assert c[|a|..] == c[|a|..|b|] + c[|b|..];
  }

  /** The bit rates at which a stretch of trace opens the port, in order. */
  function OpenedBauds(events: seq<Event>): seq<int> {
    if events == [] then []
    else (if events[0].Opened? then [events[0].baud] else []) + OpenedBauds(events[1..])
  }

  lemma {:induction false} OpenedBaudsAppend(a: seq<Event>, b: seq<Event>)
    ensures OpenedBauds(a + b) == OpenedBauds(a) + OpenedBauds(b)
    decreases |a|
  {
    if a == [] {
      assert a + b == b;
    } else {
      var ab := a + b;
      var head := if a[0].Opened? then [a[0].baud] else [];
      assert ab[0] == a[0] && ab[1..] == a[1..] + b;
      assert OpenedBauds(ab) == head + OpenedBauds(a[1..] + b);
      OpenedBaudsAppend(a[1..], b);
      assert OpenedBauds(a) == head + OpenedBauds(a[1..]);
    }
  }

  lemma {:induction false} OpenedBaudsNone(events: seq<Event>)
    requires forall e :: e in events ==> !e.Opened?
    ensures OpenedBauds(events) == []
    decreases |events|
  {
    if events != [] {
      assert events[0] in events;
      OpenedBaudsNone(events[1..]);
    }
  }

  /** Every port a stretch of trace opens is `port`. */
  predicate OpensOnly(events: seq<Event>, port: string) {
    forall e :: e in events && e.Opened? ==> e.port == port
  }

  /** An exchange opens nothing. */
  lemma SendOpensNothing(w: World, t: seq<Event>, command: string, profile: SerialProfile, expectOk: bool, retries: int)
    ensures var x := Send(w, t, command, profile, expectOk, retries);
            && IsPrefix(t, x.trace) && OpenedBauds(x.trace[|t|..]) == []
            && forall e :: e in x.trace[|t|..] ==> !e.Opened?
  {
    var x := Send(w, t, command, profile, expectOk, retries);
    AttemptsWrites(w, t, Payload(command, profile.ending), expectOk, retries, "");
    OpenedBaudsNone(x.trace[|t|..]);
  }

  /** How `detect_module` tells the families apart: an HC-05 echoes "ROLE"
      (in any letter case) in its reply to AT+ROLE?, an HC-06 does not. */
  function Classify(roleResponse: string): (f: Family)
    ensures f == HC05 <==> Contains(Upper(roleResponse), "ROLE")
  {
    if Contains(Upper(roleResponse), "ROLE") then HC05 else HC06
  }

  datatype Detected = Detected(result: Option<Detection>, trace: seq<Event>)

  /** The profiles `detect_module` has still to try. For each: read the
      cancellation signal (set: give up); open the port at the profile's rate
      (failure: give up, no further profile is tried); send AT expecting OK,
      with two attempts (no OK: next profile); otherwise send AT+ROLE? once,
      accepting any reply, and classify the module by that reply. */
  function DetectFrom(w: World, t: seq<Event>, port: string, profiles: seq<SerialProfile>): (d: Detected)
    ensures IsPrefix(t, d.trace)
    decreases |profiles|
  {
    if profiles == [] then Detected(None, t)
    else
      var p := profiles[0];
      var t1 := t + [Polled];
      if w.cancelled(t1) then Detected(None, t1)
      else
        var t2 := t1 + [Opened(port, p.baud)];
        if !w.opens(t2) then Detected(None, t2)
        else
          var at := Send(w, t2, "AT", p, true, 2);
          if !at.ok then
            var d := DetectFrom(w, at.trace, port, profiles[1..]);
            PrefixTrans(t, t2, at.trace);
            PrefixTrans(t, at.trace, d.trace);
            d
          else
            var role := Send(w, at.trace, "AT+ROLE?", p, false, 1);
            PrefixTrans(t, t2, at.trace);
            PrefixTrans(t, at.trace, role.trace);
            Detected(Some(Detection(Classify(role.response), p, role.response)), role.trace)
  }

  /** `profiles or DETECTION_PROFILES`: an empty list means the defaults. */
  function Candidates(profiles: seq<SerialProfile>): (c: seq<SerialProfile>)
    ensures c != []
    ensures profiles != [] ==> c == profiles
  {
    if profiles == [] then DetectionProfiles else profiles
  }

  /** `detect_module(port, profiles)`. */
  function Detect(w: World, t: seq<Event>, port: string, profiles: seq<SerialProfile>): Detected {
    DetectFrom(w, t, port, Candidates(profiles))
  }

  /** A detection names one of the profiles tried and the family its AT+ROLE?
      reply shows. */
  lemma {:induction false} DetectResult(w: World, t: seq<Event>, port: string, profiles: seq<SerialProfile>)
    ensures var d := DetectFrom(w, t, port, profiles);
            d.result.Some? ==>
              && d.result.value.profile in profiles
              && d.result.value.family == Classify(d.result.value.roleResponse)
    decreases |profiles|
  {
    if profiles != [] {
      var p := profiles[0];
      var t1 := t + [Polled];
      var t2 := t1 + [Opened(port, p.baud)];
      if !w.cancelled(t1) && w.opens(t2) {
        var at := Send(w, t2, "AT", p, true, 2);
        if !at.ok {
          DetectResult(w, at.trace, port, profiles[1..]);
        }
      }
    }
  }

  // ---------------------------------------------------------------------------
  // Which profile detection settles on

  /** The probe of profile `p` after trace `u`: the cancellation check and the
      port opening come first, then AT with two attempts. */
  function ProbeOpen(u: seq<Event>, port: string, p: SerialProfile): seq<Event> {
    u + [Polled] + [Opened(port, p.baud)]
  }

  function ProbeAt(w: World, u: seq<Event>, port: string, p: SerialProfile): Exchanged {
    Send(w, ProbeOpen(u, port, p), "AT", p, true, 2)
  }

  /** The probe gets as far as sending AT: not cancelled, and the port opens. */
  predicate Reaches(w: World, u: seq<Event>, port: string, p: SerialProfile) {
    !w.cancelled(u + [Polled]) && w.opens(ProbeOpen(u, port, p))
  }

  /** The reply to AT+ROLE? once AT was acknowledged. */
  function RoleReply(w: World, u: seq<Event>, port: string, p: SerialProfile): string {
    Send(w, ProbeAt(w, u, port, p).trace, "AT+ROLE?", p, false, 1).response
  }

  /** The trace after the first `k` probes, when every one of them reached
      the module and had its AT refused; nothing once one of them did not. */
  function RefusedRun(w: World, t: seq<Event>, port: string, profiles: seq<SerialProfile>, k: nat)
    : Option<seq<Event>>
    requires k <= |profiles|
  {
    if k == 0 then Some(t)
    else match RefusedRun(w, t, port, profiles, k - 1)
      case None => None
      case Some(u) =>
        var p := profiles[k - 1];
        if Reaches(w, u, port, p) && !ProbeAt(w, u, port, p).ok then Some(ProbeAt(w, u, port, p).trace) else None
  }

  /** Probe `k` acknowledged AT, all before it having been refused. */
  predicate AckedAt(w: World, t: seq<Event>, port: string, profiles: seq<SerialProfile>, k: nat)
    requires k < |profiles|
  {
    var u := RefusedRun(w, t, port, profiles, k);
    u.Some? && Reaches(w, u.value, port, profiles[k]) && ProbeAt(w, u.value, port, profiles[k]).ok
  }

  /** Probe `k` was cancelled or could not open the port, all before it
      having been refused. */
  predicate StoppedAt(w: World, t: seq<Event>, port: string, profiles: seq<SerialProfile>, k: nat)
    requires k < |profiles|
  {
    var u := RefusedRun(w, t, port, profiles, k);
    u.Some? && !Reaches(w, u.value, port, profiles[k])
  }

  /** Refusals chain: after a refused first probe, the run over the rest
      starts where that probe ended; after any other first probe, no run of
      refusals goes past it. */
  lemma {:induction false} RefusedRunShift(w: World, t: seq<Event>, port: string, profiles: seq<SerialProfile>, k: nat)
    requires k + 1 <= |profiles|
    ensures var p := profiles[0];
            RefusedRun(w, t, port, profiles, k + 1) ==
              if Reaches(w, t, port, p) && !ProbeAt(w, t, port, p).ok
              then RefusedRun(w, ProbeAt(w, t, port, p).trace, port, profiles[1..], k)
              else None
    decreases k
  {
    if k > 0 {
      RefusedRunShift(w, t, port, profiles, k - 1);
      assert profiles[1..][k - 1] == profiles[k];
    }
  }

  /** `detect_module` settles on the first profile whose AT is acknowledged:
      it reports a module exactly when some probe acknowledges AT after every
      earlier probe reached the module and was refused, and then names that
      probe's profile and classifies its AT+ROLE? reply. It reports nothing
      exactly when every probe was refused, or a probe was cancelled or could
      not open the port after every earlier one was refused. */
  lemma {:induction false} DetectFirstAcknowledged(w: World, t: seq<Event>, port: string, profiles: seq<SerialProfile>)
    ensures var d := DetectFrom(w, t, port, profiles);
            d.result.Some? <==> exists k :: 0 <= k < |profiles| && AckedAt(w, t, port, profiles, k)
    ensures var d := DetectFrom(w, t, port, profiles);
            forall k :: 0 <= k < |profiles| && AckedAt(w, t, port, profiles, k) ==>
              var r := RoleReply(w, RefusedRun(w, t, port, profiles, k).value, port, profiles[k]);
              d.result == Some(Detection(Classify(r), profiles[k], r))
    ensures var d := DetectFrom(w, t, port, profiles);
            d.result.None? <==>
              RefusedRun(w, t, port, profiles, |profiles|).Some?
              || exists k :: 0 <= k < |profiles| && StoppedAt(w, t, port, profiles, k)
    decreases |profiles|
  {
    if profiles != [] {
      var p := profiles[0];
      var d := DetectFrom(w, t, port, profiles);
      assert RefusedRun(w, t, port, profiles, 0) == Some(t);
      if Reaches(w, t, port, p) && !ProbeAt(w, t, port, p).ok {
        DetectRefusedFirst(w, t, port, profiles);
      } else {
        DetectSettledFirst(w, t, port, profiles);
      }
    }
  }

  /** `DetectFirstAcknowledged` when the first probe decides: every later
      index has no run of refusals to stand on. */
  lemma DetectSettledFirst(w: World, t: seq<Event>, port: string, profiles: seq<SerialProfile>)
    requires profiles != []
    requires !(Reaches(w, t, port, profiles[0]) && !ProbeAt(w, t, port, profiles[0]).ok)
    ensures var d := DetectFrom(w, t, port, profiles);
            && (d.result.Some? <==> exists k :: 0 <= k < |profiles| && AckedAt(w, t, port, profiles, k))
            && (forall k :: 0 <= k < |profiles| && AckedAt(w, t, port, profiles, k) ==>
                  var r := RoleReply(w, RefusedRun(w, t, port, profiles, k).value, port, profiles[k]);
                  d.result == Some(Detection(Classify(r), profiles[k], r)))
            && (d.result.None? <==>
                  RefusedRun(w, t, port, profiles, |profiles|).Some?
                  || exists k :: 0 <= k < |profiles| && StoppedAt(w, t, port, profiles, k))
  {
    var p := profiles[0];
    assert RefusedRun(w, t, port, profiles, 0) == Some(t);
    forall k | 0 < k <= |profiles|
      ensures RefusedRun(w, t, port, profiles, k) == None
    {
      RefusedRunShift(w, t, port, profiles, k - 1);
    }
    assert t + [Polled] + [Opened(port, p.baud)] == ProbeOpen(t, port, p);
    if Reaches(w, t, port, p) {
      assert AckedAt(w, t, port, profiles, 0);
    } else {
      assert StoppedAt(w, t, port, profiles, 0);
    }
  }

  /** `DetectFirstAcknowledged` after a refused first probe: every index
      moves down by one onto the rest of the profiles. */
  lemma {:induction false} DetectRefusedFirst(w: World, t: seq<Event>, port: string, profiles: seq<SerialProfile>)
    requires profiles != []
    requires Reaches(w, t, port, profiles[0]) && !ProbeAt(w, t, port, profiles[0]).ok
    ensures var d := DetectFrom(w, t, port, profiles);
            && (d.result.Some? <==> exists k :: 0 <= k < |profiles| && AckedAt(w, t, port, profiles, k))
            && (forall k :: 0 <= k < |profiles| && AckedAt(w, t, port, profiles, k) ==>
                  var r := RoleReply(w, RefusedRun(w, t, port, profiles, k).value, port, profiles[k]);
                  d.result == Some(Detection(Classify(r), profiles[k], r)))
            && (d.result.None? <==>
                  RefusedRun(w, t, port, profiles, |profiles|).Some?
                  || exists k :: 0 <= k < |profiles| && StoppedAt(w, t, port, profiles, k))
    decreases |profiles|, 0
  {
    var p := profiles[0];
    var rest := profiles[1..];
    var u := ProbeAt(w, t, port, p).trace;
    var d := DetectFrom(w, u, port, rest);
    DetectSkipsRefused(w, t, port, profiles);
    DetectFirstAcknowledged(w, u, port, rest);
    RefusedFirstAcked(w, t, port, profiles, d);
    RefusedFirstStopped(w, t, port, profiles, d);
    RefusedFirstReplies(w, t, port, profiles, d);
  }

  /** After a refused first probe, what the rest reports for its probe
      `k - 1` is what the whole list reports for its probe `k`. */
  lemma RefusedFirstReplies(w: World, t: seq<Event>, port: string, profiles: seq<SerialProfile>, d: Detected)
    requires profiles != []
    requires Reaches(w, t, port, profiles[0]) && !ProbeAt(w, t, port, profiles[0]).ok
    requires var u := ProbeAt(w, t, port, profiles[0]).trace;
             var rest := profiles[1..];
             forall k :: 0 <= k < |rest| && AckedAt(w, u, port, rest, k) ==>
               var r := RoleReply(w, RefusedRun(w, u, port, rest, k).value, port, rest[k]);
               d.result == Some(Detection(Classify(r), rest[k], r))
    ensures forall k :: 0 <= k < |profiles| && AckedAt(w, t, port, profiles, k) ==>
              var r := RoleReply(w, RefusedRun(w, t, port, profiles, k).value, port, profiles[k]);
              d.result == Some(Detection(Classify(r), profiles[k], r))
  {
    var u := ProbeAt(w, t, port, profiles[0]).trace;
    var rest := profiles[1..];
    RefusedFirstShifts(w, t, port, profiles);
    forall k | 0 <= k < |profiles| && AckedAt(w, t, port, profiles, k)
      ensures var r := RoleReply(w, RefusedRun(w, t, port, profiles, k).value, port, profiles[k]);
              d.result == Some(Detection(Classify(r), profiles[k], r))
    {
      assert AckedAt(w, u, port, rest, k - 1);
      assert profiles[k] == rest[k - 1];
    }
  }

  /** A refused first probe hands detection on to the rest of the profiles. */
  lemma DetectSkipsRefused(w: World, t: seq<Event>, port: string, profiles: seq<SerialProfile>)
    requires profiles != []
    requires Reaches(w, t, port, profiles[0]) && !ProbeAt(w, t, port, profiles[0]).ok
    ensures DetectFrom(w, t, port, profiles) == DetectFrom(w, ProbeAt(w, t, port, profiles[0]).trace, port, profiles[1..])
  {
    var p := profiles[0];
    assert t + [Polled] + [Opened(port, p.baud)] == ProbeOpen(t, port, p);
  }

  /** After a refused first probe, the whole list has an acknowledging probe
      exactly when the rest has one. */
  lemma RefusedFirstAcked(w: World, t: seq<Event>, port: string, profiles: seq<SerialProfile>, d: Detected)
    requires profiles != []
    requires Reaches(w, t, port, profiles[0]) && !ProbeAt(w, t, port, profiles[0]).ok
    requires var u := ProbeAt(w, t, port, profiles[0]).trace;
             var rest := profiles[1..];
             d.result.Some? <==> exists k :: 0 <= k < |rest| && AckedAt(w, u, port, rest, k)
    ensures d.result.Some? <==> exists k :: 0 <= k < |profiles| && AckedAt(w, t, port, profiles, k)
  {
    var u := ProbeAt(w, t, port, profiles[0]).trace;
    var rest := profiles[1..];
    RefusedFirstShifts(w, t, port, profiles);
    if exists k :: 0 <= k < |profiles| && AckedAt(w, t, port, profiles, k) {
      var k :| 0 <= k < |profiles| && AckedAt(w, t, port, profiles, k);
      assert AckedAt(w, u, port, rest, k - 1);
    }
    if exists k :: 0 <= k < |rest| && AckedAt(w, u, port, rest, k) {
      var k :| 0 <= k < |rest| && AckedAt(w, u, port, rest, k);
      assert AckedAt(w, t, port, profiles, k + 1);
    }
  }

  /** After a refused first probe, the whole list ends without a detection
      exactly when the rest does. */
  lemma RefusedFirstStopped(w: World, t: seq<Event>, port: string, profiles: seq<SerialProfile>, d: Detected)
    requires profiles != []
    requires Reaches(w, t, port, profiles[0]) && !ProbeAt(w, t, port, profiles[0]).ok
    requires var u := ProbeAt(w, t, port, profiles[0]).trace;
             var rest := profiles[1..];
             d.result.None? <==>
               RefusedRun(w, u, port, rest, |rest|).Some?
               || exists k :: 0 <= k < |rest| && StoppedAt(w, u, port, rest, k)
    ensures d.result.None? <==>
              RefusedRun(w, t, port, profiles, |profiles|).Some?
              || exists k :: 0 <= k < |profiles| && StoppedAt(w, t, port, profiles, k)
  {
    var u := ProbeAt(w, t, port, profiles[0]).trace;
    var rest := profiles[1..];
    RefusedFirstShifts(w, t, port, profiles);
    RefusedRunShift(w, t, port, profiles, |rest|);
    if exists k :: 0 <= k < |profiles| && StoppedAt(w, t, port, profiles, k) {
      var k :| 0 <= k < |profiles| && StoppedAt(w, t, port, profiles, k);
      assert StoppedAt(w, u, port, rest, k - 1);
    }
    if exists k :: 0 <= k < |rest| && StoppedAt(w, u, port, rest, k) {
      var k :| 0 <= k < |rest| && StoppedAt(w, u, port, rest, k);
      assert StoppedAt(w, t, port, profiles, k + 1);
    }
  }

  /** After a refused first probe, probe `k + 1` of the whole list is probe
      `k` of the rest, started where the first probe ended. */
  lemma RefusedFirstShifts(w: World, t: seq<Event>, port: string, profiles: seq<SerialProfile>)
    requires profiles != []
    requires Reaches(w, t, port, profiles[0]) && !ProbeAt(w, t, port, profiles[0]).ok
    ensures var u := ProbeAt(w, t, port, profiles[0]).trace;
            && !AckedAt(w, t, port, profiles, 0) && !StoppedAt(w, t, port, profiles, 0)
            && RefusedRun(w, t, port, profiles, |profiles|) == RefusedRun(w, u, port, profiles[1..], |profiles| - 1)
            && (forall k :: 0 < k < |profiles| ==>
                  && RefusedRun(w, t, port, profiles, k) == RefusedRun(w, u, port, profiles[1..], k - 1)
                  && (AckedAt(w, t, port, profiles, k) <==> AckedAt(w, u, port, profiles[1..], k - 1))
                  && (StoppedAt(w, t, port, profiles, k) <==> StoppedAt(w, u, port, profiles[1..], k - 1)))
  {
    var u := ProbeAt(w, t, port, profiles[0]).trace;
    var rest := profiles[1..];
    assert RefusedRun(w, t, port, profiles, 0) == Some(t);
    forall k | 0 < k < |profiles|
      ensures RefusedRun(w, t, port, profiles, k) == RefusedRun(w, u, port, rest, k - 1)
      ensures AckedAt(w, t, port, profiles, k) <==> AckedAt(w, u, port, rest, k - 1)
      ensures StoppedAt(w, t, port, profiles, k) <==> StoppedAt(w, u, port, rest, k - 1)
    {
      RefusedRunShift(w, t, port, profiles, k - 1);
      assert profiles[k] == rest[k - 1];
    }
    RefusedRunShift(w, t, port, profiles, |rest|);
  }

  /** With a profile to try, detection starts by checking the cancellation
      signal, and everything it does comes after. */
  lemma {:induction false} DetectPollsFirst(w: World, t: seq<Event>, port: string, profiles: seq<SerialProfile>)
    requires profiles != []
    ensures IsPrefix(t + [Polled], DetectFrom(w, t, port, profiles).trace)
  {
    var p := profiles[0];
    var t1 := t + [Polled];
    var t2 := t1 + [Opened(port, p.baud)];
    if !w.cancelled(t1) && w.opens(t2) {
      var at := Send(w, t2, "AT", p, true, 2);
      PrefixTrans(t1, t2, at.trace);
      if !at.ok {
        PrefixTrans(t1, at.trace, DetectFrom(w, at.trace, port, profiles[1..]).trace);
      } else {
        PrefixTrans(t1, at.trace, Send(w, at.trace, "AT+ROLE?", p, false, 1).trace);
      }
    }
  }

  /** The bit rates of a list of profiles, in order. */
  function Bauds(profiles: seq<SerialProfile>): (r: seq<int>)
    ensures |r| == |profiles|
    ensures forall i :: 0 <= i < |r| ==> r[i] == profiles[i].baud
  {
    if profiles == [] then [] else [profiles[0].baud] + Bauds(profiles[1..])
  }

  /** The events one probe adds before the exchanges: the cancellation check
      and the opening of the port. */
  lemma ProbeHead(port: string, baud: int)
    ensures OpenedBauds([Polled, Opened(port, baud)]) == [baud]
    ensures OpensOnly([Polled, Opened(port, baud)], port)
  {
    var head := [Polled, Opened(port, baud)];
    assert head[1..] == [Opened(port, baud)];
    assert [Opened(port, baud)][1..] == [];
    assert OpenedBauds([Opened(port, baud)]) == [baud] + OpenedBauds([]);
  }

  lemma PrefixCons(x: int, a: seq<int>, b: seq<int>)
    requires IsPrefix(a, b)
    ensures IsPrefix([x] + a, [x] + b)
  {
    assert ([x] + b)[..|a| + 1] == [x] + b[..|a|];
  }

  /** The bit rates one probe opens at: its own, then those of what follows
      its exchanges. */
  lemma OpenedBaudsStep(t: seq<Event>, t2: seq<Event>, mid: seq<Event>, d: seq<Event>, port: string, baud: int)
    requires t2 == t + [Polled, Opened(port, baud)]
    requires IsPrefix(t2, mid) && IsPrefix(mid, d)
    requires OpenedBauds(mid[|t2|..]) == []
    ensures OpenedBauds(d[|t|..]) == [baud] + OpenedBauds(d[|mid|..])
  {
    var head := [Polled, Opened(port, baud)];
    ProbeHead(port, baud);
    assert t2[..|t|] == t && t2[|t|..] == head;
    SuffixSplit(t, t2, mid);
    PrefixTrans(t, t2, mid);
    SuffixSplit(t, mid, d);
    OpenedBaudsAppend(head, mid[|t2|..]);
    OpenedBaudsAppend(mid[|t|..], d[|mid|..]);
  }

  /** Detection opens the port at the profiles' rates in the order listed,
      each at most once, and stops at the first profile that will not open. */
  lemma {:induction false} DetectOpensInOrder(w: World, t: seq<Event>, port: string, profiles: seq<SerialProfile>)
    ensures var d := DetectFrom(w, t, port, profiles);
            IsPrefix(OpenedBauds(d.trace[|t|..]), Bauds(profiles))
    decreases |profiles|, 1
  {
    var d := DetectFrom(w, t, port, profiles);
    if profiles == [] {
      assert d.trace[|t|..] == [];
    } else {
      var p := profiles[0];
      var t1 := t + [Polled];
      var t2 := t1 + [Opened(port, p.baud)];
      assert Bauds(profiles) == [p.baud] + Bauds(profiles[1..]);
      if w.cancelled(t1) {
        assert d.trace[|t|..] == [Polled];
        assert OpenedBauds([Polled]) == OpenedBauds([]);
      } else if !w.opens(t2) {
        ProbeHead(port, p.baud);
        assert d.trace[|t|..] == [Polled, Opened(port, p.baud)];
      } else {
        ProbeOpensInOrder(w, t, port, profiles);
      }
    }
  }

  /** The same once the first profile's port has opened. */
  lemma {:induction false} ProbeOpensInOrder(w: World, t: seq<Event>, port: string, profiles: seq<SerialProfile>)
    requires profiles != []
    requires !w.cancelled(t + [Polled]) && w.opens(t + [Polled] + [Opened(port, profiles[0].baud)])
    ensures var d := DetectFrom(w, t, port, profiles);
            IsPrefix(OpenedBauds(d.trace[|t|..]), Bauds(profiles))
    decreases |profiles|, 0
  {
    var d := DetectFrom(w, t, port, profiles);
    var p := profiles[0];
    var t2 := t + [Polled] + [Opened(port, p.baud)];
    assert Bauds(profiles) == [p.baud] + Bauds(profiles[1..]);
    var at := Send(w, t2, "AT", p, true, 2);
    SendOpensNothing(w, t2, "AT", p, true, 2);
    if !at.ok {
      assert d == DetectFrom(w, at.trace, port, profiles[1..]);
      DetectOpensInOrder(w, at.trace, port, profiles[1..]);
      OpenedBaudsStep(t, t2, at.trace, d.trace, port, p.baud);
      PrefixCons(p.baud, OpenedBauds(d.trace[|at.trace|..]), Bauds(profiles[1..]));
    } else {
      var role := Send(w, at.trace, "AT+ROLE?", p, false, 1);
      assert d.trace == role.trace;
      SendOpensNothing(w, at.trace, "AT+ROLE?", p, false, 1);
      OpenedBaudsStep(t, t2, at.trace, role.trace, port, p.baud);
      PrefixCons(p.baud, [], Bauds(profiles[1..]));
    }
  }

  /** Event `i` of `tr`, if it opens the port, opened it. */
  predicate OpenedOk(w: World, tr: seq<Event>, i: nat)
    requires i < |tr|
  {
    tr[i].Opened? ==> w.opens(tr[..i + 1])
  }

  /** No event of `tr` from `from` on, except the last, is a failed open. */
  predicate OpensSucceedFrom(w: World, tr: seq<Event>, from: nat) {
    forall i: nat :: from <= i < |tr| - 1 ==> OpenedOk(w, tr, i)
  }

  lemma NoOpenAt(x: seq<Event>, from: nat, i: nat)
    requires from <= i < |x|
    requires forall e :: e in x[from..] ==> !e.Opened?
    ensures !x[i].Opened?
  {
    assert x[i] == x[from..][i - from];
  }

  lemma NoOpensSucceed(w: World, tr: seq<Event>, from: nat)
    requires from <= |tr|
    requires forall e :: e in tr[from..] ==> !e.Opened?
    ensures OpensSucceedFrom(w, tr, from)
  {
    forall i: nat | from <= i < |tr| - 1
      ensures OpenedOk(w, tr, i)
    {
      NoOpenAt(tr, from, i);
    }
  }

  /** A probe that opened the port and whose AT exchange opened nothing
      keeps the property for whatever follows. */
  lemma ProbeOpensSucceed(w: World, tr: seq<Event>, t: seq<Event>, port: string, baud: int, mid: seq<Event>)
    requires w.opens(t + [Polled, Opened(port, baud)])
    requires IsPrefix(t + [Polled, Opened(port, baud)], mid) && IsPrefix(mid, tr)
    requires forall e :: e in mid[|t| + 2..] ==> !e.Opened?
    requires OpensSucceedFrom(w, tr, |mid|)
    ensures OpensSucceedFrom(w, tr, |t|)
  {
    var t2 := t + [Polled, Opened(port, baud)];
    assert tr[..|t2|] == t2 by { assert tr[..|t2|] == tr[..|mid|][..|t2|]; }
    assert tr[..|mid|] == mid;
    forall i: nat | |t| <= i < |tr| - 1
      ensures OpenedOk(w, tr, i)
    {
      if i == |t| + 1 {
        assert tr[..i + 1] == t2;
      } else if i == |t| {
        assert tr[i] == t2[i];
      } else if i < |mid| {
        assert tr[i] == mid[i];
        NoOpenAt(mid, |t2|, i);
      }
    }
  }

  /** A port that will not open ends detection: `detect_module` breaks out of
      its loop there instead of trying the next profile. */
  lemma {:induction false} DetectStopsAtOpenFailure(w: World, t: seq<Event>, port: string, profiles: seq<SerialProfile>)
    ensures OpensSucceedFrom(w, DetectFrom(w, t, port, profiles).trace, |t|)
    decreases |profiles|
  {
    var d := DetectFrom(w, t, port, profiles);
    if profiles != [] {
      var p := profiles[0];
      var t1 := t + [Polled];
      var t2 := t1 + [Opened(port, p.baud)];
      if w.cancelled(t1) {
        assert d.trace == t1;
      } else if !w.opens(t2) {
        assert d.trace == t2;
        assert d.trace[|t|] == Polled;
      } else {
        assert t2 == t + [Polled, Opened(port, p.baud)];
        var at := Send(w, t2, "AT", p, true, 2);
        SendOpensNothing(w, t2, "AT", p, true, 2);
        if at.ok {
          var role := Send(w, at.trace, "AT+ROLE?", p, false, 1);
          assert d.trace == role.trace;
          SendOpensNothing(w, at.trace, "AT+ROLE?", p, false, 1);
          NoOpensSucceed(w, role.trace, |at.trace|);
        } else {
          assert d == DetectFrom(w, at.trace, port, profiles[1..]);
          DetectStopsAtOpenFailure(w, at.trace, port, profiles[1..]);
        }
        ProbeOpensSucceed(w, d.trace, t, port, p.baud, at.trace);
      }
    }
  }

  /** One probe's stretch of trace opens only `port` when its own open does
      and what follows its exchange does. */
  lemma OpensOnlyStep(t: seq<Event>, t2: seq<Event>, mid: seq<Event>, d: seq<Event>, port: string, baud: int)
    requires t2 == t + [Polled, Opened(port, baud)]
    requires IsPrefix(t2, mid) && IsPrefix(mid, d)
    requires forall e :: e in mid[|t2|..] ==> !e.Opened?
    requires OpensOnly(d[|mid|..], port)
    ensures OpensOnly(d[|t|..], port)
  {
    PrefixTrans(t2, mid, d);
    SuffixSplit(t2, mid, d);
    assert d[..|t2|] == t2;
    assert d[|t|..] == [Polled, Opened(port, baud)] + d[|t2|..];
  }

  /** Detection opens no port but the one it was given. */
  lemma {:induction false} DetectOpensOnlyPort(w: World, t: seq<Event>, port: string, profiles: seq<SerialProfile>)
    ensures var d := DetectFrom(w, t, port, profiles);
            OpensOnly(d.trace[|t|..], port)
    decreases |profiles|
  {
    var d := DetectFrom(w, t, port, profiles);
    if profiles != [] {
      var p := profiles[0];
      var t1 := t + [Polled];
      var t2 := t1 + [Opened(port, p.baud)];
      if w.cancelled(t1) {
        assert d.trace[|t|..] == [Polled];
      } else if !w.opens(t2) {
        assert d.trace[|t|..] == [Polled, Opened(port, p.baud)];
      } else {
        var at := Send(w, t2, "AT", p, true, 2);
        SendOpensNothing(w, t2, "AT", p, true, 2);
        if at.ok {
          SendOpensNothing(w, at.trace, "AT+ROLE?", p, false, 1);
        } else {
          assert d == DetectFrom(w, at.trace, port, profiles[1..]);
          DetectOpensOnlyPort(w, at.trace, port, profiles[1..]);
        }
        OpensOnlyStep(t, t2, at.trace, d.trace, port, p.baud);
      }
    }
  }

  /** The probing loop of `detect_module`, run against the link. */
  method DetectModule(io: Io, port: string, profiles: seq<SerialProfile>) returns (result: Option<Detection>)
    modifies io
    ensures Detected(result, io.trace) == Detect(io.world, old(io.trace), port, profiles)
  {
    var candidates := Candidates(profiles);
    var i := 0;
    while i < |candidates|
      invariant 0 <= i <= |candidates|
      invariant DetectFrom(io.world, io.trace, port, candidates[i..]) == Detect(io.world, old(io.trace), port, profiles)
    {
      var p := candidates[i];
      assert candidates[i..][1..] == candidates[i + 1..];
      var stop := io.Poll();
      if stop {
        return None;
      }
      var up := io.Open(port, p.baud);
      if !up {
        return None;
      }
      var ok, _ := SendCommand(io, "AT", p, true, 2);
      if ok {
        var _, roleResponse := SendCommand(io, "AT+ROLE?", p, false, 1);
        return Some(Detection(Classify(roleResponse), p, roleResponse));
      }
      i := i + 1;
    }
    return None;
  }
}
