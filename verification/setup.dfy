/** The one-module setup routines, `configure_hc05`, `configure_hc06` and
    `run_setup`: fixed command sequences over the same link as the pairing
    engine. Each routine opens the port at the detected profile's rate, then
    sends its commands one after the other, stopping at the first refused one
    and reading the cancellation signal between the settings. */
module Setup {
  import opened Wrappers
  import opened Text
  import opened Exchange
  import opened Plans

  datatype Configured = Configured(ok: bool, trace: seq<Event>)

  /** The value `AT+ROLE=` is given: 0 for the slave, 1 for anything else. */
  function RoleValue(role: string): string {
    if role == "slave" then "0" else "1"
  }

  /** A setting with a second spelling: the fallback command is sent only when
      the first is refused. */
  function SendOrElse(w: World, t: seq<Event>, primary: string, fallback: string, profile: SerialProfile)
    : Exchanged
  {
    var a := Send(w, t, primary, profile, true, 1);
    if a.ok then a else Send(w, a.trace, fallback, profile, true, 1)
  }

  /** An optional setting: nothing is sent, and nothing fails, when the value
      is absent or empty. */
  function Unset(t: seq<Event>): Exchanged {
    Exchanged(true, "", t)
  }

  // ---------------------------------------------------------------------------
  // configure_hc05

  function NameHC05(w: World, t: seq<Event>, name: Option<string>, profile: SerialProfile): Exchanged {
    if Given(name) then Send(w, t, "AT+NAME=" + name.value, profile, true, 1) else Unset(t)
  }

  function PinHC05(w: World, t: seq<Event>, pin: Option<string>, profile: SerialProfile): Exchanged {
    if Given(pin) then SendOrElse(w, t, "AT+PSWD=" + pin.value, "AT+PIN=" + pin.value, profile) else Unset(t)
  }

  /** `configure_hc05`: open the port; AT (two attempts); the name; the pin,
      AT+PSWD= then AT+PIN=; the rate; the role; then AT+RESET, whose reply
      is not judged. The signal is read after AT, after the name and after the
      pin. */
  function SetupHC05(w: World, t: seq<Event>, port: string, profile: SerialProfile, name: Option<string>,
                     pin: Option<string>, baud: int, role: string): Configured
  {
    var t0 := t + [Opened(port, profile.baud)];
    if !w.opens(t0) then Configured(false, t0)
    else
      var at := Send(w, t0, "AT", profile, true, 2);
      if !at.ok then Configured(false, at.trace)
      else
        var c1 := at.trace + [Polled];
        if w.cancelled(c1) then Configured(false, c1)
        else
          var n := NameHC05(w, c1, name, profile);
          if !n.ok then Configured(false, n.trace)
          else
            var c2 := n.trace + [Polled];
            if w.cancelled(c2) then Configured(false, c2)
            else
              var p := PinHC05(w, c2, pin, profile);
              if !p.ok then Configured(false, p.trace)
              else
                var c3 := p.trace + [Polled];
                if w.cancelled(c3) then Configured(false, c3)
                else SettleHC05(w, c3, profile, baud, role)
  }

  /** The tail of `configure_hc05`: rate, role, reset. */
  function SettleHC05(w: World, t: seq<Event>, profile: SerialProfile, baud: int, role: string): Configured {
    var u := Send(w, t, UartCommand(baud), profile, true, 1);
    if !u.ok then Configured(false, u.trace)
    else
      var r := Send(w, u.trace, "AT+ROLE=" + RoleValue(role), profile, true, 1);
      if !r.ok then Configured(false, r.trace)
      else Configured(true, Send(w, r.trace, "AT+RESET", profile, false, 1).trace)
  }

  // ---------------------------------------------------------------------------
  // configure_hc06

  function NameHC06(w: World, t: seq<Event>, name: Option<string>, profile: SerialProfile): Exchanged {
    if Given(name) then SendOrElse(w, t, "AT+NAME" + name.value, "AT+NAME=" + name.value, profile) else Unset(t)
  }

  function PinHC06(w: World, t: seq<Event>, pin: Option<string>, profile: SerialProfile): Exchanged {
    if Given(pin) then SendOrElse(w, t, "AT+PIN" + pin.value, "AT+PSWD=" + pin.value, profile) else Unset(t)
  }

  /** `configure_hc06`: open the port; AT (two attempts); the name, AT+NAME
      then AT+NAME=; the pin, AT+PIN then AT+PSWD=; then the rate by its
      table code. The rate is looked up only after the name and the pin have
      been sent, and a rate missing from the table fails the routine there. */
  function SetupHC06(w: World, t: seq<Event>, port: string, profile: SerialProfile, name: Option<string>,
                     pin: Option<string>, baud: int): Configured
  {
    var t0 := t + [Opened(port, profile.baud)];
    if !w.opens(t0) then Configured(false, t0)
    else
      var at := Send(w, t0, "AT", profile, true, 2);
      if !at.ok then Configured(false, at.trace)
      else
        var c1 := at.trace + [Polled];
        if w.cancelled(c1) then Configured(false, c1)
        else
          var n := NameHC06(w, c1, name, profile);
          if !n.ok then Configured(false, n.trace)
          else
            var c2 := n.trace + [Polled];
            if w.cancelled(c2) then Configured(false, c2)
            else
              var p := PinHC06(w, c2, pin, profile);
              if !p.ok then Configured(false, p.trace)
              else
                var c3 := p.trace + [Polled];
                if w.cancelled(c3) then Configured(false, c3)
                else if baud !in HC06BaudMap then Configured(false, c3)
                else
                  var b := Send(w, c3, "AT+BAUD" + HC06BaudMap[baud], profile, true, 1);
                  Configured(b.ok, b.trace)
  }

  // ---------------------------------------------------------------------------
  // run_setup

  /** The family name `detect_module` reports. */
  function FamilyName(f: Family): string {
    match f
    case HC05 => "hc05"
    case HC06 => "hc06"
  }

  /** The routine `run_setup` uses: the requested module unless it is
      "auto", then the detected one; any name other than "hc05" means the
      HC-06 routine. */
  function Chosen(requested: string, detected: Family): (f: Family)
    ensures requested == "hc05" ==> f == HC05
    ensures requested == "auto" ==> f == detected
    ensures requested != "hc05" && requested != "auto" ==> f == HC06
  {
    var m := if requested != "auto" then requested else FamilyName(detected);
    if m == "hc05" then HC05 else HC06
  }

  datatype SetupRun = SetupRun(ok: bool, detection: Option<Detection>, trace: seq<Event>)

  /** `run_setup`: detect with the default profiles, then configure with the
      chosen routine at the detected profile. */
  function Setup(w: World, t: seq<Event>, port: string, requested: string, name: Option<string>,
                 pin: Option<string>, baud: int, role: string): SetupRun
  {
    var d := Detect(w, t, port, []);
    match d.result
    case None => SetupRun(false, None, d.trace)
    case Some(det) =>
      var c := if Chosen(requested, det.family) == HC05 then SetupHC05(w, d.trace, port, det.profile, name, pin, baud, role)
               else SetupHC06(w, d.trace, port, det.profile, name, pin, baud);
      SetupRun(c.ok, Some(det), c.trace)
  }

  // ---------------------------------------------------------------------------
  // What the routines send

  /** From `t` on, `x` only reads the signal and writes payloads from `allowed`:
      it opens nothing. */
  predicate Stays(t: seq<Event>, x: seq<Event>, allowed: set<string>) {
    IsPrefix(t, x) && forall e :: e in x[|t|..] ==> e == Polled || (e.Wrote? && e.payload in allowed)
  }

  lemma StaysRefl(t: seq<Event>, allowed: set<string>)
    ensures Stays(t, t, allowed)
  {
    assert t[|t|..] == [];
  }

  lemma StaysPoll(t: seq<Event>, allowed: set<string>)
    ensures Stays(t, t + [Polled], allowed)
  {
    assert (t + [Polled])[|t|..] == [Polled];
  }

  lemma StaysTrans(a: seq<Event>, b: seq<Event>, c: seq<Event>, allowed: set<string>)
    requires Stays(a, b, allowed) && Stays(b, c, allowed)
    ensures Stays(a, c, allowed)
  {
    PrefixTrans(a, b, c);
    SuffixSplit(a, b, c);
  }

  /** An exchange stays within any set holding its payload. */
  lemma SendStays(w: World, t: seq<Event>, command: string, profile: SerialProfile, expectOk: bool, retries: int,
                  allowed: set<string>)
    requires Payload(command, profile.ending) in allowed
    ensures Stays(t, Send(w, t, command, profile, expectOk, retries).trace, allowed)
  {
    AttemptsWrites(w, t, Payload(command, profile.ending), expectOk, retries, "");
  }

  /** An accepted exchange has written its payload. */
  lemma SendOkWrote(w: World, t: seq<Event>, command: string, profile: SerialProfile, expectOk: bool, retries: int)
    ensures var x := Send(w, t, command, profile, expectOk, retries);
            x.ok ==> |t| < |x.trace| && x.trace[|x.trace| - 1] == Wrote(Payload(command, profile.ending))
  {
    var x := Send(w, t, command, profile, expectOk, retries);
    AttemptsOutcome(w, t, Payload(command, profile.ending), expectOk, retries, "");
    AttemptsWrites(w, t, Payload(command, profile.ending), expectOk, retries, "");
    if x.ok {
      assert x.trace[|x.trace| - 1] in x.trace[|t|..];
    }
  }

  lemma SendOrElseStays(w: World, t: seq<Event>, primary: string, fallback: string, profile: SerialProfile,
                        allowed: set<string>)
    requires Payload(primary, profile.ending) in allowed && Payload(fallback, profile.ending) in allowed
    ensures Stays(t, SendOrElse(w, t, primary, fallback, profile).trace, allowed)
  {
    var a := Send(w, t, primary, profile, true, 1);
    SendStays(w, t, primary, profile, true, 1, allowed);
    if !a.ok {
      SendStays(w, a.trace, fallback, profile, true, 1, allowed);
      StaysTrans(t, a.trace, Send(w, a.trace, fallback, profile, true, 1).trace, allowed);
    }
  }

  /** What `configure_hc05` may write: AT, the name and pin commands when those
      are given, the rate, the role and the reset. */
  function HC05Payloads(name: Option<string>, pin: Option<string>, baud: int, role: string, e: LineEnding)
    : set<string>
  {
    {Payload("AT", e), Payload(UartCommand(baud), e), Payload("AT+ROLE=" + RoleValue(role), e), Payload("AT+RESET", e)}
    + (if Given(name) then {Payload("AT+NAME=" + name.value, e)} else {})
    + (if Given(pin) then {Payload("AT+PSWD=" + pin.value, e), Payload("AT+PIN=" + pin.value, e)} else {})
  }

  /** What `configure_hc06` may write: AT, the name and pin commands when those
      are given and, only for a rate in the table, the rate command. */
  function HC06Payloads(name: Option<string>, pin: Option<string>, baud: int, e: LineEnding): set<string> {
    {Payload("AT", e)}
    + (if Given(name) then {Payload("AT+NAME" + name.value, e), Payload("AT+NAME=" + name.value, e)} else {})
    + (if Given(pin) then {Payload("AT+PIN" + pin.value, e), Payload("AT+PSWD=" + pin.value, e)} else {})
    + (if baud in HC06BaudMap then {Payload("AT+BAUD" + HC06BaudMap[baud], e)} else {})
  }

  /** `configure_hc05` opens the port once, at the profile's rate, before
      anything else, and then writes only its own commands. */
  lemma SetupHC05Writes(w: World, t: seq<Event>, port: string, profile: SerialProfile, name: Option<string>,
                        pin: Option<string>, baud: int, role: string)
    ensures var r := SetupHC05(w, t, port, profile, name, pin, baud, role);
            Stays(t + [Opened(port, profile.baud)], r.trace, HC05Payloads(name, pin, baud, role, profile.ending))
  {
    var allowed := HC05Payloads(name, pin, baud, role, profile.ending);
    var t0 := t + [Opened(port, profile.baud)];
    StaysRefl(t0, allowed);
    if w.opens(t0) {
      var at := Send(w, t0, "AT", profile, true, 2);
      SendStays(w, t0, "AT", profile, true, 2, allowed);
      if at.ok {
        var c1 := at.trace + [Polled];
        StaysPoll(at.trace, allowed);
        StaysTrans(t0, at.trace, c1, allowed);
        if !w.cancelled(c1) {
          var n := NameHC05(w, c1, name, profile);
          if Given(name) {
            SendStays(w, c1, "AT+NAME=" + name.value, profile, true, 1, allowed);
          } else {
            StaysRefl(c1, allowed);
          }
          StaysTrans(t0, c1, n.trace, allowed);
          if n.ok {
            var c2 := n.trace + [Polled];
            StaysPoll(n.trace, allowed);
            StaysTrans(t0, n.trace, c2, allowed);
            if !w.cancelled(c2) {
              var p := PinHC05(w, c2, pin, profile);
              if Given(pin) {
                SendOrElseStays(w, c2, "AT+PSWD=" + pin.value, "AT+PIN=" + pin.value, profile, allowed);
              } else {
                StaysRefl(c2, allowed);
              }
              StaysTrans(t0, c2, p.trace, allowed);
              if p.ok {
                var c3 := p.trace + [Polled];
                StaysPoll(p.trace, allowed);
                StaysTrans(t0, p.trace, c3, allowed);
                if !w.cancelled(c3) {
                  SettleHC05Writes(w, c3, profile, baud, role, allowed);
                  StaysTrans(t0, c3, SettleHC05(w, c3, profile, baud, role).trace, allowed);
                }
              }
            }
          }
        }
      }
    }
  }

  lemma SettleHC05Writes(w: World, t: seq<Event>, profile: SerialProfile, baud: int, role: string, allowed: set<string>)
    requires Payload(UartCommand(baud), profile.ending) in allowed
    requires Payload("AT+ROLE=" + RoleValue(role), profile.ending) in allowed
    requires Payload("AT+RESET", profile.ending) in allowed
    ensures Stays(t, SettleHC05(w, t, profile, baud, role).trace, allowed)
  {
    var u := Send(w, t, UartCommand(baud), profile, true, 1);
    SendStays(w, t, UartCommand(baud), profile, true, 1, allowed);
    if u.ok {
      var r := Send(w, u.trace, "AT+ROLE=" + RoleValue(role), profile, true, 1);
      SendStays(w, u.trace, "AT+ROLE=" + RoleValue(role), profile, true, 1, allowed);
      StaysTrans(t, u.trace, r.trace, allowed);
      if r.ok {
        SendStays(w, r.trace, "AT+RESET", profile, false, 1, allowed);
        StaysTrans(t, r.trace, Send(w, r.trace, "AT+RESET", profile, false, 1).trace, allowed);
      }
    }
  }

  /** `configure_hc05` succeeds only after the module accepted the rate and
      then the role, 0 for the slave and 1 otherwise. */
  lemma SettleHC05Sets(w: World, t: seq<Event>, profile: SerialProfile, baud: int, role: string)
    ensures var r := SettleHC05(w, t, profile, baud, role);
            r.ok ==>
              && Wrote(Payload(UartCommand(baud), profile.ending)) in r.trace
              && Wrote(Payload("AT+ROLE=" + RoleValue(role), profile.ending)) in r.trace
  {
    var u := Send(w, t, UartCommand(baud), profile, true, 1);
    SendOkWrote(w, t, UartCommand(baud), profile, true, 1);
    if u.ok {
      var r := Send(w, u.trace, "AT+ROLE=" + RoleValue(role), profile, true, 1);
      SendOkWrote(w, u.trace, "AT+ROLE=" + RoleValue(role), profile, true, 1);
      SendStays(w, u.trace, "AT+ROLE=" + RoleValue(role), profile, true, 1, {Payload("AT+ROLE=" + RoleValue(role), profile.ending)});
      if r.ok {
        var z := Send(w, r.trace, "AT+RESET", profile, false, 1);
        SendStays(w, r.trace, "AT+RESET", profile, false, 1, {Payload("AT+RESET", profile.ending)});
        assert z.trace[..|r.trace|] == r.trace;
        assert r.trace[..|u.trace|] == u.trace;
        assert r.trace[|r.trace| - 1] == z.trace[|r.trace| - 1];
        assert u.trace[|u.trace| - 1] == z.trace[|u.trace| - 1];
      }
    }
  }

  /** `configure_hc05` succeeds only once the module has accepted the rate
      and the role. */
  lemma SetupHC05Sets(w: World, t: seq<Event>, port: string, profile: SerialProfile, name: Option<string>,
                      pin: Option<string>, baud: int, role: string)
    ensures var r := SetupHC05(w, t, port, profile, name, pin, baud, role);
            r.ok ==>
              && Wrote(Payload(UartCommand(baud), profile.ending)) in r.trace
              && Wrote(Payload("AT+ROLE=" + RoleValue(role), profile.ending)) in r.trace
  {
    var t0 := t + [Opened(port, profile.baud)];
    var at := Send(w, t0, "AT", profile, true, 2);
    var c1 := at.trace + [Polled];
    var n := NameHC05(w, c1, name, profile);
    var c2 := n.trace + [Polled];
    var p := PinHC05(w, c2, pin, profile);
    var c3 := p.trace + [Polled];
    if w.opens(t0) && at.ok && !w.cancelled(c1) && n.ok && !w.cancelled(c2) && p.ok && !w.cancelled(c3) {
      SettleHC05Sets(w, c3, profile, baud, role);
    }
  }

  /** `configure_hc06` opens the port once, at the profile's rate, before
      anything else, and then writes only its own commands: never a rate
      command for a rate missing from the table. */
  lemma SetupHC06Writes(w: World, t: seq<Event>, port: string, profile: SerialProfile, name: Option<string>,
                        pin: Option<string>, baud: int)
    ensures var r := SetupHC06(w, t, port, profile, name, pin, baud);
            Stays(t + [Opened(port, profile.baud)], r.trace, HC06Payloads(name, pin, baud, profile.ending))
  {
    var allowed := HC06Payloads(name, pin, baud, profile.ending);
    var t0 := t + [Opened(port, profile.baud)];
    StaysRefl(t0, allowed);
    if w.opens(t0) {
      var at := Send(w, t0, "AT", profile, true, 2);
      SendStays(w, t0, "AT", profile, true, 2, allowed);
      if at.ok {
        var c1 := at.trace + [Polled];
        StaysPoll(at.trace, allowed);
        StaysTrans(t0, at.trace, c1, allowed);
        if !w.cancelled(c1) {
          var n := NameHC06(w, c1, name, profile);
          if Given(name) {
            SendOrElseStays(w, c1, "AT+NAME" + name.value, "AT+NAME=" + name.value, profile, allowed);
          } else {
            StaysRefl(c1, allowed);
          }
          StaysTrans(t0, c1, n.trace, allowed);
          if n.ok {
            var c2 := n.trace + [Polled];
            StaysPoll(n.trace, allowed);
            StaysTrans(t0, n.trace, c2, allowed);
            if !w.cancelled(c2) {
              var p := PinHC06(w, c2, pin, profile);
              if Given(pin) {
                SendOrElseStays(w, c2, "AT+PIN" + pin.value, "AT+PSWD=" + pin.value, profile, allowed);
              } else {
                StaysRefl(c2, allowed);
              }
              StaysTrans(t0, c2, p.trace, allowed);
              if p.ok {
                var c3 := p.trace + [Polled];
                StaysPoll(p.trace, allowed);
                StaysTrans(t0, p.trace, c3, allowed);
                if !w.cancelled(c3) && baud in HC06BaudMap {
                  var cmd := "AT+BAUD" + HC06BaudMap[baud];
                  SendStays(w, c3, cmd, profile, true, 1, allowed);
                  StaysTrans(t0, c3, Send(w, c3, cmd, profile, true, 1).trace, allowed);
                }
              }
            }
          }
        }
      }
    }
  }

  /** A rate missing from the table always fails `configure_hc06`; a success
      has the rate in the table and ends with writing its code. The converse,
      on a link that accepts everything, is `SetupHC06Live`. */
  lemma SetupHC06Outcome(w: World, t: seq<Event>, port: string, profile: SerialProfile, name: Option<string>,
                         pin: Option<string>, baud: int)
    ensures var r := SetupHC06(w, t, port, profile, name, pin, baud);
            && (baud !in HC06BaudMap ==> !r.ok)
            && (r.ok ==> baud in HC06BaudMap && |r.trace| > 0
                         && r.trace[|r.trace| - 1] == Wrote(Payload("AT+BAUD" + HC06BaudMap[baud], profile.ending)))
  {
    var t0 := t + [Opened(port, profile.baud)];
    var at := Send(w, t0, "AT", profile, true, 2);
    var c1 := at.trace + [Polled];
    var n := NameHC06(w, c1, name, profile);
    var c2 := n.trace + [Polled];
    var p := PinHC06(w, c2, pin, profile);
    var c3 := p.trace + [Polled];
    if w.opens(t0) && at.ok && !w.cancelled(c1) && n.ok && !w.cancelled(c2) && p.ok && !w.cancelled(c3)
       && baud in HC06BaudMap
    {
      SendOkWrote(w, c3, "AT+BAUD" + HC06BaudMap[baud], profile, true, 1);
    }
  }

  /** A link that opens, is never cancelled and acknowledges everything. */
  const Agreeable := World(tr => true, tr => Answer("OK"), tr => false)

  /** Unlike the pairing plan, which refuses an HC-06 rate missing from the
      table before touching the module, `configure_hc06` finds out only after
      sending the name: with a module that acknowledges everything, the name
      command is written and the routine still fails. */
  lemma SetupHC06RenamesBeforeRefusing(t: seq<Event>, port: string, profile: SerialProfile, name: Option<string>,
                                       baud: int)
    requires Given(name) && baud !in HC06BaudMap
    ensures var r := SetupHC06(Agreeable, t, port, profile, name, None, baud);
            !r.ok && Wrote(Payload("AT+NAME" + name.value, profile.ending)) in r.trace
  {
    var t0 := t + [Opened(port, profile.baud)];
    assert Accepts(true, "OK") by {
      assert Upper("OK")[0] == 'O' && Upper("OK")[1] == 'K';
      assert Upper("OK") == "OK";
      assert OccursAt(Upper("OK"), "OK", 0);
    }
    var at := Send(Agreeable, t0, "AT", profile, true, 2);
    assert at.ok;
    var c1 := at.trace + [Polled];
    var n := NameHC06(Agreeable, c1, name, profile);
    var first := Send(Agreeable, c1, "AT+NAME" + name.value, profile, true, 1);
    assert first.ok;
    SendOkWrote(Agreeable, c1, "AT+NAME" + name.value, profile, true, 1);
    assert n == first;
    var r := SetupHC06(Agreeable, t, port, profile, name, None, baud);
    assert r.trace == n.trace + [Polled] + [Polled];
    assert r.trace[|n.trace| - 1] == n.trace[|n.trace| - 1];
  }

  /** `run_setup` reports the detection it made; it configures only a detected
      module, on the same port, at the detected profile's rate, with the
      routine chosen from the requested module (AT+ROLE= sent and accepted
      for the HC-05 routine, a tabled rate for the HC-06 one). */
  lemma SetupEffects(w: World, t: seq<Event>, port: string, requested: string, name: Option<string>,
                     pin: Option<string>, baud: int, role: string)
    ensures var r := Setup(w, t, port, requested, name, pin, baud, role);
            var d := Detect(w, t, port, []);
            && r.detection == d.result
            && (r.ok ==> d.result.Some?)
            && (d.result.None? ==> r.trace == d.trace)
            && (d.result.Some? ==>
                  var det := d.result.value;
                  var e := det.profile.ending;
                  && (Chosen(requested, det.family) == HC05 ==>
                        && Stays(d.trace + [Opened(port, det.profile.baud)], r.trace, HC05Payloads(name, pin, baud, role, e))
                        && (r.ok ==> Wrote(Payload("AT+ROLE=" + RoleValue(role), e)) in r.trace))
                  && (Chosen(requested, det.family) == HC06 ==>
                        && Stays(d.trace + [Opened(port, det.profile.baud)], r.trace, HC06Payloads(name, pin, baud, e))
                        && (r.ok ==> baud in HC06BaudMap)))
  {
    var d := Detect(w, t, port, []);
    if d.result.Some? {
      var det := d.result.value;
      if Chosen(requested, det.family) == HC05 {
        SetupHC05Writes(w, d.trace, port, det.profile, name, pin, baud, role);
        SetupHC05Sets(w, d.trace, port, det.profile, name, pin, baud, role);
      } else {
        SetupHC06Writes(w, d.trace, port, det.profile, name, pin, baud);
        SetupHC06Outcome(w, d.trace, port, det.profile, name, pin, baud);
      }
    }
  }

  // ---------------------------------------------------------------------------
  // On a link that accepts everything

  /** Every port opens, the signal is never set and every write is answered
      "OK". */
  ghost predicate AcceptsAll(w: World) {
    forall tr :: w.opens(tr) && !w.cancelled(tr) && w.reply(tr) == Answer("OK")
  }

  /** On such a link an exchange with at least one attempt succeeds with the
      reply "OK". */
  lemma SendAcceptsAll(w: World, t: seq<Event>, command: string, profile: SerialProfile, expectOk: bool, retries: int)
    requires AcceptsAll(w) && retries >= 1
    ensures var x := Send(w, t, command, profile, expectOk, retries);
            x.ok && x.response == "OK"
  {
    assert Upper("OK") == "OK";
    assert OccursAt("OK", "OK", 0);
    var t2 := t + [Polled] + [Wrote(Payload(command, profile.ending))];
    assert w.reply(t2) == Answer("OK");
  }

  /** `configure_hc05` is not a routine that merely never fails: on a link
      that accepts everything it succeeds, whatever its settings. */
  lemma SetupHC05Live(w: World, t: seq<Event>, port: string, profile: SerialProfile, name: Option<string>,
                      pin: Option<string>, baud: int, role: string)
    requires AcceptsAll(w)
    ensures SetupHC05(w, t, port, profile, name, pin, baud, role).ok
  {
    var t0 := t + [Opened(port, profile.baud)];
    assert w.opens(t0);
    SendAcceptsAll(w, t0, "AT", profile, true, 2);
    var c1 := Send(w, t0, "AT", profile, true, 2).trace + [Polled];
    assert !w.cancelled(c1);
    if Given(name) {
      SendAcceptsAll(w, c1, "AT+NAME=" + name.value, profile, true, 1);
    }
    var c2 := NameHC05(w, c1, name, profile).trace + [Polled];
    assert !w.cancelled(c2);
    if Given(pin) {
      SendAcceptsAll(w, c2, "AT+PSWD=" + pin.value, profile, true, 1);
    }
    var c3 := PinHC05(w, c2, pin, profile).trace + [Polled];
    assert !w.cancelled(c3);
    SendAcceptsAll(w, c3, UartCommand(baud), profile, true, 1);
    var u := Send(w, c3, UartCommand(baud), profile, true, 1);
    SendAcceptsAll(w, u.trace, "AT+ROLE=" + RoleValue(role), profile, true, 1);
  }

  /** On a link that accepts everything, `configure_hc06` succeeds exactly
      when the rate is in the table. */
  lemma SetupHC06Live(w: World, t: seq<Event>, port: string, profile: SerialProfile, name: Option<string>,
                      pin: Option<string>, baud: int)
    requires AcceptsAll(w)
    ensures SetupHC06(w, t, port, profile, name, pin, baud).ok <==> baud in HC06BaudMap
  {
    var t0 := t + [Opened(port, profile.baud)];
    assert w.opens(t0);
    SendAcceptsAll(w, t0, "AT", profile, true, 2);
    var c1 := Send(w, t0, "AT", profile, true, 2).trace + [Polled];
    assert !w.cancelled(c1);
    if Given(name) {
      SendAcceptsAll(w, c1, "AT+NAME" + name.value, profile, true, 1);
    }
    var c2 := NameHC06(w, c1, name, profile).trace + [Polled];
    assert !w.cancelled(c2);
    if Given(pin) {
      SendAcceptsAll(w, c2, "AT+PIN" + pin.value, profile, true, 1);
    }
    var c3 := PinHC06(w, c2, pin, profile).trace + [Polled];
    assert !w.cancelled(c3);
    if baud in HC06BaudMap {
      SendAcceptsAll(w, c3, "AT+BAUD" + HC06BaudMap[baud], profile, true, 1);
    }
  }

  /** On a link that accepts everything, `run_setup` detects an HC-06 (the
      "OK" reply to AT+ROLE? names no role) at the first default profile,
      and succeeds exactly when the HC-05 routine was asked for or the rate
      is in the HC-06 table. */
  lemma SetupLive(w: World, t: seq<Event>, port: string, requested: string, name: Option<string>,
                  pin: Option<string>, baud: int, role: string)
    requires AcceptsAll(w)
    ensures var r := Setup(w, t, port, requested, name, pin, baud, role);
            && r.detection == Some(Detection(HC06, DetectionProfiles[0], "OK"))
            && (r.ok <==> requested == "hc05" || baud in HC06BaudMap)
  {
    var p := DetectionProfiles[0];
    var t2 := t + [Polled] + [Opened(port, p.baud)];
    assert !w.cancelled(t + [Polled]) && w.opens(t2);
    SendAcceptsAll(w, t2, "AT", p, true, 2);
    var at := Send(w, t2, "AT", p, true, 2);
    SendAcceptsAll(w, at.trace, "AT+ROLE?", p, false, 1);
    assert !OccursAt(Upper("OK"), "ROLE", 0);
    assert Classify("OK") == HC06;
    var d := Detect(w, t, port, []);
    assert d.result == Some(Detection(HC06, p, "OK"));
    if requested == "hc05" {
      SetupHC05Live(w, d.trace, port, p, name, pin, baud, role);
    } else {
      SetupHC06Live(w, d.trace, port, p, name, pin, baud);
    }
  }

  // ---------------------------------------------------------------------------
  // Against the link

  method SendSetting(io: Io, primary: string, fallback: string, profile: SerialProfile) returns (ok: bool)
    modifies io
    ensures ok == SendOrElse(io.world, old(io.trace), primary, fallback, profile).ok
    ensures io.trace == SendOrElse(io.world, old(io.trace), primary, fallback, profile).trace
  {
    var response;
    ok, response := SendCommand(io, primary, profile, true, 1);
    if !ok {
      ok, response := SendCommand(io, fallback, profile, true, 1);
    }
  }

  /** `configure_hc05`, run against the link. */
  method ConfigureHC05(io: Io, port: string, profile: SerialProfile, name: Option<string>, pin: Option<string>,
                       baud: int, role: string) returns (ok: bool)
    modifies io
    ensures Configured(ok, io.trace) == SetupHC05(io.world, old(io.trace), port, profile, name, pin, baud, role)
  {
    var up := io.Open(port, profile.baud);
    if !up {
      return false;
    }
    var response;
    ok, response := SendCommand(io, "AT", profile, true, 2);
    if !ok {
      return false;
    }
    var stop := io.Poll();
    if stop {
      return false;
    }
    if Given(name) {
      ok, response := SendCommand(io, "AT+NAME=" + name.value, profile, true, 1);
      if !ok {
        return false;
      }
    }
    stop := io.Poll();
    if stop {
      return false;
    }
    if Given(pin) {
      ok := SendSetting(io, "AT+PSWD=" + pin.value, "AT+PIN=" + pin.value, profile);
      if !ok {
        return false;
      }
    }
    stop := io.Poll();
    if stop {
      return false;
    }
    ok, response := SendCommand(io, UartCommand(baud), profile, true, 1);
    if !ok {
      return false;
    }
    ok, response := SendCommand(io, "AT+ROLE=" + RoleValue(role), profile, true, 1);
    if !ok {
      return false;
    }
    var _, _ := SendCommand(io, "AT+RESET", profile, false, 1);
    return true;
  }

  /** `configure_hc06`, run against the link. */
  method ConfigureHC06(io: Io, port: string, profile: SerialProfile, name: Option<string>, pin: Option<string>,
                       baud: int) returns (ok: bool)
    modifies io
    ensures Configured(ok, io.trace) == SetupHC06(io.world, old(io.trace), port, profile, name, pin, baud)
  {
    var up := io.Open(port, profile.baud);
    if !up {
      return false;
    }
    var response;
    ok, response := SendCommand(io, "AT", profile, true, 2);
    if !ok {
      return false;
    }
    var stop := io.Poll();
    if stop {
      return false;
    }
    if Given(name) {
      ok := SendSetting(io, "AT+NAME" + name.value, "AT+NAME=" + name.value, profile);
      if !ok {
        return false;
      }
    }
    stop := io.Poll();
    if stop {
      return false;
    }
    if Given(pin) {
      ok := SendSetting(io, "AT+PIN" + pin.value, "AT+PSWD=" + pin.value, profile);
      if !ok {
        return false;
      }
    }
    stop := io.Poll();
    if stop {
      return false;
    }
    if baud !in HC06BaudMap {
      return false;
    }
    ok, response := SendCommand(io, "AT+BAUD" + HC06BaudMap[baud], profile, true, 1);
  }

  /** `run_setup`, run against the link. */
  method RunSetup(io: Io, port: string, requested: string, name: Option<string>, pin: Option<string>,
                  baud: int, role: string) returns (ok: bool, detection: Option<Detection>)
    modifies io
    ensures SetupRun(ok, detection, io.trace) == Setup(io.world, old(io.trace), port, requested, name, pin, baud, role)
  {
    detection := DetectModule(io, port, []);
    if detection.None? {
      return false, None;
    }
    if Chosen(requested, detection.value.family) == HC05 {
      ok := ConfigureHC05(io, port, detection.value.profile, name, pin, baud, role);
    } else {
      ok := ConfigureHC06(io, port, detection.value.profile, name, pin, baud);
    }
  }
}
