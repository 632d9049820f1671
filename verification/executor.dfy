/** Running a plan on one port: `_execute_step`, the line-parse tail of
    `_inquire_addresses`, and `_run_plan_on_port`. The shared `PairContext`
    is the only state besides the link: the slave address once known, and
    whether the master's bind and link commands have succeeded. */
module Executor {
  import opened Wrappers
  import opened Text
  import opened Address
  import opened Exchange
  import opened Plans

  /** The value of a `PairContext`. */
  datatype Ctx = Ctx(slaveAddr: Option<Addr>, bindOk: bool, linkOk: bool)

  /** `PairContext`, shared by the slave and master phases of one pairing run. */
  class PairContext {
    var slaveAddr: Option<Addr>
    var bindOk: bool
    var linkOk: bool

    constructor ()
      ensures Value() == Ctx(None, false, false)
    {
      slaveAddr := None;
      bindOk := false;
      linkOk := false;
    }

    function Value(): Ctx
      reads this
    {
      Ctx(slaveAddr, bindOk, linkOk)
    }
  }

  /** What one phase runs with: the detected module, the name, pin and rate
      the operator asked for, and the operator's pick among scanned addresses
      (none: take the first). */
  datatype PhaseEnv = PhaseEnv(
    detection: Detection,
    name: Option<string>,
    pin: Option<string>,
    baud: int,
    choose: Option<seq<Addr> -> Option<Addr>>)

  datatype Outcome = Outcome(ok: bool, ctx: Ctx, trace: seq<Event>)

  /** The addresses a scan reply yields: one per line that carries one, in
      order; nothing when the write faulted. */
  function ScanResult(reply: Reply): seq<Addr> {
    match reply
    case WriteFault => []
    case Answer(buf) => AddrsInLines(Lines(buf))
  }

  /** `_inquire_addresses`: write AT+INQ, then parse the collected text line by line. */
  method InquireAddresses(io: Io, profile: SerialProfile) returns (addrs: seq<Addr>)
    modifies io
    ensures io.trace == old(io.trace) + [Wrote(Payload("AT+INQ", profile.ending))]
    ensures addrs == ScanResult(io.world.reply(io.trace))
  {
    var reply := io.Write(Payload("AT+INQ", profile.ending));
    if reply.WriteFault? {
      return [];
    }
    addrs := CollectAddrs(reply.text);
  }

  /** The inq step once the cancellation check has passed. */
  function Inquire(w: World, t: seq<Event>, c: Ctx, env: PhaseEnv): Outcome {
    if c.slaveAddr.Some? then Outcome(true, c, t)
    else
      var t2 := t + [Wrote(Payload("AT+INQ", env.detection.profile.ending))];
      var addrs := ScanResult(w.reply(t2));
      if addrs == [] then Outcome(false, c, t2)
      else
        var selected := match env.choose case Some(pick) => pick(addrs) case None => Some(addrs[0]);
        if selected.None? then Outcome(false, c, t2)
        else Outcome(true, c.(slaveAddr := selected), t2)
  }

  /** Send `first`; when it is not acknowledged, send `second`. Both expect OK
      and make one attempt, the defaults of `send_command`. */
  function Fallback(w: World, t: seq<Event>, first: string, second: string, profile: SerialProfile): Exchanged {
    var x := Send(w, t, first, profile, true, 1);
    if x.ok then x else Send(w, x.trace, second, profile, true, 1)
  }

  /** The pin step: PSWD then PIN on an HC-05, the reverse spellings on an HC-06. */
  function PinCommands(family: Family, pin: string): (string, string) {
    if family == HC05 then ("AT+PSWD=" + pin, "AT+PIN=" + pin) else ("AT+PIN" + pin, "AT+PSWD=" + pin)
  }

  /** A command step once the cancellation check has passed and the address
      placeholder, if any, has been filled in as `cmd`. */
  function ExecCommand(w: World, t: seq<Event>, c: Ctx, env: PhaseEnv, s: Step, cmd: string): Outcome {
    var family := env.detection.family;
    var profile := env.detection.profile;
    if s.id == "pin" then
      if env.pin.None? then Outcome(true, c, t)
      else
        var (first, second) := PinCommands(family, env.pin.value);
        var x := Fallback(w, t, first, second, profile);
        Outcome(x.ok || s.optional, c, x.trace)
    else if s.id == "name" then
      if env.name.None? then Outcome(true, c, t)
      else
        var x := if family == HC06 then Fallback(w, t, "AT+NAME" + env.name.value, "AT+NAME=" + env.name.value, profile)
                 else Send(w, t, cmd, profile, true, 1);
        Outcome(x.ok || s.optional, c, x.trace)
    else if s.id == "uart" then
      if family == HC06 && env.baud !in HC06BaudMap then Outcome(false, c, t)
      else
        var rate := if family == HC06 then "AT+BAUD" + HC06BaudMap[env.baud] else UartCommand(env.baud);
        var x := Send(w, t, rate, profile, s.expectOk, s.retries);
        Outcome(x.ok || s.optional, c, x.trace)
    else if s.id == "addr" then
      var x := Send(w, t, cmd, profile, false, s.retries);
      var parsed := ParseAddrResponse(x.response);
      if parsed.Some? then Outcome(true, c.(slaveAddr := parsed), x.trace)
      else Outcome(!s.critical, c, x.trace)
    else
      var x := Send(w, t, cmd, profile, s.expectOk, s.retries);
      var c' := c.(bindOk := c.bindOk || (s.id == "bind" && x.ok), linkOk := c.linkOk || (s.id == "link" && x.ok));
      Outcome(x.ok || s.optional, c', x.trace)
  }

  /** The command a command step sends: its own, with `{addr}` filled in
      from the context when an address is known. */
  function Filled(s: Step, c: Ctx): string {
    if Contains(s.command, "{addr}") && c.slaveAddr.Some? then ReplaceAll(s.command, "{addr}", c.slaveAddr.value.comma)
    else s.command
  }

  /** `_execute_step`. */
  function Exec(w: World, t: seq<Event>, c: Ctx, env: PhaseEnv, s: Step): Outcome {
    var t1 := t + [Polled];
    if w.cancelled(t1) then Outcome(false, c, t1)
    else if s.kind == InqStep then Inquire(w, t1, c, env)
    else if Contains(s.command, "{addr}") && c.slaveAddr.None? then Outcome(false, c, t1)
    else ExecCommand(w, t1, c, env, s, Filled(s, c))
  }

  /** The send-with-fallback of the pin and name steps, run against the link. */
  method SendWithFallback(io: Io, first: string, second: string, profile: SerialProfile) returns (ok: bool)
    modifies io
    ensures ok == Fallback(io.world, old(io.trace), first, second, profile).ok
    ensures io.trace == Fallback(io.world, old(io.trace), first, second, profile).trace
  {
    var response;
    ok, response := SendCommand(io, first, profile, true, 1);
    if !ok {
      ok, response := SendCommand(io, second, profile, true, 1);
    }
  }

  /** The inq step once the cancellation check has passed, run against the link. */
  method InquireStep(io: Io, ctx: PairContext, env: PhaseEnv) returns (ok: bool)
    modifies io, ctx
    ensures Outcome(ok, ctx.Value(), io.trace) == Inquire(io.world, old(io.trace), old(ctx.Value()), env)
  {
    if ctx.slaveAddr.Some? {
      return true;
    }
    var addrs := InquireAddresses(io, env.detection.profile);
    if addrs == [] {
      return false;
    }
    var selected := if env.choose.Some? then env.choose.value(addrs) else Some(addrs[0]);
    if selected.None? {
      return false;
    }
    ctx.slaveAddr := selected;
    return true;
  }

  /** A command step once the cancellation check has passed, run against the link. */
  method RunCommandStep(io: Io, ctx: PairContext, env: PhaseEnv, step: Step, cmd: string) returns (ok: bool)
    modifies io, ctx
    ensures Outcome(ok, ctx.Value(), io.trace) == ExecCommand(io.world, old(io.trace), old(ctx.Value()), env, step, cmd)
  {
    var family := env.detection.family;
    var profile := env.detection.profile;
    var response;
    if step.id == "pin" {
      if env.pin.None? {
        return true;
      }
      var (first, second) := PinCommands(family, env.pin.value);
      ok := SendWithFallback(io, first, second, profile);
      return ok || step.optional;
    }
    if step.id == "name" {
      if env.name.None? {
        return true;
      }
      if family == HC06 {
        ok := SendWithFallback(io, "AT+NAME" + env.name.value, "AT+NAME=" + env.name.value, profile);
      } else {
        ok, response := SendCommand(io, cmd, profile, true, 1);
      }
      return ok || step.optional;
    }
    if step.id == "uart" {
      var rate;
      if family == HC06 {
        if env.baud !in HC06BaudMap {
          return false;
        }
        rate := "AT+BAUD" + HC06BaudMap[env.baud];
      } else {
        rate := UartCommand(env.baud);
      }
      ok, response := SendCommand(io, rate, profile, step.expectOk, step.retries);
      return ok || step.optional;
    }
    if step.id == "addr" {
      ok, response := SendCommand(io, cmd, profile, false, step.retries);
      var parsed := ParseAddrResponse(response);
      if parsed.Some? {
        ctx.slaveAddr := parsed;
        return true;
      }
      return !step.critical;
    }
    ok, response := SendCommand(io, cmd, profile, step.expectOk, step.retries);
    if step.id == "bind" && ok {
      ctx.bindOk := true;
    }
    if step.id == "link" && ok {
      ctx.linkOk := true;
    }
    return ok || step.optional;
  }

  /** `_execute_step`, run against the link and the shared context. */
  method ExecuteStep(io: Io, ctx: PairContext, env: PhaseEnv, step: Step) returns (ok: bool)
    modifies io, ctx
    ensures Outcome(ok, ctx.Value(), io.trace) == Exec(io.world, old(io.trace), old(ctx.Value()), env, step)
  {
    var stop := io.Poll();
    if stop {
      return false;
    }
    if step.kind == InqStep {
      ok := InquireStep(io, ctx, env);
      return;
    }
    var cmd := step.command;
    if Contains(cmd, "{addr}") {
      if ctx.slaveAddr.None? {
        return false;
      }
      cmd := ReplaceAll(cmd, "{addr}", ctx.slaveAddr.value.comma);
    }
    ok := RunCommandStep(io, ctx, env, step, cmd);
  }

  /** The step loop of `_run_plan_on_port`: steps in order, stopping at the
      first that fails. */
  function RunSteps(w: World, t: seq<Event>, c: Ctx, env: PhaseEnv, steps: seq<Step>): Outcome
    decreases |steps|
  {
    if steps == [] then Outcome(true, c, t)
    else
      var o := Exec(w, t, c, env, steps[0]);
      if !o.ok then o else RunSteps(w, o.trace, o.ctx, env, steps[1..])
  }

  /** `_run_plan_on_port`: a dry run touches nothing and succeeds; otherwise
      the port is opened at the detected rate (failure fails the phase) and
      the steps run. */
  function RunPlan(w: World, t: seq<Event>, c: Ctx, port: string, env: PhaseEnv, steps: seq<Step>, dryRun: bool)
    : Outcome
  {
    if dryRun then Outcome(true, c, t)
    else
      var t1 := t + [Opened(port, env.detection.profile.baud)];
      if !w.opens(t1) then Outcome(false, c, t1)
      else RunSteps(w, t1, c, env, steps)
  }

  /** `_run_plan_on_port`, run against the link and the shared context. */
  method RunPlanOnPort(io: Io, ctx: PairContext, port: string, env: PhaseEnv, steps: seq<Step>, dryRun: bool)
    returns (ok: bool)
    modifies io, ctx
    ensures Outcome(ok, ctx.Value(), io.trace) == RunPlan(io.world, old(io.trace), old(ctx.Value()), port, env, steps, dryRun)
  {
    if dryRun {
      return true;
    }
    var up := io.Open(port, env.detection.profile.baud);
    if !up {
      return false;
    }
    ghost var t1 := io.trace;
    ghost var c0 := ctx.Value();
    var i := 0;
    while i < |steps|
      invariant 0 <= i <= |steps|
      invariant RunSteps(io.world, io.trace, ctx.Value(), env, steps[i..]) == RunSteps(io.world, t1, c0, env, steps)
    {
      assert steps[i..][1..] == steps[i + 1..];
      ok := ExecuteStep(io, ctx, env, steps[i]);
      if !ok {
        return false;
      }
      i := i + 1;
    }
    return true;
  }

  // ---------------------------------------------------------------------------
  // What one step does

  /** The step needs the slave address and none is known yet. */
  predicate MissingAddr(s: Step, c: Ctx) {
    s.kind == CommandStep && Contains(s.command, "{addr}") && c.slaveAddr.None?
  }

  /** The HC-06 rate step with a rate missing from the map. */
  predicate UnmappedRate(s: Step, env: PhaseEnv) {
    s.id == "uart" && env.detection.family == HC06 && env.baud !in HC06BaudMap
  }

  /** The failure policy of an optional command step: it fails exactly when
      the cancellation signal is set, when it needs an address that is not
      known, or when it is the HC-06 rate step with an unmapped rate. Any
      failure of the module itself is forgiven. */
  lemma ExecOptionalPolicy(w: World, t: seq<Event>, c: Ctx, env: PhaseEnv, s: Step)
    requires s.kind == CommandStep && s.optional && !s.critical
    ensures !Exec(w, t, c, env, s).ok <==>
              w.cancelled(t + [Polled]) || MissingAddr(s, c) || UnmappedRate(s, env)
  {
  }

  /** Cancellation fails any step, optional or not, and changes nothing but
      the cancellation check itself; a missing address fails any command step
      that needs one, optional or not. */
  lemma ExecRefusals(w: World, t: seq<Event>, c: Ctx, env: PhaseEnv, s: Step)
    ensures w.cancelled(t + [Polled]) ==> Exec(w, t, c, env, s) == Outcome(false, c, t + [Polled])
    ensures MissingAddr(s, c) ==> !Exec(w, t, c, env, s).ok && Exec(w, t, c, env, s).ctx == c
  {
  }

  /** An inq step with the address already known succeeds without scanning. */
  lemma InquireKnown(w: World, t: seq<Event>, c: Ctx, env: PhaseEnv, s: Step)
    requires s.kind == InqStep && c.slaveAddr.Some? && !w.cancelled(t + [Polled])
    ensures Exec(w, t, c, env, s) == Outcome(true, c, t + [Polled])
  {
  }

  /** An inq step that succeeds has scanned, and stores an address its
      scan reply carried on some line, when the operator picks one of the
      offered addresses (or nobody picks and the first is taken). */
  lemma InquireStores(w: World, t: seq<Event>, c: Ctx, env: PhaseEnv, s: Step)
    requires s.kind == InqStep && c.slaveAddr.None?
    requires env.choose.Some? ==> forall a :: env.choose.value(a).Some? ==> env.choose.value(a).value in a
    ensures var o := Exec(w, t, c, env, s);
            o.ok ==>
              && o.trace == t + [Polled, Wrote(Payload("AT+INQ", env.detection.profile.ending))]
              && o.ctx.slaveAddr.Some?
              && o.ctx.slaveAddr.value in ScanResult(w.reply(o.trace))
  {
    var o := Exec(w, t, c, env, s);
    if o.ok {
      assert t + [Polled] + [Wrote(Payload("AT+INQ", env.detection.profile.ending))]
          == t + [Polled, Wrote(Payload("AT+INQ", env.detection.profile.ending))];
    }
  }

  lemma NoAddressInEmpty()
    ensures ParseAddrResponse("") == None
  {
  }

  /** The addr step, once past the cancellation check and with its command
      built: it succeeds exactly when it is not critical or the module's reply
      holds an address, and an address read from the reply is stored; a
      critical one that succeeds has read that address from a reply that
      arrived. */
  lemma ExecAddrStep(w: World, t: seq<Event>, c: Ctx, env: PhaseEnv, s: Step)
    requires s.id == "addr" && s.kind == CommandStep
    ensures var o := Exec(w, t, c, env, s);
            && (o.ok && s.critical ==>
                  && |o.trace| > |t| + 1 && w.reply(o.trace).Answer?
                  && o.ctx.slaveAddr.Some?
                  && o.ctx.slaveAddr == ParseAddrResponse(w.reply(o.trace).text))
            && (!w.cancelled(t + [Polled]) && !MissingAddr(s, c) ==>
                  var x := Send(w, t + [Polled], Filled(s, c), env.detection.profile, false, s.retries);
                  var parsed := ParseAddrResponse(x.response);
                  && o.trace == x.trace
                  && (o.ok <==> !s.critical || parsed.Some?)
                  && o.ctx == (if parsed.Some? then c.(slaveAddr := parsed) else c))
  {
    var t1 := t + [Polled];
    if !w.cancelled(t1) && !MissingAddr(s, c) {
      var payload := Payload(Filled(s, c), env.detection.profile.ending);
      AttemptsOutcome(w, t1, payload, false, s.retries, "");
      AnyReplyAccepted(w, t1, payload, s.retries);
      NoAddressInEmpty();
    }
  }

  /** How a step changes the context: the bind and link marks and a known
      address are never lost; a mark is set only by a succeeding step of that
      id, and a bind or link step that is not optional always sets it when it
      succeeds; only the addr and inq steps change the address. A bind or link
      step that gets past the cancellation check and the address, optional or
      not, sets its mark exactly when its exchange is accepted, and changes
      nothing else in the context. */
  lemma ExecContext(w: World, t: seq<Event>, c: Ctx, env: PhaseEnv, s: Step)
    ensures var o := Exec(w, t, c, env, s);
            && (c.bindOk ==> o.ctx.bindOk) && (c.linkOk ==> o.ctx.linkOk)
            && (c.slaveAddr.Some? ==> o.ctx.slaveAddr.Some?)
            && (o.ctx.bindOk && !c.bindOk ==> s.id == "bind" && o.ok)
            && (o.ctx.linkOk && !c.linkOk ==> s.id == "link" && o.ok)
            && (o.ctx.slaveAddr != c.slaveAddr ==> o.ok && (s.id == "addr" || s.kind == InqStep))
            && (s.id == "bind" && s.kind == CommandStep && !s.optional && o.ok ==> o.ctx.bindOk)
            && (s.id == "link" && s.kind == CommandStep && !s.optional && o.ok ==> o.ctx.linkOk)
    ensures var o := Exec(w, t, c, env, s);
            (s.id == "bind" || s.id == "link") && s.kind == CommandStep
            && !w.cancelled(t + [Polled]) && !MissingAddr(s, c) ==>
              var x := Send(w, t + [Polled], Filled(s, c), env.detection.profile, s.expectOk, s.retries);
              && o.trace == x.trace
              && o.ok == (x.ok || s.optional)
              && o.ctx == c.(bindOk := c.bindOk || (s.id == "bind" && x.ok),
                             linkOk := c.linkOk || (s.id == "link" && x.ok))
  {
    var t1 := t + [Polled];
    if !w.cancelled(t1) && s.kind == CommandStep {
      ExecCommandContext(w, t1, c, env, s, Filled(s, c));
    }
  }

  /** The same for a command step once its command is built. */
  lemma ExecCommandContext(w: World, t: seq<Event>, c: Ctx, env: PhaseEnv, s: Step, cmd: string)
    requires s.kind == CommandStep
    ensures var o := ExecCommand(w, t, c, env, s, cmd);
            && (c.bindOk ==> o.ctx.bindOk) && (c.linkOk ==> o.ctx.linkOk)
            && (c.slaveAddr.Some? ==> o.ctx.slaveAddr.Some?)
            && (o.ctx.bindOk && !c.bindOk ==> s.id == "bind" && o.ok)
            && (o.ctx.linkOk && !c.linkOk ==> s.id == "link" && o.ok)
            && (o.ctx.slaveAddr != c.slaveAddr ==> o.ok && s.id == "addr")
            && (s.id == "bind" && !s.optional && o.ok ==> o.ctx.bindOk)
            && (s.id == "link" && !s.optional && o.ok ==> o.ctx.linkOk)
  {
  }

  // ---------------------------------------------------------------------------
  // What a run of steps does

  /** Steps run in order: running `a + b` runs `a`, and runs `b` from where
      `a` left the link and the context only if every step of `a` succeeded. */
  lemma {:induction false} RunStepsAppend(w: World, t: seq<Event>, c: Ctx, env: PhaseEnv, a: seq<Step>, b: seq<Step>)
    ensures RunSteps(w, t, c, env, a + b) ==
              var o := RunSteps(w, t, c, env, a);
              if o.ok then RunSteps(w, o.trace, o.ctx, env, b) else o
    decreases |a|
  {
    if a == [] {
      assert a + b == b;
    } else {
      assert (a + b)[1..] == a[1..] + b;
      assert (a + b)[0] == a[0];
      var o := Exec(w, t, c, env, a[0]);
      if o.ok {
        RunStepsAppend(w, o.trace, o.ctx, env, a[1..], b);
      }
    }
  }

  /** The context never loses a mark or a known address. */
  predicate Keeps(c: Ctx, c': Ctx) {
    && (c.bindOk ==> c'.bindOk) && (c.linkOk ==> c'.linkOk)
    && (c.slaveAddr.Some? ==> c'.slaveAddr.Some?)
  }

  /** What a step that has succeeded leaves in the context: a non-optional
      bind or link step its mark, a critical addr step or an inq step a known
      address. */
  predicate Ensured(s: Step, c: Ctx) {
    && (s.id == "bind" && s.kind == CommandStep && !s.optional ==> c.bindOk)
    && (s.id == "link" && s.kind == CommandStep && !s.optional ==> c.linkOk)
    && (s.id == "addr" && s.kind == CommandStep && s.critical ==> c.slaveAddr.Some?)
    && (s.kind == InqStep ==> c.slaveAddr.Some?)
  }

  /** The context facts a run guarantees: what was known stays known, and
      when the run succeeds every step it ran has left what `Ensured` says. */
  predicate Guarantees(steps: seq<Step>, c: Ctx, o: Outcome) {
    Keeps(c, o.ctx) && (o.ok ==> forall s :: s in steps ==> Ensured(s, o.ctx))
  }

  /** One step keeps the context and, when it succeeds, leaves what it ensures. */
  lemma ExecGuarantees(w: World, t: seq<Event>, c: Ctx, env: PhaseEnv, s: Step)
    ensures var o := Exec(w, t, c, env, s);
            Keeps(c, o.ctx) && (o.ok ==> Ensured(s, o.ctx))
  {
    ExecContext(w, t, c, env, s);
    if s.id == "addr" && s.kind == CommandStep {
      ExecAddrStep(w, t, c, env, s);
    }
  }

  lemma GuaranteesCons(steps: seq<Step>, c: Ctx, o: Outcome, r: Outcome)
    requires steps != []
    requires Keeps(c, o.ctx) && (o.ok ==> Ensured(steps[0], o.ctx))
    requires o.ok ==> Guarantees(steps[1..], o.ctx, r)
    ensures Guarantees(steps, c, if o.ok then r else o)
  {
    if o.ok {
      forall x | x in steps
        ensures r.ok ==> Ensured(x, r.ctx)
      {
        if x != steps[0] {
          assert x in steps[1..];
        }
      }
    }
  }

  /** A run keeps the context and, when it succeeds, every step of it has
      left what `Ensured` says. */
  lemma {:induction false} RunStepsGuarantees(w: World, t: seq<Event>, c: Ctx, env: PhaseEnv, steps: seq<Step>)
    ensures Guarantees(steps, c, RunSteps(w, t, c, env, steps))
    decreases |steps|
  {
    if steps != [] {
      var o := Exec(w, t, c, env, steps[0]);
      ExecGuarantees(w, t, c, env, steps[0]);
      if o.ok {
        RunStepsGuarantees(w, o.trace, o.ctx, env, steps[1..]);
      }
      GuaranteesCons(steps, c, o, RunSteps(w, o.trace, o.ctx, env, steps[1..]));
    }
  }

  // ---------------------------------------------------------------------------
  // The link only grows

  lemma FallbackExtends(w: World, t: seq<Event>, first: string, second: string, profile: SerialProfile)
    ensures IsPrefix(t, Fallback(w, t, first, second, profile).trace)
  {
    var x := Send(w, t, first, profile, true, 1);
    if !x.ok {
      PrefixTrans(t, x.trace, Send(w, x.trace, second, profile, true, 1).trace);
    }
  }

  /** A step adds events after the cancellation check and never rewrites the past. */
  lemma ExecExtends(w: World, t: seq<Event>, c: Ctx, env: PhaseEnv, s: Step)
    ensures var o := Exec(w, t, c, env, s);
            IsPrefix(t + [Polled], o.trace)
  {
    var t1 := t + [Polled];
    if !w.cancelled(t1) && s.kind == CommandStep && !MissingAddr(s, c) {
      assert Exec(w, t, c, env, s) == ExecCommand(w, t1, c, env, s, Filled(s, c));
      ExecCommandExtends(w, t1, c, env, s, Filled(s, c));
    }
  }

  /** The same for a command step once its command is built. */
  lemma ExecCommandExtends(w: World, t: seq<Event>, c: Ctx, env: PhaseEnv, s: Step, cmd: string)
    ensures IsPrefix(t, ExecCommand(w, t, c, env, s, cmd).trace)
  {
    var family := env.detection.family;
    var profile := env.detection.profile;
    if s.id == "pin" && env.pin.Some? {
      var (first, second) := PinCommands(family, env.pin.value);
      FallbackExtends(w, t, first, second, profile);
    } else if s.id == "name" && env.name.Some? && family == HC06 {
      FallbackExtends(w, t, "AT+NAME" + env.name.value, "AT+NAME=" + env.name.value, profile);
    }
  }


  lemma {:induction false} RunStepsExtends(w: World, t: seq<Event>, c: Ctx, env: PhaseEnv, steps: seq<Step>)
    ensures IsPrefix(t, RunSteps(w, t, c, env, steps).trace)
    decreases |steps|
  {
    if steps != [] {
      var o := Exec(w, t, c, env, steps[0]);
      ExecExtends(w, t, c, env, steps[0]);
      PrefixTrans(t, t + [Polled], o.trace);
      if o.ok {
        RunStepsExtends(w, o.trace, o.ctx, env, steps[1..]);
        PrefixTrans(t, o.trace, RunSteps(w, o.trace, o.ctx, env, steps[1..]).trace);
      }
    }
  }

  /** Running a plan: a dry run changes nothing; otherwise the port is opened
      first, the link only grows, and the context only gains what `Guarantees`
      allows. */
  lemma RunPlanEffects(w: World, t: seq<Event>, c: Ctx, port: string, env: PhaseEnv, steps: seq<Step>, dryRun: bool)
    ensures var o := RunPlan(w, t, c, port, env, steps, dryRun);
            && (dryRun ==> o == Outcome(true, c, t))
            && (!dryRun ==> IsPrefix(t + [Opened(port, env.detection.profile.baud)], o.trace))
            && Keeps(c, o.ctx)
            && (!dryRun && o.ok ==> forall s :: s in steps ==> Ensured(s, o.ctx))
  {
    if !dryRun {
      var t1 := t + [Opened(port, env.detection.profile.baud)];
      if w.opens(t1) {
        RunStepsExtends(w, t1, c, env, steps);
        RunStepsGuarantees(w, t1, c, env, steps);
      }
    }
  }
}
