/** `run_pair`: check the request, then configure the slave and the master,
    one phase each (detect the module, build its plan, let the operator tune
    it, run it), sharing one `PairContext`, and give the verdict. */
module Pairing {
  import opened Wrappers
  import opened Text
  import opened Address
  import opened Exchange
  import opened Plans
  import opened Executor
  import opened Tuning

  datatype Mode = One | Two

  /** The arguments of `run_pair`. A call without `flags` is this request
      with `DefaultFlags`, as `flags or PairFlags()` reads it. */
  datatype PairRequest = PairRequest(
    mode: string,
    masterPort: Option<string>,
    slavePort: Option<string>,
    port: Option<string>,
    nameMaster: Option<string>,
    nameSlave: Option<string>,
    pin: Option<string>,
    baud: int,
    flags: PairFlags)

  /** The operator's hooks: `prompt_swap`, given the master port, answers with
      a port (an empty answer keeps it); `choose_addr_cb` picks among scanned
      addresses. */
  datatype Operator = Operator(swap: Option<string -> string>, choose: Option<seq<Addr> -> Option<Addr>>)

  /** Why a request is refused before anything is detected. */
  datatype RequestError = BadPin | BadBaud | BadMode | MissingPort | SamePorts

  /** The checked request: the mode and the port of each phase. */
  datatype Ports = Ports(mode: Mode, slave: string, master: string)

  /** A pin the request may carry: exactly four digits. */
  predicate PinOk(pin: string) {
    |pin| == 4 && IsDigits(pin)
  }

  /** Python's `a or b` on optional strings. */
  function Or(a: Option<string>, b: Option<string>): Option<string> {
    if Given(a) then a else b
  }

  /** The checks of `run_pair` before any detection, in its order: the pin,
      the rate, the mode, then the ports the mode needs. */
  function Validate(req: PairRequest): Result<Ports, RequestError> {
    if Given(req.pin) && !PinOk(req.pin.value) then Failure(BadPin)
    else if req.baud <= 0 then Failure(BadBaud)
    else
      var mode := Lower(req.mode);
      if mode == "one" then
        var chosen := Or(req.port, Or(req.slavePort, req.masterPort));
        if !Given(chosen) then Failure(MissingPort)
        else Success(Ports(One, chosen.value, chosen.value))
      else if mode == "two" then
        if !Given(req.masterPort) || !Given(req.slavePort) then Failure(MissingPort)
        else if req.masterPort.value == req.slavePort.value then Failure(SamePorts)
        else Success(Ports(Two, req.slavePort.value, req.masterPort.value))
      else Failure(BadMode)
  }

  /** A request is refused exactly when its pin is not four digits, its rate
      is not positive, its mode is neither one nor two (in any case), or the
      mode lacks its ports; an accepted one runs both phases on one port in
      mode one (the first given of `port`, `slave_port`, `master_port`) and on
      the two distinct given ports in mode two. */
  lemma ValidateMeaning(req: PairRequest)
    ensures var r := Validate(req);
            var mode := Lower(req.mode);
            && (r.Failure? <==>
                  || (Given(req.pin) && !PinOk(req.pin.value))
                  || req.baud <= 0
                  || (mode != "one" && mode != "two")
                  || (mode == "one" && !Given(req.port) && !Given(req.slavePort) && !Given(req.masterPort))
                  || (mode == "two" && (!Given(req.masterPort) || !Given(req.slavePort)
                                        || req.masterPort == req.slavePort)))
            && (r == Failure(BadPin) <==> Given(req.pin) && !PinOk(req.pin.value))
            && (r.Success? ==>
                  && r.value.slave != "" && r.value.master != ""
                  && (r.value.mode == One <==> mode == "one")
                  && (r.value.mode == One ==>
                        && r.value.slave == r.value.master
                        && Some(r.value.slave) in [req.port, req.slavePort, req.masterPort]
                        && (Given(req.port) ==> Some(r.value.slave) == req.port))
                  && (r.value.mode == Two ==>
                        && Some(r.value.slave) == req.slavePort && Some(r.value.master) == req.masterPort
                        && r.value.slave != r.value.master))
  {
  }

  /** `flags.advanced` implies `interactive`, and the plan is shown when
      asked for or when advanced, dry-run or interactive. */
  function Normalise(f: PairFlags): (g: PairFlags)
    ensures g.advanced ==> g.interactive
    ensures g.showPlan <==> f.showPlan || f.advanced || f.dryRun || f.interactive
    ensures g == f.(interactive := g.interactive, showPlan := g.showPlan)
    ensures g.interactive <==> f.interactive || f.advanced
  {
    var g := if f.advanced then f.(interactive := true) else f;
    g.(showPlan := g.showPlan || g.advanced || g.dryRun || g.interactive)
  }

  /** The master must link only in mode two, and only when the link is not turned off. */
  function RequireLink(mode: Mode, f: PairFlags): bool {
    mode == Two && !f.noLink
  }

  datatype Role = SlaveRole | MasterRole

  function PhaseName(role: Role): string {
    match role
    case SlaveRole => "SLAVE"
    case MasterRole => "MASTER"
  }

  /** How a phase builds its plan from the detected module and its flags. */
  type Builder = (Detection, PairFlags) -> Result<seq<Step>, PlanError>

  /** The slave phase builds `build_slave_plan`, requiring the address in mode one. */
  function SlaveBuilder(req: PairRequest, mode: Mode): Builder {
    (d: Detection, g: PairFlags) => SlavePlan(d, req.nameSlave, req.pin, req.baud, g, mode == One)
  }

  /** The master phase builds `build_master_plan` with the address the slave
      phase left, scanning when there is none. */
  function MasterBuilder(req: PairRequest, c: Ctx, requireLink: bool): Builder {
    (d: Detection, g: PairFlags) =>
      MasterPlan(d, req.nameMaster, req.pin, req.baud, g, c.slaveAddr, c.slaveAddr.None?, requireLink)
  }

  /** A built plan, the flags it was built with, and the operator's lines left. */
  datatype Prepared = Prepared(plan: Result<seq<Step>, PlanError>, flags: PairFlags, answers: seq<string>)

  /** Build the plan; when it builds and the run is interactive, let the
      operator tune the flags and build it again. */
  function Prepare(role: Role, build: Builder, d: Detection, f: PairFlags, answers: seq<string>): Prepared {
    var plan := build(d, f);
    if plan.Failure? || !f.interactive then Prepared(plan, f, answers)
    else
      var tuned := Tune(PhaseName(role), plan.value, f, answers);
      Prepared(build(d, tuned.flags), tuned.flags, tuned.answers)
  }

  /** One phase: what it leaves in the context and on the link, and its flags. */
  datatype PhaseRun = PhaseRun(ok: bool, ctx: Ctx, trace: seq<Event>, flags: PairFlags, answers: seq<string>)

  /** The module a phase needs is an HC-05: always for the master, and for the
      slave in mode one, where the slave's address must be read from it. */
  predicate NeedsHC05(role: Role, mode: Mode) {
    role == MasterRole || mode == One
  }

  /** What the steps of a phase run with. */
  function PhaseEnvOf(role: Role, req: PairRequest, d: Detection, choose: Option<seq<Addr> -> Option<Addr>>): PhaseEnv {
    PhaseEnv(d, if role == SlaveRole then req.nameSlave else req.nameMaster, req.pin, req.baud, choose)
  }

  /** A phase: detect the module on the port with the default profiles, check
      its family, prepare the plan, and run it on the port. */
  function Phase(w: World, t: seq<Event>, role: Role, port: string, req: PairRequest, mode: Mode, c: Ctx,
                 f: PairFlags, answers: seq<string>, choose: Option<seq<Addr> -> Option<Addr>>, build: Builder)
    : PhaseRun
  {
    AfterDetect(w, Detect(w, t, port, []), role, port, req, mode, c, f, answers, choose, build)
  }

  /** A phase once detection has given its verdict. */
  function AfterDetect(w: World, d: Detected, role: Role, port: string, req: PairRequest, mode: Mode, c: Ctx,
                       f: PairFlags, answers: seq<string>, choose: Option<seq<Addr> -> Option<Addr>>, build: Builder)
    : PhaseRun
  {
    if d.result.None? then PhaseRun(false, c, d.trace, f, answers)
    else if NeedsHC05(role, mode) && d.result.value.family != HC05 then PhaseRun(false, c, d.trace, f, answers)
    else
      RunPrepared(w, d.trace, c, port, PhaseEnvOf(role, req, d.result.value, choose),
                  Prepare(role, build, d.result.value, f, answers))
  }

  /** The end of a phase: a plan that did not build fails it; otherwise it
      runs on the port. */
  function RunPrepared(w: World, t: seq<Event>, c: Ctx, port: string, env: PhaseEnv, p: Prepared): PhaseRun {
    if p.plan.Failure? then PhaseRun(false, c, t, p.flags, p.answers)
    else
      var o := RunPlan(w, t, c, port, env, p.plan.value, p.flags.dryRun);
      PhaseRun(o.ok, o.ctx, o.trace, p.flags, p.answers)
  }

  /** The swap prompt of mode one: the operator's answer replaces the master
      port unless empty; without a prompt hook the operator presses Enter,
      which reads one line. */
  function Swap(swap: Option<string -> string>, port: string, answers: seq<string>): (string, seq<string>) {
    match swap
    case Some(prompt) => (if prompt(port) != "" then prompt(port) else port, answers)
    case None => (port, if answers == [] then [] else answers[1..])
  }

  /** The result of `run_pair` with `return_flags`, and what it leaves behind. */
  datatype Paired = Paired(ok: bool, slaveFlags: PairFlags, masterFlags: PairFlags, ctx: Ctx,
                           trace: seq<Event>, answers: seq<string>)

  const NoContext := Ctx(None, false, false)

  /** `run_pair`: check the request, run the slave phase, then the master
      phase on what the slave phase left. */
  function Pair(w: World, t: seq<Event>, req: PairRequest, op: Operator, answers: seq<string>): Paired {
    var flags := Normalise(req.flags);
    match Validate(req)
    case Failure(_) => Paired(false, flags, flags, NoContext, t, answers)
    case Success(ports) => AfterSlave(w, req, op, ports, flags, SlavePhase(w, t, req, op, ports, flags, answers))
  }

  /** The slave phase of a checked request, on a fresh context. */
  function SlavePhase(w: World, t: seq<Event>, req: PairRequest, op: Operator, ports: Ports, flags: PairFlags,
                      answers: seq<string>): PhaseRun
  {
    Phase(w, t, SlaveRole, ports.slave, req, ports.mode, NoContext, flags, answers, op.choose,
          SlaveBuilder(req, ports.mode))
  }

  /** Mode one outside a dry run needs the slave's address before the master phase. */
  predicate AddrMissingAfter(ports: Ports, s: PhaseRun) {
    ports.mode == One && s.ctx.slaveAddr.None? && !s.flags.dryRun
  }

  /** The master phase after the slave phase: in mode one outside a dry run
      the operator is first offered the port swap. */
  function MasterPhase(w: World, req: PairRequest, op: Operator, ports: Ports, flags: PairFlags, s: PhaseRun): PhaseRun {
    var (masterPort, rest) :=
      if ports.mode == One && !flags.dryRun then Swap(op.swap, ports.master, s.answers) else (ports.master, s.answers);
    Phase(w, s.trace, MasterRole, masterPort, req, ports.mode, s.ctx, flags, rest, op.choose,
          MasterBuilder(req, s.ctx, RequireLink(ports.mode, flags)))
  }

  /** `run_pair` once the slave phase has run: stop on its failure or on a
      missing slave address in mode one, offer the swap, run the master phase
      and judge the link. */
  function AfterSlave(w: World, req: PairRequest, op: Operator, ports: Ports, flags: PairFlags, s: PhaseRun): Paired {
    if !s.ok || AddrMissingAfter(ports, s) then Paired(false, s.flags, flags, s.ctx, s.trace, s.answers)
    else
      var m := MasterPhase(w, req, op, ports, flags, s);
      if !m.ok then Paired(false, s.flags, m.flags, m.ctx, m.trace, m.answers)
      else Paired(!RequireLink(ports.mode, flags) || m.ctx.linkOk, s.flags, m.flags, m.ctx, m.trace, m.answers)
  }

  // ---------------------------------------------------------------------------
  // Against the link and the console

  /** Build, tune and rebuild, reading the console. */
  method PreparePlan(role: Role, build: Builder, d: Detection, f: PairFlags, console: Console)
    returns (plan: Result<seq<Step>, PlanError>, flags: PairFlags)
    modifies console
    ensures Prepared(plan, flags, console.answers) == Prepare(role, build, d, f, old(console.answers))
  {
    flags := f;
    plan := build(d, flags);
    if plan.Failure? || !flags.interactive {
      return;
    }
    flags := InteractiveTune(PhaseName(role), plan.value, flags, console);
    plan := build(d, flags);
  }

  /** A phase, against the link, the console and the shared context. */
  method RunPhase(io: Io, console: Console, ctx: PairContext, role: Role, port: string, req: PairRequest,
                  mode: Mode, f: PairFlags, choose: Option<seq<Addr> -> Option<Addr>>, build: Builder)
    returns (ok: bool, flags: PairFlags)
    modifies io, console, ctx
    ensures PhaseRun(ok, ctx.Value(), io.trace, flags, console.answers) ==
              Phase(io.world, old(io.trace), role, port, req, mode, old(ctx.Value()), f, old(console.answers),
                    choose, build)
  {
    flags := f;
    var detection := DetectModule(io, port, []);
    if detection.None? {
      return false, flags;
    }
    if NeedsHC05(role, mode) && detection.value.family != HC05 {
      return false, flags;
    }
    var plan;
    plan, flags := PreparePlan(role, build, detection.value, f, console);
    if plan.Failure? {
      return false, flags;
    }
    ok := RunPlanOnPort(io, ctx, port, PhaseEnvOf(role, req, detection.value, choose), plan.value, flags.dryRun);
  }

  /** The swap prompt, against the console. */
  method PromptSwap(console: Console, swap: Option<string -> string>, port: string) returns (chosen: string)
    modifies console
    ensures (chosen, console.answers) == Swap(swap, port, old(console.answers))
  {
    chosen := port;
    if swap.Some? {
      var answer := swap.value(port);
      if answer != "" {
        chosen := answer;
      }
    } else {
      var enter := console.ReadLine();
    }
  }

  /** `run_pair` with `return_flags`: the verdict and each phase's flags. */
  method RunPair(io: Io, console: Console, req: PairRequest, op: Operator)
    returns (ok: bool, slaveFlags: PairFlags, masterFlags: PairFlags)
    modifies io, console
    ensures var p := Pair(io.world, old(io.trace), req, op, old(console.answers));
            && ok == p.ok && slaveFlags == p.slaveFlags && masterFlags == p.masterFlags
            && io.trace == p.trace && console.answers == p.answers
  {
    ghost var t0, a0 := io.trace, console.answers;
    var flags := Normalise(req.flags);
    slaveFlags, masterFlags := flags, flags;
    var ports := Validate(req);
    if ports.Failure? {
      return false, slaveFlags, masterFlags;
    }
    var mode := ports.value.mode;
    var masterPort := ports.value.master;
    var context := new PairContext();
    var slaveOk;
    slaveOk, slaveFlags := RunPhase(io, console, context, SlaveRole, ports.value.slave, req, mode, flags, op.choose,
                                    SlaveBuilder(req, mode));
    ghost var s := PhaseRun(slaveOk, context.Value(), io.trace, slaveFlags, console.answers);
    assert s == SlavePhase(io.world, t0, req, op, ports.value, flags, a0);
    assert Pair(io.world, t0, req, op, a0) == AfterSlave(io.world, req, op, ports.value, flags, s);
    if !slaveOk {
      return false, slaveFlags, masterFlags;
    }
    if mode == One && context.slaveAddr.None? && !slaveFlags.dryRun {
      return false, slaveFlags, masterFlags;
    }
    if mode == One && !flags.dryRun {
      masterPort := PromptSwap(console, op.swap, masterPort);
    }
    var requireLink := RequireLink(mode, flags);
    var masterOk;
    masterOk, masterFlags := RunPhase(io, console, context, MasterRole, masterPort, req, mode, flags, op.choose,
                                      MasterBuilder(req, context.Value(), requireLink));
    assert PhaseRun(masterOk, context.Value(), io.trace, masterFlags, console.answers)
        == MasterPhase(io.world, req, op, ports.value, flags, s);
    if !masterOk {
      return false, slaveFlags, masterFlags;
    }
    if requireLink {
      return context.linkOk, slaveFlags, masterFlags;
    }
    return true, slaveFlags, masterFlags;
  }

  // ---------------------------------------------------------------------------
  // What a phase does

  /** Only the tunable flags differ. */
  predicate SameSettings(f: PairFlags, g: PairFlags) {
    g == f.(basic := g.basic, skipSteps := g.skipSteps,
            extraMasterCmds := g.extraMasterCmds, extraSlaveCmds := g.extraSlaveCmds)
  }

  /** Preparing a plan changes only the tunable flags, leaves the operator's
      later lines, and the plan it gives is the one those flags build. */
  lemma PrepareEffects(role: Role, build: Builder, d: Detection, f: PairFlags, answers: seq<string>)
    ensures var p := Prepare(role, build, d, f, answers);
            && SameSettings(f, p.flags)
            && Unread(p.answers, answers)
            && p.plan == build(d, p.flags)
  {
    UnreadRefl(answers);
    var plan := build(d, f);
    if plan.Success? && f.interactive {
      TuneAdjusts(PhaseName(role), plan.value, f, answers);
    }
  }

  /** After detection, a phase changes only the tunable flags and reads the
      operator's lines from the front. */
  lemma AfterDetectFlags(w: World, d: Detected, role: Role, port: string, req: PairRequest, mode: Mode, c: Ctx,
                         f: PairFlags, answers: seq<string>, choose: Option<seq<Addr> -> Option<Addr>>,
                         build: Builder)
    ensures var r := AfterDetect(w, d, role, port, req, mode, c, f, answers, choose, build);
            SameSettings(f, r.flags) && Unread(r.answers, answers)
  {
    UnreadRefl(answers);
    if d.result.Some? && !(NeedsHC05(role, mode) && d.result.value.family != HC05) {
      var p := Prepare(role, build, d.result.value, f, answers);
      PrepareEffects(role, build, d.result.value, f, answers);
      RunPreparedEffects(w, d.trace, c, port, PhaseEnvOf(role, req, d.result.value, choose), p);
    }
  }

  /** After detection, a phase only extends the link; a dry run leaves it alone. */
  lemma AfterDetectExtends(w: World, d: Detected, role: Role, port: string, req: PairRequest, mode: Mode, c: Ctx,
                           f: PairFlags, answers: seq<string>, choose: Option<seq<Addr> -> Option<Addr>>,
                           build: Builder)
    ensures var r := AfterDetect(w, d, role, port, req, mode, c, f, answers, choose, build);
            IsPrefix(d.trace, r.trace) && (f.dryRun ==> r.trace == d.trace)
  {
    var r := AfterDetect(w, d, role, port, req, mode, c, f, answers, choose, build);
    if d.result.Some? && !(NeedsHC05(role, mode) && d.result.value.family != HC05) {
      var p := Prepare(role, build, d.result.value, f, answers);
      var env := PhaseEnvOf(role, req, d.result.value, choose);
      assert r == RunPrepared(w, d.trace, c, port, env, p);
      PrepareEffects(role, build, d.result.value, f, answers);
      RunPreparedEffects(w, d.trace, c, port, env, p);
    } else {
      assert r == PhaseRun(false, c, d.trace, f, answers);
    }
  }

  /** After detection, a phase keeps what the context knew; a dry run leaves
      it alone. */
  lemma AfterDetectKeeps(w: World, d: Detected, role: Role, port: string, req: PairRequest, mode: Mode, c: Ctx,
                         f: PairFlags, answers: seq<string>, choose: Option<seq<Addr> -> Option<Addr>>,
                         build: Builder)
    ensures var r := AfterDetect(w, d, role, port, req, mode, c, f, answers, choose, build);
            Keeps(c, r.ctx) && (f.dryRun ==> r.ctx == c)
  {
    var r := AfterDetect(w, d, role, port, req, mode, c, f, answers, choose, build);
    if d.result.Some? && !(NeedsHC05(role, mode) && d.result.value.family != HC05) {
      var p := Prepare(role, build, d.result.value, f, answers);
      var env := PhaseEnvOf(role, req, d.result.value, choose);
      assert r == RunPrepared(w, d.trace, c, port, env, p);
      PrepareEffects(role, build, d.result.value, f, answers);
      RunPreparedEffects(w, d.trace, c, port, env, p);
    } else {
      assert r == PhaseRun(false, c, d.trace, f, answers);
    }
  }

  /** The end of a phase extends the link, keeps what the context knew,
      changes nothing in a dry run, and, when it succeeds, the plan built and,
      unless it was a dry run, every step of it ran to what `Ensured` says. */
  lemma RunPreparedEffects(w: World, t: seq<Event>, c: Ctx, port: string, env: PhaseEnv, p: Prepared)
    ensures var r := RunPrepared(w, t, c, port, env, p);
            && IsPrefix(t, r.trace) && Keeps(c, r.ctx) && r.flags == p.flags && r.answers == p.answers
            && (p.flags.dryRun ==> r.ctx == c && r.trace == t)
            && (r.ok ==> p.plan.Success?)
            && (r.ok && !p.flags.dryRun ==> forall s :: s in p.plan.value ==> Ensured(s, r.ctx))
  {
    if p.plan.Success? {
      var steps := p.plan.value;
      RunPlanEffects(w, t, c, port, env, steps, p.flags.dryRun);
      if !p.flags.dryRun {
        PrefixTrans(t, t + [Opened(port, env.detection.profile.baud)], RunPlan(w, t, c, port, env, steps, p.flags.dryRun).trace);
      }
    }
  }

  /** A phase that succeeds after detection found a module, an HC-05 where
      the phase needs one. */
  lemma AfterDetectFound(w: World, d: Detected, role: Role, port: string, req: PairRequest, mode: Mode, c: Ctx,
                         f: PairFlags, answers: seq<string>, choose: Option<seq<Addr> -> Option<Addr>>,
                         build: Builder)
    ensures var r := AfterDetect(w, d, role, port, req, mode, c, f, answers, choose, build);
            r.ok ==> d.result.Some? && (NeedsHC05(role, mode) ==> d.result.value.family == HC05)
  {
  }

  /** A phase that succeeds after detection built its plan with the flags it
      ends with and, unless it was a dry run, ran every step of that plan to
      what `Ensured` says. */
  lemma AfterDetectRan(w: World, d: Detected, role: Role, port: string, req: PairRequest, mode: Mode, c: Ctx,
                       f: PairFlags, answers: seq<string>, choose: Option<seq<Addr> -> Option<Addr>>,
                       build: Builder)
    requires d.result.Some? && !(NeedsHC05(role, mode) && d.result.value.family != HC05)
    ensures var r := AfterDetect(w, d, role, port, req, mode, c, f, answers, choose, build);
            r.ok ==>
              && build(d.result.value, r.flags).Success?
              && (!f.dryRun ==> forall s :: s in build(d.result.value, r.flags).value ==> Ensured(s, r.ctx))
  {
    var dv := d.result.value;
    var p := Prepare(role, build, dv, f, answers);
    PrepareEffects(role, build, dv, f, answers);
    var env := PhaseEnvOf(role, req, dv, choose);
    assert AfterDetect(w, d, role, port, req, mode, c, f, answers, choose, build) == RunPrepared(w, d.trace, c, port, env, p);
    RunPreparedBuilt(w, d.trace, c, port, env, p, build, dv);
  }

  /** `RunPreparedEffects` for a plan that `build` made with the flags the
      phase ends with. */
  lemma RunPreparedBuilt(w: World, t: seq<Event>, c: Ctx, port: string, env: PhaseEnv, p: Prepared,
                         build: Builder, dv: Detection)
    requires p.plan == build(dv, p.flags)
    ensures var r := RunPrepared(w, t, c, port, env, p);
            r.ok ==>
              && build(dv, r.flags).Success?
              && (!p.flags.dryRun ==> forall s :: s in build(dv, r.flags).value ==> Ensured(s, r.ctx))
  {
    RunPreparedEffects(w, t, c, port, env, p);
  }

  /** A phase starts by checking the cancellation signal on its way to
      detection, and has the effects `AfterDetectExtends` and `AfterDetectKeeps` give. */
  lemma PhaseEffects(w: World, t: seq<Event>, role: Role, port: string, req: PairRequest, mode: Mode, c: Ctx,
                     f: PairFlags, answers: seq<string>, choose: Option<seq<Addr> -> Option<Addr>>, build: Builder)
    ensures var r := Phase(w, t, role, port, req, mode, c, f, answers, choose, build);
            var d := Detect(w, t, port, []);
            && IsPrefix(t + [Polled], r.trace)
            && Keeps(c, r.ctx)
            && SameSettings(f, r.flags)
            && Unread(r.answers, answers)
            && (f.dryRun ==> r.ctx == c && r.trace == d.trace)
            && (r.ok ==>
                  && d.result.Some?
                  && (NeedsHC05(role, mode) ==> d.result.value.family == HC05)
                  && build(d.result.value, r.flags).Success?
                  && (!f.dryRun ==> forall s :: s in build(d.result.value, r.flags).value ==> Ensured(s, r.ctx)))
  {
    var d := Detect(w, t, port, []);
    DetectPollsFirst(w, t, port, Candidates([]));
    AfterDetectExtends(w, d, role, port, req, mode, c, f, answers, choose, build);
    AfterDetectKeeps(w, d, role, port, req, mode, c, f, answers, choose, build);
    AfterDetectFlags(w, d, role, port, req, mode, c, f, answers, choose, build);
    AfterDetectFound(w, d, role, port, req, mode, c, f, answers, choose, build);
    if d.result.Some? && !(NeedsHC05(role, mode) && d.result.value.family != HC05) {
      AfterDetectRan(w, d, role, port, req, mode, c, f, answers, choose, build);
    }
    PrefixTrans(t + [Polled], d.trace, AfterDetect(w, d, role, port, req, mode, c, f, answers, choose, build).trace);
  }

  // ---------------------------------------------------------------------------
  // What a pairing run does

  /** After the slave phase: the master phase only adds to the link and the
      context; success needs the slave phase's success and, where the link is
      required, the link mark; in mode one outside a dry run the slave address
      is known; a dry run leaves the slave phase's context. */
  lemma AfterSlaveEffects(w: World, req: PairRequest, op: Operator, ports: Ports, flags: PairFlags, s: PhaseRun)
    requires SameSettings(flags, s.flags)
    ensures var p := AfterSlave(w, req, op, ports, flags, s);
            && IsPrefix(s.trace, p.trace) && Keeps(s.ctx, p.ctx) && p.slaveFlags == s.flags
            && (flags.dryRun ==> p.ctx == s.ctx)
            && (p.ok ==> s.ok && (RequireLink(ports.mode, flags) ==> p.ctx.linkOk))
            && (p.ok && ports.mode == One && !flags.dryRun ==> p.ctx.slaveAddr.Some?)
  {
    if s.ok && !(ports.mode == One && s.ctx.slaveAddr.None? && !s.flags.dryRun) {
      var (masterPort, rest) :=
        if ports.mode == One && !flags.dryRun then Swap(op.swap, ports.master, s.answers) else (ports.master, s.answers);
      PhaseEffects(w, s.trace, MasterRole, masterPort, req, ports.mode, s.ctx, flags, rest, op.choose,
                   MasterBuilder(req, s.ctx, RequireLink(ports.mode, flags)));
      var m := Phase(w, s.trace, MasterRole, masterPort, req, ports.mode, s.ctx, flags, rest, op.choose,
                     MasterBuilder(req, s.ctx, RequireLink(ports.mode, flags)));
      PrefixDrop(s.trace, Polled, m.trace);
    } else {
      assert IsPrefix(s.trace, s.trace);
    }
  }

  /** A successful pairing outside a dry run, with the basic steps on for the
      master, has bound the master: its plan holds a bind step that is not
      optional, and every step of a successful run leaves what it ensures. */
  lemma AfterSlaveBinds(w: World, req: PairRequest, op: Operator, ports: Ports, flags: PairFlags, s: PhaseRun)
    ensures var p := AfterSlave(w, req, op, ports, flags, s);
            p.ok && !flags.dryRun && p.masterFlags.basic ==> p.ctx.bindOk
  {
    if s.ok && !(ports.mode == One && s.ctx.slaveAddr.None? && !s.flags.dryRun) {
      var (masterPort, rest) :=
        if ports.mode == One && !flags.dryRun then Swap(op.swap, ports.master, s.answers) else (ports.master, s.answers);
      var build := MasterBuilder(req, s.ctx, RequireLink(ports.mode, flags));
      PhaseEffects(w, s.trace, MasterRole, masterPort, req, ports.mode, s.ctx, flags, rest, op.choose, build);
      var m := Phase(w, s.trace, MasterRole, masterPort, req, ports.mode, s.ctx, flags, rest, op.choose, build);
      var d := Detect(w, s.trace, masterPort, []);
      if m.ok && !flags.dryRun && m.flags.basic {
        MasterRunBinds(req, s.ctx, RequireLink(ports.mode, flags), d.result.value, m.flags, m.ctx);
      }
    }
  }

  /** A context in which every step of a master plan that built has done
      what `Ensured` says has the bind mark, when the basic steps are on. */
  lemma MasterRunBinds(req: PairRequest, c: Ctx, requireLink: bool, dv: Detection, g: PairFlags, after: Ctx)
    requires g.basic
    requires MasterBuilder(req, c, requireLink)(dv, g).Success?
    requires forall s :: s in MasterBuilder(req, c, requireLink)(dv, g).value ==> Ensured(s, after)
    ensures after.bindOk
  {
    var plan := MasterPlan(dv, req.nameMaster, req.pin, req.baud, g, c.slaveAddr, c.slaveAddr.None?, requireLink);
    MasterPlanBinds(dv, req.nameMaster, req.pin, req.baud, g, c.slaveAddr, c.slaveAddr.None?, requireLink);
    var st :| st in plan.value && st.id == "bind" && st.kind == CommandStep && !st.optional;
    assert Ensured(st, after);
  }

  /** A request that fails validation touches neither the link nor the
      console and gives back the normalised flags for both phases; a valid one
      starts by polling the slave's port. */
  lemma PairChecksFirst(w: World, t: seq<Event>, req: PairRequest, op: Operator, answers: seq<string>)
    ensures var p := Pair(w, t, req, op, answers);
            && (Validate(req).Failure? ==>
                  p == Paired(false, Normalise(req.flags), Normalise(req.flags), NoContext, t, answers))
            && (Validate(req).Success? ==> IsPrefix(t + [Polled], p.trace))
  {
    if Validate(req).Success? {
      var ports := Validate(req).value;
      var flags := Normalise(req.flags);
      PhaseEffects(w, t, SlaveRole, ports.slave, req, ports.mode, NoContext, flags, answers, op.choose,
                   SlaveBuilder(req, ports.mode));
      var s := Phase(w, t, SlaveRole, ports.slave, req, ports.mode, NoContext, flags, answers, op.choose,
                     SlaveBuilder(req, ports.mode));
      AfterSlaveEffects(w, req, op, ports, flags, s);
      PrefixTrans(t + [Polled], s.trace, Pair(w, t, req, op, answers).trace);
    }
  }

  /** `run_pair` reports success only for a valid request; where the link is
      required it reports success only with the link up; in mode one outside a
      dry run only with the slave address known; outside a dry run, with the
      master's basic steps on, only with the master bound. */
  lemma PairVerdict(w: World, t: seq<Event>, req: PairRequest, op: Operator, answers: seq<string>)
    ensures var p := Pair(w, t, req, op, answers);
            p.ok ==>
              && Validate(req).Success?
              && (RequireLink(Validate(req).value.mode, Normalise(req.flags)) ==> p.ctx.linkOk)
              && (Validate(req).value.mode == One && !req.flags.dryRun ==> p.ctx.slaveAddr.Some?)
              && (!req.flags.dryRun && p.masterFlags.basic ==> p.ctx.bindOk)
  {
    if Validate(req).Success? {
      var ports := Validate(req).value;
      var flags := Normalise(req.flags);
      PhaseEffects(w, t, SlaveRole, ports.slave, req, ports.mode, NoContext, flags, answers, op.choose,
                   SlaveBuilder(req, ports.mode));
      var s := Phase(w, t, SlaveRole, ports.slave, req, ports.mode, NoContext, flags, answers, op.choose,
                     SlaveBuilder(req, ports.mode));
      AfterSlaveEffects(w, req, op, ports, flags, s);
      AfterSlaveBinds(w, req, op, ports, flags, s);
    }
  }

  /** The verdict of a checked request, both ways: the run fails with the
      slave phase's state when that phase fails or leaves no address in mode
      one outside a dry run; otherwise it ends where the master phase ends,
      and succeeds exactly when the master phase succeeds and, where the link
      is required, the link mark is set. */
  lemma PairOutcome(w: World, t: seq<Event>, req: PairRequest, op: Operator, answers: seq<string>)
    requires Validate(req).Success?
    ensures var ports := Validate(req).value;
            var flags := Normalise(req.flags);
            var s := SlavePhase(w, t, req, op, ports, flags, answers);
            var p := Pair(w, t, req, op, answers);
            && (!s.ok || AddrMissingAfter(ports, s) ==> !p.ok && p.ctx == s.ctx && p.trace == s.trace)
            && (s.ok && !AddrMissingAfter(ports, s) ==>
                  var m := MasterPhase(w, req, op, ports, flags, s);
                  && p.ctx == m.ctx && p.trace == m.trace && p.masterFlags == m.flags
                  && (p.ok <==> m.ok && (!RequireLink(ports.mode, flags) || m.ctx.linkOk)))
  {
  }

  /** In mode two a dry run with the link on never reports success: neither
      phase writes to the context, so the link mark the verdict needs is never
      set. */
  lemma PairDryRunModeTwo(w: World, t: seq<Event>, req: PairRequest, op: Operator, answers: seq<string>)
    requires Validate(req).Success? && Validate(req).value.mode == Two
    requires req.flags.dryRun && !req.flags.noLink
    ensures !Pair(w, t, req, op, answers).ok
  {
    var ports := Validate(req).value;
    var flags := Normalise(req.flags);
    PhaseEffects(w, t, SlaveRole, ports.slave, req, ports.mode, NoContext, flags, answers, op.choose,
                 SlaveBuilder(req, ports.mode));
    var s := Phase(w, t, SlaveRole, ports.slave, req, ports.mode, NoContext, flags, answers, op.choose,
                   SlaveBuilder(req, ports.mode));
    AfterSlaveEffects(w, req, op, ports, flags, s);
  }

  /** In mode one a slave that is not an HC-05 fails the run right after
      detection, before any step is sent. */
  lemma PairModeOneNeedsHC05(w: World, t: seq<Event>, req: PairRequest, op: Operator, answers: seq<string>)
    requires Validate(req).Success? && Validate(req).value.mode == One
    requires var d := Detect(w, t, Validate(req).value.slave, []); d.result.Some? && d.result.value.family != HC05
    ensures var p := Pair(w, t, req, op, answers);
            !p.ok && p.trace == Detect(w, t, Validate(req).value.slave, []).trace && p.ctx == NoContext
  {
  }

  /** An HC-06 slave asked for a baud rate it has no code for fails the run
      when the plan is first built, before the port is opened for its steps. */
  lemma PairUnsupportedBaud(w: World, t: seq<Event>, req: PairRequest, op: Operator, answers: seq<string>)
    requires Validate(req).Success? && Normalise(req.flags).basic && req.baud !in HC06BaudMap
    requires var d := Detect(w, t, Validate(req).value.slave, []); d.result.Some? && d.result.value.family == HC06
    ensures var p := Pair(w, t, req, op, answers);
            !p.ok && p.trace == Detect(w, t, Validate(req).value.slave, []).trace && p.ctx == NoContext
  {
  }
}
