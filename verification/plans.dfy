/** The pairing plans: the `Step` and `PairFlags` records, the skip filter
    (`_should_include_step`) and the two plan builders (`build_slave_plan`,
    `build_master_plan`). Building is pure: it either yields the ordered steps
    or fails with a `PairPlanError` before anything touches a port. */
module Plans {
  import opened Wrappers
  import opened Text
  import opened Exchange
  import opened Address

  /** `HC06_BAUD_MAP`: the bit rates an HC-06 accepts and the code AT+BAUD takes. */
  const HC06BaudMap: map<int, string> := map[
    1200 := "1", 2400 := "2", 4800 := "3", 9600 := "4",
    19200 := "5", 38400 := "6", 57600 := "7", 115200 := "8",
    230400 := "9", 460800 := "A", 921600 := "B", 1382400 := "C"]

  datatype StepKind = CommandStep | InqStep

  datatype Category = Basic | Extra

  /** `Step`: one AT command of a plan and how its outcome is judged. */
  datatype Step = Step(
    id: string,
    title: string,
    command: string,
    value: Option<string>,
    critical: bool,
    optional: bool,
    expectOk: bool,
    retries: int,
    capture: bool,
    kind: StepKind,
    category: Category,
    timeoutMs: int,
    quietGapMs: int)

  /** `Step(id, label, command)` with every other field at its default. */
  function NewStep(id: string, title: string, command: string): Step {
    Step(id, title, command, None, false, false, true, 1, false, CommandStep, Basic, 2000, 200)
  }

  /** `PairFlags`: what the operator asked of one pairing run. */
  datatype PairFlags = PairFlags(
    basic: bool,
    skipSteps: set<string>,
    extraMasterCmds: seq<string>,
    extraSlaveCmds: seq<string>,
    advanced: bool,
    interactive: bool,
    dryRun: bool,
    showPlan: bool,
    noOrlg: bool,
    noRmaad: bool,
    noPair: bool,
    noLink: bool)

  /** `PairFlags()`: basic steps on, everything else off or empty. */
  const DefaultFlags := PairFlags(true, {}, [], [], false, false, false, false, false, false, false, false)

  /** `PairPlanError`, by cause. */
  datatype PlanError = CannotSkipCritical(title: string) | UnsupportedBaud(baud: int) | MasterNotHC05

  /** Python truthiness of an optional string: present and non-empty. */
  predicate Given(s: Option<string>) {
    s.Some? && s.value != ""
  }

  /** Skipping this step is refused: it is critical and the basic steps are on. */
  predicate Blocks(s: Step, flags: PairFlags) {
    flags.basic && s.id in flags.skipSteps && s.critical
  }

  /** The step stays in the plan: its category is enabled and it is not skipped. */
  predicate Included(s: Step, flags: PairFlags) {
    !(s.category == Basic && !flags.basic) && s.id !in flags.skipSteps
  }

  /** `_should_include_step`. */
  function ShouldInclude(s: Step, flags: PairFlags): (r: Result<bool, PlanError>)
    ensures r.Failure? <==> Blocks(s, flags)
    ensures r.Failure? ==> r.error == CannotSkipCritical(s.title)
    ensures r.Success? ==> (r.value <==> Included(s, flags))
  {
    if s.category == Basic && !flags.basic then Success(false)
    else if s.id in flags.skipSteps then
      if s.critical && flags.basic then Failure(CannotSkipCritical(s.title)) else Success(false)
    else Success(true)
  }

  /** The filtering loop of both builders: steps kept in order, the first
      refused skip raising. */
  function Filter(steps: seq<Step>, flags: PairFlags): Result<seq<Step>, PlanError>
    decreases |steps|
  {
    if steps == [] then Success([])
    else
      match ShouldInclude(steps[0], flags)
      case Failure(e) => Failure(e)
      case Success(keep) =>
        match Filter(steps[1..], flags)
        case Failure(e) => Failure(e)
        case Success(rest) => Success((if keep then [steps[0]] else []) + rest)
  }

  /** Some step of `steps` refuses to be skipped. */
  predicate AnyBlocks(steps: seq<Step>, flags: PairFlags)
    decreases |steps|
  {
    steps != [] && (Blocks(steps[0], flags) || AnyBlocks(steps[1..], flags))
  }

  /** The steps that stay, in order. */
  function Kept(steps: seq<Step>, flags: PairFlags): (r: seq<Step>)
    ensures forall s :: s in r ==> s in steps && Included(s, flags)
    decreases |steps|
  {
    if steps == [] then []
    else (if Included(steps[0], flags) then [steps[0]] else []) + Kept(steps[1..], flags)
  }

  /** The filter fails exactly when some step refuses to be skipped, naming the
      first such step, and otherwise keeps the included steps in order. */
  lemma {:induction false} FilterMeaning(steps: seq<Step>, flags: PairFlags)
    ensures var r := Filter(steps, flags);
            && (r.Failure? <==> AnyBlocks(steps, flags))
            && (r.Failure? ==> exists i :: 0 <= i < |steps| && Blocks(steps[i], flags)
                                 && r.error == CannotSkipCritical(steps[i].title)
                                 && forall j :: 0 <= j < i ==> !Blocks(steps[j], flags))
            && (r.Success? ==> r.value == Kept(steps, flags))
    decreases |steps|
  {
    if steps != [] {
      FilterMeaning(steps[1..], flags);
      var r := Filter(steps[1..], flags);
      if !Blocks(steps[0], flags) && r.Failure? {
        var i :| 0 <= i < |steps[1..]| && Blocks(steps[1..][i], flags)
                 && r.error == CannotSkipCritical(steps[1..][i].title)
                 && forall j :: 0 <= j < i ==> !Blocks(steps[1..][j], flags);
        assert Blocks(steps[i + 1], flags);
        forall j | 0 <= j < i + 1
          ensures !Blocks(steps[j], flags)
        {
          if j > 0 {
            assert steps[j] == steps[1..][j - 1];
          }
        }
      }
    }
  }

  lemma {:induction false} KeptAppend(a: seq<Step>, b: seq<Step>, flags: PairFlags)
    ensures Kept(a + b, flags) == Kept(a, flags) + Kept(b, flags)
    decreases |a|
  {
    if a == [] {
      assert a + b == b;
    } else {
      assert (a + b)[1..] == a[1..] + b;
      KeptAppend(a[1..], b, flags);
    }
  }

  lemma {:induction false} AnyBlocksAppend(a: seq<Step>, b: seq<Step>, flags: PairFlags)
    ensures AnyBlocks(a + b, flags) == (AnyBlocks(a, flags) || AnyBlocks(b, flags))
    decreases |a|
  {
    if a == [] {
      assert a + b == b;
    } else {
      assert (a + b)[1..] == a[1..] + b;
      AnyBlocksAppend(a[1..], b, flags);
    }
  }

  /** The ids of a list of steps, in order. */
  function Ids(steps: seq<Step>): (r: seq<string>)
    ensures |r| == |steps| && forall i :: 0 <= i < |r| ==> r[i] == steps[i].id
  {
    seq(|steps|, i requires 0 <= i < |steps| => steps[i].id)
  }

  lemma IdsAppend(a: seq<Step>, b: seq<Step>)
    ensures Ids(a + b) == Ids(a) + Ids(b)
  {
  }


  /** One `if <present>: steps.append(<step>)` of a builder. */
  datatype Candidate = Candidate(present: bool, step: Step)

  /** The steps a builder appends, in order. */
  function Present(cands: seq<Candidate>): (r: seq<Step>)
    ensures forall s :: s in r ==> exists i :: 0 <= i < |cands| && cands[i].present && cands[i].step == s
    decreases |cands|
  {
    if cands == [] then []
    else
      var rest := Present(cands[1..]);
      assert forall s :: s in rest ==> exists i :: 0 <= i < |cands| && cands[i].present && cands[i].step == s by {
        forall s | s in rest
          ensures exists i :: 0 <= i < |cands| && cands[i].present && cands[i].step == s
        {
          var i :| 0 <= i < |cands[1..]| && cands[1..][i].present && cands[1..][i].step == s;
          assert cands[i + 1] == cands[1..][i];
        }
      }
      (if cands[0].present then [cands[0].step] else []) + rest
  }

  /** The ids of the candidates, present or not: the builder's fixed order. */
  function CandidateIds(cands: seq<Candidate>): (r: seq<string>)
    ensures |r| == |cands| && forall i :: 0 <= i < |r| ==> r[i] == cands[i].step.id
  {
    seq(|cands|, i requires 0 <= i < |cands| => cands[i].step.id)
  }

  /** The ids of `order` that `want` admits, in order. */
  function Keep(order: seq<string>, want: string -> bool): (r: seq<string>)
    ensures forall x :: x in r ==> x in order && want(x)
    decreases |order|
  {
    if order == [] then []
    else (if want(order[0]) then [order[0]] else []) + Keep(order[1..], want)
  }

  lemma KeepNone(order: seq<string>, want: string -> bool)
    requires forall x :: x in order ==> !want(x)
    ensures Keep(order, want) == []
  {
    if Keep(order, want) != [] {
      assert Keep(order, want)[0] in Keep(order, want);
    }
  }

  /** `want` admits exactly the candidates that are present and included. */
  predicate WantMatches(cands: seq<Candidate>, flags: PairFlags, want: string -> bool) {
    forall i :: 0 <= i < |cands| ==> want(cands[i].step.id) == (cands[i].present && Included(cands[i].step, flags))
  }

  /** When `want` admits exactly the candidates that are present and
      included, the filtered plan's ids are the wanted ids in the fixed order. */
  lemma {:induction false} KeptIdsFollowOrder(cands: seq<Candidate>, flags: PairFlags, want: string -> bool)
    requires WantMatches(cands, flags, want)
    ensures Ids(Kept(Present(cands), flags)) == Keep(CandidateIds(cands), want)
    decreases |cands|
  {
    if cands != [] {
      var c := cands[0];
      var head := if c.present then [c.step] else [];
      var rest := Present(cands[1..]);
      assert Present(cands) == head + rest;
      assert WantMatches(cands[1..], flags, want) by {
        forall i | 0 <= i < |cands[1..]|
          ensures want(cands[1..][i].step.id) == (cands[1..][i].present && Included(cands[1..][i].step, flags))
        {
          assert cands[1..][i] == cands[i + 1];
        }
      }
      KeptIdsFollowOrder(cands[1..], flags, want);
      KeptAppend(head, rest, flags);
      IdsAppend(Kept(head, flags), Kept(rest, flags));
      HeadKeptIds(c, flags, want);
      var ids := CandidateIds(cands);
      assert ids[0] == c.step.id && ids[1..] == CandidateIds(cands[1..]);
      assert Keep(ids, want) == (if want(c.step.id) then [c.step.id] else []) + Keep(ids[1..], want);
    }
  }

  /** What one candidate contributes to the filtered plan's ids. */
  lemma HeadKeptIds(c: Candidate, flags: PairFlags, want: string -> bool)
    requires want(c.step.id) == (c.present && Included(c.step, flags))
    ensures Ids(Kept(if c.present then [c.step] else [], flags)) == if want(c.step.id) then [c.step.id] else []
  {
    assert [c.step][1..] == [];
  }

  /** Filtering the appended steps is refused exactly when some present
      candidate refuses to be skipped. */
  lemma {:induction false} PresentBlocks(cands: seq<Candidate>, flags: PairFlags)
    ensures AnyBlocks(Present(cands), flags) <==>
              exists i :: 0 <= i < |cands| && cands[i].present && Blocks(cands[i].step, flags)
    decreases |cands|
  {
    if cands != [] {
      var c := cands[0];
      var head := if c.present then [c.step] else [];
      PresentBlocks(cands[1..], flags);
      AnyBlocksAppend(head, Present(cands[1..]), flags);
      assert [c.step][1..] == [];
      if exists i :: 0 <= i < |cands| && cands[i].present && Blocks(cands[i].step, flags) {
        var i :| 0 <= i < |cands| && cands[i].present && Blocks(cands[i].step, flags);
        if i > 0 {
          assert cands[1..][i - 1] == cands[i];
        }
      }
      if exists i :: 0 <= i < |cands[1..]| && cands[1..][i].present && Blocks(cands[1..][i].step, flags) {
        var i :| 0 <= i < |cands[1..]| && cands[1..][i].present && Blocks(cands[1..][i].step, flags);
        assert cands[i + 1] == cands[1..][i];
      }
    }
  }

  /** The `extra-<role>-<k>` step for the k-th extra command (k from 1). */
  function ExtraStep(role: string, k: nat, cmd: string, timeoutMs: int): Step {
    NewStep("extra-" + role + "-" + NatToString(k), "Extra (" + role + ") " + cmd, cmd)
      .(expectOk := false, optional := true, category := Extra, timeoutMs := timeoutMs)
  }

  /** The extra commands as steps, numbered from 1 in the order given. */
  function ExtraSteps(role: string, cmds: seq<string>, timeoutMs: int): (r: seq<Step>)
    ensures |r| == |cmds|
    ensures forall k :: 0 <= k < |r| ==>
              && r[k].id == "extra-" + role + "-" + NatToString(k + 1)
              && r[k].command == cmds[k]
              && r[k].optional && !r[k].critical && !r[k].expectOk
              && r[k].category == Extra && r[k].timeoutMs == timeoutMs
  {
    seq(|cmds|, k requires 0 <= k < |cmds| => ExtraStep(role, k + 1, cmds[k], timeoutMs))
  }

  /** The ids `extra-<role>-1` … `extra-<role>-n`. */
  function ExtraIds(role: string, n: nat): (r: seq<string>)
    ensures |r| == n
  {
    seq(n, k requires 0 <= k < n => "extra-" + role + "-" + NatToString(k + 1))
  }

  lemma ExtraStepIds(role: string, cmds: seq<string>, timeoutMs: int)
    ensures Ids(ExtraSteps(role, cmds, timeoutMs)) == ExtraIds(role, |cmds|)
  {
  }

  /** Filter the appended basic steps, then add the extras unfiltered. */
  function Finish(cands: seq<Candidate>, flags: PairFlags, extras: seq<Step>): Result<seq<Step>, PlanError> {
    match Filter(Present(cands), flags)
    case Failure(e) => Failure(e)
    case Success(kept) => Success(kept + extras)
  }

  /** What a finished plan is made of: it fails exactly when a present
      candidate refuses a skip; otherwise it is the included candidates in
      order followed by the extras. */
  lemma FinishMeaning(cands: seq<Candidate>, flags: PairFlags, extras: seq<Step>, want: string -> bool)
    requires WantMatches(cands, flags, want)
    ensures var r := Finish(cands, flags, extras);
            && (r.Failure? <==> exists i :: 0 <= i < |cands| && cands[i].present && Blocks(cands[i].step, flags))
            && (r.Failure? ==> r.error.CannotSkipCritical?)
            && (r.Success? ==> Ids(r.value) == Keep(CandidateIds(cands), want) + Ids(extras))
            && (r.Success? ==> forall s :: s in r.value ==> s in extras || exists i :: 0 <= i < |cands| && cands[i].present && cands[i].step == s)
  {
    FilterMeaning(Present(cands), flags);
    PresentBlocks(cands, flags);
    KeptIdsFollowOrder(cands, flags, want);
    var r := Filter(Present(cands), flags);
    if r.Success? {
      IdsAppend(r.value, extras);
    }
  }

  // ---------------------------------------------------------------------------
  // Steps shared by both plans

  function AtStep(): Step {
    NewStep("at", "AT", "AT").(critical := true, retries := 2)
  }

  function NameStep(name: string): Step {
    NewStep("name", "AT+NAME=" + name, "AT+NAME=" + name).(value := Some(name))
  }

  function PinStep(pin: string): Step {
    NewStep("pin", "AT+PSWD=" + pin, "AT+PSWD=" + pin).(value := Some(pin))
  }

  /** The HC-05 rate command: `AT+UART=<baud>,0,0` (one stop bit, no parity). */
  function UartCommand(baud: int): string {
    "AT+UART=" + IntToString(baud) + ",0,0"
  }

  // ---------------------------------------------------------------------------
  // Slave plan

  function SlaveUart(family: Family, baud: int): Step
    requires family == HC05 || baud in HC06BaudMap
  {
    var cmd := if family == HC05 then UartCommand(baud) else "AT+BAUD" + HC06BaudMap[baud];
    NewStep("uart", cmd, cmd).(critical := true)
  }

  function SlaveAddr(family: Family, requireAddr: bool): Step {
    var critical := family == HC05 && requireAddr;
    NewStep("addr", "AT+ADDR?", "AT+ADDR?")
      .(critical := critical, optional := !critical, expectOk := false, capture := true)
  }

  /** The appends of `build_slave_plan` when the basic steps are on. */
  function SlaveCandidates(family: Family, name: Option<string>, pin: Option<string>, baud: int,
                           flags: PairFlags, requireAddr: bool): seq<Candidate>
    requires family == HC05 || baud in HC06BaudMap
  {
    [ Candidate(true, AtStep()),
      Candidate(family == HC05 && !flags.noOrlg, NewStep("orlg", "AT+ORGL", "AT+ORGL").(optional := true, timeoutMs := 3000)),
      Candidate(family == HC05, NewStep("role0", "AT+ROLE=0", "AT+ROLE=0").(critical := true)),
      Candidate(Given(name), NameStep(name.GetOr(""))),
      Candidate(Given(pin), PinStep(pin.GetOr(""))),
      Candidate(true, SlaveUart(family, baud)),
      Candidate(true, SlaveAddr(family, requireAddr)) ]
  }

  /** `build_slave_plan`. An HC-06 rate missing from the map raises while the
      basic steps are being appended, before the filter runs. */
  function SlavePlan(detection: Detection, name: Option<string>, pin: Option<string>, baud: int,
                     flags: PairFlags, requireAddr: bool): Result<seq<Step>, PlanError>
  {
    var extras := ExtraSteps("slave", flags.extraSlaveCmds, 2500);
    if !flags.basic then Finish([], flags, extras)
    else if detection.family == HC06 && baud !in HC06BaudMap then Failure(UnsupportedBaud(baud))
    else Finish(SlaveCandidates(detection.family, name, pin, baud, flags, requireAddr), flags, extras)
  }

  /** The order in which `build_slave_plan` lists its basic steps. */
  const SlaveOrder := ["at", "orlg", "role0", "name", "pin", "uart", "addr"]

  /** Which of the slave's basic steps a run wants: each is present when its
      condition holds, the basic steps are on and the id is not skipped. */
  function SlaveWanted(family: Family, name: Option<string>, pin: Option<string>, flags: PairFlags): string -> bool {
    id =>
      && flags.basic && id !in flags.skipSteps
      && (id == "orlg" ==> family == HC05 && !flags.noOrlg)
      && (id == "role0" ==> family == HC05)
      && (id == "name" ==> Given(name))
      && (id == "pin" ==> Given(pin))
  }

  lemma SlaveCandidatesWanted(family: Family, name: Option<string>, pin: Option<string>, baud: int,
                              flags: PairFlags, requireAddr: bool)
    requires flags.basic && (family == HC05 || baud in HC06BaudMap)
    ensures var cands := SlaveCandidates(family, name, pin, baud, flags, requireAddr);
            && CandidateIds(cands) == SlaveOrder
            && WantMatches(cands, flags, SlaveWanted(family, name, pin, flags))
  {
    var cands := SlaveCandidates(family, name, pin, baud, flags, requireAddr);
    var want := SlaveWanted(family, name, pin, flags);
    forall i | 0 <= i < |cands|
      ensures want(cands[i].step.id) == (cands[i].present && Included(cands[i].step, flags))
    {
      if i == 0 {
      } else if i == 1 {
      } else if i == 2 {
      } else if i == 3 {
      } else if i == 4 {
      } else if i == 5 {
      } else {
      }
    }
  }

  /** The slave plan lists the wanted basic steps in the fixed order, then
      one step per extra command, numbered from 1 and never filtered. */
  lemma SlavePlanOrder(detection: Detection, name: Option<string>, pin: Option<string>, baud: int,
                       flags: PairFlags, requireAddr: bool)
    ensures var r := SlavePlan(detection, name, pin, baud, flags, requireAddr);
            r.Success? ==>
              Ids(r.value) == Keep(SlaveOrder, SlaveWanted(detection.family, name, pin, flags))
                              + ExtraIds("slave", |flags.extraSlaveCmds|)
  {
    var family := detection.family;
    var want := SlaveWanted(family, name, pin, flags);
    var extras := ExtraSteps("slave", flags.extraSlaveCmds, 2500);
    ExtraStepIds("slave", flags.extraSlaveCmds, 2500);
    if !flags.basic {
      FinishMeaning([], flags, extras, want);
      KeepNone(SlaveOrder, want);
    } else if family == HC05 || baud in HC06BaudMap {
      SlaveBasicOrder(family, name, pin, baud, flags, requireAddr);
    }
  }

  /** The same with the basic steps on and a rate the module takes. */
  lemma SlaveBasicOrder(family: Family, name: Option<string>, pin: Option<string>, baud: int,
                        flags: PairFlags, requireAddr: bool)
    requires flags.basic && (family == HC05 || baud in HC06BaudMap)
    ensures var extras := ExtraSteps("slave", flags.extraSlaveCmds, 2500);
            var r := Finish(SlaveCandidates(family, name, pin, baud, flags, requireAddr), flags, extras);
            r.Success? ==> Ids(r.value) == Keep(SlaveOrder, SlaveWanted(family, name, pin, flags)) + Ids(extras)
  {
    var extras := ExtraSteps("slave", flags.extraSlaveCmds, 2500);
    var cands := SlaveCandidates(family, name, pin, baud, flags, requireAddr);
    SlaveCandidatesWanted(family, name, pin, baud, flags, requireAddr);
    FinishMeaning(cands, flags, extras, SlaveWanted(family, name, pin, flags));
  }

  /** Some present candidate refuses to be skipped. */
  predicate CandidatesBlock(cands: seq<Candidate>, flags: PairFlags) {
    exists i :: 0 <= i < |cands| && cands[i].present && Blocks(cands[i].step, flags)
  }

  lemma SlaveCandidatesBlock(family: Family, name: Option<string>, pin: Option<string>, baud: int,
                             flags: PairFlags, requireAddr: bool)
    requires flags.basic && (family == HC05 || baud in HC06BaudMap)
    ensures CandidatesBlock(SlaveCandidates(family, name, pin, baud, flags, requireAddr), flags) <==>
              || "at" in flags.skipSteps || "uart" in flags.skipSteps
              || (family == HC05 && "role0" in flags.skipSteps)
              || (family == HC05 && requireAddr && "addr" in flags.skipSteps)
  {
    var cands := SlaveCandidates(family, name, pin, baud, flags, requireAddr);
    if "at" in flags.skipSteps {
      assert cands[0].present && Blocks(cands[0].step, flags);
    }
    if "uart" in flags.skipSteps {
      assert cands[5].present && Blocks(cands[5].step, flags);
    }
    if family == HC05 && "role0" in flags.skipSteps {
      assert cands[2].present && Blocks(cands[2].step, flags);
    }
    if family == HC05 && requireAddr && "addr" in flags.skipSteps {
      assert cands[6].present && Blocks(cands[6].step, flags);
    }
  }

  /** `build_slave_plan` raises exactly when the basic steps are on and either
      the module is an HC-06 whose rate is missing from the map, or a critical
      step is skipped: at, uart, role0 on an HC-05, addr on an HC-05 when the
      address is required. The rate is checked first. */
  lemma SlavePlanFails(detection: Detection, name: Option<string>, pin: Option<string>, baud: int,
                       flags: PairFlags, requireAddr: bool)
    ensures var r := SlavePlan(detection, name, pin, baud, flags, requireAddr);
            var family := detection.family;
            && (r.Failure? <==>
                  flags.basic &&
                  ( || (family == HC06 && baud !in HC06BaudMap)
                    || "at" in flags.skipSteps || "uart" in flags.skipSteps
                    || (family == HC05 && "role0" in flags.skipSteps)
                    || (family == HC05 && requireAddr && "addr" in flags.skipSteps)))
            && (r.Failure? ==> (r.error == UnsupportedBaud(baud) <==> family == HC06 && baud !in HC06BaudMap))
  {
    var family := detection.family;
    var extras := ExtraSteps("slave", flags.extraSlaveCmds, 2500);
    if !flags.basic {
      FinishMeaning([], flags, extras, SlaveWanted(family, name, pin, flags));
    } else if family == HC05 || baud in HC06BaudMap {
      SlaveBasicFails(family, name, pin, baud, flags, requireAddr);
    }
  }

  /** The same with the basic steps on and a rate the module takes. */
  lemma SlaveBasicFails(family: Family, name: Option<string>, pin: Option<string>, baud: int,
                        flags: PairFlags, requireAddr: bool)
    requires flags.basic && (family == HC05 || baud in HC06BaudMap)
    ensures var extras := ExtraSteps("slave", flags.extraSlaveCmds, 2500);
            var r := Finish(SlaveCandidates(family, name, pin, baud, flags, requireAddr), flags, extras);
            && (r.Failure? <==>
                  || "at" in flags.skipSteps || "uart" in flags.skipSteps
                  || (family == HC05 && "role0" in flags.skipSteps)
                  || (family == HC05 && requireAddr && "addr" in flags.skipSteps))
            && (r.Failure? ==> r.error.CannotSkipCritical?)
  {
    var extras := ExtraSteps("slave", flags.extraSlaveCmds, 2500);
    SlaveCandidatesWanted(family, name, pin, baud, flags, requireAddr);
    SlaveCandidatesBlock(family, name, pin, baud, flags, requireAddr);
    FinishMeaning(SlaveCandidates(family, name, pin, baud, flags, requireAddr), flags, extras,
                  SlaveWanted(family, name, pin, flags));
  }

  /** What each basic step of the slave plan is, by id. */
  predicate SlaveStepDocumented(s: Step, family: Family, name: Option<string>, pin: Option<string>,
                                baud: int, requireAddr: bool)
  {
    && s.category == Basic && s.kind == CommandStep
    && (s.id == "at" ==> s.command == "AT" && s.critical && s.retries == 2)
    && (s.id == "orlg" ==> family == HC05 && s.command == "AT+ORGL" && s.optional && !s.critical && s.timeoutMs == 3000)
    && (s.id == "role0" ==> family == HC05 && s.command == "AT+ROLE=0" && s.critical)
    && (s.id == "name" ==> Given(name) && s.command == "AT+NAME=" + name.value && s.value == name)
    && (s.id == "pin" ==> Given(pin) && s.command == "AT+PSWD=" + pin.value && s.value == pin)
    && (s.id == "uart" ==>
          && s.critical
          && if family == HC05 then s.command == UartCommand(baud)
             else baud in HC06BaudMap && s.command == "AT+BAUD" + HC06BaudMap[baud])
    && (s.id == "addr" ==>
          && s.command == "AT+ADDR?" && s.capture && !s.expectOk
          && (s.critical <==> family == HC05 && requireAddr) && s.optional == !s.critical)
    && s.id in SlaveOrder
  }

  lemma SlaveCandidatesDocumented(family: Family, name: Option<string>, pin: Option<string>, baud: int,
                                  flags: PairFlags, requireAddr: bool)
    requires family == HC05 || baud in HC06BaudMap
    ensures var cands := SlaveCandidates(family, name, pin, baud, flags, requireAddr);
            forall i :: 0 <= i < |cands| && cands[i].present ==>
              SlaveStepDocumented(cands[i].step, family, name, pin, baud, requireAddr)
  {
    var cands := SlaveCandidates(family, name, pin, baud, flags, requireAddr);
    forall i | 0 <= i < |cands| && cands[i].present
      ensures SlaveStepDocumented(cands[i].step, family, name, pin, baud, requireAddr)
    {
      if i == 0 {
      } else if i == 1 {
      } else if i == 2 {
      } else if i == 3 {
      } else if i == 4 {
      } else if i == 5 {
      } else {
      }
    }
  }

  /** Every step of a slave plan is either a basic step as documented for its
      id, or an extra command: optional, not critical, accepting any reply. */
  lemma SlavePlanSteps(detection: Detection, name: Option<string>, pin: Option<string>, baud: int,
                       flags: PairFlags, requireAddr: bool)
    ensures var r := SlavePlan(detection, name, pin, baud, flags, requireAddr);
            r.Success? ==> forall s :: s in r.value ==>
              || SlaveStepDocumented(s, detection.family, name, pin, baud, requireAddr)
              || (&& s.category == Extra && s.command in flags.extraSlaveCmds
                  && s.optional && !s.critical && !s.expectOk && s.timeoutMs == 2500)
  {
    var family := detection.family;
    var extras := ExtraSteps("slave", flags.extraSlaveCmds, 2500);
    var want := SlaveWanted(family, name, pin, flags);
    var r := SlavePlan(detection, name, pin, baud, flags, requireAddr);
    if r.Success? {
      var cands := if flags.basic then SlaveCandidates(family, name, pin, baud, flags, requireAddr) else [];
      if flags.basic {
        SlaveCandidatesWanted(family, name, pin, baud, flags, requireAddr);
        SlaveCandidatesDocumented(family, name, pin, baud, flags, requireAddr);
      }
      FinishMeaning(cands, flags, extras, want);
      forall s | s in r.value
        ensures || SlaveStepDocumented(s, family, name, pin, baud, requireAddr)
                || (&& s.category == Extra && s.command in flags.extraSlaveCmds
                    && s.optional && !s.critical && !s.expectOk && s.timeoutMs == 2500)
      {
        if s in extras {
          var k :| 0 <= k < |extras| && extras[k] == s;
        }
      }
    }
  }

  // ---------------------------------------------------------------------------
  // Master plan

  /** The address the pair, bind and link commands carry: the comma form when
      known, otherwise the literal placeholder the executor fills in. */
  function AddrText(slaveAddr: Option<Addr>): string {
    match slaveAddr
    case Some(a) => a.comma
    case None => "{addr}"
  }

  /** The appends of `build_master_plan` up to the rate command. */
  function MasterSetupCandidates(name: Option<string>, pin: Option<string>, baud: int): seq<Candidate> {
    [ Candidate(true, AtStep()),
      Candidate(true, NewStep("role1", "AT+ROLE=1", "AT+ROLE=1").(critical := true)),
      Candidate(true, NewStep("cmode", "AT+CMODE=0", "AT+CMODE=0").(critical := true)),
      Candidate(Given(name), NameStep(name.GetOr(""))),
      Candidate(Given(pin), PinStep(pin.GetOr(""))),
      Candidate(true, NewStep("uart", UartCommand(baud), UartCommand(baud)).(critical := true)) ]
  }

  /** The appends of `build_master_plan` from the pairing list reset on. */
  function MasterLinkCandidates(flags: PairFlags, slaveAddr: Option<Addr>, wantScan: bool, requireLink: bool)
    : seq<Candidate>
  {
    var a := AddrText(slaveAddr);
    [ Candidate(!flags.noRmaad, NewStep("rmaad", "AT+RMAAD", "AT+RMAAD").(optional := true, timeoutMs := 5000)),
      Candidate(true, NewStep("init", "AT+INIT", "AT+INIT").(optional := true, timeoutMs := 8000)),
      Candidate(wantScan && slaveAddr.None?,
        NewStep("inq", "AT+INQ (scan + pick slave)", "AT+INQ")
          .(critical := true, expectOk := false, kind := InqStep, timeoutMs := 9000)),
      Candidate(!flags.noPair,
        NewStep("pair", "AT+PAIR=" + a + ",20", "AT+PAIR=" + a + ",20")
          .(optional := true, timeoutMs := 25000, quietGapMs := 300)),
      Candidate(true, NewStep("bind", "AT+BIND=" + a, "AT+BIND=" + a).(critical := true, timeoutMs := 4000)),
      Candidate(!flags.noLink,
        NewStep("link", "AT+LINK=" + a, "AT+LINK=" + a)
          .(critical := requireLink, optional := !requireLink, timeoutMs := 15000, quietGapMs := 300)),
      Candidate(true, NewStep("reset", "AT+RESET", "AT+RESET").(optional := true, expectOk := false, timeoutMs := 3000)) ]
  }

  /** The appends of `build_master_plan` when the basic steps are on. */
  function MasterCandidates(name: Option<string>, pin: Option<string>, baud: int, flags: PairFlags,
                            slaveAddr: Option<Addr>, wantScan: bool, requireLink: bool): seq<Candidate>
  {
    MasterSetupCandidates(name, pin, baud) + MasterLinkCandidates(flags, slaveAddr, wantScan, requireLink)
  }

  /** `build_master_plan`: only an HC-05 can be the master. */
  function MasterPlan(detection: Detection, name: Option<string>, pin: Option<string>, baud: int,
                      flags: PairFlags, slaveAddr: Option<Addr>, wantScan: bool, requireLink: bool)
    : Result<seq<Step>, PlanError>
  {
    if detection.family != HC05 then Failure(MasterNotHC05)
    else
      var cands := if flags.basic then MasterCandidates(name, pin, baud, flags, slaveAddr, wantScan, requireLink) else [];
      Finish(cands, flags, ExtraSteps("master", flags.extraMasterCmds, 3000))
  }

  /** The order in which `build_master_plan` lists its basic steps. */
  const MasterOrder := ["at", "role1", "cmode", "name", "pin", "uart", "rmaad", "init", "inq", "pair", "bind", "link", "reset"]

  /** Which of the master's basic steps a run wants. */
  function MasterWanted(name: Option<string>, pin: Option<string>, flags: PairFlags,
                        slaveAddr: Option<Addr>, wantScan: bool): string -> bool {
    id =>
      && flags.basic && id !in flags.skipSteps
      && (id == "name" ==> Given(name))
      && (id == "pin" ==> Given(pin))
      && (id == "rmaad" ==> !flags.noRmaad)
      && (id == "inq" ==> wantScan && slaveAddr.None?)
      && (id == "pair" ==> !flags.noPair)
      && (id == "link" ==> !flags.noLink)
  }

  lemma WantMatchesAppend(a: seq<Candidate>, b: seq<Candidate>, flags: PairFlags, want: string -> bool)
    requires WantMatches(a, flags, want) && WantMatches(b, flags, want)
    ensures WantMatches(a + b, flags, want)
  {
    forall i: int | 0 <= i < |a + b|
      ensures want((a + b)[i].step.id) == ((a + b)[i].present && Included((a + b)[i].step, flags))
    {
      if i >= |a| {
        assert (a + b)[i] == b[i - |a|];
      }
    }
  }

  /** The at, role1 and cmode candidates. */
  lemma MasterSetupWantedCore(name: Option<string>, pin: Option<string>, baud: int, flags: PairFlags,
                          slaveAddr: Option<Addr>, wantScan: bool)
    requires flags.basic
    ensures var cands := MasterSetupCandidates(name, pin, baud);
            forall i :: 0 <= i < 3 ==> CandidateWanted(cands[i], flags, MasterWanted(name, pin, flags, slaveAddr, wantScan))
  {
    var cands := MasterSetupCandidates(name, pin, baud);
    var want := MasterWanted(name, pin, flags, slaveAddr, wantScan);
    forall i | 0 <= i < 3
      ensures CandidateWanted(cands[i], flags, want)
    {
      if i == 0 {
      } else if i == 1 {
      } else {
      }
    }
  }

  /** The name, pin and uart candidates. */
  lemma MasterSetupWantedSettings(name: Option<string>, pin: Option<string>, baud: int, flags: PairFlags,
                          slaveAddr: Option<Addr>, wantScan: bool)
    requires flags.basic
    ensures var cands := MasterSetupCandidates(name, pin, baud);
            forall i :: 3 <= i < 6 ==> CandidateWanted(cands[i], flags, MasterWanted(name, pin, flags, slaveAddr, wantScan))
  {
    var cands := MasterSetupCandidates(name, pin, baud);
    var want := MasterWanted(name, pin, flags, slaveAddr, wantScan);
    forall i | 3 <= i < 6
      ensures CandidateWanted(cands[i], flags, want)
    {
      if i == 3 {
      } else if i == 4 {
      } else {
      }
    }
  }

  lemma MasterSetupWanted(name: Option<string>, pin: Option<string>, baud: int, flags: PairFlags,
                          slaveAddr: Option<Addr>, wantScan: bool)
    requires flags.basic
    ensures WantMatches(MasterSetupCandidates(name, pin, baud), flags, MasterWanted(name, pin, flags, slaveAddr, wantScan))
  {
    var cands := MasterSetupCandidates(name, pin, baud);
    var want := MasterWanted(name, pin, flags, slaveAddr, wantScan);
    MasterSetupWantedCore(name, pin, baud, flags, slaveAddr, wantScan);
    MasterSetupWantedSettings(name, pin, baud, flags, slaveAddr, wantScan);
    forall i | 0 <= i < |cands|
      ensures CandidateWanted(cands[i], flags, want)
    {
    }
  }

  /** One candidate is wanted exactly when it is present and included. */
  predicate CandidateWanted(c: Candidate, flags: PairFlags, want: string -> bool) {
    want(c.step.id) == (c.present && Included(c.step, flags))
  }

  /** The rmaad, init and inq candidates. */
  lemma MasterLinkWantedPrepare(name: Option<string>, pin: Option<string>, flags: PairFlags,
                         slaveAddr: Option<Addr>, wantScan: bool, requireLink: bool)
    requires flags.basic
    ensures var cands := MasterLinkCandidates(flags, slaveAddr, wantScan, requireLink);
            forall i :: 0 <= i < 3 ==> CandidateWanted(cands[i], flags, MasterWanted(name, pin, flags, slaveAddr, wantScan))
  {
    var cands := MasterLinkCandidates(flags, slaveAddr, wantScan, requireLink);
    var want := MasterWanted(name, pin, flags, slaveAddr, wantScan);
    forall i | 0 <= i < 3
      ensures CandidateWanted(cands[i], flags, want)
    {
      if i == 0 {
      } else if i == 1 {
      } else {
      }
    }
  }

  /** The pair and bind candidates. */
  lemma MasterLinkWantedPair(name: Option<string>, pin: Option<string>, flags: PairFlags,
                         slaveAddr: Option<Addr>, wantScan: bool, requireLink: bool)
    requires flags.basic
    ensures var cands := MasterLinkCandidates(flags, slaveAddr, wantScan, requireLink);
            forall i :: 3 <= i < 5 ==> CandidateWanted(cands[i], flags, MasterWanted(name, pin, flags, slaveAddr, wantScan))
  {
    var cands := MasterLinkCandidates(flags, slaveAddr, wantScan, requireLink);
    var want := MasterWanted(name, pin, flags, slaveAddr, wantScan);
    forall i | 3 <= i < 5
      ensures CandidateWanted(cands[i], flags, want)
    {
      if i == 3 {
      } else {
      }
    }
  }

  /** The link and reset candidates. */
  lemma MasterLinkWantedLink(name: Option<string>, pin: Option<string>, flags: PairFlags,
                         slaveAddr: Option<Addr>, wantScan: bool, requireLink: bool)
    requires flags.basic
    ensures var cands := MasterLinkCandidates(flags, slaveAddr, wantScan, requireLink);
            forall i :: 5 <= i < 7 ==> CandidateWanted(cands[i], flags, MasterWanted(name, pin, flags, slaveAddr, wantScan))
  {
    var cands := MasterLinkCandidates(flags, slaveAddr, wantScan, requireLink);
    var want := MasterWanted(name, pin, flags, slaveAddr, wantScan);
    forall i | 5 <= i < 7
      ensures CandidateWanted(cands[i], flags, want)
    {
      if i == 5 {
      } else {
      }
    }
  }

  lemma MasterLinkWanted(name: Option<string>, pin: Option<string>, flags: PairFlags,
                         slaveAddr: Option<Addr>, wantScan: bool, requireLink: bool)
    requires flags.basic
    ensures WantMatches(MasterLinkCandidates(flags, slaveAddr, wantScan, requireLink), flags,
                        MasterWanted(name, pin, flags, slaveAddr, wantScan))
  {
    var cands := MasterLinkCandidates(flags, slaveAddr, wantScan, requireLink);
    var want := MasterWanted(name, pin, flags, slaveAddr, wantScan);
    MasterLinkWantedPrepare(name, pin, flags, slaveAddr, wantScan, requireLink);
    MasterLinkWantedPair(name, pin, flags, slaveAddr, wantScan, requireLink);
    MasterLinkWantedLink(name, pin, flags, slaveAddr, wantScan, requireLink);
    forall i | 0 <= i < |cands|
      ensures CandidateWanted(cands[i], flags, want)
    {
    }
  }

  lemma MasterCandidatesWanted(name: Option<string>, pin: Option<string>, baud: int, flags: PairFlags,
                               slaveAddr: Option<Addr>, wantScan: bool, requireLink: bool)
    requires flags.basic
    ensures var cands := MasterCandidates(name, pin, baud, flags, slaveAddr, wantScan, requireLink);
            && CandidateIds(cands) == MasterOrder
            && WantMatches(cands, flags, MasterWanted(name, pin, flags, slaveAddr, wantScan))
  {
    var a := MasterSetupCandidates(name, pin, baud);
    var b := MasterLinkCandidates(flags, slaveAddr, wantScan, requireLink);
    MasterSetupWanted(name, pin, baud, flags, slaveAddr, wantScan);
    MasterLinkWanted(name, pin, flags, slaveAddr, wantScan, requireLink);
    WantMatchesAppend(a, b, flags, MasterWanted(name, pin, flags, slaveAddr, wantScan));
    MasterSetupIds(name, pin, baud);
    MasterLinkIds(flags, slaveAddr, wantScan, requireLink);
    assert CandidateIds(a + b) == CandidateIds(a) + CandidateIds(b);
  }

  lemma MasterSetupIds(name: Option<string>, pin: Option<string>, baud: int)
    ensures CandidateIds(MasterSetupCandidates(name, pin, baud)) == ["at", "role1", "cmode", "name", "pin", "uart"]
  {
  }

  lemma MasterLinkIds(flags: PairFlags, slaveAddr: Option<Addr>, wantScan: bool, requireLink: bool)
    ensures CandidateIds(MasterLinkCandidates(flags, slaveAddr, wantScan, requireLink))
            == ["rmaad", "init", "inq", "pair", "bind", "link", "reset"]
  {
  }

  /** The master plan lists the wanted basic steps in the fixed order, then
      one step per extra command, numbered from 1 and never filtered. */
  lemma MasterPlanOrder(detection: Detection, name: Option<string>, pin: Option<string>, baud: int,
                        flags: PairFlags, slaveAddr: Option<Addr>, wantScan: bool, requireLink: bool)
    ensures var r := MasterPlan(detection, name, pin, baud, flags, slaveAddr, wantScan, requireLink);
            r.Success? ==>
              Ids(r.value) == Keep(MasterOrder, MasterWanted(name, pin, flags, slaveAddr, wantScan))
                              + ExtraIds("master", |flags.extraMasterCmds|)
  {
    var want := MasterWanted(name, pin, flags, slaveAddr, wantScan);
    var extras := ExtraSteps("master", flags.extraMasterCmds, 3000);
    ExtraStepIds("master", flags.extraMasterCmds, 3000);
    if detection.family == HC05 {
      if !flags.basic {
        FinishMeaning([], flags, extras, want);
        KeepNone(MasterOrder, want);
      } else {
        MasterCandidatesWanted(name, pin, baud, flags, slaveAddr, wantScan, requireLink);
        FinishMeaning(MasterCandidates(name, pin, baud, flags, slaveAddr, wantScan, requireLink), flags, extras, want);
      }
    }
  }

  lemma MasterCandidatesBlock(name: Option<string>, pin: Option<string>, baud: int, flags: PairFlags,
                              slaveAddr: Option<Addr>, wantScan: bool, requireLink: bool)
    requires flags.basic
    ensures CandidatesBlock(MasterCandidates(name, pin, baud, flags, slaveAddr, wantScan, requireLink), flags) <==>
              || "at" in flags.skipSteps || "role1" in flags.skipSteps || "cmode" in flags.skipSteps
              || "uart" in flags.skipSteps || "bind" in flags.skipSteps
              || (wantScan && slaveAddr.None? && "inq" in flags.skipSteps)
              || (!flags.noLink && requireLink && "link" in flags.skipSteps)
  {
    var cands := MasterCandidates(name, pin, baud, flags, slaveAddr, wantScan, requireLink);
    if "at" in flags.skipSteps {
      assert cands[0].present && Blocks(cands[0].step, flags);
    }
    if "role1" in flags.skipSteps {
      assert cands[1].present && Blocks(cands[1].step, flags);
    }
    if "cmode" in flags.skipSteps {
      assert cands[2].present && Blocks(cands[2].step, flags);
    }
    if "uart" in flags.skipSteps {
      assert cands[5].present && Blocks(cands[5].step, flags);
    }
    if "bind" in flags.skipSteps {
      assert cands[10].present && Blocks(cands[10].step, flags);
    }
    if wantScan && slaveAddr.None? && "inq" in flags.skipSteps {
      assert cands[8].present && Blocks(cands[8].step, flags);
    }
    if !flags.noLink && requireLink && "link" in flags.skipSteps {
      assert cands[11].present && Blocks(cands[11].step, flags);
    }
  }

  /** `build_master_plan` raises exactly when the module is not an HC-05, or
      the basic steps are on and a critical step is skipped: at, role1, cmode,
      uart, bind, the scan when it is wanted, the link when it is present and
      required. The family is checked first. */
  lemma MasterPlanFails(detection: Detection, name: Option<string>, pin: Option<string>, baud: int,
                        flags: PairFlags, slaveAddr: Option<Addr>, wantScan: bool, requireLink: bool)
    ensures var r := MasterPlan(detection, name, pin, baud, flags, slaveAddr, wantScan, requireLink);
            && (r.Failure? <==>
                  || detection.family != HC05
                  || (&& flags.basic
                      && ( || "at" in flags.skipSteps || "role1" in flags.skipSteps || "cmode" in flags.skipSteps
                           || "uart" in flags.skipSteps || "bind" in flags.skipSteps
                           || (wantScan && slaveAddr.None? && "inq" in flags.skipSteps)
                           || (!flags.noLink && requireLink && "link" in flags.skipSteps))))
            && (r.Failure? ==> (r.error == MasterNotHC05 <==> detection.family != HC05))
  {
    var want := MasterWanted(name, pin, flags, slaveAddr, wantScan);
    var extras := ExtraSteps("master", flags.extraMasterCmds, 3000);
    if detection.family == HC05 {
      if !flags.basic {
        FinishMeaning([], flags, extras, want);
      } else {
        MasterCandidatesWanted(name, pin, baud, flags, slaveAddr, wantScan, requireLink);
        MasterCandidatesBlock(name, pin, baud, flags, slaveAddr, wantScan, requireLink);
        FinishMeaning(MasterCandidates(name, pin, baud, flags, slaveAddr, wantScan, requireLink), flags, extras, want);
      }
    }
  }

  /** What each basic step of the master plan is, by id. */
  predicate MasterStepDocumented(s: Step, name: Option<string>, pin: Option<string>, baud: int,
                                 flags: PairFlags, slaveAddr: Option<Addr>, wantScan: bool, requireLink: bool)
  {
    && s.category == Basic
    && (s.kind == InqStep <==> s.id == "inq")
    && (s.id == "at" ==> s.command == "AT" && s.critical && s.retries == 2)
    && (s.id == "role1" ==> s.command == "AT+ROLE=1" && s.critical)
    && (s.id == "cmode" ==> s.command == "AT+CMODE=0" && s.critical)
    && (s.id == "name" ==> Given(name) && s.command == "AT+NAME=" + name.value && s.value == name)
    && (s.id == "pin" ==> Given(pin) && s.command == "AT+PSWD=" + pin.value && s.value == pin)
    && (s.id == "uart" ==> s.command == UartCommand(baud) && s.critical)
    && (s.id == "rmaad" ==> !flags.noRmaad && s.command == "AT+RMAAD" && s.optional && !s.critical)
    && (s.id == "init" ==> s.command == "AT+INIT" && s.optional && !s.critical)
    && (s.id == "inq" ==> wantScan && slaveAddr.None? && s.command == "AT+INQ" && s.critical && !s.expectOk)
    && (s.id == "pair" ==>
          && !flags.noPair && s.command == "AT+PAIR=" + AddrText(slaveAddr) + ",20"
          && s.optional && !s.critical && s.timeoutMs == 25000 && s.timeoutMs > 20 * 1000)
    && (s.id == "bind" ==> s.command == "AT+BIND=" + AddrText(slaveAddr) && s.critical)
    && (s.id == "link" ==>
          && !flags.noLink && s.command == "AT+LINK=" + AddrText(slaveAddr)
          && s.critical == requireLink && s.optional == !requireLink)
    && (s.id == "reset" ==> s.command == "AT+RESET" && s.optional && !s.expectOk)
    && s.id in MasterOrder
  }

  lemma MasterSetupDocumented(name: Option<string>, pin: Option<string>, baud: int, flags: PairFlags,
                              slaveAddr: Option<Addr>, wantScan: bool, requireLink: bool)
    ensures var cands := MasterSetupCandidates(name, pin, baud);
            forall i :: 0 <= i < |cands| && cands[i].present ==>
              MasterStepDocumented(cands[i].step, name, pin, baud, flags, slaveAddr, wantScan, requireLink)
  {
    var cands := MasterSetupCandidates(name, pin, baud);
    forall i | 0 <= i < |cands| && cands[i].present
      ensures MasterStepDocumented(cands[i].step, name, pin, baud, flags, slaveAddr, wantScan, requireLink)
    {
      if i == 0 {
      } else if i == 1 {
      } else if i == 2 {
      } else if i == 3 {
      } else if i == 4 {
      } else {
      }
    }
  }

  lemma MasterLinkDocumented(name: Option<string>, pin: Option<string>, baud: int, flags: PairFlags,
                             slaveAddr: Option<Addr>, wantScan: bool, requireLink: bool)
    ensures var cands := MasterLinkCandidates(flags, slaveAddr, wantScan, requireLink);
            forall i :: 0 <= i < |cands| && cands[i].present ==>
              MasterStepDocumented(cands[i].step, name, pin, baud, flags, slaveAddr, wantScan, requireLink)
  {
    var cands := MasterLinkCandidates(flags, slaveAddr, wantScan, requireLink);
    forall i | 0 <= i < |cands| && cands[i].present
      ensures MasterStepDocumented(cands[i].step, name, pin, baud, flags, slaveAddr, wantScan, requireLink)
    {
      if i == 0 {
      } else if i == 1 {
      } else if i == 2 {
      } else if i == 3 {
      } else if i == 4 {
      } else if i == 5 {
      } else {
      }
    }
  }

  lemma MasterCandidatesDocumented(name: Option<string>, pin: Option<string>, baud: int, flags: PairFlags,
                                   slaveAddr: Option<Addr>, wantScan: bool, requireLink: bool)
    ensures var cands := MasterCandidates(name, pin, baud, flags, slaveAddr, wantScan, requireLink);
            forall i :: 0 <= i < |cands| && cands[i].present ==>
              MasterStepDocumented(cands[i].step, name, pin, baud, flags, slaveAddr, wantScan, requireLink)
  {
    var a := MasterSetupCandidates(name, pin, baud);
    var b := MasterLinkCandidates(flags, slaveAddr, wantScan, requireLink);
    MasterSetupDocumented(name, pin, baud, flags, slaveAddr, wantScan, requireLink);
    MasterLinkDocumented(name, pin, baud, flags, slaveAddr, wantScan, requireLink);
    var ab := a + b;
    forall i | 0 <= i < |ab| && ab[i].present
      ensures MasterStepDocumented(ab[i].step, name, pin, baud, flags, slaveAddr, wantScan, requireLink)
    {
      if i >= |a| {
        assert ab[i] == b[i - |a|];
      }
    }
  }

  /** Every step of a master plan is either a basic step as documented for its
      id, or an extra command: optional, not critical, accepting any reply. */
  lemma MasterPlanSteps(detection: Detection, name: Option<string>, pin: Option<string>, baud: int,
                        flags: PairFlags, slaveAddr: Option<Addr>, wantScan: bool, requireLink: bool)
    ensures var r := MasterPlan(detection, name, pin, baud, flags, slaveAddr, wantScan, requireLink);
            r.Success? ==> forall s :: s in r.value ==>
              || MasterStepDocumented(s, name, pin, baud, flags, slaveAddr, wantScan, requireLink)
              || (&& s.category == Extra && s.command in flags.extraMasterCmds
                  && s.optional && !s.critical && !s.expectOk && s.timeoutMs == 3000)
  {
    var want := MasterWanted(name, pin, flags, slaveAddr, wantScan);
    var extras := ExtraSteps("master", flags.extraMasterCmds, 3000);
    var r := MasterPlan(detection, name, pin, baud, flags, slaveAddr, wantScan, requireLink);
    if r.Success? {
      var cands := if flags.basic then MasterCandidates(name, pin, baud, flags, slaveAddr, wantScan, requireLink) else [];
      if flags.basic {
        MasterCandidatesWanted(name, pin, baud, flags, slaveAddr, wantScan, requireLink);
        MasterCandidatesDocumented(name, pin, baud, flags, slaveAddr, wantScan, requireLink);
      }
      FinishMeaning(cands, flags, extras, want);
      forall s | s in r.value
        ensures || MasterStepDocumented(s, name, pin, baud, flags, slaveAddr, wantScan, requireLink)
                || (&& s.category == Extra && s.command in flags.extraMasterCmds
                    && s.optional && !s.critical && !s.expectOk && s.timeoutMs == 3000)
      {
        if s in extras {
          var k :| 0 <= k < |extras| && extras[k] == s;
        }
      }
    }
  }

  // ---------------------------------------------------------------------------
  // Steps a plan is sure to hold

  lemma {:induction false} PresentHas(cands: seq<Candidate>, i: nat)
    requires i < |cands| && cands[i].present
    ensures cands[i].step in Present(cands)
    decreases i
  {
    if i > 0 {
      PresentHas(cands[1..], i - 1);
      assert cands[1..][i - 1] == cands[i];
    }
  }

  lemma {:induction false} KeptHas(steps: seq<Step>, s: Step, flags: PairFlags)
    requires s in steps && Included(s, flags)
    ensures s in Kept(steps, flags)
    decreases |steps|
  {
    if steps[0] != s {
      KeptHas(steps[1..], s, flags);
    }
  }

  /** A present candidate that is not skipped is in every plan that builds. */
  lemma FinishHas(cands: seq<Candidate>, flags: PairFlags, extras: seq<Step>, i: nat)
    requires i < |cands| && cands[i].present && flags.basic && cands[i].step.critical
    ensures var r := Finish(cands, flags, extras);
            r.Success? ==> cands[i].step in r.value
  {
    var r := Finish(cands, flags, extras);
    FilterMeaning(Present(cands), flags);
    PresentBlocks(cands, flags);
    PresentHas(cands, i);
    if r.Success? {
      assert !Blocks(cands[i].step, flags);
      KeptHas(Present(cands), cands[i].step, flags);
    }
  }

  /** With the basic steps on, a master plan that builds holds a bind step that
      is not optional, and, when the link is required and not turned off, a
      link step that is not optional. */
  lemma MasterPlanBinds(detection: Detection, name: Option<string>, pin: Option<string>, baud: int,
                        flags: PairFlags, slaveAddr: Option<Addr>, wantScan: bool, requireLink: bool)
    requires flags.basic
    ensures var r := MasterPlan(detection, name, pin, baud, flags, slaveAddr, wantScan, requireLink);
            r.Success? ==>
              && (exists s :: s in r.value && s.id == "bind" && s.kind == CommandStep && !s.optional)
              && (requireLink && !flags.noLink ==>
                    exists s :: s in r.value && s.id == "link" && s.kind == CommandStep && !s.optional)
  {
    if detection.family == HC05 {
      var cands := MasterCandidates(name, pin, baud, flags, slaveAddr, wantScan, requireLink);
      var extras := ExtraSteps("master", flags.extraMasterCmds, 3000);
      FinishHas(cands, flags, extras, 10);
      if requireLink && !flags.noLink {
        FinishHas(cands, flags, extras, 11);
      }
    }
  }
}
