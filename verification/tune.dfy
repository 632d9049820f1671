/** `_interactive_tune`: the console dialogue that adjusts a phase's flags
    after its plan has been shown. The operator's answers are a sequence of
    lines read one by one; the tuned flags and the lines not yet read come
    out. */
module Tuning {
  import opened Wrappers
  import opened Text
  import opened Plans

  /** The operator's console: the lines still to be typed. */
  class Console {
    var answers: seq<string>

    constructor (answers: seq<string>)
      ensures this.answers == answers
    {
      this.answers := answers;
    }

    /** `input()`: the next line, or nothing once the operator has stopped typing. */
    method ReadLine() returns (line: Option<string>)
      modifies this
      ensures old(answers) == [] ==> line == None && answers == []
      ensures old(answers) != [] ==> line == Some(old(answers)[0]) && answers == old(answers)[1..]
    {
      if answers == [] {
        return None;
      }
      line := Some(answers[0]);
      answers := answers[1..];
    }
  }

  /** The flags after tuning, and the lines not yet read. */
  datatype Tuned = Tuned(flags: PairFlags, answers: seq<string>)

  // ---------------------------------------------------------------------------
  // The skip-number rule

  /** The plan's basic steps, in order: the steps the operator's numbers count. */
  function BasicSteps(steps: seq<Step>): (r: seq<Step>)
    ensures forall s :: s in r <==> s in steps && s.category == Basic
    ensures |r| <= |steps|
  {
    if steps == [] then []
    else (if steps[0].category == Basic then [steps[0]] else []) + BasicSteps(steps[1..])
  }

  /** The basic steps keep the plan's order: those of `a + b` are those of
      `a` followed by those of `b`, and a single step counts exactly when it
      is basic. This fixes which step each skip number names. */
  lemma {:induction false} BasicStepsOrder(a: seq<Step>, b: seq<Step>, s: Step)
    ensures BasicSteps(a + b) == BasicSteps(a) + BasicSteps(b)
    ensures BasicSteps([s]) == if s.category == Basic then [s] else []
    decreases |a|
  {
    assert [s][1..] == [];
    if a == [] {
      assert a + b == b;
    } else {
      assert (a + b)[0] == a[0] && (a + b)[1..] == a[1..] + b;
      BasicStepsOrder(a[1..], b, s);
    }
  }

  /** The basic step a token names: stripped, it is a string of digits whose
      value k lies in 1..n, and it names the k-th basic step. */
  function Named(basic: seq<Step>, token: string): Option<Step> {
    var t := Strip(token);
    if IsDigits(t) && 1 <= DigitsValue(t) <= |basic| then Some(basic[DigitsValue(t) - 1]) else None
  }

  /** The token names a basic step that is not critical and whose id is `id`. */
  predicate Skips(basic: seq<Step>, token: string, id: string) {
    var n := Named(basic, token);
    n.Some? && !n.value.critical && n.value.id == id
  }

  /** The skip-number rule: every token naming a step adds its id to the skip
      set, except that a critical step is refused. */
  function SkipByNumbers(basic: seq<Step>, tokens: seq<string>, skip: set<string>): set<string>
    decreases |tokens|
  {
    if tokens == [] then skip
    else
      var n := Named(basic, tokens[0]);
      SkipByNumbers(basic, tokens[1..], if n.Some? && !n.value.critical then skip + {n.value.id} else skip)
  }

  /** Some token names a non-critical basic step whose id is `id`. */
  predicate SkippedBy(basic: seq<Step>, tokens: seq<string>, id: string) {
    exists k :: 0 <= k < |tokens| && Skips(basic, tokens[k], id)
  }

  lemma SkippedByCons(basic: seq<Step>, tokens: seq<string>, id: string)
    requires tokens != []
    ensures SkippedBy(basic, tokens, id) <==> Skips(basic, tokens[0], id) || SkippedBy(basic, tokens[1..], id)
  {
    if SkippedBy(basic, tokens, id) {
      var k :| 0 <= k < |tokens| && Skips(basic, tokens[k], id);
      if k > 0 {
        assert tokens[1..][k - 1] == tokens[k];
      }
    }
    if SkippedBy(basic, tokens[1..], id) {
      var k :| 0 <= k < |tokens[1..]| && Skips(basic, tokens[1..][k], id);
      assert tokens[k + 1] == tokens[1..][k];
    }
  }

  /** An id ends up skipped exactly when it was already, or some token names a
      non-critical basic step with that id: critical steps, tokens that are not
      digits and numbers out of range add nothing. */
  lemma {:induction false} SkipByNumbersMeaning(basic: seq<Step>, tokens: seq<string>, skip: set<string>, id: string)
    ensures id in SkipByNumbers(basic, tokens, skip) <==> id in skip || SkippedBy(basic, tokens, id)
    decreases |tokens|
  {
    if tokens != [] {
      var n := Named(basic, tokens[0]);
      var skip' := if n.Some? && !n.value.critical then skip + {n.value.id} else skip;
      SkipByNumbersMeaning(basic, tokens[1..], skip', id);
      SkippedByCons(basic, tokens, id);
    }
  }

  /** The `b` answer: the line of numbers, split at commas; an empty line
      changes nothing. */
  function SkipAnswer(basic: seq<Step>, line: string, skip: set<string>): set<string> {
    var nums := Strip(line);
    if nums == "" then skip else SkipByNumbers(basic, Split(nums, ','), skip)
  }

  // ---------------------------------------------------------------------------
  // The dialogue

  /** The `d` answer: stripped lines up to the first blank one, and the lines
      after it; nothing when the operator stops typing first. */
  function ReadExtras(answers: seq<string>): (r: Option<(seq<string>, seq<string>)>)
    ensures r.Some? ==> |r.value.1| < |answers|
  {
    if answers == [] then None
    else
      var line := Strip(answers[0]);
      if line == "" then Some(([], answers[1..]))
      else
        match ReadExtras(answers[1..])
        case None => None
        case Some((extras, more)) => Some(([line] + extras, more))
  }

  /** Extra commands go to the slave's list in the slave phase and to the
      master's otherwise. */
  function AddExtras(phase: string, f: PairFlags, extras: seq<string>): PairFlags {
    if Upper(phase) == "SLAVE" then f.(extraSlaveCmds := f.extraSlaveCmds + extras)
    else f.(extraMasterCmds := f.extraMasterCmds + extras)
  }

  /** What a `b`, `d` or unrecognised choice does before the "adjust more?"
      question; nothing when the operator stops typing first. */
  function Apply(phase: string, basic: seq<Step>, f: PairFlags, choice: string, rest: seq<string>)
    : (r: Option<Tuned>)
    ensures r.Some? ==> |r.value.answers| <= |rest|
  {
    if choice == "d" then
      match ReadExtras(rest)
      case None => None
      case Some((extras, more)) => Some(Tuned(AddExtras(phase, f, extras), more))
    else if choice == "b" then
      if rest == [] then None
      else Some(Tuned(f.(skipSteps := SkipAnswer(basic, rest[0], f.skipSteps)), rest[1..]))
    else Some(Tuned(f, rest))
  }

  /** The rounds of the dialogue: `a` or an empty line accepts, `c` turns the
      basic steps off and ends, `b` and `d` adjust and then ask whether to go
      on, which only `y` or `yes` does. Running out of lines ends the dialogue
      with the flags of the last completed round. */
  function TuneFrom(phase: string, basic: seq<Step>, f: PairFlags, answers: seq<string>): Tuned
    decreases |answers|
  {
    if answers == [] then Tuned(f, [])
    else
      var choice := Lower(Strip(answers[0]));
      var rest := answers[1..];
      if choice == "" || choice == "a" then Tuned(f, rest)
      else if choice == "c" then Tuned(f.(basic := false), rest)
      else
        match Apply(phase, basic, f, choice, rest)
        case None => Tuned(f, [])
        case Some(m) =>
          if m.answers == [] then Tuned(m.flags, [])
          else
            var again := Lower(Strip(m.answers[0]));
            if again == "y" || again == "yes" then TuneFrom(phase, basic, m.flags, m.answers[1..])
            else Tuned(m.flags, m.answers[1..])
  }

  /** `_interactive_tune`: a plan with no basic steps is left alone. */
  function Tune(phase: string, steps: seq<Step>, f: PairFlags, answers: seq<string>): Tuned {
    var basic := BasicSteps(steps);
    if basic == [] then Tuned(f, answers) else TuneFrom(phase, basic, f, answers)
  }

  // ---------------------------------------------------------------------------
  // What tuning can change

  /** What the dialogue may do to the flags: skips only grow, and only by ids
      of non-critical steps among those numbered; the basic steps can only be
      turned off; extra commands are only appended, and only to the phase's
      own list; nothing else changes. */
  predicate Adjusts(phase: string, numbered: seq<Step>, f: PairFlags, g: PairFlags) {
    && f.skipSteps <= g.skipSteps
    && (forall id :: id in g.skipSteps && id !in f.skipSteps ==>
          exists s :: s in numbered && !s.critical && s.id == id)
    && (g.basic ==> f.basic)
    && f.extraSlaveCmds <= g.extraSlaveCmds && f.extraMasterCmds <= g.extraMasterCmds
    && (Upper(phase) == "SLAVE" ==> g.extraMasterCmds == f.extraMasterCmds)
    && (Upper(phase) != "SLAVE" ==> g.extraSlaveCmds == f.extraSlaveCmds)
    && g == f.(basic := g.basic, skipSteps := g.skipSteps,
               extraMasterCmds := g.extraMasterCmds, extraSlaveCmds := g.extraSlaveCmds)
  }

  /** `rest` is what is left of `answers` once some lines have been read from the front. */
  predicate Unread(rest: seq<string>, answers: seq<string>) {
    |rest| <= |answers| && rest == answers[|answers| - |rest|..]
  }

  lemma UnreadRefl(a: seq<string>)
    ensures Unread(a, a)
  {
  }

  lemma UnreadTail(a: seq<string>)
    requires a != []
    ensures Unread(a[1..], a)
  {
  }

  lemma UnreadTrans(a: seq<string>, b: seq<string>, c: seq<string>)
    requires Unread(a, b) && Unread(b, c)
    ensures Unread(a, c)
  {
  }

  lemma AdjustsTrans(phase: string, numbered: seq<Step>, f: PairFlags, g: PairFlags, h: PairFlags)
    requires Adjusts(phase, numbered, f, g) && Adjusts(phase, numbered, g, h)
    ensures Adjusts(phase, numbered, f, h)
  {
  }

  /** A `b` answer only skips non-critical steps among those numbered. */
  lemma SkipAnswerAdjusts(phase: string, basic: seq<Step>, f: PairFlags, line: string)
    ensures Adjusts(phase, basic, f, f.(skipSteps := SkipAnswer(basic, line, f.skipSteps)))
  {
    var nums := Strip(line);
    if nums != "" {
      var tokens := Split(nums, ',');
      forall id | id in f.skipSteps
        ensures id in SkipByNumbers(basic, tokens, f.skipSteps)
      {
        SkipByNumbersMeaning(basic, tokens, f.skipSteps, id);
      }
      forall id | id in SkipByNumbers(basic, tokens, f.skipSteps) && id !in f.skipSteps
        ensures exists s :: s in basic && !s.critical && s.id == id
      {
        SkipByNumbersMeaning(basic, tokens, f.skipSteps, id);
        var k :| 0 <= k < |tokens| && Skips(basic, tokens[k], id);
        var s := Named(basic, tokens[k]).value;
        assert s in basic;
      }
    }
  }

  lemma ApplyAdjusts(phase: string, basic: seq<Step>, f: PairFlags, choice: string, rest: seq<string>)
    ensures var m := Apply(phase, basic, f, choice, rest);
            m.Some? ==> Adjusts(phase, basic, f, m.value.flags) && Unread(m.value.answers, rest)
  {
    if choice == "d" {
      ReadExtrasRest(rest);
    } else if choice == "b" && rest != [] {
      SkipAnswerAdjusts(phase, basic, f, rest[0]);
    }
  }

  lemma {:induction false} ReadExtrasRest(answers: seq<string>)
    ensures var r := ReadExtras(answers);
            r.Some? ==> Unread(r.value.1, answers)
  {
    if answers != [] && Strip(answers[0]) != "" {
      ReadExtrasRest(answers[1..]);
    }
  }

  lemma AdjustsRefl(phase: string, numbered: seq<Step>, f: PairFlags)
    ensures Adjusts(phase, numbered, f, f) && Adjusts(phase, numbered, f, f.(basic := false))
  {
  }

  /** The dialogue only adjusts the flags as `Adjusts` allows, and leaves the
      lines after those it read. */
  lemma {:induction false} TuneFromAdjusts(phase: string, basic: seq<Step>, f: PairFlags, answers: seq<string>)
    ensures var r := TuneFrom(phase, basic, f, answers);
            Adjusts(phase, basic, f, r.flags) && Unread(r.answers, answers)
    decreases |answers|
  {
    AdjustsRefl(phase, basic, f);
    if answers != [] {
      var choice := Lower(Strip(answers[0]));
      var rest := answers[1..];
      UnreadTail(answers);
      if choice != "" && choice != "a" && choice != "c" {
        var m := Apply(phase, basic, f, choice, rest);
        ApplyAdjusts(phase, basic, f, choice, rest);
        if m.Some? {
          UnreadTrans(m.value.answers, rest, answers);
          if m.value.answers != [] {
            var again := Lower(Strip(m.value.answers[0]));
            var more := m.value.answers[1..];
            UnreadTail(m.value.answers);
            UnreadTrans(more, m.value.answers, answers);
            if again == "y" || again == "yes" {
              TuneFromAdjusts(phase, basic, m.value.flags, more);
              var r := TuneFrom(phase, basic, m.value.flags, more);
              AdjustsTrans(phase, basic, f, m.value.flags, r.flags);
              UnreadTrans(r.answers, more, answers);
            }
          }
        }
      }
    }
  }

  /** `_interactive_tune` never skips a critical step or a step outside the
      plan's basic steps, never turns the basic steps back on, only appends
      extra commands to the phase's own list, touches no other flag, and reads
      the operator's lines from the front. */
  lemma TuneAdjusts(phase: string, steps: seq<Step>, f: PairFlags, answers: seq<string>)
    ensures var r := Tune(phase, steps, f, answers);
            && Adjusts(phase, BasicSteps(steps), f, r.flags)
            && (forall id :: id in r.flags.skipSteps && id !in f.skipSteps ==>
                  exists s :: s in steps && s.category == Basic && !s.critical && s.id == id)
            && Unread(r.answers, answers)
  {
    var basic := BasicSteps(steps);
    if basic != [] {
      TuneFromAdjusts(phase, basic, f, answers);
    }
    var r := Tune(phase, steps, f, answers);
    forall id | id in r.flags.skipSteps && id !in f.skipSteps
      ensures exists s :: s in steps && s.category == Basic && !s.critical && s.id == id
    {
      var s :| s in basic && !s.critical && s.id == id;
      assert s in steps && s.category == Basic;
    }
  }

  /** `_interactive_tune`, reading the console. */
  method InteractiveTune(phase: string, steps: seq<Step>, flags: PairFlags, console: Console)
    returns (tuned: PairFlags)
    modifies console
    ensures Tuned(tuned, console.answers) == Tune(phase, steps, flags, old(console.answers))
  {
    var basic := BasicSteps(steps);
    tuned := flags;
    if basic == [] {
      return;
    }
    while true
      invariant TuneFrom(phase, basic, tuned, console.answers) == Tune(phase, steps, flags, old(console.answers))
      decreases |console.answers|
    {
      var line := console.ReadLine();
      if line.None? {
        return;
      }
      var choice := Lower(Strip(line.value));
      if choice == "" || choice == "a" {
        return;
      }
      if choice == "c" {
        tuned := tuned.(basic := false);
        return;
      }
      var next := AdjustRound(phase, basic, tuned, choice, console);
      if next.None? {
        return;
      }
      tuned := next.value;
      var again := console.ReadLine();
      if again.None? {
        return;
      }
      var answer := Lower(Strip(again.value));
      if answer != "y" && answer != "yes" {
        return;
      }
    }
  }

  /** The `b` and `d` answers of one round, reading the console. */
  method AdjustRound(phase: string, basic: seq<Step>, f: PairFlags, choice: string, console: Console)
    returns (next: Option<PairFlags>)
    modifies console
    ensures Apply(phase, basic, f, choice, old(console.answers)) ==
              match next case None => None case Some(g) => Some(Tuned(g, console.answers))
    ensures next.None? ==> console.answers == []
  {
    if choice == "d" {
      var extras := ReadExtrasLoop(console);
      if extras.None? {
        return None;
      }
      return Some(AddExtras(phase, f, extras.value));
    }
    if choice == "b" {
      var nums := console.ReadLine();
      if nums.None? {
        return None;
      }
      return Some(f.(skipSteps := SkipAnswer(basic, nums.value, f.skipSteps)));
    }
    return Some(f);
  }

  /** Attach lines already read in front of what the rest of the read gives. */
  function Prepend(read: seq<string>, r: Option<(seq<string>, seq<string>)>): Option<(seq<string>, seq<string>)> {
    match r
    case None => None
    case Some((extras, more)) => Some((read + extras, more))
  }

  lemma PrependNil(r: Option<(seq<string>, seq<string>)>)
    ensures Prepend([], r) == r
  {
    if r.Some? {
      assert [] + r.value.0 == r.value.0;
    }
  }

  lemma PrependTwice(a: seq<string>, b: seq<string>, r: Option<(seq<string>, seq<string>)>)
    ensures Prepend(a, Prepend(b, r)) == Prepend(a + b, r)
  {
    if r.Some? {
      assert a + (b + r.value.0) == (a + b) + r.value.0;
    }
  }

  /** The `d` answer's inner loop, reading the console. */
  method ReadExtrasLoop(console: Console) returns (extras: Option<seq<string>>)
    modifies console
    ensures ReadExtras(old(console.answers)) ==
              match extras case None => None case Some(e) => Some((e, console.answers))
    ensures extras.None? ==> console.answers == []
  {
    var read: seq<string> := [];
    PrependNil(ReadExtras(console.answers));
    while true
      invariant Prepend(read, ReadExtras(console.answers)) == ReadExtras(old(console.answers))
      decreases |console.answers|
    {
      ghost var before := console.answers;
      var line := console.ReadLine();
      if line.None? {
        return None;
      }
      var text := Strip(line.value);
      if text == "" {
        assert read + [] == read;
        return Some(read);
      }
      assert ReadExtras(before) == Prepend([text], ReadExtras(console.answers));
      PrependTwice(read, [text], ReadExtras(console.answers));
      read := read + [text];
    }
  }
}
