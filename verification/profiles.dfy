/** The setup wizard's flag handling: the skip-list parser, the conversion
    between `PairFlags` and the profile dictionary saved as JSON, and the
    command-line overlay `handle_pair` puts on the loaded flags. */
module Profiles {
  import opened Wrappers
  import opened Text
  import opened Plans

  // ---------------------------------------------------------------------------
  // _parse_skip_steps

  /** No ASCII capital letter. */
  predicate LowerCase(s: string) {
    forall c :: c in s ==> !('A' <= c <= 'Z')
  }

  /** A step id as the parser leaves it: not empty, no comma, no space at
      either end, lower case. */
  predicate CleanId(id: string) {
    id != [] && ',' !in id && !IsSpace(id[0]) && !IsSpace(id[|id| - 1]) && LowerCase(id)
  }

  /** `_parse_skip_steps`: nothing for no text or empty text; otherwise each
      comma-separated token, stripped and lower-cased, blank tokens dropped. */
  function ParseSkipSteps(csv: Option<string>): (r: set<string>)
    ensures csv.None? || csv == Some("") ==> r == {}
    ensures forall id :: id in r ==> CleanId(id)
  {
    if csv.None? || csv.value == "" then {}
    else
      var r := set tok | tok in Split(csv.value, ',') && Strip(tok) != "" :: Lower(Strip(tok));
      assert forall id :: id in r ==> CleanId(id) by {
        forall id | id in r ensures CleanId(id) {
          var tok :| tok in Split(csv.value, ',') && Strip(tok) != "" && id == Lower(Strip(tok));
          CleanToken(tok);
        }
      }
      r
  }

  /** Lower-casing a stripped token from a comma split gives a clean id. */
  lemma CleanToken(tok: string)
    requires ',' !in tok && Strip(tok) != ""
    ensures CleanId(Lower(Strip(tok)))
  {
    LowerClean(Strip(tok), tok);
  }

  /** Lower-casing text that neither starts nor ends with whitespace and
      holds only characters of a comma-free token gives a clean id. */
  lemma LowerClean(s: string, tok: string)
    requires s != [] && !IsSpace(s[0]) && !IsSpace(s[|s| - 1])
    requires ',' !in tok && forall c :: c in s ==> c in tok
    ensures CleanId(Lower(s))
  {
    var l := Lower(s);
    assert l[0] == LowerChar(s[0]) && l[|l| - 1] == LowerChar(s[|s| - 1]);
    forall c | c in l ensures c != ',' && !('A' <= c <= 'Z') {
      var i :| 0 <= i < |l| && l[i] == c;
      assert s[i] in s;
    }
  }

  /** A clean id is its own stripped, lower-cased form. */
  lemma CleanIdFixed(id: string)
    requires CleanId(id)
    ensures Lower(Strip(id)) == id
  {
    assert TrimLeft(id) == id;
    assert TrimRight(id) == id;
    forall i | 0 <= i < |id| ensures Lower(id)[i] == id[i] {
      assert id[i] in id;
    }
  }

  /** Splitting a part without the separator, then the separator, then the
      rest. */
  lemma {:induction false} SplitCons(p: string, sep: char, s: string)
    requires sep !in p
    ensures Split(p + [sep] + s, sep) == [p] + Split(s, sep)
    decreases |p|
  {
    if p == [] {
      assert [] + [sep] + s == [sep] + s;
      assert ([sep] + s)[1..] == s;
    } else {
      SplitCons(p[1..], sep, s);
      assert (p + [sep] + s)[1..] == p[1..] + [sep] + s;
      assert [p[0]] + p[1..] == p;
    }
  }

  lemma {:induction false} SplitNone(p: string, sep: char)
    requires sep !in p
    ensures Split(p, sep) == [p]
    decreases |p|
  {
    if p != [] {
      SplitNone(p[1..], sep);
      assert [p[0]] + p[1..] == p;
    }
  }

  /** Joining clean ids with commas and parsing the text gives the ids back,
      as a set. */
  lemma {:induction false} SplitJoinIds(ids: seq<string>)
    requires |ids| >= 1 && forall id :: id in ids ==> ',' !in id
    ensures Split(Join(ids, ','), ',') == ids
    decreases |ids|
  {
    if |ids| == 1 {
      SplitNone(ids[0], ',');
    } else {
      assert forall id :: id in ids[1..] ==> id in ids;
      SplitJoinIds(ids[1..]);
      SplitCons(ids[0], ',', Join(ids[1..], ','));
    }
  }

  /** The skip list written as comma-separated clean ids parses back to
      exactly those ids. */
  lemma ParseJoined(ids: seq<string>)
    requires |ids| >= 1 && forall id :: id in ids ==> CleanId(id)
    ensures ParseSkipSteps(Some(Join(ids, ','))) == set id | id in ids
  {
    SplitJoinIds(ids);
    assert |Join(ids, ',')| >= |ids[0]| && ids[0] in ids;
    forall id | id in ids ensures Strip(id) != "" && Lower(Strip(id)) == id {
      CleanIdFixed(id);
    }
  }

  // ---------------------------------------------------------------------------
  // The profile dictionary

  /** The JSON values a profile holds. */
  datatype Value = Null | Bool(b: bool) | Strings(items: seq<string>) | Section(fields: map<string, Value>)

  type Data = map<string, Value>

  /** Python's truth value of a JSON value. */
  predicate Truthy(v: Value) {
    match v
    case Null => false
    case Bool(b) => b
    case Strings(items) => items != []
    case Section(fields) => fields != map[]
  }

  /** `d.get(key, default)` */
  function Get(d: Data, key: string, default: Value): Value {
    if key in d then d[key] else default
  }

  /** A list field read as a list of strings; anything else makes the profile
      unusable. */
  function ListOf(v: Value): Option<seq<string>> {
    if v.Strings? then Some(v.items) else None
  }

  /** `data.get(role, {}) or {}`: a missing or empty section is an empty one;
      a true value that is not a dictionary makes the profile unusable. */
  function SectionOf(v: Value): Option<Data> {
    if v.Section? then Some(v.fields) else if !Truthy(v) then Some(map[]) else None
  }

  /** The smallest id of a non-empty set exists. */
  lemma {:induction false} LeastExists(s: set<string>)
    requires s != {}
    ensures exists m :: m in s && forall x :: x in s ==> LexLeq(m, x)
    decreases |s|
  {
    var y :| y in s;
    var rest := s - {y};
    if rest == {} {
      LeastOfOne(y, s);
    } else {
      LeastExists(rest);
      var m :| m in rest && forall x :: x in rest ==> LexLeq(m, x);
      LeastOfTwo(y, m, rest, s);
    }
  }

  lemma LeastOfOne(y: string, s: set<string>)
    requires y in s && s - {y} == {}
    ensures forall x :: x in s ==> LexLeq(y, x)
  {
    LexLeqTotal(y, y);
    forall x | x in s ensures x == y {
      assert x !in s - {y};
    }
  }

  /** The lesser of `y` and the least id of the rest is the least id of all. */
  lemma LeastOfTwo(y: string, m: string, rest: set<string>, s: set<string>)
    requires rest == s - {y} && y in s && m in rest && forall x :: x in rest ==> LexLeq(m, x)
    ensures exists l :: l in s && forall x :: x in s ==> LexLeq(l, x)
  {
    LexLeqTotal(m, y);
    LexLeqTotal(y, y);
    if LexLeq(y, m) {
      forall x | x in s ensures LexLeq(y, x) {
        if x != y {
          assert x in rest;
          LexLeqTransitive(y, m, x);
        }
      }
    } else {
      forall x | x in s ensures LexLeq(m, x) {
        if x != y {
          assert x in rest;
        }
      }
      assert m in s;
    }
  }

  /** The least element is unique. */
  lemma LeastUnique(s: set<string>)
    ensures forall a, b ::
              (a in s && b in s && (forall x :: x in s ==> LexLeq(a, x)) && (forall x :: x in s ==> LexLeq(b, x)))
              ==> a == b
  {
    forall a, b | a in s && b in s && (forall x :: x in s ==> LexLeq(a, x)) && (forall x :: x in s ==> LexLeq(b, x))
      ensures a == b
    {
      LexLeqAntisymmetric(a, b);
    }
  }

  /** Strictly increasing: each id before the next, no id twice. */
  predicate Increasing(r: seq<string>) {
    forall i, j :: 0 <= i < j < |r| ==> LexLeq(r[i], r[j]) && r[i] != r[j]
  }

  /** The least id of a set, put before the sorted rest, keeps the list
      increasing. */
  lemma IncreasingCons(m: string, rest: seq<string>, s: set<string>)
    requires Increasing(rest) && m in s && (forall x :: x in s ==> LexLeq(m, x))
    requires forall x :: x in rest <==> x in s - {m}
    ensures Increasing([m] + rest)
  {
    var r := [m] + rest;
    forall i, j | 0 <= i < j < |r| ensures LexLeq(r[i], r[j]) && r[i] != r[j] {
      if i == 0 {
        assert r[j] == rest[j - 1] && rest[j - 1] in rest;
      } else {
        assert r[i] == rest[i - 1] && r[j] == rest[j - 1];
      }
    }
  }

  /** `sorted(s)`: the ids of `s`, each once, in increasing order. */
  function SortedIds(s: set<string>): (r: seq<string>)
    ensures |r| == |s| && (forall x :: x in r <==> x in s)
    ensures Increasing(r)
    decreases |s|
  {
    if s == {} then []
    else
      LeastExists(s);
      LeastUnique(s);
      var m :| m in s && forall x :: x in s ==> LexLeq(m, x);
      var rest := SortedIds(s - {m});
      IncreasingCons(m, rest, s);
      [m] + rest
  }

  /** `_flags_to_dict`: every field but `no_pair` and `no_link`, the skip set
      as a sorted list. */
  function FlagsToDict(f: PairFlags): (d: Data)
    ensures "slave" !in d && "master" !in d
    ensures "no_pair" !in d && "no_link" !in d
  {
    map[
      "basic" := Bool(f.basic),
      "skip_steps" := Strings(SortedIds(f.skipSteps)),
      "extra_master_cmds" := Strings(f.extraMasterCmds),
      "extra_slave_cmds" := Strings(f.extraSlaveCmds),
      "no_orlg" := Bool(f.noOrlg),
      "no_rmaad" := Bool(f.noRmaad),
      "dry_run" := Bool(f.dryRun),
      "advanced" := Bool(f.advanced),
      "interactive" := Bool(f.interactive),
      "show_plan" := Bool(f.showPlan)]
  }

  /** The nested payload `_save_profile_file` writes. */
  function ProfilePayload(slave: PairFlags, master: PairFlags): Data {
    map["slave" := Section(FlagsToDict(slave)), "master" := Section(FlagsToDict(master))]
  }

  /** `_flags_from_data`: a dictionary with a "slave" or "master" key is the
      nested form, otherwise the flat form. */
  function FlagsFromData(data: Data): Option<PairFlags> {
    if "slave" in data || "master" in data then
      var s := SectionOf(Get(data, "slave", Null));
      var m := SectionOf(Get(data, "master", Null));
      if s.None? || m.None? then None else FromSections(s.value, m.value)
    else FromFlat(data)
  }

  /** The flat form: each key read on its own, missing keys taking the
      `PairFlags` defaults. */
  function FromFlat(d: Data): Option<PairFlags> {
    var skip := ListOf(Get(d, "skip_steps", Strings([])));
    var em := ListOf(Get(d, "extra_master_cmds", Strings([])));
    var es := ListOf(Get(d, "extra_slave_cmds", Strings([])));
    if skip.None? || em.None? || es.None? then None
    else
      Some(PairFlags(
        basic := Truthy(Get(d, "basic", Bool(true))),
        skipSteps := (set id | id in skip.value),
        extraMasterCmds := em.value,
        extraSlaveCmds := es.value,
        advanced := Truthy(Get(d, "advanced", Bool(false))),
        interactive := Truthy(Get(d, "interactive", Bool(false))),
        dryRun := Truthy(Get(d, "dry_run", Bool(false))),
        showPlan := Truthy(Get(d, "show_plan", Bool(false))),
        noOrlg := Truthy(Get(d, "no_orlg", Bool(false))),
        noRmaad := Truthy(Get(d, "no_rmaad", Bool(false))),
        noPair := false,
        noLink := false))
  }

  /** The nested form: one set of flags from the slave and master sections. */
  function FromSections(s: Data, m: Data): Option<PairFlags> {
    var skipS := ListOf(Get(s, "skip_steps", Strings([])));
    var skipM := ListOf(Get(m, "skip_steps", Strings([])));
    var masterOwn := Get(m, "extra_master_cmds", Strings([]));
    var em := ListOf(if Truthy(masterOwn) then masterOwn else Get(s, "extra_master_cmds", Strings([])));
    var es := ListOf(Get(s, "extra_slave_cmds", Strings([])));
    if skipS.None? || skipM.None? || em.None? || es.None? then None
    else
      Some(PairFlags(
        basic := Truthy(Get(s, "basic", Bool(true))),
        skipSteps := (set id | id in skipS.value) + (set id | id in skipM.value),
        extraMasterCmds := em.value,
        extraSlaveCmds := es.value,
        advanced := Truthy(Get(s, "advanced", Bool(false))) || Truthy(Get(m, "advanced", Bool(false))),
        interactive := Truthy(Get(s, "interactive", Bool(false))) || Truthy(Get(m, "interactive", Bool(false))),
        dryRun := Truthy(Get(s, "dry_run", Bool(false))) || Truthy(Get(m, "dry_run", Bool(false))),
        showPlan := Truthy(Get(s, "show_plan", Bool(false))) || Truthy(Get(m, "show_plan", Bool(false))),
        noOrlg := Truthy(Get(s, "no_orlg", Bool(false))),
        noRmaad := Truthy(Get(m, "no_rmaad", Bool(false))),
        noPair := false,
        noLink := false))
  }

  /** What a profile keeps of a set of flags: everything but `no_pair` and
      `no_link`, which come back off. */
  function Persisted(f: PairFlags): PairFlags {
    f.(noPair := false, noLink := false)
  }

  /** The sorted skip list holds exactly the skip set. */
  lemma SortedIdsSet(s: set<string>)
    ensures (set id | id in SortedIds(s)) == s
  {
  }

  /** `d` holds every persisted field of `f`, its skip list in any order. */
  predicate Describes(d: Data, f: PairFlags) {
    && Get(d, "basic", Bool(true)) == Bool(f.basic)
    && Get(d, "skip_steps", Strings([])).Strings?
    && (set id | id in Get(d, "skip_steps", Strings([])).items) == f.skipSteps
    && Get(d, "extra_master_cmds", Strings([])) == Strings(f.extraMasterCmds)
    && Get(d, "extra_slave_cmds", Strings([])) == Strings(f.extraSlaveCmds)
    && Get(d, "no_orlg", Bool(false)) == Bool(f.noOrlg)
    && Get(d, "no_rmaad", Bool(false)) == Bool(f.noRmaad)
    && Get(d, "dry_run", Bool(false)) == Bool(f.dryRun)
    && Get(d, "advanced", Bool(false)) == Bool(f.advanced)
    && Get(d, "interactive", Bool(false)) == Bool(f.interactive)
    && Get(d, "show_plan", Bool(false)) == Bool(f.showPlan)
  }

  /** What the list keys and `basic` of a saved dictionary read back as. */
  lemma DictLists(f: PairFlags)
    ensures var d := FlagsToDict(f);
            && Get(d, "basic", Bool(true)) == Bool(f.basic)
            && Get(d, "skip_steps", Strings([])) == Strings(SortedIds(f.skipSteps))
            && Get(d, "extra_master_cmds", Strings([])) == Strings(f.extraMasterCmds)
            && Get(d, "extra_slave_cmds", Strings([])) == Strings(f.extraSlaveCmds)
  {
  }

  /** What the switch keys of a saved dictionary read back as. */
  lemma DictSwitches(f: PairFlags)
    ensures var d := FlagsToDict(f);
            && Get(d, "no_orlg", Bool(false)) == Bool(f.noOrlg)
            && Get(d, "no_rmaad", Bool(false)) == Bool(f.noRmaad)
            && Get(d, "dry_run", Bool(false)) == Bool(f.dryRun)
            && Get(d, "advanced", Bool(false)) == Bool(f.advanced)
            && Get(d, "interactive", Bool(false)) == Bool(f.interactive)
            && Get(d, "show_plan", Bool(false)) == Bool(f.showPlan)
  {
  }

  /** A saved dictionary describes the flags it was made from. */
  lemma DictFields(f: PairFlags)
    ensures Describes(FlagsToDict(f), f)
  {
    DictLists(f);
    DictSwitches(f);
    SortedIdsSet(f.skipSteps);
  }

  /** Any flat dictionary that describes `f` reads back as `f`'s persisted part. */
  lemma FlatRead(d: Data, f: PairFlags)
    requires Describes(d, f)
    ensures FromFlat(d) == Some(Persisted(f))
  {
  }

  /** Any two sections that describe `slave` and `master` read back as their merge. */
  lemma SectionsRead(s: Data, m: Data, slave: PairFlags, master: PairFlags)
    requires Describes(s, slave) && Describes(m, master)
    ensures FromSections(s, m) == Some(Merged(slave, master))
  {
    var masterOwn := Get(m, "extra_master_cmds", Strings([]));
    var em := if Truthy(masterOwn) then masterOwn else Get(s, "extra_master_cmds", Strings([]));
    assert ListOf(em) == Some(Merged(slave, master).extraMasterCmds);
  }

  /** A saved dictionary is never empty, so a saved section is a true value. */
  lemma DictNonEmpty(f: PairFlags)
    ensures FlagsToDict(f) != map[]
  {
    assert "basic" in FlagsToDict(f);
  }

  /** Reading back a saved flat dictionary restores every field it holds. */
  lemma FlatRoundTrip(f: PairFlags)
    ensures FlagsFromData(FlagsToDict(f)) == Some(Persisted(f))
  {
    DictFields(f);
    FlatRead(FlagsToDict(f), f);
  }

  /** One set of flags from the two roles' flags, by the merge rules of the
      nested form: the union of the skip sets; dry run, advanced, interactive
      and show-plan if either role has them; basic, no-ORGL and the slave's
      extra commands from the slave; no-RMAAD from the master; the master's
      extra commands from the master unless it has none, then from the slave. */
  function Merged(slave: PairFlags, master: PairFlags): PairFlags {
    PairFlags(
      basic := slave.basic,
      skipSteps := slave.skipSteps + master.skipSteps,
      extraMasterCmds := if master.extraMasterCmds != [] then master.extraMasterCmds else slave.extraMasterCmds,
      extraSlaveCmds := slave.extraSlaveCmds,
      advanced := slave.advanced || master.advanced,
      interactive := slave.interactive || master.interactive,
      dryRun := slave.dryRun || master.dryRun,
      showPlan := slave.showPlan || master.showPlan,
      noOrlg := slave.noOrlg,
      noRmaad := master.noRmaad,
      noPair := false,
      noLink := false)
  }

  /** Two saved sections read back as the merge of the flags they came from. */
  lemma SectionsRoundTrip(slave: PairFlags, master: PairFlags)
    ensures FromSections(FlagsToDict(slave), FlagsToDict(master)) == Some(Merged(slave, master))
  {
    DictFields(slave);
    DictFields(master);
    SectionsRead(FlagsToDict(slave), FlagsToDict(master), slave, master);
  }

  /** Reading back the nested payload `_save_profile_file` writes gives the
      merge of the two roles' flags. */
  lemma NestedRoundTrip(slave: PairFlags, master: PairFlags)
    ensures FlagsFromData(ProfilePayload(slave, master)) == Some(Merged(slave, master))
  {
    var p := ProfilePayload(slave, master);
    assert Get(p, "slave", Null) == Section(FlagsToDict(slave));
    assert Get(p, "master", Null) == Section(FlagsToDict(master));
    SectionsRoundTrip(slave, master);
  }

  /** Saving the same flags for both roles and reading them back restores
      every field the dictionary holds. */
  lemma SameRolesRoundTrip(f: PairFlags)
    ensures FlagsFromData(ProfilePayload(f, f)) == Some(Persisted(f))
  {
    NestedRoundTrip(f, f);
    assert f.skipSteps + f.skipSteps == f.skipSteps;
  }

  /** An empty flat dictionary gives the `PairFlags` defaults. */
  lemma EmptyProfileDefaults()
    ensures FlagsFromData(map[]) == Some(DefaultFlags)
  {
    assert (set id: string | id in []) == {};
  }

  // ---------------------------------------------------------------------------
  // The handle_pair overlay

  /** The pairing options of the wizard's command line: `None` where the
      option was not given. */
  datatype CliFlags = CliFlags(
    basic: Option<bool>,
    noOrlg: Option<bool>,
    noRmaad: Option<bool>,
    skipSteps: Option<string>,
    extraMasterCmds: seq<string>,
    extraSlaveCmds: seq<string>,
    advanced: bool,
    dryRun: bool,
    showPlan: bool)

  /** The flags `handle_pair` starts from: the loaded profile when there is
      one, else the defaults. */
  function BaseFlags(loaded: Option<PairFlags>): PairFlags {
    if loaded.Some? then loaded.value else DefaultFlags
  }

  /** An option that replaces the loaded value when it is given. */
  function Override(given: Option<bool>, loaded: bool): bool {
    if given.Some? then given.value else loaded
  }

  /** The overlay: an option given on the command line replaces its loaded
      value, skip ids are added to the loaded ones, extra commands appended,
      and `--advanced` turns on both advanced and interactive. */
  function Overlay(f: PairFlags, cli: CliFlags): PairFlags {
    PairFlags(
      basic := Override(cli.basic, f.basic),
      skipSteps := f.skipSteps + ParseSkipSteps(cli.skipSteps),
      extraMasterCmds := f.extraMasterCmds + cli.extraMasterCmds,
      extraSlaveCmds := f.extraSlaveCmds + cli.extraSlaveCmds,
      advanced := cli.advanced || f.advanced,
      interactive := cli.advanced || f.interactive,
      dryRun := cli.dryRun || f.dryRun,
      showPlan := cli.showPlan || f.showPlan,
      noOrlg := Override(cli.noOrlg, f.noOrlg),
      noRmaad := Override(cli.noRmaad, f.noRmaad),
      noPair := f.noPair,
      noLink := f.noLink)
  }

  /** No option given: the loaded flags pass through unchanged. */
  lemma OverlayNothing(f: PairFlags)
    ensures Overlay(f, CliFlags(None, None, None, None, [], [], false, false, false)) == f
  {
  }

  /** Applying the same options twice gives what applying them once does for
      every field but the extra-command lists, which get the commands again. */
  lemma OverlayTwice(f: PairFlags, cli: CliFlags)
    ensures var once := Overlay(f, cli);
            Overlay(once, cli) == once.(extraMasterCmds := once.extraMasterCmds + cli.extraMasterCmds,
                                        extraSlaveCmds := once.extraSlaveCmds + cli.extraSlaveCmds)
  {
  }

  /** The overlay block of `handle_pair`, field by field on the flags. */
  method ApplyOverlay(loaded: Option<PairFlags>, cli: CliFlags) returns (flags: PairFlags)
    ensures flags == Overlay(BaseFlags(loaded), cli)
  {
    flags := DefaultFlags;
    if loaded.Some? {
      flags := loaded.value;
    }
    flags := OverlayValues(flags, cli);
    flags := OverlayLists(flags, cli);
    flags := OverlaySwitches(flags, cli);
  }

  /** The options that replace a loaded value when given. */
  method OverlayValues(f: PairFlags, cli: CliFlags) returns (flags: PairFlags)
    ensures flags == f.(basic := Override(cli.basic, f.basic), noOrlg := Override(cli.noOrlg, f.noOrlg),
                        noRmaad := Override(cli.noRmaad, f.noRmaad))
  {
    flags := f;
    var basic := OverrideFlag(flags.basic, cli.basic);
    flags := flags.(basic := basic);
    var noOrlg := OverrideFlag(flags.noOrlg, cli.noOrlg);
    flags := flags.(noOrlg := noOrlg);
    var noRmaad := OverrideFlag(flags.noRmaad, cli.noRmaad);
    flags := flags.(noRmaad := noRmaad);
  }

  /** `if value is not None: flag = value` */
  method OverrideFlag(loaded: bool, given: Option<bool>) returns (flag: bool)
    ensures flag == Override(given, loaded)
  {
    flag := loaded;
    if given.Some? {
      flag := given.value;
    }
  }

  /** The options that add to the loaded skip set and command lists. */
  method OverlayLists(f: PairFlags, cli: CliFlags) returns (flags: PairFlags)
    ensures flags == f.(skipSteps := f.skipSteps + ParseSkipSteps(cli.skipSteps),
                        extraMasterCmds := f.extraMasterCmds + cli.extraMasterCmds,
                        extraSlaveCmds := f.extraSlaveCmds + cli.extraSlaveCmds)
  {
    flags := f;
    var skip := AddSkips(flags.skipSteps, cli.skipSteps);
    flags := flags.(skipSteps := skip);
    var master := AppendCommands(flags.extraMasterCmds, cli.extraMasterCmds);
    flags := flags.(extraMasterCmds := master);
    var slave := AppendCommands(flags.extraSlaveCmds, cli.extraSlaveCmds);
    flags := flags.(extraSlaveCmds := slave);
  }

  /** `if args.skip_steps: flags.skip_steps |= _parse_skip_steps(args.skip_steps)` */
  method AddSkips(loaded: set<string>, csv: Option<string>) returns (skip: set<string>)
    ensures skip == loaded + ParseSkipSteps(csv)
  {
    skip := loaded;
    if csv.Some? && csv.value != "" {
      skip := skip + ParseSkipSteps(csv);
    } else {
      assert ParseSkipSteps(csv) == {};
    }
  }

  /** `if args.extra_..._cmd: flags.extra_..._cmds.extend(...)` */
  method AppendCommands(loaded: seq<string>, given: seq<string>) returns (cmds: seq<string>)
    ensures cmds == loaded + given
  {
    cmds := loaded;
    if given != [] {
      cmds := cmds + given;
    } else {
      assert loaded + given == loaded;
    }
  }

  /** The options that can only turn a setting on. */
  method OverlaySwitches(f: PairFlags, cli: CliFlags) returns (flags: PairFlags)
    ensures flags == f.(advanced := cli.advanced || f.advanced, interactive := cli.advanced || f.interactive,
                        dryRun := cli.dryRun || f.dryRun, showPlan := cli.showPlan || f.showPlan)
  {
    flags := f;
    if cli.advanced {
      flags := flags.(advanced := true, interactive := true);
    }
    if cli.dryRun {
      flags := flags.(dryRun := true);
    }
    if cli.showPlan {
      flags := flags.(showPlan := true);
    }
  }
}
