/**
 * A query over the MLS sensitivities of a policy.
 *
 * The query object holds one criterion per matchable attribute (name, alias,
 * dominance). Setters store and normalise a criterion, validating their named
 * options; `Results` scans the policy's sensitivities and keeps those that pass
 * every configured filter, in the order name, alias, dominance.
 *
 * The matchers shared by all component queries, and the regular-expression
 * compiler, are not part of this model: they are the uninterpreted functions
 * of a `Matchers` record.
 */
module Sensitivityquery {
  import opened Wrappers

  /** A sensitivity of the policy: its name and its aliases. */
  datatype Sensitivity = Sensitivity(name: string, aliases: seq<string>)

  /** The policy as the query sees it: its sensitivities in order, and lookup by name. */
  datatype Policy = Policy(sensitivities: seq<Sensitivity>, lookup: map<string, Sensitivity>)

  /** A normalised string criterion: none, a literal string, or a compiled pattern. */
  datatype Comparator = NoCmp | Literal(text: string) | Pattern(source: string)

  /** One keyword option passed to a setter. */
  datatype Opt = Opt(key: string, value: bool)

  datatype Error =
    | NameError(message: string)        // a keyword option the setter does not know
    | InvalidSensitivity(name: string)  // the policy has no sensitivity of that name
    | AttributeError(attr: string)      // a flag read before anything assigned it
    | RegexError(pattern: string)       // a pattern that does not compile

  /**
   * The collaborators this model does not define: whether a pattern compiles,
   * and the name, alias-set and level matchers of the component-query base.
   */
  datatype Matchers = Matchers(
    compiles: string -> bool,
    matchRegex: (Sensitivity, Comparator, bool) -> bool,
    matchInSet: (seq<string>, Comparator, bool) -> bool,
    matchLevel: (Sensitivity, Sensitivity, bool, bool, bool) -> bool)

  /**
   * The criteria state of a query. A flag is None until some setter assigns it
   * (the attribute does not exist before that). An empty string or a None
   * sensitivity disables its filter.
   */
  datatype Criteria = Criteria(
    name: string, nameRegex: Option<bool>, nameCmp: Comparator,
    alias: string, aliasRegex: Option<bool>, aliasCmp: Comparator,
    sens: Option<Sensitivity>, sensDom: Option<bool>, sensDomby: Option<bool>)

  /** The state of a freshly allocated query, before its initialiser sets any criterion. */
  const Unset: Criteria := Criteria("", None, NoCmp, "", None, NoCmp, None, None, None)

  /** Every flag has been assigned. */
  predicate Defined(c: Criteria) {
    c.nameRegex.Some? && c.aliasRegex.Some? && c.sensDom.Some? && c.sensDomby.Some?
  }

  // ---------------------------------------------------------------------------
  // Keyword options

  /**
   * The options loop of a setter whose only option is `regex`: each `regex`
   * option overwrites the flag in turn; the first other key stops the loop and
   * is returned, with the flag as far as it got.
   */
  function RegexOptions(regex: Option<bool>, opts: seq<Opt>): (Option<bool>, Option<string>)
    decreases |opts|
  {
    if opts == [] then (regex, None)
    else if opts[0].key == "regex" then RegexOptions(Some(opts[0].value), opts[1..])
    else (regex, Some(opts[0].key))
  }

  /** The options loop of the dominance setter: `dom` and `domby` overwrite their flags. */
  function DominanceOptions(dom: Option<bool>, domby: Option<bool>, opts: seq<Opt>)
    : (Option<bool>, Option<bool>, Option<string>)
    decreases |opts|
  {
    if opts == [] then (dom, domby, None)
    else if opts[0].key == "dom" then DominanceOptions(Some(opts[0].value), domby, opts[1..])
    else if opts[0].key == "domby" then DominanceOptions(dom, Some(opts[0].value), opts[1..])
    else (dom, domby, Some(opts[0].key))
  }

  /** The index of the first option whose key is not in `known`, if any. */
  function FirstUnknown(known: set<string>, opts: seq<Opt>): (r: Option<nat>)
    ensures r.Some? ==> r.value < |opts| && opts[r.value].key !in known
    ensures r.Some? ==> forall i :: 0 <= i < r.value ==> opts[i].key in known
    ensures r.None? ==> forall i :: 0 <= i < |opts| ==> opts[i].key in known
    decreases |opts|
  {
    if opts == [] then None
    else if opts[0].key !in known then Some(0)
    else match FirstUnknown(known, opts[1..])
      case None => None
      case Some(i) => Some(i + 1)
  }

  /** The value of the last option named `key` among the first `n`, or `dflt` when there is none. */
  function LastValue(key: string, opts: seq<Opt>, n: nat, dflt: Option<bool>): Option<bool>
    requires n <= |opts|
    decreases n
  {
    if n == 0 then dflt
    else if opts[n - 1].key == key then Some(opts[n - 1].value)
    else LastValue(key, opts, n - 1, dflt)
  }

  /**
   * The `regex` options loop rejects exactly the first key other than `regex`,
   * and leaves the flag at the last `regex` value seen before that key, or at
   * its previous value when there was none.
   */
  lemma {:induction false} RegexOptionsEffect(regex: Option<bool>, opts: seq<Opt>)
    ensures var r := RegexOptions(regex, opts);
      var stop := FirstUnknown({"regex"}, opts);
      && (r.1.Some? <==> stop.Some?)
      && (stop.Some? ==> r.1.value == opts[stop.value].key)
      && r.0 == LastValue("regex", opts, if stop.Some? then stop.value else |opts|, regex)
    decreases |opts|
  {
    if opts != [] && opts[0].key == "regex" {
      RegexOptionsEffect(Some(opts[0].value), opts[1..]);
      var stop := FirstUnknown({"regex"}, opts[1..]);
      var n := if stop.Some? then stop.value else |opts| - 1;
      LastValueShift("regex", opts, n, regex);
    }
  }

  /** The dominance options loop, likewise, for the keys `dom` and `domby`. */
  lemma {:induction false} DominanceOptionsEffect(dom: Option<bool>, domby: Option<bool>, opts: seq<Opt>)
    ensures var r := DominanceOptions(dom, domby, opts);
      var stop := FirstUnknown({"dom", "domby"}, opts);
      var n := if stop.Some? then stop.value else |opts|;
      && (r.2.Some? <==> stop.Some?)
      && (stop.Some? ==> r.2.value == opts[stop.value].key)
      && r.0 == LastValue("dom", opts, n, dom)
      && r.1 == LastValue("domby", opts, n, domby)
    decreases |opts|
  {
    if opts != [] && opts[0].key in {"dom", "domby"} {
      var d := if opts[0].key == "dom" then Some(opts[0].value) else dom;
      var db := if opts[0].key == "domby" then Some(opts[0].value) else domby;
      DominanceOptionsEffect(d, db, opts[1..]);
      var stop := FirstUnknown({"dom", "domby"}, opts[1..]);
      var n := if stop.Some? then stop.value else |opts| - 1;
      LastValueShift("dom", opts, n, dom);
      LastValueShift("domby", opts, n, domby);
    }
  }

  /** Looking at the options after the first is looking at all of them, with the first folded into the default. */
  lemma {:induction false} LastValueShift(key: string, opts: seq<Opt>, n: nat, dflt: Option<bool>)
    requires |opts| > 0 && n < |opts|
    ensures LastValue(key, opts[1..], n, if opts[0].key == key then Some(opts[0].value) else dflt)
         == LastValue(key, opts, n + 1, dflt)
    decreases n
  {
    if n > 0 {
      LastValueShift(key, opts, n - 1, dflt);
    }
  }

  /** A flag that no option names keeps its previous value. */
  lemma LastValueAbsent(key: string, opts: seq<Opt>, n: nat, dflt: Option<bool>)
    requires n <= |opts|
    requires forall i :: 0 <= i < n ==> opts[i].key != key
    ensures LastValue(key, opts, n, dflt) == dflt
  {
  }

  /** Once assigned, the `regex` flag stays assigned through the options loop. */
  lemma {:induction false} RegexOptionsKeepsFlag(regex: Option<bool>, opts: seq<Opt>)
    requires regex.Some?
    ensures RegexOptions(regex, opts).0.Some?
    decreases |opts|
  {
    if opts != [] && opts[0].key == "regex" {
      RegexOptionsKeepsFlag(Some(opts[0].value), opts[1..]);
    }
  }

  /** Once assigned, the `dom` and `domby` flags stay assigned through the options loop. */
  lemma {:induction false} DominanceOptionsKeepFlags(dom: Option<bool>, domby: Option<bool>, opts: seq<Opt>)
    requires dom.Some? && domby.Some?
    ensures var r := DominanceOptions(dom, domby, opts); r.0.Some? && r.1.Some?
    decreases |opts|
  {
    if opts != [] && opts[0].key == "dom" {
      DominanceOptionsKeepFlags(Some(opts[0].value), domby, opts[1..]);
    } else if opts != [] && opts[0].key == "domby" {
      DominanceOptionsKeepFlags(dom, Some(opts[0].value), opts[1..]);
    }
  }

  // ---------------------------------------------------------------------------
  // Setters, as functions of the criteria state

  /**
   * Normalising a string criterion: an empty criterion disables the filter; a
   * regex criterion is compiled; otherwise the string itself is the comparator.
   */
  function Normalise(text: string, regex: Option<bool>, compiles: string -> bool, attr: string)
    : Result<Comparator, Error>
  {
    if text == "" then Success(NoCmp)
    else if regex.None? then Failure(AttributeError(attr))
    else if regex.value then (if compiles(text) then Success(Pattern(text)) else Failure(RegexError(text)))
    else Success(Literal(text))
  }

  /** `set_name`, assumed to follow the shape of `set_alias`. */
  function SetNameSpec(c: Criteria, m: Matchers, name: string, opts: seq<Opt>): (Criteria, Option<Error>) {
    var (regex, bad) := RegexOptions(c.nameRegex, opts);
    var c1 := c.(name := name, nameRegex := regex);
    if bad.Some? then (c1, Some(NameError("Invalid name option: " + bad.value)))
    else match Normalise(name, regex, m.compiles, "name_regex")
      case Failure(e) => (c1, Some(e))
      case Success(cmp) => (c1.(nameCmp := cmp), None)
  }

  /** `set_alias`: the alias is stored first, then the options are applied, then the comparator is derived. */
  function SetAliasSpec(c: Criteria, m: Matchers, alias: string, opts: seq<Opt>): (Criteria, Option<Error>) {
    var (regex, bad) := RegexOptions(c.aliasRegex, opts);
    var c1 := c.(alias := alias, aliasRegex := regex);
    if bad.Some? then (c1, Some(NameError("Invalid alias option: " + bad.value)))
    else match Normalise(alias, regex, m.compiles, "alias_regex")
      case Failure(e) => (c1, Some(e))
      case Success(cmp) => (c1.(aliasCmp := cmp), None)
  }

  /**
   * `set_sensitivity`: a non-empty name is resolved in the policy first (an
   * unknown name raises before anything changes), then the options are applied.
   */
  function SetSensitivitySpec(c: Criteria, p: Policy, sens: string, opts: seq<Opt>): (Criteria, Option<Error>) {
    if sens != "" && sens !in p.lookup then (c, Some(InvalidSensitivity(sens)))
    else
      var (dom, domby, bad) := DominanceOptions(c.sensDom, c.sensDomby, opts);
      var c1 := c.(sens := if sens == "" then None else Some(p.lookup[sens]), sensDom := dom, sensDomby := domby);
      if bad.Some? then (c1, Some(NameError("Invalid name option: " + bad.value))) else (c1, None)
  }

  /** The initialiser: all three setters, each given every one of its options. */
  function CreateSpec(
    p: Policy, m: Matchers,
    name: string, nameRegex: bool,
    alias: string, aliasRegex: bool,
    sens: string, sensDom: bool, sensDomby: bool): Result<Criteria, Error>
  {
    var (c1, e1) := SetNameSpec(Unset, m, name, [Opt("regex", nameRegex)]);
    if e1.Some? then Failure(e1.value) else
    var (c2, e2) := SetAliasSpec(c1, m, alias, [Opt("regex", aliasRegex)]);
    if e2.Some? then Failure(e2.value) else
    var (c3, e3) := SetSensitivitySpec(c2, p, sens, [Opt("dom", sensDom), Opt("domby", sensDomby)]);
    if e3.Some? then Failure(e3.value) else Success(c3)
  }

  // ---------------------------------------------------------------------------
  // What the setters promise

  /**
   * After a successful `set_alias` the comparator is None for an empty alias,
   * the compiled alias when the regex flag is set, and the alias itself
   * otherwise. The alias is stored even when the call fails.
   */
  lemma AliasComparator(c: Criteria, m: Matchers, alias: string, opts: seq<Opt>)
    ensures var (c', err) := SetAliasSpec(c, m, alias, opts);
      && c'.alias == alias
      && (err.None? ==>
          && (c'.aliasCmp == NoCmp <==> alias == "")
          && (c'.aliasCmp == Pattern(alias) <==> alias != "" && c'.aliasRegex == Some(true))
          && (c'.aliasCmp == Literal(alias) <==> alias != "" && c'.aliasRegex == Some(false)))
  {
  }

  /**
   * `set_alias` raises NameError exactly when some option is not `regex`. The
   * failed call has already stored the alias and the earlier `regex` options,
   * but the comparator still belongs to the previous criterion.
   */
  lemma {:induction false} SetAliasRejectsUnknownOptions(c: Criteria, m: Matchers, alias: string, opts: seq<Opt>)
    ensures var (c', err) := SetAliasSpec(c, m, alias, opts);
      var stop := FirstUnknown({"regex"}, opts);
      && ((err.Some? && err.value.NameError?) <==> stop.Some?)
      && (stop.Some? ==>
          && err.value == NameError("Invalid alias option: " + opts[stop.value].key)
          && c' == c.(alias := alias, aliasRegex := LastValue("regex", opts, stop.value, c.aliasRegex)))
  {
    RegexOptionsEffect(c.aliasRegex, opts);
  }

  /**
   * `set_sensitivity` raises NameError exactly when the name resolves and some
   * option is neither `dom` nor `domby`; by then the sensitivity and the
   * earlier flags have been stored.
   */
  lemma {:induction false} SetSensitivityRejectsUnknownOptions(c: Criteria, p: Policy, sens: string, opts: seq<Opt>)
    ensures var (c', err) := SetSensitivitySpec(c, p, sens, opts);
      var stop := FirstUnknown({"dom", "domby"}, opts);
      && ((err.Some? && err.value.NameError?) <==> (sens == "" || sens in p.lookup) && stop.Some?)
      && ((sens == "" || sens in p.lookup) && stop.Some? ==>
          && err.value == NameError("Invalid name option: " + opts[stop.value].key)
          && c'.sens == (if sens == "" then None else Some(p.lookup[sens]))
          && c'.sensDom == LastValue("dom", opts, stop.value, c.sensDom)
          && c'.sensDomby == LastValue("domby", opts, stop.value, c.sensDomby))
  {
    DominanceOptionsEffect(c.sensDom, c.sensDomby, opts);
  }

  /**
   * `set_sensitivity` stores None for an empty name and otherwise resolves the
   * name at once; an unknown name raises and leaves the criteria as they were.
   * Flags no option names keep their values.
   */
  lemma {:induction false} SensitivityResolution(c: Criteria, p: Policy, sens: string, opts: seq<Opt>)
    ensures var (c', err) := SetSensitivitySpec(c, p, sens, opts);
      && (sens == "" ==> c'.sens.None?)
      && (sens != "" && sens in p.lookup ==> c'.sens == Some(p.lookup[sens]))
      && (sens != "" && sens !in p.lookup ==> c' == c && err == Some(InvalidSensitivity(sens)))
      && ((forall i :: 0 <= i < |opts| ==> opts[i].key != "dom") ==> c'.sensDom == c.sensDom)
      && ((forall i :: 0 <= i < |opts| ==> opts[i].key != "domby") ==> c'.sensDomby == c.sensDomby)
      && c'.(sens := c.sens, sensDom := c.sensDom, sensDomby := c.sensDomby) == c
  {
    DominanceOptionsEffect(c.sensDom, c.sensDomby, opts);
    var stop := FirstUnknown({"dom", "domby"}, opts);
    var n := if stop.Some? then stop.value else |opts|;
    if forall i :: 0 <= i < |opts| ==> opts[i].key != "dom" {
      LastValueAbsent("dom", opts, n, c.sensDom);
    }
    if forall i :: 0 <= i < |opts| ==> opts[i].key != "domby" {
      LastValueAbsent("domby", opts, n, c.sensDomby);
    }
  }

  /**
   * `set_alias` succeeds exactly when every option is `regex` and the alias is
   * empty, or the final regex flag is assigned and either false or set on a
   * pattern that compiles.
   */
  lemma {:induction false} SetAliasSucceeds(c: Criteria, m: Matchers, alias: string, opts: seq<Opt>)
    ensures var (_, err) := SetAliasSpec(c, m, alias, opts);
      var rx := LastValue("regex", opts, |opts|, c.aliasRegex);
      err.None? <==>
        && FirstUnknown({"regex"}, opts).None?
        && (alias == "" || (rx.Some? && (!rx.value || m.compiles(alias))))
  {
    RegexOptionsEffect(c.aliasRegex, opts);
  }

  /**
   * `set_sensitivity` succeeds exactly when the name is empty or known to the
   * policy and every option is `dom` or `domby`.
   */
  lemma {:induction false} SetSensitivitySucceeds(c: Criteria, p: Policy, sens: string, opts: seq<Opt>)
    ensures var (_, err) := SetSensitivitySpec(c, p, sens, opts);
      err.None? <==> (sens == "" || sens in p.lookup) && FirstUnknown({"dom", "domby"}, opts).None?
  {
    DominanceOptionsEffect(c.sensDom, c.sensDomby, opts);
  }

  /** A flag that no option names keeps its value through `set_alias`. */
  lemma {:induction false} AliasFlagKept(c: Criteria, m: Matchers, alias: string, opts: seq<Opt>)
    requires forall i :: 0 <= i < |opts| ==> opts[i].key != "regex"
    ensures SetAliasSpec(c, m, alias, opts).0.aliasRegex == c.aliasRegex
  {
    RegexOptionsEffect(c.aliasRegex, opts);
    var stop := FirstUnknown({"regex"}, opts);
    LastValueAbsent("regex", opts, if stop.Some? then stop.value else |opts|, c.aliasRegex);
  }

  /**
   * The initialiser defines every flag with the value it was given, stores
   * every criterion, and fails only when a pattern does not compile or the
   * sensitivity name is unknown.
   */
  lemma CreateDefinesCriteria(
    p: Policy, m: Matchers,
    name: string, nameRegex: bool,
    alias: string, aliasRegex: bool,
    sens: string, sensDom: bool, sensDomby: bool)
    ensures var r := CreateSpec(p, m, name, nameRegex, alias, aliasRegex, sens, sensDom, sensDomby);
      && (r.Failure? <==>
          (name != "" && nameRegex && !m.compiles(name)) ||
          (alias != "" && aliasRegex && !m.compiles(alias)) ||
          (sens != "" && sens !in p.lookup))
      && (r.Success? ==>
          && Defined(r.value)
          && r.value.name == name && r.value.nameRegex == Some(nameRegex)
          && r.value.nameCmp == (if name == "" then NoCmp else if nameRegex then Pattern(name) else Literal(name))
          && r.value.alias == alias && r.value.aliasRegex == Some(aliasRegex)
          && r.value.aliasCmp == (if alias == "" then NoCmp else if aliasRegex then Pattern(alias) else Literal(alias))
          && r.value.sens == (if sens == "" then None else Some(p.lookup[sens]))
          && r.value.sensDom == Some(sensDom) && r.value.sensDomby == Some(sensDomby))
  {
    RegexSingle(None, nameRegex);
    var (c1, e1) := SetNameSpec(Unset, m, name, [Opt("regex", nameRegex)]);
    assert c1.name == name && c1.nameRegex == Some(nameRegex) && c1.aliasRegex.None?;
    assert e1.Some? <==> name != "" && nameRegex && !m.compiles(name);
    if e1.None? {
      RegexSingle(None, aliasRegex);
      var (c2, e2) := SetAliasSpec(c1, m, alias, [Opt("regex", aliasRegex)]);
      assert c2 == c1.(alias := alias, aliasRegex := Some(aliasRegex), aliasCmp := c2.aliasCmp);
      assert e2.Some? <==> alias != "" && aliasRegex && !m.compiles(alias);
      if e2.None? {
        DominancePair(None, None, sensDom, sensDomby);
      }
    }
  }

  /** Every setter, whether it succeeds or raises, leaves a query with all flags assigned in that state. */
  lemma SettersKeepDefined(c: Criteria, m: Matchers, p: Policy, text: string, opts: seq<Opt>)
    requires Defined(c)
    ensures Defined(SetNameSpec(c, m, text, opts).0)
    ensures Defined(SetAliasSpec(c, m, text, opts).0)
    ensures Defined(SetSensitivitySpec(c, p, text, opts).0)
  {
    RegexOptionsKeepsFlag(c.nameRegex, opts);
    RegexOptionsKeepsFlag(c.aliasRegex, opts);
    DominanceOptionsKeepFlags(c.sensDom, c.sensDomby, opts);
  }

  lemma RegexSingle(regex: Option<bool>, b: bool)
    ensures RegexOptions(regex, [Opt("regex", b)]) == (Some(b), None)
  {
    assert [Opt("regex", b)][1..] == [];
  }

  lemma DominancePair(dom: Option<bool>, domby: Option<bool>, x: bool, y: bool)
    ensures DominanceOptions(dom, domby, [Opt("dom", x), Opt("domby", y)]) == (Some(x), Some(y), None)
  {
    var opts := [Opt("dom", x), Opt("domby", y)];
    assert opts[1..] == [Opt("domby", y)] && opts[1..][1..] == [];
    assert "domby" != "dom";
    assert DominanceOptions(Some(x), domby, opts[1..]) == (Some(x), Some(y), None);
  }

  // ---------------------------------------------------------------------------
  // Filtering

  datatype Stage = NameStage | AliasStage | LevelStage

  /** Whether a sensitivity is kept, and the matchers consulted to decide it, in order. */
  datatype Verdict = Verdict(pass: bool, tested: seq<Stage>)

  /** The three filters of the scan, each short-circuiting the ones after it. */
  function Screen(c: Criteria, m: Matchers, s: Sensitivity): Verdict
    requires Defined(c)
  {
    if c.name != "" && !m.matchRegex(s, c.nameCmp, c.nameRegex.value) then Verdict(false, [NameStage])
    else
      var t1 := if c.name != "" then [NameStage] else [];
      if c.alias != "" && !m.matchInSet(s.aliases, c.aliasCmp, c.aliasRegex.value) then
        Verdict(false, t1 + [AliasStage])
      else
        var t2 := t1 + (if c.alias != "" then [AliasStage] else []);
        if c.sens.Some? && !m.matchLevel(s, c.sens.value, c.sensDom.value, c.sensDomby.value, false) then
          Verdict(false, t2 + [LevelStage])
        else
          Verdict(true, t2 + (if c.sens.Some? then [LevelStage] else []))
  }

  predicate NamePasses(c: Criteria, m: Matchers, s: Sensitivity)
    requires Defined(c)
  {
    c.name == "" || m.matchRegex(s, c.nameCmp, c.nameRegex.value)
  }

  predicate AliasPasses(c: Criteria, m: Matchers, s: Sensitivity)
    requires Defined(c)
  {
    c.alias == "" || m.matchInSet(s.aliases, c.aliasCmp, c.aliasRegex.value)
  }

  predicate LevelPasses(c: Criteria, m: Matchers, s: Sensitivity)
    requires Defined(c)
  {
    c.sens.None? || m.matchLevel(s, c.sens.value, c.sensDom.value, c.sensDomby.value, false)
  }

  /** A sensitivity passes every configured filter; an unconfigured filter passes everything. */
  predicate PassesAll(c: Criteria, m: Matchers, s: Sensitivity)
    requires Defined(c)
  {
    NamePasses(c, m, s) && AliasPasses(c, m, s) && LevelPasses(c, m, s)
  }

  /**
   * The scan keeps a sensitivity exactly when it passes every configured
   * filter; a filter is consulted only when it is configured and every earlier
   * filter passed, so the consulted filters always come in the order name,
   * alias, dominance, and a rejection comes from the last one consulted.
   */
  lemma ScreenContract(c: Criteria, m: Matchers, s: Sensitivity)
    requires Defined(c)
    ensures var v := Screen(c, m, s);
      && (v.pass <==> PassesAll(c, m, s))
      && (NameStage in v.tested <==> c.name != "")
      && (AliasStage in v.tested <==> c.alias != "" && NamePasses(c, m, s))
      && (LevelStage in v.tested <==> c.sens.Some? && NamePasses(c, m, s) && AliasPasses(c, m, s))
      && (forall i, j :: 0 <= i < j < |v.tested| ==> StageRank(v.tested[i]) < StageRank(v.tested[j]))
      && (!v.pass ==> |v.tested| > 0 && !StagePasses(c, m, s, v.tested[|v.tested| - 1]))
  {
  }

  function StageRank(st: Stage): nat {
    match st
    case NameStage => 0
    case AliasStage => 1
    case LevelStage => 2
  }

  predicate StagePasses(c: Criteria, m: Matchers, s: Sensitivity, st: Stage)
    requires Defined(c)
  {
    match st
    case NameStage => NamePasses(c, m, s)
    case AliasStage => AliasPasses(c, m, s)
    case LevelStage => LevelPasses(c, m, s)
  }

  /** The sensitivities the scan yields, in policy order. */
  function Filter(c: Criteria, m: Matchers, xs: seq<Sensitivity>): (r: seq<Sensitivity>)
    requires Defined(c)
    ensures |r| <= |xs|
    decreases |xs|
  {
    if xs == [] then []
    else (if Screen(c, m, xs[0]).pass then [xs[0]] else []) + Filter(c, m, xs[1..])
  }

  /** The matchers the scan consults, in the order it consults them. */
  ghost function Trace(c: Criteria, m: Matchers, xs: seq<Sensitivity>): seq<Stage>
    requires Defined(c)
    decreases |xs|
  {
    if xs == [] then [] else Trace(c, m, xs[..|xs| - 1]) + Screen(c, m, xs[|xs| - 1]).tested
  }

  /** `a` is `b` with some elements left out, the rest kept in order. */
  predicate IsSubsequence<T(==)>(a: seq<T>, b: seq<T>)
    decreases |b|
  {
    a == [] || (b != [] && ((a[0] == b[0] && IsSubsequence(a[1..], b[1..])) || IsSubsequence(a, b[1..])))
  }

  lemma {:induction false} FilterIsSubsequence(c: Criteria, m: Matchers, xs: seq<Sensitivity>)
    requires Defined(c)
    ensures IsSubsequence(Filter(c, m, xs), xs)
    decreases |xs|
  {
    if xs != [] {
      FilterIsSubsequence(c, m, xs[1..]);
      var r := Filter(c, m, xs);
      if Screen(c, m, xs[0]).pass {
        assert r[0] == xs[0] && r[1..] == Filter(c, m, xs[1..]);
      } else {
        assert r == Filter(c, m, xs[1..]);
      }
    }
  }

  /** A sensitivity is yielded exactly when it is in the policy and passes every configured filter. */
  lemma {:induction false} FilterMembership(c: Criteria, m: Matchers, xs: seq<Sensitivity>, s: Sensitivity)
    requires Defined(c)
    ensures s in Filter(c, m, xs) <==> s in xs && PassesAll(c, m, s)
    decreases |xs|
  {
    if xs != [] {
      FilterMembership(c, m, xs[1..], s);
      assert Screen(c, m, xs[0]).pass == PassesAll(c, m, xs[0]) by {
        ScreenContract(c, m, xs[0]);
      }
      assert s in xs <==> s == xs[0] || s in xs[1..];
    }
  }

  /** With no criterion configured, every sensitivity is yielded, in order. */
  lemma {:induction false} FilterUnconfigured(c: Criteria, m: Matchers, xs: seq<Sensitivity>)
    requires Defined(c) && c.name == "" && c.alias == "" && c.sens.None?
    ensures Filter(c, m, xs) == xs
    decreases |xs|
  {
    if xs != [] {
      FilterUnconfigured(c, m, xs[1..]);
      assert xs == [xs[0]] + xs[1..];
    }
  }

  /** Filtering a concatenation filters each part: the scan decides element by element. */
  lemma {:induction false} FilterConcat(c: Criteria, m: Matchers, xs: seq<Sensitivity>, ys: seq<Sensitivity>)
    requires Defined(c)
    ensures Filter(c, m, xs + ys) == Filter(c, m, xs) + Filter(c, m, ys)
    decreases |xs|
  {
    if xs == [] {
      assert xs + ys == ys;
    } else {
      FilterConcat(c, m, xs[1..], ys);
      assert (xs + ys)[1..] == xs[1..] + ys;
    }
  }

  // ---------------------------------------------------------------------------
  // The query object

  class SensitivityQuery {
    const policy: Policy
    const matchers: Matchers

    var name: string
    var nameRegex: Option<bool>
    var nameCmp: Comparator
    var alias: string
    var aliasRegex: Option<bool>
    var aliasCmp: Comparator
    var sens: Option<Sensitivity>
    var sensDom: Option<bool>
    var sensDomby: Option<bool>

    /** The criteria held by the object. */
    function State(): Criteria
      reads this
    {
      Criteria(name, nameRegex, nameCmp, alias, aliasRegex, aliasCmp, sens, sensDom, sensDomby)
    }

    ghost predicate Valid()
      reads this
    {
      Defined(State())
    }

    /** A query object before its initialiser has set any criterion. */
    constructor Allocate(policy: Policy, matchers: Matchers)
      ensures this.policy == policy && this.matchers == matchers
      ensures State() == Unset
    {
      this.policy := policy;
      this.matchers := matchers;
      name, nameRegex, nameCmp := "", None, NoCmp;
      alias, aliasRegex, aliasCmp := "", None, NoCmp;
      sens, sensDom, sensDomby := None, None, None;
    }

    /** The initialiser: a query whose criteria are all set, or the exception a setter raised. */
    static method Create(
      policy: Policy, matchers: Matchers,
      name: string, nameRegex: bool,
      alias: string, aliasRegex: bool,
      sens: string, sensDom: bool, sensDomby: bool)
      returns (r: Result<SensitivityQuery, Error>)
      ensures var spec := CreateSpec(policy, matchers, name, nameRegex, alias, aliasRegex, sens, sensDom, sensDomby);
        && (r.Success? <==> spec.Success?)
        && (r.Failure? ==> r.error == spec.error)
        && (r.Success? ==>
            && fresh(r.value)
            && r.value.policy == policy && r.value.matchers == matchers
            && r.value.State() == spec.value
            && r.value.Valid())
    {
      var q := new SensitivityQuery.Allocate(policy, matchers);
      var err := q.SetName(name, [Opt("regex", nameRegex)]);
      if err.Some? {
        return Failure(err.value);
      }
      err := q.SetAlias(alias, [Opt("regex", aliasRegex)]);
      if err.Some? {
        return Failure(err.value);
      }
      err := q.SetSensitivity(sens, [Opt("dom", sensDom), Opt("domby", sensDomby)]);
      if err.Some? {
        return Failure(err.value);
      }
      CreateDefinesCriteria(policy, matchers, name, nameRegex, alias, aliasRegex, sens, sensDom, sensDomby);
      r := Success(q);
    }

    /** `set_name`, assumed to follow the shape of `set_alias`. */
    method SetName(name: string, opts: seq<Opt>) returns (err: Option<Error>)
      modifies this
      ensures (State(), err) == SetNameSpec(old(State()), matchers, name, opts)
      ensures old(Valid()) ==> Valid()
    {
      if Valid() {
        SettersKeepDefined(State(), matchers, policy, name, opts);
      }
      this.name := name;
      var i := 0;
      while i < |opts|
        invariant 0 <= i <= |opts|
        invariant RegexOptions(old(nameRegex), opts) == RegexOptions(nameRegex, opts[i..])
        invariant State() == old(State()).(name := name, nameRegex := nameRegex)
      {
        if opts[i].key == "regex" {
          nameRegex := Some(opts[i].value);
        } else {
          return Some(NameError("Invalid name option: " + opts[i].key));
        }
        i := i + 1;
      }
      if name == "" {
        nameCmp := NoCmp;
      } else if nameRegex.None? {
        return Some(AttributeError("name_regex"));
      } else if nameRegex.value {
        if !matchers.compiles(name) {
          return Some(RegexError(name));
        }
        nameCmp := Pattern(name);
      } else {
        nameCmp := Literal(name);
      }
      err := None;
    }

    method SetAlias(alias: string, opts: seq<Opt>) returns (err: Option<Error>)
      modifies this
      ensures (State(), err) == SetAliasSpec(old(State()), matchers, alias, opts)
      ensures old(Valid()) ==> Valid()
    {
      if Valid() {
        SettersKeepDefined(State(), matchers, policy, alias, opts);
      }
      this.alias := alias;
      var i := 0;
      while i < |opts|
        invariant 0 <= i <= |opts|
        invariant RegexOptions(old(aliasRegex), opts) == RegexOptions(aliasRegex, opts[i..])
        invariant State() == old(State()).(alias := alias, aliasRegex := aliasRegex)
      {
        if opts[i].key == "regex" {
          aliasRegex := Some(opts[i].value);
        } else {
          return Some(NameError("Invalid alias option: " + opts[i].key));
        }
        i := i + 1;
      }
      if alias == "" {
        aliasCmp := NoCmp;
      } else if aliasRegex.None? {
        return Some(AttributeError("alias_regex"));
      } else if aliasRegex.value {
        if !matchers.compiles(alias) {
          return Some(RegexError(alias));
        }
        aliasCmp := Pattern(alias);
      } else {
        aliasCmp := Literal(alias);
      }
      err := None;
    }

    method SetSensitivity(sens: string, opts: seq<Opt>) returns (err: Option<Error>)
      modifies this
      ensures (State(), err) == SetSensitivitySpec(old(State()), policy, sens, opts)
      ensures old(Valid()) ==> Valid()
    {
      if Valid() {
        SettersKeepDefined(State(), matchers, policy, sens, opts);
      }
      if sens != "" {
        if sens !in policy.lookup {
          return Some(InvalidSensitivity(sens));
        }
        this.sens := Some(policy.lookup[sens]);
      } else {
        this.sens := None;
      }
      var i := 0;
      while i < |opts|
        invariant 0 <= i <= |opts|
        invariant DominanceOptions(old(sensDom), old(sensDomby), opts) == DominanceOptions(sensDom, sensDomby, opts[i..])
        invariant State() == old(State()).(sens := this.sens, sensDom := sensDom, sensDomby := sensDomby)
        invariant this.sens == if sens == "" then None else Some(policy.lookup[sens])
      {
        if opts[i].key == "dom" {
          sensDom := Some(opts[i].value);
        } else if opts[i].key == "domby" {
          sensDomby := Some(opts[i].value);
        } else {
          return Some(NameError("Invalid name option: " + opts[i].key));
        }
        i := i + 1;
      }
      err := None;
    }

    /**
     * The matching sensitivities, in the policy's order; `tested` records the
     * matchers consulted, in the order the loop consults them.
     */
    method Results() returns (out: seq<Sensitivity>, ghost tested: seq<Stage>)
      requires Valid()
      ensures out == Filter(State(), matchers, policy.sensitivities)
      ensures tested == Trace(State(), matchers, policy.sensitivities)
    {
      var xs := policy.sensitivities;
      out, tested := [], [];
      var i := 0;
      while i < |xs|
        invariant 0 <= i <= |xs|
        invariant out == Filter(State(), matchers, xs[..i])
        invariant tested == Trace(State(), matchers, xs[..i])
      {
        var s := xs[i];
        FilterConcat(State(), matchers, xs[..i], [s]);
        assert xs[..i + 1] == xs[..i] + [s];
        assert xs[..i + 1][..i] == xs[..i];
        i := i + 1;
        ghost var t: seq<Stage> := if name != "" then [NameStage] else [];
        if name != "" && !matchers.matchRegex(s, nameCmp, nameRegex.value) {
          tested := tested + t;
          continue;
        }
        t := t + (if alias != "" then [AliasStage] else []);
        if alias != "" && !matchers.matchInSet(s.aliases, aliasCmp, aliasRegex.value) {
          tested := tested + t;
          continue;
        }
        t := t + (if sens.Some? then [LevelStage] else []);
        tested := tested + t;
        if sens.Some? && !matchers.matchLevel(s, sens.value, sensDom.value, sensDomby.value, false) {
          continue;
        }
        out := out + [s];
      }
      assert xs[..i] == xs;
    }
  }
}
