/**
 * The tool-availability registry (ToolManagementService): a fixed, ordered
 * universe of tools obtained from the tool provider, and a mutable set of
 * disabled tool names. Names are resolved either exactly or through a
 * `_`-suffix alias, first match in provider order winning.
 */
module ToolManagement {
  import opened Wrappers

  /** A provider tool: only its definition's name and description matter here. */
  datatype ToolDef = ToolDef(name: string, description: string)

  /** One row of the tool listing. */
  datatype ToolStatus = ToolStatus(name: string, description: string, enabled: bool)

  /** The set of names in a provider sequence. */
  function Names(tools: seq<ToolDef>): set<string> {
    set t | t in tools :: t.name
  }

  /** Java's `String.endsWith`. */
  predicate EndsWith(s: string, suffix: string) {
    |suffix| <= |s| && s[|s| - |suffix|..] == suffix
  }

  /** A query designates a tool by its full name or by a `_`-suffix alias. */
  predicate Matches(name: string, query: string) {
    name == query || EndsWith(name, "_" + query)
  }

  /** Tool `i` is the first one in provider order that the query designates. */
  predicate IsFirstMatch(tools: seq<ToolDef>, query: string, i: int) {
    && 0 <= i < |tools|
    && Matches(tools[i].name, query)
    && forall j :: 0 <= j < i ==> !Matches(tools[j].name, query)
  }

  /**
   * Name resolution: the full name of the first tool the query designates,
   * or None when no tool matches.
   */
  function Resolve(tools: seq<ToolDef>, query: string): (r: Option<string>)
    ensures r.None? <==> forall i :: 0 <= i < |tools| ==> !Matches(tools[i].name, query)
    ensures forall i :: IsFirstMatch(tools, query, i) ==> r == Some(tools[i].name)
    ensures r.Some? ==> exists i :: IsFirstMatch(tools, query, i) && r.value == tools[i].name
  {
    if tools == [] then None
    else if Matches(tools[0].name, query) then Some(tools[0].name)
    else Resolve(tools[1..], query)
  }

  /** The listing row of one tool. */
  function Status(tool: ToolDef, disabled: set<string>): ToolStatus {
    ToolStatus(tool.name, tool.description, tool.name !in disabled)
  }

  /**
   * The full listing: one row per provider tool, in provider order, carrying
   * the provider's name and description, enabled exactly when not disabled.
   */
  function StatusList(tools: seq<ToolDef>, disabled: set<string>): (r: seq<ToolStatus>)
    ensures |r| == |tools|
    ensures forall i :: 0 <= i < |tools| ==>
      && r[i].name == tools[i].name
      && r[i].description == tools[i].description
      && (r[i].enabled <==> tools[i].name !in disabled)
  {
    if tools == [] then [] else [Status(tools[0], disabled)] + StatusList(tools[1..], disabled)
  }

  /** The provider sequence filtered to the tools whose names are not disabled. */
  function EnabledList(tools: seq<ToolDef>, disabled: set<string>): (r: seq<ToolDef>)
    ensures |r| <= |tools|
    ensures forall t :: t in r <==> t in tools && t.name !in disabled
    ensures forall t :: multiset(r)[t] == if t.name in disabled then 0 else multiset(tools)[t]
  {
    if tools == [] then []
    else
      var head: seq<ToolDef> := if tools[0].name in disabled then [] else [tools[0]];
      assert tools == [tools[0]] + tools[1..];
      assert multiset(tools) == multiset{tools[0]} + multiset(tools[1..]);
      head + EnabledList(tools[1..], disabled)
  }

  /** `a` is `b` with some elements dropped, the rest kept in their order. */
  predicate SubsequenceOf<T(==)>(a: seq<T>, b: seq<T>)
    decreases |b|
  {
    if a == [] then true
    else if b == [] then false
    else (a[0] == b[0] && SubsequenceOf(a[1..], b[1..])) || SubsequenceOf(a, b[1..])
  }

  /** The enabled tools keep the provider's relative order. */
  lemma {:induction false} EnabledListKeepsOrder(tools: seq<ToolDef>, disabled: set<string>)
    ensures SubsequenceOf(EnabledList(tools, disabled), tools)
  {
    if tools != [] {
      EnabledListKeepsOrder(tools[1..], disabled);
      var rest := EnabledList(tools[1..], disabled);
      if tools[0].name in disabled {
        assert EnabledList(tools, disabled) == rest;
        SubsequenceOfDropHead(rest, tools);
      } else {
        assert EnabledList(tools, disabled) == [tools[0]] + rest;
        assert ([tools[0]] + rest)[1..] == rest;
      }
    }
  }

  /** A subsequence of the tail is a subsequence of the whole sequence. */
  lemma SubsequenceOfDropHead<T>(a: seq<T>, b: seq<T>)
    requires b != []
    requires SubsequenceOf(a, b[1..])
    ensures SubsequenceOf(a, b)
  {
  }

  /** Complement invariant: the enabled names are the universe minus the disabled set. */
  lemma EnabledNamesAreComplement(tools: seq<ToolDef>, disabled: set<string>)
    ensures Names(EnabledList(tools, disabled)) == Names(tools) - disabled
  {
  }

  /**
   * The disabled set after `enableTool(query)`: the resolved name, and only
   * it, leaves the set.
   */
  function AfterEnable(tools: seq<ToolDef>, disabled: set<string>, query: string): (r: set<string>)
    ensures r <= disabled
    ensures forall n :: n in disabled - r ==> Resolve(tools, query) == Some(n)
    ensures Resolve(tools, query).Some? ==> Resolve(tools, query).value !in r
  {
    match Resolve(tools, query)
    case None => disabled
    case Some(name) => disabled - {name}
  }

  /**
   * The disabled set after `disableTool(query)`: the resolved name, and only
   * it, joins the set.
   */
  function AfterDisable(tools: seq<ToolDef>, disabled: set<string>, query: string): (r: set<string>)
    ensures disabled <= r
    ensures forall n :: n in r - disabled ==> Resolve(tools, query) == Some(n)
    ensures Resolve(tools, query).Some? ==> Resolve(tools, query).value in r
  {
    match Resolve(tools, query)
    case None => disabled
    case Some(name) => disabled + {name}
  }

  /** Enable and disable with an unresolvable name change nothing, so the listing is unchanged. */
  lemma UnknownNameIsNoOp(tools: seq<ToolDef>, disabled: set<string>, query: string)
    requires forall i :: 0 <= i < |tools| ==> !Matches(tools[i].name, query)
    ensures AfterEnable(tools, disabled, query) == disabled
    ensures AfterDisable(tools, disabled, query) == disabled
    ensures StatusList(tools, AfterEnable(tools, disabled, query)) == StatusList(tools, disabled)
    ensures StatusList(tools, AfterDisable(tools, disabled, query)) == StatusList(tools, disabled)
  {
  }

  /** Disabling a resolvable name inserts it, and the resolved tool's row then reads disabled. */
  lemma DisableReportsDisabled(tools: seq<ToolDef>, disabled: set<string>, query: string, i: int)
    requires IsFirstMatch(tools, query, i)
    ensures AfterDisable(tools, disabled, query) == disabled + {tools[i].name}
    ensures !StatusList(tools, AfterDisable(tools, disabled, query))[i].enabled
  {
  }

  /** Enabling a resolvable name removes it, and the resolved tool's row then reads enabled. */
  lemma EnableReportsEnabled(tools: seq<ToolDef>, disabled: set<string>, query: string, i: int)
    requires IsFirstMatch(tools, query, i)
    ensures AfterEnable(tools, disabled, query) == disabled - {tools[i].name}
    ensures StatusList(tools, AfterEnable(tools, disabled, query))[i].enabled
  {
  }

  /** Disable followed by enable of the same query enables the tool again. */
  lemma DisableThenEnable(tools: seq<ToolDef>, disabled: set<string>, query: string, i: int)
    requires IsFirstMatch(tools, query, i)
    ensures AfterEnable(tools, AfterDisable(tools, disabled, query), query) == disabled - {tools[i].name}
    ensures StatusList(tools, AfterEnable(tools, AfterDisable(tools, disabled, query), query))[i].enabled
  {
  }

  /** Enable followed by disable of the same query disables the tool again. */
  lemma EnableThenDisable(tools: seq<ToolDef>, disabled: set<string>, query: string, i: int)
    requires IsFirstMatch(tools, query, i)
    ensures AfterDisable(tools, AfterEnable(tools, disabled, query), query) == disabled + {tools[i].name}
    ensures !StatusList(tools, AfterDisable(tools, AfterEnable(tools, disabled, query), query))[i].enabled
  {
  }

  /** Repeating enable or disable leaves the set as the first call left it. */
  lemma EnableDisableIdempotent(tools: seq<ToolDef>, disabled: set<string>, query: string)
    ensures AfterEnable(tools, AfterEnable(tools, disabled, query), query) == AfterEnable(tools, disabled, query)
    ensures AfterDisable(tools, AfterDisable(tools, disabled, query), query) == AfterDisable(tools, disabled, query)
  {
  }

  /**
   * Enable and disable change the status of the resolved name only: every
   * other tool's row, and every name and description, stays as it was.
   */
  lemma OnlyResolvedToolChanges(tools: seq<ToolDef>, disabled: set<string>, query: string, i: int)
    requires 0 <= i < |tools|
    requires Resolve(tools, query) != Some(tools[i].name)
    ensures StatusList(tools, AfterEnable(tools, disabled, query))[i] == StatusList(tools, disabled)[i]
    ensures StatusList(tools, AfterDisable(tools, disabled, query))[i] == StatusList(tools, disabled)[i]
  {
  }

  /** Only resolved names enter the disabled set, so it stays inside the universe. */
  lemma DisabledStaysInUniverse(tools: seq<ToolDef>, disabled: set<string>, query: string)
    requires disabled <= Names(tools)
    ensures AfterEnable(tools, disabled, query) <= Names(tools)
    ensures AfterDisable(tools, disabled, query) <= Names(tools)
  {
  }

  /** A suffix match earlier in provider order wins over a later exact match. */
  lemma EarlierSuffixBeatsLaterExact(tools: seq<ToolDef>, query: string, i: int, j: int)
    requires 0 <= i < j < |tools|
    requires EndsWith(tools[i].name, "_" + query) && tools[j].name == query
    requires forall k :: 0 <= k < i ==> !Matches(tools[k].name, query)
    ensures Resolve(tools, query) == Some(tools[i].name)
  {
  }

  /** The two-tool calculator universe used in the examples below. */
  const CalcTools: seq<ToolDef> :=
    [ToolDef("calc_add", "Add two numbers"), ToolDef("calc_sub", "Subtract two numbers")]

  /** Disabling by the alias "add" disables `calc_add` and leaves only `calc_sub` enabled. */
  lemma CalcScenario()
    ensures Resolve(CalcTools, "add") == Some("calc_add")
    ensures AfterDisable(CalcTools, {}, "add") == {"calc_add"}
    ensures StatusList(CalcTools, {"calc_add"}) ==
      [ToolStatus("calc_add", "Add two numbers", false), ToolStatus("calc_sub", "Subtract two numbers", true)]
    ensures EnabledList(CalcTools, {"calc_add"}) == [ToolDef("calc_sub", "Subtract two numbers")]
  {
  }

  /**
   * The registry. `tools` is the provider's universe, read once and never
   * refreshed; `disabled` is the set of disabled full names (every tool is
   * enabled until disabled).
   */
  class ToolManagementService {
    const tools: seq<ToolDef>
    var disabled: set<string>

    /** Only names of provider tools are ever disabled. */
    ghost predicate Valid()
      reads this
    {
      disabled <= Names(tools)
    }

    constructor (tools: seq<ToolDef>)
      ensures Valid()
      ensures this.tools == tools && disabled == {}
    {
      this.tools := tools;
      disabled := {};
    }

    /**
     * `getAllToolsStatus`: one row per provider tool in provider order, with
     * its name and description, enabled exactly when its name is not disabled.
     */
    function GetAllToolsStatus(): (r: seq<ToolStatus>)
      reads this
      ensures |r| == |tools|
      ensures forall i :: 0 <= i < |tools| ==>
        r[i] == ToolStatus(tools[i].name, tools[i].description, tools[i].name !in disabled)
    {
      StatusList(tools, disabled)
    }

    /**
     * `getEnabledToolCallbacks`: the provider sequence filtered to the tools
     * whose names are not disabled, every such entry kept, in provider order.
     */
    function GetEnabledToolCallbacks(): (r: seq<ToolDef>)
      reads this
      ensures SubsequenceOf(r, tools)
      ensures forall t :: multiset(r)[t] == if t.name in disabled then 0 else multiset(tools)[t]
      ensures Names(r) == Names(tools) - disabled
    {
      EnabledListKeepsOrder(tools, disabled);
      EnabledNamesAreComplement(tools, disabled);
      EnabledList(tools, disabled)
    }

    /** `findToolFullName`: a scan in provider order that stops at the first match. */
    method FindToolFullName(query: string) returns (r: Option<string>)
      ensures r == Resolve(tools, query)
    {
      for i := 0 to |tools|
        invariant forall j :: 0 <= j < i ==> !Matches(tools[j].name, query)
      {
        if Matches(tools[i].name, query) {
          return Some(tools[i].name);
        }
      }
      return None;
    }

    /** `enableTool`: true exactly when the name resolves; removes the resolved name. */
    method EnableTool(query: string) returns (ok: bool)
      requires Valid()
      modifies this
      ensures Valid()
      ensures ok <==> Resolve(tools, query).Some?
      ensures disabled == AfterEnable(tools, old(disabled), query)
    {
      var fullName := FindToolFullName(query);
      if fullName.Some? {
        disabled := disabled - {fullName.value};
        return true;
      }
      return false;
    }

    /** `disableTool`: true exactly when the name resolves; inserts the resolved name. */
    method DisableTool(query: string) returns (ok: bool)
      requires Valid()
      modifies this
      ensures Valid()
      ensures ok <==> Resolve(tools, query).Some?
      ensures disabled == AfterDisable(tools, old(disabled), query)
    {
      var fullName := FindToolFullName(query);
      if fullName.Some? {
        disabled := disabled + {fullName.value};
        return true;
      }
      return false;
    }
  }
}
