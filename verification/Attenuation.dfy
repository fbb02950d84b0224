/** Child definitions: authority only narrows along a chain of spawns, and so do
    the operations it is mapped to. */
module Attenuation {
  import opened Transcript

  // ----- Definitions

  datatype Tool = Tool(name: string, description: string, inputSchema: string, outputSchema: string, timeoutMillis: int)

  datatype ModelDefaults = ModelDefaults(model: string, provider: string, effort: string)

  /** What a child takes over from its parent unchanged. */
  datatype Settings = Settings(compaction: string, mcpServers: Option<seq<string>>, surface: string, hooks: string)

  /** `output` is None when no schema is set. */
  datatype Definition = Definition(
    id: string,
    instructions: string,
    modules: seq<string>,
    capabilities: seq<string>,
    tools: seq<Tool>,
    model: ModelDefaults,
    output: Option<string>,
    children: map<string, Child>,
    settings: Settings)

  /** A named child. None inherits. */
  datatype Child = Child(
    instructions: Option<string>,
    modules: Option<seq<string>>,
    capabilities: Option<seq<string>>,
    tools: Option<seq<string>>,
    model: ModelDefaults,
    output: Option<string>)

  datatype ChildOverrides = ChildOverrides(
    modules: Option<seq<string>>,
    capabilities: Option<seq<string>>,
    tools: Option<seq<string>>,
    model: ModelDefaults)

  /** Denied: the parent lacks this module, capability or tool, or has no child of
      this name. */
  datatype Result<T> = Ok(value: T) | Denied(kind: string, name: string) {
    predicate IsFailure() { Denied? }
    function PropagateFailure<U>(): Result<U>
      requires Denied?
    {
      Denied(kind, name)
    }
    function Extract(): T
      requires Ok?
    {
      value
    }
  }

  // ----- Narrowing

  /** The first of each name, in order. */
  function Deduplicated(names: seq<string>): (r: seq<string>)
    ensures forall x :: x in r <==> x in names
  {
    if names == [] then []
    else
      var earlier, last := Deduplicated(names[..|names| - 1]), names[|names| - 1];
      if last in earlier then earlier else earlier + [last]
  }

  /** The first requested name that is not inherited. */
  function FirstMissing(inherited: seq<string>, requested: seq<string>): (r: Option<string>)
    ensures r.None? <==> forall x :: x in requested ==> x in inherited
    ensures r.Some? ==> r.value in requested && r.value !in inherited
  {
    if requested == [] then None
    else if requested[0] !in inherited then Some(requested[0])
    else FirstMissing(inherited, requested[1..])
  }

  function Narrowed(kind: string, inherited: seq<string>, requested: Option<seq<string>>): Result<seq<string>> {
    match requested
    case None => Ok(inherited)
    case Some(names) =>
      match FirstMissing(inherited, names)
      case Some(name) => Denied(kind, name)
      case None => Ok(Deduplicated(names))
  }

  function ToolNames(tools: seq<Tool>): (r: seq<string>)
    ensures |r| == |tools| && forall i :: 0 <= i < |tools| ==> r[i] == tools[i].name
  {
    seq(|tools|, i requires 0 <= i < |tools| => tools[i].name)
  }

  function Selected(tools: seq<Tool>, names: seq<string>): (r: seq<Tool>)
    ensures forall t :: t in r <==> t in tools && t.name in names
  {
    if tools == [] then []
    else
      var earlier, last := Selected(tools[..|tools| - 1], names), tools[|tools| - 1];
      if last.name in names then earlier + [last] else earlier
  }

  function NarrowedTools(inherited: seq<Tool>, requested: Option<seq<string>>): Result<seq<Tool>> {
    match requested
    case None => Ok(inherited)
    case Some(names) =>
      match FirstMissing(ToolNames(inherited), names)
      case Some(name) => Denied("tool", name)
      case None => Ok(Selected(inherited, names))
  }

  /** A narrowing grants exactly the names asked for, each once, or fails; it fails
      if and only if something asked for is not inherited. */
  lemma NarrowingIsExact(kind: string, inherited: seq<string>, requested: seq<string>)
    ensures var r := Narrowed(kind, inherited, Some(requested));
            && (r.Ok? <==> forall x :: x in requested ==> x in inherited)
            && (r.Ok? ==> (forall x :: x in r.value <==> x in requested) && NoRepeats(r.value))
            && (r.Denied? ==> r.name in requested && r.name !in inherited)
  {
    DeduplicatedIsDistinct(requested);
  }

  /** The name in a refusal is the first one asked for that is missing. */
  lemma {:induction false} FirstMissingIsFirst(inherited: seq<string>, requested: seq<string>)
    requires FirstMissing(inherited, requested).Some?
    ensures exists i :: 0 <= i < |requested| && requested[i] == FirstMissing(inherited, requested).value
              && requested[i] !in inherited && forall j :: 0 <= j < i ==> requested[j] in inherited
  {
    if requested[0] in inherited {
      FirstMissingIsFirst(inherited, requested[1..]);
      var i :| 0 <= i < |requested[1..]| && requested[1..][i] == FirstMissing(inherited, requested[1..]).value
               && requested[1..][i] !in inherited && forall j :: 0 <= j < i ==> requested[1..][j] in inherited;
      assert requested[i + 1] == requested[1..][i];
      forall j | 0 <= j < i + 1 ensures requested[j] in inherited {
        assert j > 0 ==> requested[j] == requested[1..][j - 1];
      }
    } else {
      assert requested[0] == FirstMissing(inherited, requested).value;
    }
  }

  /** The order follows the request: names already distinct stay as they are, and more
      requests never move what is granted. */
  lemma {:induction false} DeduplicatedKeepsOrder(names: seq<string>, more: seq<string>)
    ensures NoRepeats(names) ==> Deduplicated(names) == names
    ensures Deduplicated(names) <= Deduplicated(names + more)
    decreases |names| + |more|
  {
    if more != [] {
      assert (names + more)[..|names + more| - 1] == names + more[..|more| - 1];
      DeduplicatedKeepsOrder(names, more[..|more| - 1]);
    } else {
      assert names + more == names;
      if names != [] {
        DeduplicatedKeepsOrder(names[..|names| - 1], []);
      }
    }
  }

  /** Tools keep the order they are declared in. */
  lemma {:induction false} SelectedKeepsOrder(a: seq<Tool>, b: seq<Tool>, names: seq<string>)
    ensures Selected(a + b, names) == Selected(a, names) + Selected(b, names)
    decreases |b|
  {
    if b == [] {
      assert a + b == a;
    } else {
      assert (a + b)[..|a + b| - 1] == a + b[..|b| - 1];
      SelectedKeepsOrder(a, b[..|b| - 1], names);
    }
  }

  lemma {:induction false} DeduplicatedIsDistinct(names: seq<string>)
    ensures NoRepeats(Deduplicated(names))
  {
    if names != [] {
      DeduplicatedIsDistinct(names[..|names| - 1]);
    }
  }

  // ----- Child

  function Either(base: string, override: string): string {
    if override != "" then override else base
  }

  function Merge(base: ModelDefaults, override: ModelDefaults): ModelDefaults {
    ModelDefaults(Either(base.model, override.model), Either(base.provider, override.provider), Either(base.effort, override.effort))
  }

  function WithNamed(d: Definition, name: string): Result<Definition> {
    if name == "" then Ok(d.(children := map[]))
    else if name !in d.children then Denied("child", name)
    else
      var named := d.children[name];
      var modules :- Narrowed("module", d.modules, named.modules);
      var capabilities :- Narrowed("capability", d.capabilities, named.capabilities);
      var tools :- NarrowedTools(d.tools, named.tools);
      Ok(d.(
        id := d.id + "/" + name,
        instructions := if named.instructions.Some? then named.instructions.value else d.instructions,
        modules := modules,
        capabilities := capabilities,
        tools := tools,
        model := Merge(d.model, named.model),
        output := if named.output.Some? then named.output else d.output,
        children := map[]))
  }

  /** What a spawn makes of a definition: first the named child narrows it, then the overrides. */
  function ChildOf(d: Definition, name: string, overrides: ChildOverrides): Result<Definition> {
    var child :- WithNamed(d, name);
    var modules :- Narrowed("module", child.modules, overrides.modules);
    var capabilities :- Narrowed("capability", child.capabilities, overrides.capabilities);
    var tools :- NarrowedTools(child.tools, overrides.tools);
    Ok(child.(modules := modules, capabilities := capabilities, tools := tools, model := Merge(child.model, overrides.model)))
  }

  // ----- What a child is, request by request

  const INHERITS := Child(None, None, None, None, ModelDefaults("", "", ""), None)

  /** The named child a spawn refers to; no name refers to one that inherits all. */
  function Named(d: Definition, name: string): Option<Child> {
    if name == "" then Some(INHERITS) else if name in d.children then Some(d.children[name]) else None
  }

  /** The latest request in force; without any, what is inherited. */
  function InForce(inherited: seq<string>, named: Option<seq<string>>, override: Option<seq<string>>): seq<string> {
    if override.Some? then override.value else if named.Some? then named.value else inherited
  }

  ghost predicate Available(inherited: seq<string>, requested: Option<seq<string>>) {
    requested.Some? ==> Subset(requested.value, inherited)
  }

  ghost predicate AvailableTwice(inherited: seq<string>, named: Option<seq<string>>, override: Option<seq<string>>) {
    Available(inherited, named) && Available(InForce(inherited, named, None), override)
  }

  /** The last of these that is set. */
  function LastSet(values: seq<string>): string {
    if values == [] then "" else if values[|values| - 1] != "" then values[|values| - 1] else LastSet(values[..|values| - 1])
  }

  ghost predicate SameMembers(a: seq<string>, b: seq<string>) {
    forall x :: x in a <==> x in b
  }

  lemma NarrowedTwice(kind: string, inherited: seq<string>, named: Option<seq<string>>, override: Option<seq<string>>)
    ensures Narrowed(kind, inherited, named).Ok? <==> Available(inherited, named)
    ensures Available(inherited, named) ==>
              var once := Narrowed(kind, inherited, named).value;
              && SameMembers(once, InForce(inherited, named, None))
              && (Narrowed(kind, once, override).Ok? <==> Available(InForce(inherited, named, None), override))
              && (Narrowed(kind, once, override).Ok? ==>
                    SameMembers(Narrowed(kind, once, override).value, InForce(inherited, named, override)))
  {
  }

  /** Exactly the declared tools with these names. */
  ghost predicate ToolsNamed(tools: seq<Tool>, declared: seq<Tool>, names: seq<string>) {
    forall t :: t in tools <==> t in declared && t.name in names
  }

  lemma NamesOfTools(tools: seq<Tool>)
    ensures forall n :: n in ToolNames(tools) <==> exists t :: t in tools && t.name == n
  {
    forall n | n in ToolNames(tools) ensures exists t :: t in tools && t.name == n {
      var i :| 0 <= i < |tools| && ToolNames(tools)[i] == n;
      assert tools[i] in tools;
    }
    forall t | t in tools ensures t.name in ToolNames(tools) {
      var i :| 0 <= i < |tools| && tools[i] == t;
      assert ToolNames(tools)[i] == t.name;
    }
  }

  lemma NarrowedToolsTwice(inherited: seq<Tool>, named: Option<seq<string>>, override: Option<seq<string>>)
    ensures var names := ToolNames(inherited);
            && (NarrowedTools(inherited, named).Ok? <==> Available(names, named))
            && (Available(names, named) ==>
                  var once := NarrowedTools(inherited, named).value;
                  && (NarrowedTools(once, override).Ok? <==> Available(InForce(names, named, None), override))
                  && (NarrowedTools(once, override).Ok? ==>
                        ToolsNamed(NarrowedTools(once, override).value, inherited, InForce(names, named, override))))
  {
    hide ToolNames, Selected;
    NamesOfTools(inherited);
    if Available(ToolNames(inherited), named) {
      var once := NarrowedTools(inherited, named).value;
      NamesOfTools(once);
      assert SameMembers(ToolNames(once), InForce(ToolNames(inherited), named, None));
    }
  }

  /** A spawn succeeds if and only if its name is declared and everything asked for,
      by the named child and then by the overrides, is available at that point; the
      child then holds exactly the latest request of each kind, and each model
      default from the last place that sets it. */
  lemma ChildIsExact(d: Definition, name: string, overrides: ChildOverrides)
    ensures ChildOf(d, name, overrides).Ok? <==>
            && Named(d, name).Some?
            && var named := Named(d, name).value;
               && AvailableTwice(d.modules, named.modules, overrides.modules)
               && AvailableTwice(d.capabilities, named.capabilities, overrides.capabilities)
               && AvailableTwice(ToolNames(d.tools), named.tools, overrides.tools)
    ensures ChildOf(d, name, overrides).Ok? ==>
              var child, named := ChildOf(d, name, overrides).value, Named(d, name).value;
              && SameMembers(child.modules, InForce(d.modules, named.modules, overrides.modules))
              && SameMembers(child.capabilities, InForce(d.capabilities, named.capabilities, overrides.capabilities))
              && ToolsNamed(child.tools, d.tools, InForce(ToolNames(d.tools), named.tools, overrides.tools))
              && child.model.model == LastSet([d.model.model, named.model.model, overrides.model.model])
              && child.model.provider == LastSet([d.model.provider, named.model.provider, overrides.model.provider])
              && child.model.effort == LastSet([d.model.effort, named.model.effort, overrides.model.effort])
              && child.id == (if name == "" then d.id else d.id + "/" + name)
              && child.instructions == (if named.instructions.Some? then named.instructions.value else d.instructions)
              && child.output == (if named.output.Some? then named.output else d.output)
  {
    hide Narrowed, NarrowedTools, Available, InForce, SameMembers, ToolsNamed, ToolNames, LastSet;
    if Named(d, name).Some? {
      var named := Named(d, name).value;
      NothingNarrowed(d);
      NarrowedTwice("module", d.modules, named.modules, overrides.modules);
      NarrowedTwice("capability", d.capabilities, named.capabilities, overrides.capabilities);
      NarrowedToolsTwice(d.tools, named.tools, overrides.tools);
      MergedTwice(d.model, named.model, overrides.model);
    }
  }

  lemma NothingNarrowed(d: Definition)
    ensures Narrowed("module", d.modules, None) == Ok(d.modules)
    ensures Narrowed("capability", d.capabilities, None) == Ok(d.capabilities)
    ensures NarrowedTools(d.tools, None) == Ok(d.tools)
  {
  }

  lemma MergedTwice(a: ModelDefaults, b: ModelDefaults, c: ModelDefaults)
    ensures var m := Merge(Merge(a, b), c);
            && m.model == LastSet([a.model, b.model, c.model])
            && m.provider == LastSet([a.provider, b.provider, c.provider])
            && m.effort == LastSet([a.effort, b.effort, c.effort])
    ensures Merge(a, ModelDefaults("", "", "")) == a
  {
    LastOfThree(a.model, b.model, c.model);
    LastOfThree(a.provider, b.provider, c.provider);
    LastOfThree(a.effort, b.effort, c.effort);
  }

  lemma LastOfThree(a: string, b: string, c: string)
    ensures LastSet([a, b, c]) == if c != "" then c else if b != "" then b else a
  {
    assert [a][..0] == [] && [a, b][..1] == [a] && [a, b, c][..2] == [a, b];
    assert LastSet([a]) == a;
    assert LastSet([a, b]) == if b != "" then b else a;
  }

  // ----- Operations

  const FILE_OPERATIONS := ["read", "write", "edit", "workspace.write"]
  const SHELL_OPERATIONS := [
    "bash", "shell_start", "browser_exec", "computer_exec", "workspace_process",
    "browser.list_tabs", "browser.open", "browser.attach", "browser.run", "browser.detach", "browser.allow_preview_port"]

  function FileGrant(capability: string): seq<string> {
    if capability == "read" then ["read"]
    else if capability == "write" then ["read", "write", "edit", "workspace.write"]
    else []
  }

  function ShellGrant(capability: string): seq<string> {
    if capability == "shell" then ["bash", "shell_start", "workspace_process"]
    else if capability == "browser" then
      ["browser_exec", "browser.list_tabs", "browser.open", "browser.attach", "browser.run", "browser.detach", "browser.allow_preview_port"]
    else if capability == "computer" then ["computer_exec"]
    else []
  }

  /** `canonical` without what nobody requested. */
  function InOrder(canonical: seq<string>, requested: seq<string>): (r: seq<string>)
    ensures forall x :: x in r <==> x in canonical && x in requested
  {
    if canonical == [] then []
    else
      var earlier, last := InOrder(canonical[..|canonical| - 1], requested), canonical[|canonical| - 1];
      if last in requested then earlier + [last] else earlier
  }

  /** Everything the capabilities ask for, in their order. */
  function Wanted(grant: string -> seq<string>, capabilities: seq<string>): (r: seq<string>)
    ensures forall x :: x in r <==> exists c :: c in capabilities && x in grant(c)
  {
    if capabilities == [] then []
    else
      var earlier, last := Wanted(grant, capabilities[..|capabilities| - 1]), capabilities[|capabilities| - 1];
      assert forall c :: c in capabilities <==> c == last || c in capabilities[..|capabilities| - 1];
      earlier + grant(last)
  }

  function FilesOf(capabilities: seq<string>): seq<string> {
    InOrder(FILE_OPERATIONS, Wanted(FileGrant, capabilities))
  }

  function ShellOf(capabilities: seq<string>): seq<string> {
    InOrder(SHELL_OPERATIONS, Wanted(ShellGrant, capabilities))
  }

  predicate McpOf(capabilities: seq<string>) {
    "mcp" in capabilities
  }

  const TOOLS_PREFIX := "tools."

  function ToolOperationsOf(names: seq<string>): (r: seq<string>)
    ensures forall x :: x in r <==> exists n :: n in names && x == TOOLS_PREFIX + n
  {
    if names == [] then []
    else
      var earlier, last := ToolOperationsOf(names[..|names| - 1]), names[|names| - 1];
      assert forall n :: n in names <==> n == last || n in names[..|names| - 1];
      if TOOLS_PREFIX + last in earlier then earlier else earlier + [TOOLS_PREFIX + last]
  }

  /** `a` is what is left of `b` after leaving some elements out. */
  ghost predicate IsSubsequence(a: seq<string>, b: seq<string>)
    decreases |b|
  {
    a == [] ||
    (b != [] && (if a[|a| - 1] == b[|b| - 1] then IsSubsequence(a[..|a| - 1], b[..|b| - 1]) else IsSubsequence(a, b[..|b| - 1])))
  }

  ghost predicate NoRepeats(names: seq<string>) {
    forall i, j :: 0 <= i < j < |names| ==> names[i] != names[j]
  }

  lemma {:induction false} InOrderIsSubsequence(canonical: seq<string>, requested: seq<string>)
    requires NoRepeats(canonical)
    ensures IsSubsequence(InOrder(canonical, requested), canonical)
    ensures NoRepeats(InOrder(canonical, requested))
  {
    if canonical != [] {
      var front, last := canonical[..|canonical| - 1], canonical[|canonical| - 1];
      InOrderIsSubsequence(front, requested);
      var earlier := InOrder(front, requested);
      assert last !in front && last !in earlier;
      if last in requested {
        assert (earlier + [last])[..|earlier|] == earlier;
      } else if earlier != [] {
        assert earlier[|earlier| - 1] in earlier;
      }
    }
  }

  lemma {:induction false} InOrderDependsOnMembers(canonical: seq<string>, a: seq<string>, b: seq<string>)
    requires forall x :: x in a <==> x in b
    ensures InOrder(canonical, a) == InOrder(canonical, b)
  {
    if canonical != [] {
      InOrderDependsOnMembers(canonical[..|canonical| - 1], a, b);
    }
  }

  /** Operation lists are duplicate-free and in canonical order, and depend only on
      which capabilities are held, not on how they are listed. */
  lemma OperationsAreCanonical(a: seq<string>, b: seq<string>)
    requires forall c :: c in a <==> c in b
    ensures FilesOf(a) == FilesOf(b) && ShellOf(a) == ShellOf(b) && McpOf(a) == McpOf(b)
    ensures IsSubsequence(FilesOf(a), FILE_OPERATIONS) && IsSubsequence(ShellOf(a), SHELL_OPERATIONS)
    ensures NoRepeats(FilesOf(a)) && NoRepeats(ShellOf(a))
  {
    hide InOrder, IsSubsequence, Wanted;
    InOrderIsSubsequence(FILE_OPERATIONS, Wanted(FileGrant, a));
    InOrderIsSubsequence(SHELL_OPERATIONS, Wanted(ShellGrant, a));
    InOrderDependsOnMembers(FILE_OPERATIONS, Wanted(FileGrant, a), Wanted(FileGrant, b));
    InOrderDependsOnMembers(SHELL_OPERATIONS, Wanted(ShellGrant, a), Wanted(ShellGrant, b));
  }

  /** Which capability grants which operation, operation by operation. */
  ghost predicate GrantsFile(capabilities: seq<string>, op: string) {
    || (op == "read" && ("read" in capabilities || "write" in capabilities))
    || (op in ["write", "edit", "workspace.write"] && "write" in capabilities)
  }

  ghost predicate GrantsShell(capabilities: seq<string>, op: string) {
    || (op in ["bash", "shell_start", "workspace_process"] && "shell" in capabilities)
    || (op in ["browser_exec", "browser.list_tabs", "browser.open", "browser.attach", "browser.run", "browser.detach",
               "browser.allow_preview_port"] && "browser" in capabilities)
    || (op == "computer_exec" && "computer" in capabilities)
  }

  lemma FilesAreGranted(capabilities: seq<string>, op: string)
    ensures op in FilesOf(capabilities) <==> GrantsFile(capabilities, op)
  {
    hide InOrder, Wanted;
    assert op in FileGrant("read") <==> op == "read";
    assert op in FileGrant("write") <==> op in ["read", "write", "edit", "workspace.write"];
    assert op in FILE_OPERATIONS <==> op in ["read", "write", "edit", "workspace.write"];
  }

  lemma ShellIsGranted(capabilities: seq<string>, op: string)
    ensures op in ShellOf(capabilities) <==> GrantsShell(capabilities, op)
  {
    hide InOrder, Wanted;
    assert op in ShellGrant("shell") <==> op in ["bash", "shell_start", "workspace_process"];
    assert op in ShellGrant("browser") <==> op in ["browser_exec", "browser.list_tabs", "browser.open", "browser.attach",
                                                   "browser.run", "browser.detach", "browser.allow_preview_port"];
    assert op in ShellGrant("computer") <==> op == "computer_exec";
    assert forall c :: c != "shell" && c != "browser" && c != "computer" ==> ShellGrant(c) == [];
    assert GrantsShell(["shell", "browser", "computer"], op) ==> op in SHELL_OPERATIONS;
  }

  /** Whoever holds every capability holds every operation, in this order. */
  lemma EveryOperationInOrder(capabilities: seq<string>)
    requires "write" in capabilities && "shell" in capabilities && "browser" in capabilities && "computer" in capabilities
    ensures FilesOf(capabilities) == ["read", "write", "edit", "workspace.write"]
    ensures ShellOf(capabilities) ==
            ["bash", "shell_start", "browser_exec", "computer_exec", "workspace_process", "browser.list_tabs", "browser.open",
             "browser.attach", "browser.run", "browser.detach", "browser.allow_preview_port"]
  {
    hide Wanted;
    forall op | op in FILE_OPERATIONS ensures op in Wanted(FileGrant, capabilities) {
      assert op in FileGrant("write");
    }
    forall op | op in SHELL_OPERATIONS ensures op in Wanted(ShellGrant, capabilities) {
      assert op in ShellGrant("shell") || op in ShellGrant("browser") || op in ShellGrant("computer");
    }
    AllInOrder(FILE_OPERATIONS, Wanted(FileGrant, capabilities));
    AllInOrder(SHELL_OPERATIONS, Wanted(ShellGrant, capabilities));
  }

  lemma {:induction false} AllInOrder(canonical: seq<string>, requested: seq<string>)
    requires forall x :: x in canonical ==> x in requested
    ensures InOrder(canonical, requested) == canonical
  {
    if canonical != [] {
      AllInOrder(canonical[..|canonical| - 1], requested);
    }
  }

  /** Tool names without repeats map to their operations one by one. */
  lemma {:induction false} ToolOperationsInOrder(names: seq<string>)
    requires NoRepeats(names)
    ensures |ToolOperationsOf(names)| == |names|
    ensures forall i :: 0 <= i < |names| ==> ToolOperationsOf(names)[i] == "tools." + names[i]
  {
    if names != [] {
      var front, last := names[..|names| - 1], names[|names| - 1];
      ToolOperationsInOrder(front);
      forall n | n in front ensures TOOLS_PREFIX + n != TOOLS_PREFIX + last {
        assert (TOOLS_PREFIX + n)[|TOOLS_PREFIX|..] == n && (TOOLS_PREFIX + last)[|TOOLS_PREFIX|..] == last;
      }
    }
  }

  // ----- Attenuation

  ghost predicate Subset<T>(a: seq<T>, b: seq<T>) {
    forall x :: x in a ==> x in b
  }

  /** Everything `d` may do, `a` may do: named authority and the operations it maps to. */
  ghost predicate Within(d: Definition, a: Definition) {
    && Subset(d.modules, a.modules)
    && Subset(d.capabilities, a.capabilities)
    && Subset(d.tools, a.tools)
    && Subset(FilesOf(d.capabilities), FilesOf(a.capabilities))
    && Subset(ShellOf(d.capabilities), ShellOf(a.capabilities))
    && (McpOf(d.capabilities) ==> McpOf(a.capabilities))
    && Subset(ToolOperationsOf(ToolNames(d.tools)), ToolOperationsOf(ToolNames(a.tools)))
    && d.settings == a.settings
  }

  lemma OperationsFollow(a: seq<string>, b: seq<string>)
    requires Subset(a, b)
    ensures Subset(FilesOf(a), FilesOf(b)) && Subset(ShellOf(a), ShellOf(b)) && (McpOf(a) ==> McpOf(b))
  {
    hide InOrder, Wanted;
  }

  lemma ToolOperationsFollow(a: seq<Tool>, b: seq<Tool>)
    requires Subset(a, b)
    ensures Subset(ToolOperationsOf(ToolNames(a)), ToolOperationsOf(ToolNames(b)))
  {
    hide ToolOperationsOf;
    var opsA, opsB := ToolOperationsOf(ToolNames(a)), ToolOperationsOf(ToolNames(b));
    forall x | x in opsA ensures x in opsB {
      var n :| n in ToolNames(a) && x == TOOLS_PREFIX + n;
      var i :| 0 <= i < |a| && a[i].name == n;
      assert a[i] in b;
      var j :| 0 <= j < |b| && b[j] == a[i];
      assert ToolNames(b)[j] == n;
    }
  }

  lemma NarrowedIsSubset(kind: string, inherited: seq<string>, requested: Option<seq<string>>)
    ensures var r := Narrowed(kind, inherited, requested); r.Ok? ==> Subset(r.value, inherited)
  {
  }

  lemma NarrowedToolsAreSubset(inherited: seq<Tool>, requested: Option<seq<string>>)
    ensures var r := NarrowedTools(inherited, requested); r.Ok? ==> Subset(r.value, inherited)
  {
  }

  lemma NamedIsSubset(d: Definition, name: string)
    ensures WithNamed(d, name).Ok? ==>
              var c := WithNamed(d, name).value;
              Subset(c.modules, d.modules) && Subset(c.capabilities, d.capabilities) && Subset(c.tools, d.tools) && c.settings == d.settings
              && c.children == map[]
  {
    hide Narrowed, NarrowedTools;
    if name in d.children {
      var named := d.children[name];
      NarrowedIsSubset("module", d.modules, named.modules);
      NarrowedIsSubset("capability", d.capabilities, named.capabilities);
      NarrowedToolsAreSubset(d.tools, named.tools);
    }
  }

  /** One spawn: the child stays within its parent and declares no children of its own. */
  lemma ChildIsWithin(d: Definition, name: string, overrides: ChildOverrides)
    ensures ChildOf(d, name, overrides).Ok? ==>
              Within(ChildOf(d, name, overrides).value, d) && ChildOf(d, name, overrides).value.children == map[]
  {
    hide Narrowed, NarrowedTools, WithNamed, FilesOf, ShellOf, McpOf, ToolOperationsOf, ToolNames;
    NamedIsSubset(d, name);
    if WithNamed(d, name).Ok? {
      var c := WithNamed(d, name).value;
      NarrowedIsSubset("module", c.modules, overrides.modules);
      NarrowedIsSubset("capability", c.capabilities, overrides.capabilities);
      NarrowedToolsAreSubset(c.tools, overrides.tools);
      var r := ChildOf(d, name, overrides);
      if r.Ok? {
        OperationsFollow(r.value.capabilities, d.capabilities);
        ToolOperationsFollow(r.value.tools, d.tools);
      }
    }
  }

  ghost predicate Spawns(parent: Definition, child: Definition) {
    exists name, overrides :: ChildOf(parent, name, overrides) == Ok(child)
  }

  ghost predicate IsChain(defs: seq<Definition>) {
    forall i :: 0 <= i < |defs| - 1 ==> Spawns(defs[i], defs[i + 1])
  }

  lemma WithinTwice(a: Definition, b: Definition, c: Definition)
    requires Within(a, b) && Within(b, c)
    ensures Within(a, c)
  {
    hide FilesOf, ShellOf, McpOf, ToolOperationsOf, ToolNames;
  }

  /** Along any chain of spawns, of any depth, every descendant stays within every
      ancestor. */
  lemma {:induction false} ChainAttenuates(defs: seq<Definition>, i: nat, j: nat)
    requires IsChain(defs) && i <= j < |defs|
    ensures Within(defs[j], defs[i])
    decreases j - i
  {
    hide Within;
    if i == j {
      WithinItself(defs[i]);
    } else {
      ChainAttenuates(defs, i, j - 1);
      assert Spawns(defs[j - 1], defs[j - 1 + 1]);
      var name, overrides :| ChildOf(defs[j - 1], name, overrides) == Ok(defs[j]);
      ChildIsWithin(defs[j - 1], name, overrides);
      WithinTwice(defs[j], defs[j - 1], defs[i]);
    }
  }

  lemma WithinItself(d: Definition)
    ensures Within(d, d)
  {
  }

  /** Only the first definition of a chain can be asked for a named child: a child
      has no children. */
  lemma NamedOnlyOnce(parent: Definition, child: Definition, name: string, overrides: ChildOverrides)
    requires Spawns(parent, child) && name != ""
    ensures ChildOf(child, name, overrides) == Denied("child", name)
  {
    var n, o :| ChildOf(parent, n, o) == Ok(child);
    ChildIsWithin(parent, n, o);
  }

  // ----- The loops

  method Narrow(kind: string, inherited: seq<string>, requested: Option<seq<string>>) returns (r: Result<seq<string>>)
    ensures r == Narrowed(kind, inherited, requested)
  {
    if requested.None? {
      return Ok(inherited);
    }
    var names := requested.value;
    var result: seq<string> := [];
    for i := 0 to |names|
      invariant result == Deduplicated(names[..i])
      invariant FirstMissing(inherited, names) == FirstMissing(inherited, names[i..])
    {
      if names[i] !in inherited {
        return Denied(kind, names[i]);
      }
      assert names[..i + 1][..i] == names[..i];
      if names[i] !in result {
        result := result + [names[i]];
      }
    }
    assert names[..|names|] == names;
    return Ok(result);
  }

  method NarrowTools(inherited: seq<Tool>, requested: Option<seq<string>>) returns (r: Result<seq<Tool>>)
    ensures r == NarrowedTools(inherited, requested)
  {
    if requested.None? {
      return Ok(inherited);
    }
    var names := requested.value;
    var result: seq<Tool> := [];
    for i := 0 to |inherited|
      invariant result == Selected(inherited[..i], names)
    {
      assert inherited[..i + 1][..i] == inherited[..i];
      if inherited[i].name in names {
        result := result + [inherited[i]];
      }
    }
    assert inherited[..|inherited|] == inherited;
    var available := ToolNames(inherited);
    for i := 0 to |names|
      invariant FirstMissing(available, names) == FirstMissing(available, names[i..])
    {
      if names[i] !in available {
        return Denied("tool", names[i]);
      }
    }
    return Ok(result);
  }

  method Operations(capabilities: seq<string>) returns (files: seq<string>, shell: seq<string>, mcp: bool)
    ensures files == FilesOf(capabilities) && shell == ShellOf(capabilities) && mcp == McpOf(capabilities)
    ensures forall op :: op in files <==> GrantsFile(capabilities, op)
    ensures forall op :: op in shell <==> GrantsShell(capabilities, op)
    ensures mcp <==> "mcp" in capabilities
  {
    var wantFiles, wantShell: seq<string> := [], [];
    mcp := false;
    for i := 0 to |capabilities|
      invariant wantFiles == Wanted(FileGrant, capabilities[..i])
      invariant wantShell == Wanted(ShellGrant, capabilities[..i])
      invariant mcp == ("mcp" in capabilities[..i])
    {
      assert capabilities[..i + 1][..i] == capabilities[..i];
      var name := capabilities[i];
      wantFiles := wantFiles + FileGrant(name);
      wantShell := wantShell + ShellGrant(name);
      if name == "mcp" {
        mcp := true;
      }
    }
    assert capabilities[..|capabilities|] == capabilities;
    files := Ordered(FILE_OPERATIONS, wantFiles);
    shell := Ordered(SHELL_OPERATIONS, wantShell);
    forall op ensures op in files <==> GrantsFile(capabilities, op) { FilesAreGranted(capabilities, op); }
    forall op ensures op in shell <==> GrantsShell(capabilities, op) { ShellIsGranted(capabilities, op); }
  }

  method Ordered(canonical: seq<string>, requested: seq<string>) returns (result: seq<string>)
    ensures result == InOrder(canonical, requested)
  {
    result := [];
    for i := 0 to |canonical|
      invariant result == InOrder(canonical[..i], requested)
    {
      assert canonical[..i + 1][..i] == canonical[..i];
      if canonical[i] in requested {
        result := result + [canonical[i]];
      }
    }
    assert canonical[..|canonical|] == canonical;
  }

  method ToolOperations(names: seq<string>) returns (result: seq<string>)
    ensures result == ToolOperationsOf(names)
    ensures forall x :: x in result <==> exists n :: n in names && x == "tools." + n
  {
    result := [];
    for i := 0 to |names|
      invariant result == ToolOperationsOf(names[..i])
    {
      assert names[..i + 1][..i] == names[..i];
      if TOOLS_PREFIX + names[i] !in result {
        result := result + [TOOLS_PREFIX + names[i]];
      }
    }
    assert names[..|names|] == names;
  }
}
