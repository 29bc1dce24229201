/**
 * The ImageJ2 gateway: the one shared ImageJ context, the discovery of the ImageJ modules
 * that can be run from the host, and the index of those modules by delegate class name.
 *
 * Java classes are opaque tags; `isAssignableFrom` is an abstract relation given by the
 * runtime; the adapter provider and the object catalogue are finite data.
 */
module ImageJ2Gateway {
  import opened Wrappers

  /** A Java class, known only by its fully qualified name. */
  datatype ClassTag = ClassTag(name: string)

  /**
   * The class hierarchy as far as the gateway needs it: `(c, t)` in `subtypes` means that
   * `c.isAssignableFrom(t)` holds for two distinct classes.
   */
  datatype TypeHierarchy = TypeHierarchy(subtypes: set<(ClassTag, ClassTag)>)

  /** `c.isAssignableFrom(t)`: reflexive, and otherwise as the hierarchy says. */
  predicate AssignableFrom(h: TypeHierarchy, c: ClassTag, t: ClassTag)
  {
    c == t || (c, t) in h.subtypes
  }

  /** What the adapter provider knows: the service types, input types and output types it can adapt. */
  datatype AdapterProvider = AdapterProvider(
    knownServiceTypes: seq<ClassTag>,
    knownInputTypes: set<ClassTag>,
    knownOutputTypes: set<ClassTag>)

  /** How loading a module's delegate class turns out. */
  datatype DelegateClass =
    | Loaded(isDynamicCommand: bool)  // the class loaded; does it extend DynamicCommand?
    | LoadFailed                      // loading threw an InstantiableException

  /**
   * What discovery needs to know of one ImageJ module: its delegate class name, whether it can
   * run headless, how its delegate class loads, the types of its inputs and outputs in order,
   * and whether inspecting its inputs or outputs throws.
   */
  datatype ModuleInfo = ModuleInfo(
    delegateClassName: string,
    canRunHeadless: bool,
    delegateClass: DelegateClass,
    inputs: seq<ClassTag>,
    outputs: seq<ClassTag>,
    inspectionThrows: bool)

  /**
   * The part of the ImageJ runtime that discovery queries: the class hierarchy, the adapter
   * provider, the number of objects of each type in the object service, and the modules the
   * module service reports, in its order.
   */
  datatype Runtime = Runtime(
    hierarchy: TypeHierarchy,
    adapters: AdapterProvider,
    objectCounts: map<ClassTag, nat>,
    modules: seq<ModuleInfo>)

  // ---------------------------------------------------------------------------------------
  // Constants

  /** Types that the ImageJ parameter dialog can render. */
  const DialogTypes: seq<ClassTag> := [
    ClassTag("java.lang.Number"), ClassTag("byte"), ClassTag("double"), ClassTag("float"),
    ClassTag("int"), ClassTag("long"), ClassTag("short"), ClassTag("java.lang.String"),
    ClassTag("java.lang.Character"), ClassTag("char"), ClassTag("java.lang.Boolean"),
    ClassTag("boolean"), ClassTag("java.io.File"), ClassTag("imagej.util.ColorRGB")]

  /** Services needed to run a module headless. */
  const HeadlessServices: seq<ClassTag> := [
    ClassTag("imagej.module.ModuleService"), ClassTag("org.scijava.plugin.PluginService"),
    ClassTag("imagej.widget.WidgetService"), ClassTag("imagej.data.autoscale.AutoscaleService"),
    ClassTag("org.scijava.app.AppService"), ClassTag("imagej.data.types.DataTypeService"),
    ClassTag("imagej.ui.UIService")]

  /** Services supported out of the box when not headless (ImgUtilityService appears twice). */
  const GuiServices: seq<ClassTag> := [
    ClassTag("imagej.ui.UIService"), ClassTag("imagej.menu.MenuService"),
    ClassTag("imagej.tool.ToolService"), ClassTag("org.scijava.event.EventService"),
    ClassTag("org.scijava.object.ObjectService"), ClassTag("org.scijava.plugin.SingletonService"),
    ClassTag("imagej.data.DatasetService"), ClassTag("io.scif.img.ImgUtilityService"),
    ClassTag("io.scif.img.ImgUtilityService"), ClassTag("io.scif.services.JAIIIOService")]

  // ---------------------------------------------------------------------------------------
  // Type support

  /** Some dialog type is assignable from `t`. */
  predicate IsDialogType(h: TypeHierarchy, t: ClassTag)
  {
    exists i :: 0 <= i < |DialogTypes| && AssignableFrom(h, DialogTypes[i], t)
  }

  /** Some GUI service type is assignable from `t`. */
  predicate IsGuiServiceType(h: TypeHierarchy, t: ClassTag)
  {
    exists i :: 0 <= i < |GuiServices| && AssignableFrom(h, GuiServices[i], t)
  }

  /** Number of objects of type `t` in the object service (none when the type is unknown). */
  function ObjectCount(rt: Runtime, t: ClassTag): nat
  {
    if t in rt.objectCounts then rt.objectCounts[t] else 0
  }

  /** The object service holds at least one object of type `t`, so `t` is offered as a choice. */
  predicate IsMultipleChoiceObject(rt: Runtime, t: ClassTag)
  {
    ObjectCount(rt, t) > 0
  }

  /** When the host can supply an input of type `t`: one of the five ways. */
  predicate SupportedInput(rt: Runtime, t: ClassTag)
  {
    || IsDialogType(rt.hierarchy, t)
    || IsGuiServiceType(rt.hierarchy, t)
    || t in rt.adapters.knownServiceTypes
    || t in rt.adapters.knownInputTypes
    || IsMultipleChoiceObject(rt, t)
  }

  /** An output of type `t` can be adapted: exact membership in the known output types. */
  predicate IsSupportedOutputType(rt: Runtime, t: ClassTag)
  {
    t in rt.adapters.knownOutputTypes
  }

  /** The delegate class could not be loaded or extends DynamicCommand. */
  predicate IsDynamicPlugin(m: ModuleInfo)
  {
    match m.delegateClass
    case LoadFailed => true
    case Loaded(isDynamicCommand) => isDynamicCommand
  }

  /** `isIJDialogInputType`: scans every dialog type, without stopping early. */
  method IsIJDialogInputType(h: TypeHierarchy, t: ClassTag) returns (ret: bool)
    ensures ret <==> IsDialogType(h, t)
  {
    ret := false;
    for i := 0 to |DialogTypes|
      invariant ret <==> exists j :: 0 <= j < i && AssignableFrom(h, DialogTypes[j], t)
    {
      if AssignableFrom(h, DialogTypes[i], t) {
        ret := true;
      }
    }
  }

  /** `isSupportedInputType`: the five tests in order, returning at the first that succeeds. */
  method IsSupportedInputType(rt: Runtime, t: ClassTag) returns (r: bool)
    ensures r <==> SupportedInput(rt, t)
    ensures t in rt.objectCounts && rt.objectCounts[t] > 0 ==> r
  {
    for i := 0 to |DialogTypes|
      invariant forall j :: 0 <= j < i ==> !AssignableFrom(rt.hierarchy, DialogTypes[j], t)
    {
      if AssignableFrom(rt.hierarchy, DialogTypes[i], t) {
        return true;
      }
    }
    for i := 0 to |GuiServices|
      invariant forall j :: 0 <= j < i ==> !AssignableFrom(rt.hierarchy, GuiServices[j], t)
    {
      if AssignableFrom(rt.hierarchy, GuiServices[i], t) {
        return true;
      }
    }
    if t in rt.adapters.knownServiceTypes {
      return true;
    }
    if t in rt.adapters.knownInputTypes {
      return true;
    }
    if IsMultipleChoiceObject(rt, t) {
      return true;
    }
    return false;
  }

  // ---------------------------------------------------------------------------------------
  // Module discovery

  predicate AllInputsSupported(rt: Runtime, types: seq<ClassTag>)
  {
    forall i :: 0 <= i < |types| ==> SupportedInput(rt, types[i])
  }

  predicate AllOutputsSupported(rt: Runtime, types: seq<ClassTag>)
  {
    forall i :: 0 <= i < |types| ==> IsSupportedOutputType(rt, types[i])
  }

  /** The acceptance test discovery applies to one candidate. */
  predicate Accepts(rt: Runtime, m: ModuleInfo)
  {
    && m.canRunHeadless
    && !IsDynamicPlugin(m)
    && !m.inspectionThrows
    && AllInputsSupported(rt, m.inputs)
    && AllOutputsSupported(rt, m.outputs)
    && (|m.inputs| > 0 || |m.outputs| > 0)
  }

  /** The accepted candidates, in their order. */
  function SupportedModules(rt: Runtime, ms: seq<ModuleInfo>): seq<ModuleInfo>
  {
    if ms == [] then []
    else
      var last := ms[|ms| - 1];
      SupportedModules(rt, ms[..|ms| - 1]) + (if Accepts(rt, last) then [last] else [])
  }

  /** `findSupportedModules`: the nested loops with their flags, early exits and the try/catch. */
  method FindSupportedModules(rt: Runtime, modules: seq<ModuleInfo>) returns (supported: seq<ModuleInfo>)
    ensures supported == SupportedModules(rt, modules)
  {
    supported := [];
    for k := 0 to |modules|
      invariant supported == SupportedModules(rt, modules[..k])
    {
      var info := modules[k];
      assert modules[..k + 1][..k] == modules[..k];
      if info.canRunHeadless {
        if !IsDynamicPlugin(info) {
          var hasInOrOutput := false;
          // The body of the `try`: a candidate whose inspection throws is caught and skipped.
          if !info.inspectionThrows {
            var inputsOK := true;
            var i := 0;
            while i < |info.inputs|
              invariant 0 <= i <= |info.inputs|
              invariant inputsOK
              invariant hasInOrOutput <==> i > 0
              invariant AllInputsSupported(rt, info.inputs[..i])
            {
              var ok := IsSupportedInputType(rt, info.inputs[i]);
              hasInOrOutput := true;
              if !ok {
                inputsOK := false;
                break;
              }
              i := i + 1;
            }
            assert inputsOK ==> info.inputs[..i] == info.inputs;
            if inputsOK {
              var outputsOK := true;
              var o := 0;
              while o < |info.outputs|
                invariant 0 <= o <= |info.outputs|
                invariant outputsOK
                invariant hasInOrOutput <==> (|info.inputs| > 0 || o > 0)
                invariant AllOutputsSupported(rt, info.outputs[..o])
              {
                hasInOrOutput := true;
                if !IsSupportedOutputType(rt, info.outputs[o]) {
                  outputsOK := false;
                  break;
                }
                o := o + 1;
              }
              assert outputsOK ==> info.outputs[..o] == info.outputs;
              if outputsOK && hasInOrOutput {
                supported := supported + [info];
              }
            }
          }
        }
      }
    }
    assert modules[..|modules|] == modules;
  }

  /** Every discovered module is a candidate that passes each of the tests. */
  lemma {:induction false} SupportedModulesSound(rt: Runtime, ms: seq<ModuleInfo>, m: ModuleInfo)
    requires m in SupportedModules(rt, ms)
    ensures m in ms
    ensures m.canRunHeadless
    ensures m.delegateClass.Loaded? && !m.delegateClass.isDynamicCommand
    ensures !m.inspectionThrows
    ensures forall i :: 0 <= i < |m.inputs| ==> SupportedInput(rt, m.inputs[i])
    ensures forall i :: 0 <= i < |m.outputs| ==> m.outputs[i] in rt.adapters.knownOutputTypes
    ensures |m.inputs| + |m.outputs| > 0
  {
    var init := ms[..|ms| - 1];
    if m in SupportedModules(rt, init) {
      SupportedModulesSound(rt, init, m);
    }
  }

  /** Every candidate that passes the tests is discovered. */
  lemma {:induction false} SupportedModulesComplete(rt: Runtime, ms: seq<ModuleInfo>, m: ModuleInfo)
    requires m in ms && Accepts(rt, m)
    ensures m in SupportedModules(rt, ms)
  {
    var init := ms[..|ms| - 1];
    if m != ms[|ms| - 1] {
      assert m in init;
      SupportedModulesComplete(rt, init, m);
    }
  }

  /** `a` is `b` with some elements removed, the rest in order. */
  predicate IsSubsequence<T(==)>(a: seq<T>, b: seq<T>)
    decreases |b|
  {
    if a == [] then true
    else if b == [] then false
    else
      || (a[|a| - 1] == b[|b| - 1] && IsSubsequence(a[..|a| - 1], b[..|b| - 1]))
      || IsSubsequence(a, b[..|b| - 1])
  }

  /** Discovery keeps the module service's order. */
  lemma {:induction false} SupportedModulesIsSubsequence(rt: Runtime, ms: seq<ModuleInfo>)
    ensures IsSubsequence(SupportedModules(rt, ms), ms)
  {
    if ms != [] {
      var init := ms[..|ms| - 1];
      var last := ms[|ms| - 1];
      SupportedModulesIsSubsequence(rt, init);
      var r := SupportedModules(rt, ms);
      if Accepts(rt, last) {
        assert r[..|r| - 1] == SupportedModules(rt, init);
      } else if r != [] {
        assert r == SupportedModules(rt, init);
      }
    }
  }

  /** Each candidate is judged on its own: discovery of a concatenation is the concatenation. */
  lemma {:induction false} SupportedModulesAppend(rt: Runtime, a: seq<ModuleInfo>, b: seq<ModuleInfo>)
    ensures SupportedModules(rt, a + b) == SupportedModules(rt, a) + SupportedModules(rt, b)
    decreases |b|
  {
    if b == [] {
      assert a + b == a;
    } else {
      var binit := b[..|b| - 1];
      assert (a + b)[..|a + b| - 1] == a + binit;
      assert (a + b)[|a + b| - 1] == b[|b| - 1];
      SupportedModulesAppend(rt, a, binit);
    }
  }

  /** A candidate that fails the acceptance test is dropped and changes nothing for the others. */
  lemma RejectedCandidateIsSkipped(rt: Runtime, before: seq<ModuleInfo>, m: ModuleInfo, after: seq<ModuleInfo>)
    requires !Accepts(rt, m)
    ensures SupportedModules(rt, before + [m] + after) == SupportedModules(rt, before + after)
  {
    SupportedModulesAppend(rt, before + [m], after);
    SupportedModulesAppend(rt, before, [m]);
    SupportedModulesAppend(rt, before, after);
    assert SupportedModules(rt, [m]) == [] by {
      assert [m][..0] == [];
    }
  }

  /** A candidate whose inspection throws is dropped and changes nothing for the others. */
  lemma ThrowingCandidateIsSkipped(rt: Runtime, before: seq<ModuleInfo>, m: ModuleInfo, after: seq<ModuleInfo>)
    requires m.inspectionThrows
    ensures SupportedModules(rt, before + [m] + after) == SupportedModules(rt, before + after)
  {
    RejectedCandidateIsSkipped(rt, before, m, after);
  }

  /**
   * A candidate whose delegate class fails to load, or extends DynamicCommand, is dropped
   * and changes nothing for the others.
   */
  lemma DynamicPluginIsSkipped(rt: Runtime, before: seq<ModuleInfo>, m: ModuleInfo, after: seq<ModuleInfo>)
    requires m.delegateClass == LoadFailed || m.delegateClass == Loaded(true)
    ensures IsDynamicPlugin(m)
    ensures SupportedModules(rt, before + [m] + after) == SupportedModules(rt, before + after)
  {
    RejectedCandidateIsSkipped(rt, before, m, after);
  }

  /** A candidate with one output type that no adapter handles is dropped, whatever its other outputs. */
  lemma UnsupportedOutputIsSkipped(rt: Runtime, before: seq<ModuleInfo>, m: ModuleInfo, after: seq<ModuleInfo>, i: nat)
    requires i < |m.outputs| && m.outputs[i] !in rt.adapters.knownOutputTypes
    ensures !IsSupportedOutputType(rt, m.outputs[i])
    ensures SupportedModules(rt, before + [m] + after) == SupportedModules(rt, before + after)
  {
    RejectedCandidateIsSkipped(rt, before, m, after);
  }

  /**
   * A type with at least one object in the catalogue is a supported input; a type that no
   * dialog type, GUI service or adapter covers is supported exactly when it has one.
   */
  lemma MultipleChoiceInput(rt: Runtime, t: ClassTag)
    ensures t in rt.objectCounts && rt.objectCounts[t] > 0 ==> IsMultipleChoiceObject(rt, t) && SupportedInput(rt, t)
    ensures !IsDialogType(rt.hierarchy, t) && !IsGuiServiceType(rt.hierarchy, t)
            && t !in rt.adapters.knownServiceTypes && t !in rt.adapters.knownInputTypes
            ==> (SupportedInput(rt, t) <==> t in rt.objectCounts && rt.objectCounts[t] > 0)
  {
  }

  /** Running discovery over its own result changes nothing. */
  lemma {:induction false} SupportedModulesIdempotent(rt: Runtime, ms: seq<ModuleInfo>)
    ensures SupportedModules(rt, SupportedModules(rt, ms)) == SupportedModules(rt, ms)
  {
    if ms != [] {
      var init := ms[..|ms| - 1];
      var last := ms[|ms| - 1];
      SupportedModulesIdempotent(rt, init);
      if Accepts(rt, last) {
        assert SupportedModules(rt, ms) == SupportedModules(rt, init) + [last];
        SupportedModulesAppend(rt, SupportedModules(rt, init), [last]);
        assert SupportedModules(rt, [last]) == [last] by {
          assert [last][..0] == [];
        }
      } else {
        assert SupportedModules(rt, ms) == SupportedModules(rt, init);
      }
    }
  }

  // ---------------------------------------------------------------------------------------
  // Index by delegate class name

  /** The map the constructor fills with `put`, one module after the other. */
  function IndexByDelegateName(ms: seq<ModuleInfo>): map<string, ModuleInfo>
  {
    if ms == [] then map[]
    else
      var last := ms[|ms| - 1];
      IndexByDelegateName(ms[..|ms| - 1])[last.delegateClassName := last]
  }

  /** The keys of the index are exactly the delegate class names of the modules. */
  lemma {:induction false} IndexKeys(ms: seq<ModuleInfo>)
    ensures IndexByDelegateName(ms).Keys == set m | m in ms :: m.delegateClassName
  {
    if ms != [] {
      var init := ms[..|ms| - 1];
      IndexKeys(init);
      assert ms == init + [ms[|ms| - 1]];
    }
  }

  /** Every entry maps a name to a listed module of that name. */
  lemma {:induction false} IndexSound(ms: seq<ModuleInfo>, name: string)
    requires name in IndexByDelegateName(ms)
    ensures IndexByDelegateName(ms)[name] in ms
    ensures IndexByDelegateName(ms)[name].delegateClassName == name
  {
    var init := ms[..|ms| - 1];
    if ms[|ms| - 1].delegateClassName != name {
      IndexSound(init, name);
    }
  }

  /** When two modules share a name, the later one in list order is the one indexed. */
  lemma {:induction false} IndexLaterWins(ms: seq<ModuleInfo>, i: nat)
    requires i < |ms|
    requires forall j :: i < j < |ms| ==> ms[j].delegateClassName != ms[i].delegateClassName
    ensures ms[i].delegateClassName in IndexByDelegateName(ms)
    ensures IndexByDelegateName(ms)[ms[i].delegateClassName] == ms[i]
  {
    var init := ms[..|ms| - 1];
    if i < |ms| - 1 {
      IndexLaterWins(init, i);
    }
  }

  // ---------------------------------------------------------------------------------------
  // The context's services

  /** `getImageJContextServices`: adapter services, then the headless ones, then the GUI ones. */
  method GetImageJContextServices(adapters: AdapterProvider, isHeadless: bool) returns (services: seq<ClassTag>)
    ensures services == adapters.knownServiceTypes + HeadlessServices + (if isHeadless then [] else GuiServices)
    ensures |services| == |adapters.knownServiceTypes| + 7 + (if isHeadless then 0 else 10)
  {
    services := [];
    for i := 0 to |adapters.knownServiceTypes|
      invariant services == adapters.knownServiceTypes[..i]
    {
      services := services + [adapters.knownServiceTypes[i]];
    }
    assert adapters.knownServiceTypes[..|adapters.knownServiceTypes|] == adapters.knownServiceTypes;
    ghost var base := services;
    for i := 0 to |HeadlessServices|
      invariant services == base + HeadlessServices[..i]
    {
      services := services + [HeadlessServices[i]];
    }
    assert HeadlessServices[..|HeadlessServices|] == HeadlessServices;
    if !isHeadless {
      base := services;
      for i := 0 to |GuiServices|
        invariant services == base + GuiServices[..i]
      {
        services := services + [GuiServices[i]];
      }
      assert GuiServices[..|GuiServices|] == GuiServices;
    }
  }

  // ---------------------------------------------------------------------------------------
  // The gateway

  /** One gateway: its mode, the runtime it discovered from, and what it found. */
  class IJGateway {
    const isHeadless: bool
    const runtime: Runtime
    const contextServices: seq<ClassTag>
    const supportedModules: seq<ModuleInfo>
    const delegateIndex: map<string, ModuleInfo>

    /** The three results are the ones discovery and indexing specify. */
    ghost predicate Valid()
    {
      && contextServices == runtime.adapters.knownServiceTypes + HeadlessServices
                            + (if isHeadless then [] else GuiServices)
      && supportedModules == SupportedModules(runtime, runtime.modules)
      && delegateIndex == IndexByDelegateName(supportedModules)
    }

    /** Creates the context's service list, filters the runtime's modules and indexes them. */
    constructor (isHeadless: bool, runtime: Runtime)
      ensures this.isHeadless == isHeadless && this.runtime == runtime
      ensures Valid()
    {
      var services := GetImageJContextServices(runtime.adapters, isHeadless);
      var supported := FindSupportedModules(runtime, runtime.modules);
      var index := map[];
      for i := 0 to |supported|
        invariant index == IndexByDelegateName(supported[..i])
      {
        assert supported[..i + 1][..i] == supported[..i];
        index := index[supported[i].delegateClassName := supported[i]];
      }
      assert supported[..|supported|] == supported;
      this.isHeadless := isHeadless;
      this.runtime := runtime;
      contextServices := services;
      supportedModules := supported;
      delegateIndex := index;
    }

    /** `getModuleInfo`: a lookup by delegate class name; the version is not consulted. */
    function GetModuleInfo(version: string, name: string): (r: Option<ModuleInfo>)
      requires Valid()
      ensures r.Some? ==> r.value in supportedModules && r.value.delegateClassName == name
      ensures r.None? <==> forall m :: m in supportedModules ==> m.delegateClassName != name
    {
      IndexKeys(supportedModules);
      if name in delegateIndex then
        IndexSound(supportedModules, name);
        Some(delegateIndex[name])
      else
        None
    }
  }

  /**
   * The static field `instance` of IJGateway and the static methods that create it on first use.
   * `runtime` stands for what the ImageJ context yields when it is created.
   */
  class GatewaySingleton {
    var instance: IJGateway?

    ghost predicate Valid()
      reads this
    {
      instance != null ==> instance.Valid()
    }

    constructor ()
      ensures instance == null
    {
      instance := null;
    }

    /** `createHeadlessInstance`: creates a headless gateway only when none exists yet. */
    method CreateHeadlessInstance(runtime: Runtime)
      requires Valid()
      modifies this
      ensures Valid() && instance != null
      ensures old(instance) != null ==> instance == old(instance)
      ensures old(instance) == null ==> fresh(instance) && instance.isHeadless && instance.runtime == runtime
    {
      if instance == null {
        instance := new IJGateway(true, runtime);
      }
    }

    /** `getInstance`: the existing gateway, or a new non-headless one on first use. */
    method GetInstance(runtime: Runtime) returns (g: IJGateway)
      requires Valid()
      modifies this
      ensures Valid() && instance == g
      ensures old(instance) != null ==> g == old(instance)
      ensures old(instance) == null ==> fresh(g) && !g.isHeadless && g.runtime == runtime
    {
      if instance == null {
        instance := new IJGateway(false, runtime);
      }
      g := instance;
    }

    /** `getSupportedModules`: the singleton's discovered modules. */
    method GetSupportedModules(runtime: Runtime) returns (ms: seq<ModuleInfo>)
      requires Valid()
      modifies this
      ensures Valid() && instance != null
      ensures old(instance) != null ==> instance == old(instance)
      ensures old(instance) == null ==> fresh(instance) && !instance.isHeadless && instance.runtime == runtime
      ensures ms == SupportedModules(instance.runtime, instance.runtime.modules)
    {
      var g := GetInstance(runtime);
      ms := g.supportedModules;
    }

    /** `getModuleInfo`: the singleton's lookup by delegate class name. */
    method GetModuleInfo(runtime: Runtime, version: string, name: string) returns (r: Option<ModuleInfo>)
      requires Valid()
      modifies this
      ensures Valid() && instance != null
      ensures old(instance) != null ==> instance == old(instance)
      ensures old(instance) == null ==> fresh(instance) && !instance.isHeadless && instance.runtime == runtime
      ensures r == instance.GetModuleInfo(version, name)
    {
      var g := GetInstance(runtime);
      r := g.GetModuleInfo(version, name);
    }
  }
}
