/** Building the Guice module list: the caller's modules, the baseline
    module, and exactly one communication backend, falling back from the
    Greengrass backend to the stub when the Greengrass classes are missing. */
module ModuleAssembly {
  import opened Wrappers
  import opened Seqs
  import opened Types

  /** Whether building the injector with each backend gets past class
      loading (false: `NoClassDefFoundError` is raised). */
  datatype Runtime = Runtime(greengrassLoads: bool, dummyLoads: bool)

  /** The injector, identified with the module list it was created from. */
  datatype Injector = Injector(modules: seq<Module>)

  /** A mutable `ArrayList<AbstractModule>`. */
  class ModuleList {
    var items: seq<Module>

    constructor Copy(source: seq<Module>)
      ensures items == source
    {
      items := source;
    }

    method Add(m: Module)
      modifies this
      ensures items == old(items) + [m]
    {
      items := items + [m];
    }
  }

  /** Number of communication backends in a module list. */
  function Backends(modules: seq<Module>): (n: nat)
    ensures n <= |modules|
  {
    Count(modules, (m: Module) => m.IsBackend())
  }

  /** The list an injector is built from when `backend` is the backend. */
  function WithBackend(callers: seq<Module>, backend: Module): (m: seq<Module>)
    ensures |m| == |callers| + 2
  {
    callers + [BaselineAppModule] + [backend]
  }

  /** The outcome of `getInjector`: the Greengrass backend when its
      classes load, otherwise the stub; no further fallback. */
  function Resolve(callers: seq<Module>, rt: Runtime): (r: Result<Injector, Exception>)
    ensures r.Failure? <==> !rt.greengrassLoads && !rt.dummyLoads
    ensures r.Failure? ==> r.error == NoClassDefFoundError
    ensures r.Success? ==>
      var m := r.value.modules;
      && |m| == |callers| + 2
      && m[..|callers|] == callers
      && m[|callers|] == BaselineAppModule
      && m[|callers| + 1] == (if rt.greengrassLoads then GreengrassCommunicationModule
                              else DummyCommunicationModule)
  {
    if rt.greengrassLoads then Success(Injector(WithBackend(callers, GreengrassCommunicationModule)))
    else if rt.dummyLoads then Success(Injector(WithBackend(callers, DummyCommunicationModule)))
    else Failure(NoClassDefFoundError)
  }

  /** A resolved list has exactly one backend more than the caller supplied. */
  lemma ResolveAddsOneBackend(callers: seq<Module>, rt: Runtime)
    requires Resolve(callers, rt).Success?
    ensures Backends(Resolve(callers, rt).value.modules) == Backends(callers) + 1
  {
    var backend := Resolve(callers, rt).value.modules[|callers| + 1];
    CountAppend(callers + [BaselineAppModule], [backend], (m: Module) => m.IsBackend());
    CountAppend(callers, [BaselineAppModule], (m: Module) => m.IsBackend());
  }

  /** When the caller supplies no backend of its own, the injector holds
      exactly one, and it is the last module. */
  lemma ResolveExactlyOneBackend(callers: seq<Module>, rt: Runtime)
    requires Resolve(callers, rt).Success?
    requires Backends(callers) == 0
    ensures var m := Resolve(callers, rt).value.modules;
      && Backends(m) == 1
      && m[|m| - 1].IsBackend()
      && forall i :: 0 <= i < |m| - 1 ==> !m[i].IsBackend()
  {
    ResolveAddsOneBackend(callers, rt);
    var m := Resolve(callers, rt).value.modules;
    forall i | 0 <= i < |m| - 1
      ensures !m[i].IsBackend()
    {
      if i < |callers| {
        assert m[i] == callers[i];
      }
    }
  }

  /** `getBaselineModuleList`: a fresh copy of the caller's list with the
      baseline module appended; the caller's list is left as it was. */
  method GetBaselineModuleList(callers: ModuleList) returns (list: ModuleList)
    ensures fresh(list)
    ensures list.items == callers.items + [BaselineAppModule]
  {
    list := new ModuleList.Copy(callers.items);
    list.Add(BaselineAppModule);
  }

  /** `getInjector`: try the Greengrass backend; on `NoClassDefFoundError`
      rebuild the list with the stub backend instead. */
  method GetInjector(callers: ModuleList, rt: Runtime) returns (r: Result<Injector, Exception>)
    ensures r == Resolve(callers.items, rt)
  {
    var list := GetBaselineModuleList(callers);
    list.Add(GreengrassCommunicationModule);
    if rt.greengrassLoads {
      return Success(Injector(list.items));
    }
    // catch (NoClassDefFoundError e): the first list is discarded
    var fallback := GetBaselineModuleList(callers);
    fallback.Add(DummyCommunicationModule);
    if rt.dummyLoads {
      return Success(Injector(fallback.items));
    }
    return Failure(NoClassDefFoundError);
  }
}
