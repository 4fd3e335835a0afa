/**
 * The backend registry: a process-wide map from a backend name to the factory that
 * constructs that backend. Every concrete backend registers itself once through a static
 * object built by `REGISTER_BACKEND`; the frame driver later asks for a backend by name.
 */
module Registry {

  import opened Wrappers

  /**
   * The concrete backend classes. A factory registered by `REGISTER_BACKEND(CLASS, NAME)`
   * does nothing but construct `CLASS`, so a factory is identified with its class.
   */
  datatype BackendClass =
    | Direct3D11Backend
    | BackendD3D11
    | Direct3D12Backend
    | BackendD3D12
    | OpenGLBackend
    | BackendGL
    | VulkanBackend

  /** One `REGISTER_BACKEND(CLASS, NAME)` instance: the call `RegisterBackend(NAME, factory of CLASS)`. */
  datatype Registration = Registration(name: string, factory: BackendClass)

  /** The registry after running the registrations in `order`, starting from the empty map. */
  function Replay(order: seq<Registration>): map<string, BackendClass> {
    if order == [] then map[]
    else
      var last := order[|order| - 1];
      Replay(order[..|order| - 1])[last.name := last.factory]
  }

  /** The names registered: exactly the names that occur in `order`. */
  lemma {:induction false} ReplayKeys(order: seq<Registration>)
    ensures forall name :: name in Replay(order) <==> exists i :: 0 <= i < |order| && order[i].name == name
  {
    if order != [] {
      var init := order[..|order| - 1];
      ReplayKeys(init);
      forall name | name in Replay(order)
        ensures exists i :: 0 <= i < |order| && order[i].name == name
      {
        if name != order[|order| - 1].name {
          assert name in Replay(init);
          var i :| 0 <= i < |init| && init[i].name == name;
          assert order[i].name == name;
        }
      }
      forall name, i | 0 <= i < |order| && order[i].name == name
        ensures name in Replay(order)
      {
        if i < |init| {
          assert init[i].name == name;
        }
      }
    }
  }

  /** Last registration wins: a name maps to the factory of its latest registration. */
  lemma {:induction false} ReplayLastWins(order: seq<Registration>, i: nat)
    requires i < |order|
    requires forall j :: i < j < |order| ==> order[j].name != order[i].name
    ensures order[i].name in Replay(order)
    ensures Replay(order)[order[i].name] == order[i].factory
  {
    if i < |order| - 1 {
      var init := order[..|order| - 1];
      assert forall j :: i < j < |init| ==> init[j].name != init[i].name;
      ReplayLastWins(init, i);
    }
  }

  /** Every entry of the registry comes from some registration in `order`. */
  lemma {:induction false} ReplayEntryRegistered(order: seq<Registration>, name: string)
    requires name in Replay(order)
    ensures Registration(name, Replay(order)[name]) in order
  {
    var init := order[..|order| - 1];
    if name != order[|order| - 1].name {
      ReplayEntryRegistered(init, name);
    }
  }

  /** The `REGISTER_BACKEND` instances of the backend source files, in file order. */
  const SourceRegistrations: seq<Registration> := [
    Registration("Direct3D11", Direct3D11Backend),
    Registration("Direct3D11", BackendD3D11),
    Registration("Direct3D12", Direct3D12Backend),
    Registration("Direct3D12", BackendD3D12),
    Registration("OpenGL", BackendGL),
    Registration("OpenGL", OpenGLBackend),
    Registration("Vulkan", VulkanBackend)
  ]

  /** The names the backend source files register. */
  const RegisteredNames: set<string> := {"Direct3D11", "Direct3D12", "OpenGL", "Vulkan"}

  /** The class a backend source file registers under `name`, in either of its variants. */
  predicate RegisteredUnder(name: string, backendClass: BackendClass) {
    Registration(name, backendClass) in SourceRegistrations
  }

  /**
   * When exactly the seven modelled registrations are linked in, whatever order static
   * initialization runs them in, the registry ends up with exactly the four backend names, each bound to a class registered under that name.
   */
  lemma AnyStaticInitOrder(order: seq<Registration>)
    requires multiset(order) == multiset(SourceRegistrations)
    ensures Replay(order).Keys == RegisteredNames
    ensures forall name :: name in Replay(order) ==> RegisteredUnder(name, Replay(order)[name])
  {
    ReplayKeys(order);
    forall r ensures r in order <==> r in SourceRegistrations {
      assert r in order <==> r in multiset(order);
    }
    forall name | name in RegisteredNames ensures name in Replay(order) {
      var k :| 0 <= k < |SourceRegistrations| && SourceRegistrations[k].name == name;
      var i :| 0 <= i < |order| && order[i] == SourceRegistrations[k];
    }
    forall name | name in Replay(order)
      ensures name in RegisteredNames && RegisteredUnder(name, Replay(order)[name])
    {
      ReplayEntryRegistered(order, name);
    }
  }

  /** In file order, the second Direct3D 12 registration (the older variant) wins. */
  lemma FileOrderWinner()
    ensures "Direct3D12" in Replay(SourceRegistrations)
    ensures Replay(SourceRegistrations)["Direct3D12"] == BackendD3D12
  {
    assert SourceRegistrations[3] == Registration("Direct3D12", BackendD3D12);
    assert forall j :: 3 < j < |SourceRegistrations| ==> SourceRegistrations[j].name != "Direct3D12";
    ReplayLastWins(SourceRegistrations, 3);
  }

  /**
   * The file order with the two Direct3D 12 registrations swapped. It is a permutation of
   * the file order, so static initialization may run the registrations this way too.
   */
  const SwappedRegistrations: seq<Registration> := [
    Registration("Direct3D11", Direct3D11Backend),
    Registration("Direct3D11", BackendD3D11),
    Registration("Direct3D12", BackendD3D12),
    Registration("Direct3D12", Direct3D12Backend),
    Registration("OpenGL", BackendGL),
    Registration("OpenGL", OpenGLBackend),
    Registration("Vulkan", VulkanBackend)
  ]

  /**
   * With the two Direct3D 12 registrations swapped, an order static initialization is
   * allowed to pick, the other variant wins: which class "Direct3D12" names depends on link order.
   */
  lemma SwappedOrderWinner()
    ensures multiset(SwappedRegistrations) == multiset(SourceRegistrations)
    ensures "Direct3D12" in Replay(SwappedRegistrations)
    ensures Replay(SwappedRegistrations)["Direct3D12"] == Direct3D12Backend
    ensures "Direct3D12" in Replay(SourceRegistrations)
    ensures Replay(SwappedRegistrations)["Direct3D12"] != Replay(SourceRegistrations)["Direct3D12"]
  {
    SwappedIsPermutation();
    var swapped := SwappedRegistrations;
    assert swapped[3] == Registration("Direct3D12", Direct3D12Backend);
    assert forall j :: 3 < j < |swapped| ==> swapped[j].name != "Direct3D12";
    ReplayLastWins(swapped, 3);
    FileOrderWinner();
  }

  /** The swapped order holds the same registrations as the file order. */
  lemma SwappedIsPermutation()
    ensures multiset(SwappedRegistrations) == multiset(SourceRegistrations)
  {
    var front := [Registration("Direct3D11", Direct3D11Backend), Registration("Direct3D11", BackendD3D11)];
    var back := [Registration("OpenGL", BackendGL), Registration("OpenGL", OpenGLBackend), Registration("Vulkan", VulkanBackend)];
    var d3d12 := Registration("Direct3D12", Direct3D12Backend);
    var d3d12Old := Registration("Direct3D12", BackendD3D12);
    assert SourceRegistrations == front + [d3d12, d3d12Old] + back;
    assert SwappedRegistrations == front + [d3d12Old, d3d12] + back;
    SwapIsPermutation(front, d3d12, d3d12Old, back);
  }

  /** Swapping two neighbouring registrations gives a permutation. */
  lemma SwapIsPermutation(front: seq<Registration>, x: Registration, y: Registration, back: seq<Registration>)
    ensures multiset(front + [y, x] + back) == multiset(front + [x, y] + back)
  {
  }

  /** The process-wide registry (`GetBackendRegisterMap`'s function-local static map). */
  class BackendRegistry {
    var registeredBackends: map<string, BackendClass>

    /** The static map starts out empty. */
    constructor ()
      ensures registeredBackends == map[]
    {
      registeredBackends := map[];
    }

    /** What `NewBackend(name)` constructs: the registered class, or nothing. */
    function Lookup(name: string): Option<BackendClass>
      reads this
    {
      if name in registeredBackends then Some(registeredBackends[name]) else None
    }

    /** Inserts or overwrites the factory for `name`; no other entry changes. */
    method RegisterBackend(name: string, factory: BackendClass)
      modifies this
      ensures registeredBackends == old(registeredBackends)[name := factory]
      ensures Lookup(name) == Some(factory)
      ensures forall other :: other != name ==> Lookup(other) == old(Lookup(other))
    {
      registeredBackends := registeredBackends[name := factory];
    }

    /**
     * Constructs the backend registered under `name`, or returns an empty pointer when no
     * factory is registered; the registry itself is not changed.
     */
    method NewBackend(name: string) returns (backend: Option<BackendClass>)
      ensures backend.Some? <==> name in registeredBackends
      ensures backend.Some? ==> backend.value == registeredBackends[name]
    {
      if name in registeredBackends {
        backend := Some(registeredBackends[name]);
      } else {
        backend := None;
      }
    }
  }

  /**
   * Static initialization: the registry is created empty and the `REGISTER_BACKEND`
   * constructors run one after the other, in an order the program does not fix.
   */
  method StaticInitialization(order: seq<Registration>) returns (registry: BackendRegistry)
    ensures fresh(registry)
    ensures registry.registeredBackends == Replay(order)
  {
    registry := new BackendRegistry();
    var k := 0;
    while k < |order|
      invariant k <= |order|
      invariant registry.registeredBackends == Replay(order[..k])
    {
      assert order[..k + 1][..k] == order[..k];
      registry.RegisterBackend(order[k].name, order[k].factory);
      k := k + 1;
    }
    assert order[..|order|] == order;
  }
}
