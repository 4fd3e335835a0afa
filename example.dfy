/**
 * The frame driver of the example program: it picks a backend name from the command
 * line or the platform default, asks the registry for that backend, and turns a missing
 * backend into exit code 1. On success it runs the frame loop and shuts down, and returns 0.
 */
module Example {

  import opened Wrappers
  import opened Registry

  /** The operating system the program was built for. */
  datatype Platform = Win32 | Linux | MacOS

  /** The backend each platform falls back to when no backend is requested. */
  function DefaultBackendName(platform: Platform): (name: string)
    ensures name != ""
    ensures platform == Win32 ==> name == "Direct3D11"
    ensures platform == Linux ==> name == "OpenGL"
    ensures platform == MacOS ==> name == "Metal"
  {
    match platform
    case Win32 => "Direct3D11"
    case Linux => "OpenGL"
    case MacOS => "Metal"
  }

  /**
   * The module name `main` hands to `InitExample`: on Windows the whole command line
   * (which is empty when no argument was given); elsewhere `argv[1]` when there is one
   * and a null pointer otherwise. `argv` includes the program name, so `argc == |argv|`.
   */
  function EntryModuleName(platform: Platform, argv: seq<string>, cmdLine: string): (moduleName: Option<string>)
    ensures platform == Win32 ==> moduleName == Some(cmdLine)
    ensures platform != Win32 ==> (moduleName.Some? <==> |argv| >= 2)
    ensures platform != Win32 && |argv| >= 2 ==> moduleName == Some(argv[1])
  {
    if platform == Win32 then Some(cmdLine)
    else if |argv| >= 2 then Some(argv[1])
    else None
  }

  /**
   * The name `CreateLLGLBackend` asks the registry for: a non-null, non-empty module name
   * unchanged, otherwise the platform default. A C string is modelled by its characters
   * before the terminating NUL, `None` standing for a null pointer.
   */
  function SelectBackendName(moduleName: Option<string>, platform: Platform): (name: string)
    ensures name != ""
    ensures moduleName.Some? && moduleName.value != "" ==> name == moduleName.value
    ensures moduleName.None? || moduleName.value == "" ==> name == DefaultBackendName(platform)
  {
    if moduleName.Some? && moduleName.value != "" then moduleName.value
    else DefaultBackendName(platform)
  }

  /**
   * The process exit status of `main` when the registry holds `registered`: 1 when the
   * selected backend is not registered, 0 after a normal run.
   */
  function ExitStatus(registered: map<string, BackendClass>, platform: Platform, argv: seq<string>, cmdLine: string): (status: int)
    ensures status == 0 || status == 1
    ensures status == 0 <==> SelectBackendName(EntryModuleName(platform, argv, cmdLine), platform) in registered
  {
    if SelectBackendName(EntryModuleName(platform, argv, cmdLine), platform) in registered then 0 else 1
  }

  /** True when the program was started without naming a backend. */
  predicate NoBackendRequested(platform: Platform, argv: seq<string>, cmdLine: string) {
    if platform == Win32 then cmdLine == "" else |argv| < 2
  }

  /**
   * Whatever registrations static initialization runs, in whatever order, the program
   * starts (exit status 0) exactly when one of them registered the selected name.
   */
  lemma ExitStatusOfRegistrations(order: seq<Registration>, platform: Platform, argv: seq<string>, cmdLine: string)
    ensures ExitStatus(Replay(order), platform, argv, cmdLine) == 0
      <==> exists i :: 0 <= i < |order| && order[i].name == SelectBackendName(EntryModuleName(platform, argv, cmdLine), platform)
  {
    ReplayKeys(order);
  }

  /**
   * Assuming exactly the seven modelled registrations and no others: started without an
   * argument, the program finds its default backend on Windows and Linux, but not on
   * macOS, since none of the seven modelled registrations registers "Metal".
   */
  lemma DefaultBackendFound(order: seq<Registration>, platform: Platform, argv: seq<string>, cmdLine: string)
    requires multiset(order) == multiset(SourceRegistrations)
    requires NoBackendRequested(platform, argv, cmdLine)
    ensures ExitStatus(Replay(order), platform, argv, cmdLine) == if platform == MacOS then 1 else 0
  {
    AnyStaticInitOrder(order);
    assert SelectBackendName(EntryModuleName(platform, argv, cmdLine), platform) == DefaultBackendName(platform);
  }

  /**
   * Assuming exactly the seven modelled registrations and no others: a
   * non-empty requested name starts the program exactly when it is one of the four names.
   */
  lemma RequestedBackendFound(order: seq<Registration>, platform: Platform, argv: seq<string>, cmdLine: string)
    requires multiset(order) == multiset(SourceRegistrations)
    requires !NoBackendRequested(platform, argv, cmdLine)
    requires (if platform == Win32 then cmdLine else argv[1]) != ""
    ensures var requested := if platform == Win32 then cmdLine else argv[1];
      ExitStatus(Replay(order), platform, argv, cmdLine) == 0 <==> requested in RegisteredNames
  {
    AnyStaticInitOrder(order);
  }

  /** The program's global state: `g_backend`, plus what the frame loop and shutdown did. */
  class ExampleApp {
    const registry: BackendRegistry
    var backend: Option<BackendClass>   // g_backend
    ghost var framesRendered: nat   // frame-loop iterations, for the specification only
    ghost var shutDown: bool        // whether ShutdownExample ran, for the specification only

    constructor (registry: BackendRegistry)
      ensures this.registry == registry
      ensures backend == None && framesRendered == 0 && !shutDown
    {
      this.registry := registry;
      backend, framesRendered, shutDown := None, 0, false;
    }

    /** Asks the registry for the requested backend, or for the platform default. */
    method CreateLLGLBackend(moduleName: Option<string>, platform: Platform) returns (created: Option<BackendClass>)
      ensures created == registry.Lookup(SelectBackendName(moduleName, platform))
      ensures moduleName.Some? && moduleName.value != "" ==> created == registry.Lookup(moduleName.value)
      ensures moduleName.None? || moduleName.value == "" ==> created == registry.Lookup(DefaultBackendName(platform))
    {
      if moduleName.Some? && moduleName.value != "" {
        created := registry.NewBackend(moduleName.value);
      } else {
        match platform
        case Win32 => created := registry.NewBackend("Direct3D11");
        case Linux => created := registry.NewBackend("OpenGL");
        case MacOS => created := registry.NewBackend("Metal");
      }
    }

    /** Creates the backend into `g_backend`; returns 1 when there is none, 0 otherwise. */
    method InitExample(moduleName: Option<string>, platform: Platform) returns (status: int)
      modifies this
      ensures backend == registry.Lookup(SelectBackendName(moduleName, platform))
      ensures status == (if backend.None? then 1 else 0)
      ensures framesRendered == old(framesRendered) && shutDown == old(shutDown)
    {
      backend := CreateLLGLBackend(moduleName, platform);
      if backend.None? {
        return 1;
      }
      return 0;
    }

    /** Releases `g_backend`. */
    method ShutdownExample()
      modifies this
      ensures backend == None && shutDown
      ensures framesRendered == old(framesRendered)
    {
      backend := None;
      shutDown := true;
    }

    /**
     * `main` (`WinMain` on Windows). `frames` is the number of iterations the frame loop's
     * condition (event pump, Escape key, open windows) allows. A failed initialization is
     * returned at once, before any frame and without shutdown.
     */
    method EntryPoint(platform: Platform, argv: seq<string>, cmdLine: string, frames: nat) returns (status: int)
      modifies this
      ensures status == ExitStatus(registry.registeredBackends, platform, argv, cmdLine)
      ensures status != 0 ==> backend == None && framesRendered == old(framesRendered) && shutDown == old(shutDown)
      ensures status == 0 ==> backend == None && framesRendered == old(framesRendered) + frames && shutDown
    {
      var init := InitExample(EntryModuleName(platform, argv, cmdLine), platform);
      if init != 0 {
        return init;
      }
      var frame := 0;
      while frame < frames
        invariant frame <= frames
        invariant backend.Some?
        invariant framesRendered == old(framesRendered) + frame
        invariant shutDown == old(shutDown)
      {
        // g_backend->RenderSceneForAllContexts(): the backend is present here
        framesRendered := framesRendered + 1;
        frame := frame + 1;
      }
      ShutdownExample();
      return 0;
    }
  }
}
