# LLGL-Example-ImGui: the backend registry, the frame driver's start-up, and the Direct3D 12 descriptor allocator

This project is a Dafny model of the parts of LLGL-Example-ImGui that carry logic of their own. The program is a demo that renders one scene through one of several GPU backends and puts an ImGui overlay on top. The model covers four pieces:

- **The Direct3D 12 descriptor allocator** (`D3D12DescriptorHeapAllocator`, module `DescriptorHeap`). It is a class over a fixed-capacity heap, with a stack of free slot indices.
  - The constructor fills the stack by counting down, so slot 0 is on top.
  - `Alloc` pops a slot and turns it into a CPU handle and a GPU handle (`base + index * handleSize`).
  - `Free` decodes a handle pair back to an index and pushes that index.
  - The native heap is abstracted as four constructor parameters: the CPU start address, the GPU start address, the increment size and the number of descriptors.
  - The source's integer widths are written out. The product `index * handleSize` is a 32-bit `UINT` and wraps modulo 2^32. Handles are 64-bit addresses, and the subtraction in `Free` is unsigned. The GPU handle is a `UINT64`; the CPU handle's `ptr` is a `SIZE_T`, so the model assumes a 64-bit build. The decoded index is truncated by `static_cast<UINT>`.
  - The class appears twice with identical text, in `Direct3D12Backend.cpp` and `ImGuiDirect3D12.cpp`. One Dafny class models both copies.
- **The DXGI format tables** `GetRTVFormat` and `GetDSVFormat` (module `DxgiFormats`). Both backend files carry identical copies of them.
- **The backend registry** (module `Registry`). It is a class holding the process-wide `std::map` from a backend name to a factory. `RegisterBackend` inserts or overwrites, and `NewBackend` looks a name up. Each `REGISTER_BACKEND` instance is modelled as one `RegisterBackend` call. The static-initialization order of those instances is not fixed by the program, so it is a parameter: any permutation of the registrations.
- **The frame driver's start-up and exit status** (module `Example`, from `Main.cpp`).
  - `CreateLLGLBackend` chooses between the requested name and the platform default, and the platform is a parameter.
  - `InitExample` stores the backend in `g_backend` and returns 1 when there is none.
  - `main` returns that failure at once. Otherwise it runs the frame loop, shuts down, and returns 0.

`LLGL_VERIFY` aborts the program, so each `LLGL_VERIFY` is modelled as a precondition.

Some facts the proofs establish about the source:

- A fresh allocator hands out slots 0, 1, 2, … in order.
- `Alloc` and `Free` behave as a stack (last in, first out).
- Decoding the handle of a slot gives back the slot's index. This holds as long as the heap fits in 32-bit offsets and the 64-bit address space.
- While only outstanding handles are freed, the free slots and the outstanding slots partition the heap. So at most `capacity` slots (64 in both backends) are out at once.
- A double free, which the source does not check, leaves a duplicate on the free list. The model states this in `Free`'s contract instead of forbidding it.
- For the registry, the last registration of a name wins. Whatever registrations are linked in, in whatever order, `main` returns 0 exactly when one of them registered the selected name.
- The backend source files hold seven `REGISTER_BACKEND` instances. "Direct3D11", "Direct3D12" and "OpenGL" are each registered by two files, in two variants. The variant files are written against different versions of the `Backend` interface, so not all of them build together with the `Backend.h` shown (see "## Left out"). Other backends, such as a Metal backend for macOS, are not part of this model. Under the assumption that exactly these seven registrations, and no others, are linked into one binary:
  - which variant a name ends up with depends on link order;
  - without an argument, the program finds its default backend on Windows ("Direct3D11") and on Linux ("OpenGL"). On macOS it asks for "Metal", which none of the seven modelled registrations registers. So under this assumption a macOS run without an argument exits with status 1. That is a property of the modelled registration set, not a claim about builds that link a Metal backend.

## Model

| member | source | states |
|---|---|---|
| `DxgiFormats.GetRTVFormat` | sources/Backend/Direct3D12/Direct3D12Backend.cpp:20-27 | The RTV format is known exactly for `RGBA8UNorm` (then `R8G8B8A8_UNORM`); every other format gives `UNKNOWN`. The copy in ImGuiDirect3D12.cpp:19-26 is identical. |
| `DxgiFormats.GetDSVFormat` | sources/Backend/Direct3D12/Direct3D12Backend.cpp:29-39 | The DSV format is known exactly for the four depth formats and is never the colour format; everything else gives `UNKNOWN`. The copy in ImGuiDirect3D12.cpp:28-38 is identical. |
| `DxgiFormats.DepthFormatOf` | sources/Backend/Direct3D12/Direct3D12Backend.cpp:33-36 | An inverse of the depth table, defined independently of it: it only ever yields depth formats. |
| `DxgiFormats.DSVFormatRoundTrip` | sources/Backend/Direct3D12/Direct3D12Backend.cpp:29-39 | Decoding `GetDSVFormat(f)` gives back `f` for each depth format and nothing for any other format. |
| `DxgiFormats.DSVFormatInjective` | sources/Backend/Direct3D12/ImGuiDirect3D12.cpp:28-38 | Two formats with the same known DSV format are equal: the depth mapping is one-to-one. |
| `DxgiFormats.RTVAndDSVDisjoint` | sources/Backend/Direct3D12/ImGuiDirect3D12.cpp:19-38 | No format has both a known RTV format and a known DSV format. |
| `DescriptorHeap.EncodeInHeap` | sources/Backend/Direct3D12/Direct3D12Backend.cpp:93-94 | When the heap fits, the handle of slot `i` is exactly `base + i * handleSize`, and that whole descriptor lies inside the heap. |
| `DescriptorHeap.DecodeEncode` | sources/Backend/Direct3D12/Direct3D12Backend.cpp:93-100 | Decoding the handle `Alloc` computes for a slot (the subtraction, division and `UINT` cast of `Free`) gives back that slot's index. |
| `DescriptorHeap.EncodeInjective` | sources/Backend/Direct3D12/ImGuiDirect3D12.cpp:92-93 | Distinct slots of a heap that fits have distinct handles, so no handle is given to two slots. |
| `DescriptorHeap.CountDownAt` | sources/Backend/Direct3D12/Direct3D12Backend.cpp:76-78 | The free list the constructor builds has `n` entries, and entry `k` is `n - 1 - k`. |
| `DescriptorHeap.CountDownIsSlotRange` | sources/Backend/Direct3D12/ImGuiDirect3D12.cpp:75-77 | The initial free list holds every index of `0..n-1`, each exactly once, and nothing else. |
| `DescriptorHeap.CountDownPop` | sources/Backend/Direct3D12/Direct3D12Backend.cpp:77-78 | The top of the count-down list is its smallest index, and popping it leaves the count-down list from the next index. |
| `DescriptorHeap.PushDuplicate` | sources/Backend/Direct3D12/Direct3D12Backend.cpp:102 | Pushing an index that is already free makes the free list hold a duplicate. This is the effect of an unchecked double free. |
| `DescriptorHeap.DescriptorHeapAllocator.constructor` | sources/Backend/Direct3D12/Direct3D12Backend.cpp:58-79 | After construction the free list is `[n-1, …, 1, 0]`, it is sound, and no slot is outstanding. |
| `DescriptorHeap.DescriptorHeapAllocator.Alloc` | sources/Backend/Direct3D12/Direct3D12Backend.cpp:86-95 | Needs a non-empty free list. It removes exactly the top index and returns the CPU and GPU handles of that one index, computed by `Encode` (the `UINT` product `Offset`, wrapped to 2^32, added to the heap start modulo 2^64). On a sound list, the index handed out is no longer on the free list and is added to the outstanding set. If the heap also fits, the handles are exactly `base + index * handleSize` and both decode back to the index. |
| `DescriptorHeap.DescriptorHeapAllocator.Free` | sources/Backend/Direct3D12/Direct3D12Backend.cpp:97-103 | Needs the two handles to decode to the same index, and pushes that index. `Decode` is the unsigned 64-bit difference to the heap start, divided by the increment size and truncated to a `UINT`. Freeing an outstanding slot keeps the list sound and removes the slot from the outstanding set. Freeing a free slot makes the list unsound. |
| `DescriptorHeap.DescriptorHeapAllocator.OutstandingBound` | sources/Backend/Direct3D12/ImGuiDirect3D12.cpp:157 | On a sound free list, the free slots and the outstanding slots partition `0..capacity-1`. So the number outstanding is `capacity` minus the length of the free list, and never more than `capacity`. |
| `DescriptorHeap.CreateImGuiHeapAllocator` | sources/Backend/Direct3D12/Direct3D12Backend.cpp:147 | The allocator both backends create has 64 slots, all free, with slot 0 on top (also ImGuiDirect3D12.cpp:157). |
| `DescriptorHeap.FreshAllocationOrder` | sources/Backend/Direct3D12/Direct3D12Backend.cpp:76-94 | On a fresh allocator, `k` successive `Alloc` calls return the handles of slots `0, 1, …, k-1`, in that order. |
| `DescriptorHeap.AllocThenFree` | sources/Backend/Direct3D12/ImGuiDirect3D12.cpp:85-102 | `Alloc` followed by `Free` of the returned pair passes the check in `Free` and restores the free list exactly. |
| `DescriptorHeap.FreeThenAlloc` | sources/Backend/Direct3D12/Direct3D12Backend.cpp:90-102 | Freeing an outstanding slot's handle pair and then allocating returns the same pair (last in, first out). The free list is left unchanged. |
| `Registry.ReplayKeys` | sources/Backend/Backend.cpp:19-23 | After a sequence of registrations, the registered names are exactly the names that occur in the sequence. |
| `Registry.ReplayLastWins` | sources/Backend/Backend.cpp:22 | A name maps to the factory of its most recent registration; earlier registrations of that name are overwritten. |
| `Registry.ReplayEntryRegistered` | sources/Backend/Backend.cpp:22 | Every registry entry comes from one of the registrations that were made. |
| `Registry.AnyStaticInitOrder` | sources/Backend/Backend.h:76-90 | Assuming exactly these seven `REGISTER_BACKEND` instances and no others are linked in: for any order of them, the registry holds exactly "Direct3D11", "Direct3D12", "OpenGL" and "Vulkan", each bound to a class registered under that name. |
| `Registry.FileOrderWinner` | sources/Backend/Direct3D12/ImGuiDirect3D12.cpp:196 | In file order, "Direct3D12" ends up bound to the later registration (`BackendD3D12`). |
| `Registry.SwappedOrderWinner` | sources/Backend/Direct3D12/Direct3D12Backend.cpp:213 | The seven registrations with the two Direct3D 12 ones swapped form a permutation of the file order, so static initialization may run them that way. In that order `Direct3D12Backend` wins instead of `BackendD3D12`, so the winner depends on link order. |
| `Registry.BackendRegistry.constructor` | sources/Backend/Backend.cpp:13-17 | The single static registry starts out empty. |
| `Registry.BackendRegistry.RegisterBackend` | sources/Backend/Backend.cpp:19-23 | Inserts or overwrites the entry for `name`. Afterwards `NewBackend(name)` yields the new factory's class, and every other name's entry is unchanged. |
| `Registry.BackendRegistry.NewBackend` | sources/Backend/Backend.cpp:25-30 | Returns a backend exactly when `name` is registered, and then one of the registered class. It never changes the registry. |
| `Registry.StaticInitialization` | sources/Backend/Backend.h:76-90 | Running the registrations in any order on the fresh static registry yields `Replay(order)`. |
| `Example.DefaultBackendName` | sources/Main.cpp:31-40 | The platform default is "Direct3D11" on Windows, "OpenGL" on Linux and "Metal" on macOS, and is never empty. |
| `Example.EntryModuleName` | sources/Main.cpp:107-111 | Windows passes its command line. Elsewhere `argv[1]` is passed exactly when `argc >= 2`, and a null pointer otherwise. |
| `Example.SelectBackendName` | sources/Main.cpp:25-40 | A non-null, non-empty module name is used unchanged; a null or empty one selects the platform default. The selected name is never empty. |
| `Example.ExitStatus` | sources/Main.cpp:103-127 | The process exits with 0 or 1, and with 0 exactly when the selected backend name is registered. |
| `Example.ExitStatusOfRegistrations` | sources/Main.cpp:103-127 | For any sequence of registrations in any order, the program exits 0 exactly when one of them registered the selected backend name. |
| `Example.DefaultBackendFound` | sources/Main.cpp:31-40 | Assuming exactly these seven registrations and no others, in any order: started without an argument, the program exits 0 on Windows and Linux. On macOS it exits 1, because none of the seven registers "Metal". |
| `Example.RequestedBackendFound` | sources/Main.cpp:25-28 | Assuming exactly these seven registrations and no others, in any order: a non-empty requested name starts the program exactly when it is one of the four registered names. |
| `Example.ExampleApp.CreateLLGLBackend` | sources/Main.cpp:23-41 | Yields the registry's backend for the requested name, or for the platform default when the name is null or empty. |
| `Example.ExampleApp.InitExample` | sources/Main.cpp:43-73 | Stores the created backend in `g_backend`, and returns 1 exactly when it is empty, 0 otherwise. |
| `Example.ExampleApp.ShutdownExample` | sources/Main.cpp:75-87 | Releases `g_backend`. |
| `Example.ExampleApp.EntryPoint` | sources/Main.cpp:103-127 | Returns `ExitStatus`. A failed start returns at once: no frame is rendered and there is no shutdown. After a normal start, every loop iteration renders with a backend present, then the program shuts down and returns 0. |

## Left out

- The native Direct3D 12 calls are not modelled: `CreateDescriptorHeap` and the `LLGL_VERIFY` on its result, the heap-start queries, `GetDescriptorHandleIncrementSize`, `GetNative`, `SetDescriptorHeaps`, the `ImGui_ImplDX12_*` functions, and the COM `Release` calls in the destructors. They are foreign calls. The heap's start addresses, increment size and capacity are constructor parameters instead.
- DescriptorHeap.DescriptorHeapAllocator.constructor: requires an increment size above zero. The source takes whatever the device reports, and `Free` divides by it.
- DescriptorHeap.DescriptorHeapAllocator.Alloc: the exact-address and decode guarantees are stated only when the heap fits (`Fits()`). Outside that, the model computes the wrapped values the source computes, but no property is proved about them.
- Frees of a handle pair whose index is not an outstanding slot (a double free, or a foreign handle) are not forbidden. `Free`'s contract says what happens instead: the index is pushed, and for a double free the list stops being sound.
- The concrete backend classes are not modelled beyond their names. A registered factory is identified with the class it constructs, and what that class's constructor does (`CreateResources`, native handle queries) is not modelled.
- `Backend::Init`, `Release`, `InitContext`, `ReleaseContext`, `BeginFrame`, `EndFrame`, `RenderSceneForAllContexts`, `RenderSceneForContext`, `OnResizeSurface` and `CreateResources` are not modelled. They are declared in sources/Backend/Backend.h; the source file that defines their bodies is not part of this model. The frame loop counts `RenderSceneForAllContexts` calls, and `ShutdownExample` only releases `g_backend`.
- The `WITH_IMGUI` call to `g_backend->Init()` in `InitExample`, the input listeners, logging, and the unloading of the render system are not modelled. They are windowing and I/O.
- The frame loop's condition (`ProcessEvents`, the Escape key, `IsAnyWindowOpen`) is windowing I/O. It is modelled as the number of iterations it allows.
- The Direct3D 11, Vulkan and OpenGL backends and the Win32 platform glue are not modelled. They only forward to ImGui's platform and renderer bindings.
- The view-projection and model-rotation matrices in sources/Globals.cpp are not modelled. They are single-precision floating-point code.
- Which backend files are linked together is not modelled. `Backend.h` (lines 41-66) declares a non-virtual `Init()`, `BeginFrame(WindowContext&)` and a seven-argument `CreateResources`. `Direct3D12Backend.cpp` matches it. The other variant files override `Init()`, `BeginFrame()`, `InitImGui`, `NextFrame` or `DrawFrame`, or call a one-argument `CreateResources`, so they are written against different versions of that interface. `ExitStatusOfRegistrations` holds for any set of linked registrations. `AnyStaticInitOrder`, `FileOrderWinner`, `SwappedOrderWinner`, `DefaultBackendFound` and `RequestedBackendFound` assume that exactly these seven registrations, and no others, are linked. A build that also links a backend not part of this model (a Metal backend on macOS, say) is not covered by them.
- The link order of the `REGISTER_BACKEND` static objects is not modelled. The program does not determine it, so every order is allowed.
- C strings are modelled by their characters before the terminating NUL, and a null pointer by `None`. Building for Windows (`_WIN32` in `main`, `LLGL_OS_WIN32` in `CreateLLGLBackend`) is treated as one platform.
