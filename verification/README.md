# Ghost Engine 3D core, modelled in Dafny

Ghost Engine 3D is a small Direct3D 11 tutorial engine. This project models the engine's core and proves properties about that model.

The core consists of:
- the camera input controller;
- the expansion of OBJ faces into vertex and index lists;
- the vertex and constant buffers, with their layout arithmetic;
- the graphics engine's device set-up with driver fallback, its shader factories and the shader compiler wrappers;
- the swap chain;
- the immediate device context;
- the application window, which runs the per-frame call sequence and keeps the timers.

## How Direct3D is modelled

Direct3D and DXGI are modelled as abstract state (`Driver.Driver`), because their behaviour cannot be seen:
- Every call the engine makes is appended to a log of `Event`s.
- Each created object gets the next number. A refused creation writes a null handle.
- Whether the driver accepts a request is a `bool` parameter of the call.
- A buffer's bytes are kept in a map from object number to contents.
- `LiveIds` replays the log and gives the objects that have been created and not released since. Leak and double-release properties are stated with it.

The immediate context's bound pipeline is a record with one field per pipeline slot:
- the render target;
- the viewport;
- the input buffers and layout;
- the topology;
- the shaders;
- the constant buffers.

`Context.Apply` says how one call changes that record, and `Context.Replay` folds `Apply` over a run of calls.

Each source file becomes one module:

| Module | Source file |
|---|---|
| `CameraInput` | `Input.cpp`/`Input.h` |
| `Mesh` | `MeshModel.cpp` |
| `VertexBuffers` | `VertexBuffer.cpp` |
| `ConstantLayout` | the struct in `ConstantBuffer.h` |
| `ConstantBuffers` | `ConstantBuffer.cpp` |
| `Engine` | `GraphicsEngine.cpp` |
| `Swap` | `SwapChain.cpp` |
| `Context` | `DeviceContext.cpp` |
| `App` | `AppWindow.cpp` |

`Base` holds the shared types: bytes, the 32-bit unsigned conversion `U32`, `Option`, `Result` and vectors. `Driver` holds the driver state.

The source files come from different stages of the tutorial and do not always agree with each other. Each file is modelled as it is written. Points where the code behaves differently from what a reader might expect:
- **Malformed mesh data.** A mesh whose attribute indices are out of range, or that has no corners at all, does not raise an error. Reading it is undefined behaviour: an out-of-range read or `&list[0]` on an empty vector. `Mesh.Load` returns `Undefined` for these cases rather than `Failed`.
- **Constant buffer update size.** `ConstantBuffer::update` does not check the payload size. The driver copies as many bytes as the buffer holds, so the model requires the data to be at least that long rather than exactly that long.
- **The frame.** `AppWindow::onUpdate` does not read the camera, bind a texture or draw an overlay. It also computes the frame time after `present`. `App.Frame` is exactly the calls the code makes.
- **Mouse input.** The mouse-drag handlers of `Input` have no bodies, so the mouse state never drives an axis.
- **Resize.** `Swap_Resize` has no same-size shortcut.

## Model

| member | source | states |
|---|---|---|
| CameraInput.Key | Ghost_Engine_3D/Input.cpp:74-313 | each axis is driven by its own key code (W, S, A, D, Q, Y, O, P, I, K), and every code indexes the 256-entry key table |
| CameraInput.RampRule | Ghost_Engine_3D/Input.cpp:74-93 | a held axis gets min(speed + 0.01·t, 0.3·t) and a released one max(speed − 0.006·t, 0); so a held step ends at most at the cap, a released step never goes negative and never speeds up, and with t ≥ 0 no step makes a non-negative speed negative |
| CameraInput.IntegrateSeparatesAxes | Ghost_Engine_3D/Input.cpp:72-335 | translation axes move only the position, rotation axes turn only yaw and pitch, roll never changes, and a zero speed leaves the pose as it was |
| CameraInput.DriveSpeed | Ghost_Engine_3D/Input.cpp:72-97 | one `*Move` step changes only its own axis speed, by the ramp rule |
| CameraInput.DrivePose | Ghost_Engine_3D/Input.cpp:95-96 | a `*Move` step moves the camera by the speed it has just computed, not the old one |
| CameraInput.ApplyAxesSpeed | Ghost_Engine_3D/Input.cpp:58-70 | driving a list of distinct axes ramps each listed axis exactly once and leaves the others alone |
| CameraInput.UpdateOrderIsComplete | Ghost_Engine_3D/Input.cpp:58-70 | `Update` drives ten distinct axes, which are all of them |
| CameraInput.UpdateSpeed | Ghost_Engine_3D/Input.cpp:58-70 | after one `Update`, every axis speed is its own ramp of its old speed by its own key, whatever the other axes did |
| CameraInput.UpdateSpeedBounds | Ghost_Engine_3D/Input.cpp:79-92 | with time ≥ 0 and non-negative speeds, `Update` keeps every speed ≥ 0, and every held axis ends at ≤ 0.3·time |
| CameraInput.DriveAtRest | Ghost_Engine_3D/Input.cpp:85-96 | a released axis of a camera at rest changes nothing |
| CameraInput.ApplyAxesAtRest | Ghost_Engine_3D/Input.cpp:58-70 | with no key held and all speeds zero, any run of axis steps leaves the camera as it was |
| CameraInput.FramesAtRest | Ghost_Engine_3D/Input.cpp:85-96 | with no axis key held and all speeds zero, any number of updates leaves the pose and the speeds unchanged |
| CameraInput.InitialCameraStaysWithoutInput | Ghost_Engine_3D/Input.h:84-90 | from the initial state at (1, 0, −2) with no rotation, ten frames without input leave the camera there |
| CameraInput.FramesSpeed | Ghost_Engine_3D/Input.cpp:58-70 | over n updates each axis speed follows its own n-step ramp, independent of the other axes and of the pose |
| CameraInput.HeldForFrames | Ghost_Engine_3D/Input.cpp:74-83 | holding a key for n frames from rest gives speed min(n·0.01·t, 0.3·t) |
| CameraInput.ReleasedForFrames | Ghost_Engine_3D/Input.cpp:85-93 | releasing a key for n frames takes speed s to max(s − n·0.006·t, 0) |
| CameraInput.CameraHeldForFrames | Ghost_Engine_3D/Input.cpp:74-83 | the held-for-n-frames speed, stated for the camera's own axis after n updates from rest |
| CameraInput.CameraReleasedForFrames | Ghost_Engine_3D/Input.cpp:85-93 | the released-for-n-frames speed, stated for the camera's own axis after n updates |
| CameraInput.UpdateSteps | Ghost_Engine_3D/Input.cpp:58-70 | `Update` is the ten `*Move` steps in source order, and the speed an axis gets at its own step is the speed it still has at the end of the update |
| CameraInput.UpdateRotation | Ghost_Engine_3D/Input.cpp:233-335 | one update changes yaw by 3.141·(right − left) and pitch by 3.141·(down − up) of the new speeds, and never changes roll |
| CameraInput.TranslationSteps | Ghost_Engine_3D/Input.cpp:72-231 | the six translation steps add up to linear height change and to forward and sideways moves along the cosine and sine of the yaw |
| CameraInput.RotationsKeepPosition | Ghost_Engine_3D/Input.cpp:233-335 | the four rotation steps never move the position |
| CameraInput.TranslationPoses | Ghost_Engine_3D/Input.cpp:58-231 | the poses between the six translation steps each follow from the previous pose and the new speed, and the final position is the one after the sixth step |
| CameraInput.UpdateTranslation | Ghost_Engine_3D/Input.cpp:72-231 | one update moves the height by 3.141·(up − down), and moves horizontally along the yaw from before the update, because the rotations run after the translations |
| CameraInput.Input.constructor | Ghost_Engine_3D/Input.cpp:30-37 | all 256 keys start released, the camera at (1, 0, −2) with no rotation and all speeds zero, and the mouse not clicked at (0, 0) with no drag |
| CameraInput.Input.KeyDown | Ghost_Engine_3D/Input.cpp:39-43 | marks key `value` pressed and changes no other key |
| CameraInput.Input.KeyUp | Ghost_Engine_3D/Input.cpp:45-49 | marks key `value` released and changes no other key |
| CameraInput.Input.Update | Ghost_Engine_3D/Input.cpp:58-70 | the camera fields become UpdateCamera of the old ones; the keys and the mouse state are untouched |
| CameraInput.Input.TranslationMoves | Ghost_Engine_3D/Input.cpp:60-65 | the first six calls of `Update` drive the six translation axes in order |
| CameraInput.Input.RotationMoves | Ghost_Engine_3D/Input.cpp:66-69 | the last four calls of `Update` complete the ten axes in order |
| CameraInput.Input.ForwardMove | Ghost_Engine_3D/Input.cpp:72-97 | the W axis: its speed ramps and the camera moves along (sin yaw, cos yaw) |
| CameraInput.Input.BackwardMove | Ghost_Engine_3D/Input.cpp:99-124 | the S axis: its speed ramps and the camera moves against (sin yaw, cos yaw) |
| CameraInput.Input.HorizontalLeftMove | Ghost_Engine_3D/Input.cpp:127-152 | the A axis: its speed ramps and the camera moves sideways to the left |
| CameraInput.Input.HorizontalRightMove | Ghost_Engine_3D/Input.cpp:154-179 | the D axis: its speed ramps and the camera moves sideways to the right |
| CameraInput.Input.UpMove | Ghost_Engine_3D/Input.cpp:181-205 | the Q axis: its speed ramps and the height rises by 3.141·speed |
| CameraInput.Input.DownMove | Ghost_Engine_3D/Input.cpp:207-231 | the Y axis: its speed ramps and the height falls by 3.141·speed |
| CameraInput.Input.LeftRotateMove | Ghost_Engine_3D/Input.cpp:233-257 | the O axis: its speed ramps and the yaw falls by 3.141·speed |
| CameraInput.Input.RightRotateMove | Ghost_Engine_3D/Input.cpp:259-283 | the P axis: its speed ramps and the yaw rises by 3.141·speed |
| CameraInput.Input.UpRotateMove | Ghost_Engine_3D/Input.cpp:285-309 | the I axis: its speed ramps and the pitch falls by 3.141·speed |
| CameraInput.Input.DownRotateMove | Ghost_Engine_3D/Input.cpp:311-335 | the K axis: its speed ramps and the pitch rises by 3.141·speed |
| Mesh.ShapeVertices | Ghost_Engine_3D/MeshModel.cpp:81-112 | one vertex per corner visited in a shape |
| Mesh.ShapeIndices | Ghost_Engine_3D/MeshModel.cpp:108 | one index per corner visited in a shape |
| Mesh.AllVertices | Ghost_Engine_3D/MeshModel.cpp:74-114 | the vertex list has exactly one entry per face corner of all shapes, with no sharing |
| Mesh.AllIndices | Ghost_Engine_3D/MeshModel.cpp:74-114 | the index list has exactly one entry per face corner of all shapes, so it is as long as the vertex list |
| Mesh.ExpandFaces | Ghost_Engine_3D/MeshModel.cpp:74-114 | the nested loop builds exactly AllVertices and AllIndices, both as long as the total corner count |
| Mesh.ExpandShape | Ghost_Engine_3D/MeshModel.cpp:76-113 | the loop over one shape's faces visits its corners in order, each with its position in the shape as index |
| Mesh.Load | Ghost_Engine_3D/MeshModel.cpp:47-130 | construction throws exactly when the parser failed or reported an error. Out-of-range attribute reads or an empty list are undefined. Otherwise the vertex buffer is requested with stride `sizeof(VertexMesh)` and the count of the vertex list, and the index buffer with the index list and its count |
| Mesh.ShapeSlot | Ghost_Engine_3D/MeshModel.cpp:74-114 | the entries of shape i lie after all corners of earlier shapes, in both lists |
| Mesh.IndexRestartsPerShape | Ghost_Engine_3D/MeshModel.cpp:76-108 | the index written for corner p of any shape is p: indices restart at 0 in every shape while the vertex list keeps growing |
| Mesh.CornerVertex | Ghost_Engine_3D/MeshModel.cpp:88-106 | the vertex at corner p of shape i is built from that corner's own index entry |
| Mesh.FaceCorner | Ghost_Engine_3D/MeshModel.cpp:84-88 | corner k of face j reads the index entry at the sum of the earlier face sizes plus k |
| Mesh.NormalsNotRead | Ghost_Engine_3D/MeshModel.cpp:91-102 | the vertex list is the same whatever the normals array holds |
| Mesh.TriangleCorners | Ghost_Engine_3D/MeshModel.cpp:81-86 | a shape of F triangles has 3F corners, so it adds 3F vertices and 3F indices |
| Mesh.TwoTrianglesShareIndices | Ghost_Engine_3D/MeshModel.cpp:76-108 | two one-triangle shapes give indices 0, 1, 2, 0, 1, 2: the second triangle's indices name the first triangle's vertices |
| VertexBuffers.PackedOrder | Ghost_Engine_3D/VertexBuffer.cpp:86-88 | in a packed layout no two attributes overlap, and they lie in order |
| VertexBuffers.VertexLayoutPacked | Ghost_Engine_3D/VertexBuffer.cpp:83-91 | POSITION, COLOR 0 and COLOR 1 are three 12-byte attributes at 0, 12 and 24, contiguous, and they end at byte 36 |
| VertexBuffers.ByteWidth | Ghost_Engine_3D/VertexBuffer.cpp:64 | the requested byte width is a 32-bit value |
| VertexBuffers.ByteWidthExact | Ghost_Engine_3D/VertexBuffer.cpp:64 | without 32-bit overflow the byte width is exactly stride × count |
| VertexBuffers.ByteWidthWraps | Ghost_Engine_3D/VertexBuffer.cpp:64 | with overflow the product wraps: 65536 × 65536 asks for 0 bytes |
| VertexBuffers.VertexBuffer.constructor | Ghost_Engine_3D/VertexBuffer.cpp:33-35 | a new vertex buffer holds no buffer and no layout |
| VertexBuffers.VertexBuffer.Load | Ghost_Engine_3D/VertexBuffer.cpp:56-99 | releases the held buffer and layout, if set, before creating anything. It records stride and count even when it then fails. It creates the buffer from the first ByteWidth bytes, then the layout. It returns true exactly when both creations succeed. A failed buffer creation leaves the old, released layout pointer in place |
| VertexBuffers.VertexBuffer.LoadResetting | Ghost_Engine_3D/VertexBuffer.cpp:56-99 | the same calls and result as Load, but the object afterwards holds only live, distinct driver objects |
| VertexBuffers.VertexBuffer.Release | Ghost_Engine_3D/VertexBuffer.cpp:106-112 | releases the layout and then the buffer, and reports success; no object is created and no memory changes |
| VertexBuffers.StaleLayoutReleasedTwice | Ghost_Engine_3D/VertexBuffer.cpp:59-80 | load, failed load, load: the first layout is released twice |
| VertexBuffers.ResettingReleasesOnce | Ghost_Engine_3D/VertexBuffer.cpp:59-80 | the same three loads with the pointers cleared release the first layout once |
| ConstantLayout.AlignUp | Ghost_Engine_3D/ConstantBuffer.h:56-61 | the least multiple of the alignment that is not below the given size |
| ConstantLayout.Offset | Ghost_Engine_3D/ConstantBuffer.h:62-71 | every member starts at a 4-byte-aligned offset |
| ConstantLayout.SizeOf | Ghost_Engine_3D/ConstantBuffer.h:61-71 | the struct size is a multiple of 16, and it is the least such size not below the end of the last member |
| ConstantLayout.MembersDisjoint | Ghost_Engine_3D/ConstantBuffer.h:62-71 | members lie in declaration order and never overlap |
| ConstantLayout.MemberInside | Ghost_Engine_3D/ConstantBuffer.h:62-71 | every member lies inside the payload |
| ConstantLayout.ConstantTypeOffset | Ghost_Engine_3D/ConstantBuffer.h:64-70 | for a matrix size that is a multiple of 4, there is no padding between members. The three matrices are back to back, followed by time, colour, power and light at 0, 4, 16 and 20 bytes past them |
| ConstantLayout.ConstantTypeEnd | Ghost_Engine_3D/ConstantBuffer.h:64-70 | the payload ends 32 bytes after the three matrices |
| ConstantLayout.ConstantTypeSize | Ghost_Engine_3D/ConstantBuffer.h:61-71 | the struct size is 3·m + 32 rounded up to a multiple of 16 |
| ConstantLayout.ConstantTypeOrdered | Ghost_Engine_3D/ConstantBuffer.h:64-70 | the seven members have strictly increasing offsets in declaration order, each starting where the previous one ends |
| ConstantLayout.ConstantTypeWithFloatMatrices | Ghost_Engine_3D/ConstantBuffer.h:61-71 | with 64-byte matrices the struct is 224 bytes, fourteen 16-byte registers |
| ConstantBuffers.ConstantBuffer.constructor | Ghost_Engine_3D/ConstantBuffer.h:48 | the buffer handle starts null |
| ConstantBuffers.NewConstantBuffer | Ghost_Engine_3D/ConstantBuffer.cpp:49-67 | the opening release does nothing because the handle is still null. One buffer of exactly `size_buffer` bytes is created, holding the first `size_buffer` bytes of the data. The constructor throws exactly when the driver refuses, and then no memory changes and no object number is used |
| ConstantBuffers.ConstantBuffer.Update | Ghost_Engine_3D/ConstantBuffer.cpp:87-90 | the whole buffer is overwritten with the new data; its size and handle are unchanged, and nothing else in driver memory changes |
| ConstantBuffers.UpdateTwice | Ghost_Engine_3D/ConstantBuffer.cpp:87-90 | the last write wins: after two updates the buffer holds the second data, at the original size, and nothing is created |
| ConstantBuffers.ConstantBuffer.Destroy | Ghost_Engine_3D/ConstantBuffer.cpp:93-97 | releases the buffer exactly when the handle is set |
| Swap.ViewsOutcome | Ghost_Engine_3D/SwapChain.cpp:173-228 | the view steps throw at the first refused step, in the order back buffer, render-target view, depth texture, depth-stencil view. They complete exactly when all four steps are accepted |
| Swap.ViewsCreated | Ghost_Engine_3D/SwapChain.cpp:173-228 | the view steps obtain one object per accepted step up to the first refusal: four exactly when all are accepted, none when the back buffer is refused |
| Swap.ViewsLogLive | Ghost_Engine_3D/SwapChain.cpp:173-228 | the back buffer and the depth texture do not outlive the steps: afterwards, exactly the views that were created are alive in addition to what was alive before |
| Swap.DepthTextureSized | Ghost_Engine_3D/SwapChain.cpp:196-218 | every depth texture requested has exactly the given width and height, format D24S8 and depth-stencil binding |
| Swap.ResizeWithoutViews | Ghost_Engine_3D/SwapChain.cpp:144-153 | after both views are released, neither is alive when the buffers are resized |
| Swap.SwapChain.CreateViews | Ghost_Engine_3D/SwapChain.cpp:89-136 | the four view steps with their messages: the first refusal throws, and a view that was never reached keeps its old handle |
| Swap.SwapChain.LoadViews | Ghost_Engine_3D/SwapChain.cpp:173-228 | the four view steps with the "Load …" messages |
| Swap.SwapChain.Resize | Ghost_Engine_3D/SwapChain.cpp:144-153 | always releases both views, then resizes, then loads the views again. It has no same-size shortcut and ignores the resize result; a failure surfaces only as the throw from loading |
| Swap.SwapChain.Present | Ghost_Engine_3D/SwapChain.cpp:160-165 | presents with sync interval 1 exactly when `vsync` is set, and always reports success |
| Swap.SwapChain.Fullscreen | Ghost_Engine_3D/SwapChain.cpp:167-171 | resizes first; the fullscreen state is set only when the resize returned. The views and the object numbers used are those of the resize, and buffer memory is unchanged |
| Swap.SwapChain.Destroy | Ghost_Engine_3D/SwapChain.cpp:231-236 | releases the swap chain and both views |
| Swap.NewSwapChain | Ghost_Engine_3D/SwapChain.cpp:62-137 | asks for one RGBA8 back buffer of the window's size, at 60/1 Hz, windowed and single-sample, then runs the view steps. It throws at the first refused step, in the order swap chain, back buffer, render-target view, depth texture, depth-stencil view |
| Context.ApplySetsOneSlot | Ghost_Engine_3D/DeviceContext.cpp:59-156 | a binding call changes exactly its own pipeline slot, to what it names; clears and draws change no slot |
| Context.ReplayLastWins | Ghost_Engine_3D/DeviceContext.cpp:59-156 | after a run of calls, a slot holds what the last call binding it named, or what it held before if no call binds it |
| Context.DeviceContext.constructor | Ghost_Engine_3D/DeviceContext.cpp:37-39 | wraps the immediate context, with nothing bound |
| Context.DeviceContext.ClearRenderTargetColor | Ghost_Engine_3D/DeviceContext.cpp:59-68 | clears the colour to (r, g, b, a) and depth and stencil to 1 and 0, then binds that swap chain's two views as the render target |
| Context.DeviceContext.SetVertexBuffer | Ghost_Engine_3D/DeviceContext.cpp:70-76 | binds input slot 0 with the buffer's recorded stride and offset 0, then its input layout |
| Context.DeviceContext.SetIndexBuffer | Ghost_Engine_3D/DeviceContext.cpp:78-81 | binds the index buffer as 32-bit unsigned at offset 0 |
| Context.DeviceContext.DrawTriangleList | Ghost_Engine_3D/DeviceContext.cpp:89-93 | sets the triangle-list topology before drawing |
| Context.DeviceContext.DrawIndexedTriangleList | Ghost_Engine_3D/DeviceContext.cpp:96-100 | sets the triangle-list topology, and passes the start index location before the start vertex, so the wrapper's second and third arguments swap places |
| Context.DeviceContext.DrawTriangleStrip | Ghost_Engine_3D/DeviceContext.cpp:107-111 | sets the triangle-strip topology before drawing |
| Context.DeviceContext.SetViewportSize | Ghost_Engine_3D/DeviceContext.cpp:116-124 | a viewport at the origin of the given size, with depth range [0, 1] |
| Context.DeviceContext.SetVertexShader | Ghost_Engine_3D/DeviceContext.cpp:126-129 | changes only the vertex-stage shader |
| Context.DeviceContext.SetPixelShader | Ghost_Engine_3D/DeviceContext.cpp:131-134 | changes only the pixel-stage shader |
| Context.DeviceContext.SetVertexConstantBuffer | Ghost_Engine_3D/DeviceContext.cpp:148-151 | binds only vertex-stage constant slot 0; the shader argument is ignored |
| Context.DeviceContext.SetPixelConstantBuffer | Ghost_Engine_3D/DeviceContext.cpp:153-156 | binds only pixel-stage constant slot 0; the shader argument is ignored |
| Context.DeviceContext.Release | Ghost_Engine_3D/DeviceContext.cpp:158-163 | releases the immediate context and reports success |
| Engine.FirstSuccessFrom | Ghost_Engine_3D/GraphicsEngine.cpp:86-93 | the loop position reached: every type before it was refused, and it is granted unless the loop ran out |
| Engine.FirstSuccess | Ghost_Engine_3D/GraphicsEngine.cpp:86-97 | the first granted driver type in the order hardware, WARP, reference; it runs out exactly when all three are refused |
| Engine.InitTriesInOrder | Ghost_Engine_3D/GraphicsEngine.cpp:70-97 | `init` asks for at most three devices, in the order hardware, WARP, reference. It stops at the first one granted, and every earlier request was refused |
| Engine.CreateDxgiChain | Ghost_Engine_3D/GraphicsEngine.cpp:113-115 | the DXGI device, its adapter and the adapter's factory are obtained in that order |
| Engine.CreateDevice | Ghost_Engine_3D/GraphicsEngine.cpp:86-93 | one device request per type until one is granted; a refused request leaves device and context null |
| Engine.GraphicsEngine.constructor | Ghost_Engine_3D/GraphicsEngine.cpp:42-44 | a new engine holds no objects |
| Engine.GraphicsEngine.Init | Ghost_Engine_3D/GraphicsEngine.cpp:68-118 | returns false exactly when every driver type was refused, leaving device and context null. Otherwise it wraps the immediate context, obtains the DXGI chain, and returns true |
| Engine.GraphicsEngine.Release | Ghost_Engine_3D/GraphicsEngine.cpp:121-132 | releases the DXGI device, adapter and factory, the immediate context and then the device, and reports success |
| Engine.GraphicsEngine.ImmediateDeviceContext | Ghost_Engine_3D/GraphicsEngine.cpp:147-150 | returns the wrapper `init` made |
| Engine.GraphicsEngine.CreateShader | Ghost_Engine_3D/GraphicsEngine.cpp:178-215 | returns null exactly when the object's `init` fails, after releasing the partial object, which holds nothing; otherwise it returns the new object, which took the next object number |
| Engine.GraphicsEngine.Compile | Ghost_Engine_3D/GraphicsEngine.cpp:231-259 | succeeds exactly when the compiler does. On failure it releases the error blob, if there is one, and leaves the caller's pointer and size unwritten. On success it writes the blob and its size, and keeps a warnings blob unreleased. The device, context and DXGI handles are unchanged, and one object number is used per blob the compiler returned |
| Engine.CompileLeavesAlive | Ghost_Engine_3D/GraphicsEngine.cpp:231-259 | a failed compilation leaves nothing new alive; a successful one leaves the code blob alive, plus the error blob when the compiler reported warnings |
| Engine.WarningsOutliveCode | Ghost_Engine_3D/GraphicsEngine.cpp:231-264 | releasing the code blob of a compilation with warnings leaves the warnings blob as the only live object |
| Engine.CompileWithWarnings | Ghost_Engine_3D/GraphicsEngine.cpp:231-264 | `compileVertexShader` with warnings followed by `releaseCompiledShader` leaves the error blob alive |
| Engine.GraphicsEngine.CompileVertexShader | Ghost_Engine_3D/GraphicsEngine.cpp:231-244 | compiles for `vs_5_0` |
| Engine.GraphicsEngine.CompilePixelShader | Ghost_Engine_3D/GraphicsEngine.cpp:246-259 | compiles for `ps_5_0` |
| Engine.GraphicsEngine.ReleaseCompiledShader | Ghost_Engine_3D/GraphicsEngine.cpp:261-264 | releases the blob only when it is set, and does not reset the pointer |
| Engine.ReleaseCompiledShaderTwice | Ghost_Engine_3D/GraphicsEngine.cpp:261-264 | because the pointer is not reset, two calls after one compile release the same blob twice |
| Engine.FailuresKeepLive | Ghost_Engine_3D/GraphicsEngine.cpp:86-97 | refused device requests create nothing |
| Engine.ChainReleased | Ghost_Engine_3D/GraphicsEngine.cpp:121-132 | `release` releases exactly the five objects a successful `init` created |
| Engine.InitThenRelease | Ghost_Engine_3D/GraphicsEngine.cpp:68-132 | `init` followed by `release` leaves no driver object alive; a failed `init` never created one |
| Engine.EngineHolder.constructor | Ghost_Engine_3D/GraphicsEngine.cpp:272-276 | no engine exists before the first `get` |
| Engine.EngineHolder.Get | Ghost_Engine_3D/GraphicsEngine.cpp:272-276 | the first call makes a fresh, empty engine, and every later call returns that same one |
| Engine.GetIsSingleton | Ghost_Engine_3D/GraphicsEngine.cpp:272-276 | an example of EngineHolder.Get: two calls of `get` return the same engine |
| App.CubeIndicesInRange | Ghost_Engine_3D/AppWindow.cpp:144-189 | the cube has 8 vertices and 36 indices, 12 triangles × 3, and every index is below 8 |
| App.CubeTrianglesProper | Ghost_Engine_3D/AppWindow.cpp:165-185 | no cube triangle repeats a vertex |
| App.CubeCorners | Ghost_Engine_3D/AppWindow.cpp:144-159 | the vertices are the eight distinct corners of the unit cube centred on the origin |
| App.CubeVertexMatchesLayout | Ghost_Engine_3D/AppWindow.cpp:34-39 | the cube vertex (three `Vector3D`s) is exactly the 36 bytes the vertex-buffer layout declares |
| App.DeltaTime | Ghost_Engine_3D/AppWindow.cpp:268-272 | the frame time is 0 while there is no previous tick, otherwise (new − old)/1000. It is never negative |
| App.DeltaAcrossWrap | Ghost_Engine_3D/AppWindow.cpp:272 | the unsigned difference gives the true elapsed time even when the tick counter wraps past 2^32 |
| App.NextPos | Ghost_Engine_3D/AppWindow.cpp:67-69 | the position counter grows by dt/10 and is reset to 0 once it exceeds 1, so it is ≤ 1 after every frame |
| App.PosStaysInUnit | Ghost_Engine_3D/AppWindow.cpp:67-69 | with non-negative frame times, the position counter stays in [0, 1] after any number of frames |
| App.ScaleAccumulates | Ghost_Engine_3D/AppWindow.cpp:75 | the scale counter is never reset: it grows by the total frame time / 0.55 |
| App.FrameBindsEverything | Ghost_Engine_3D/AppWindow.cpp:236-263 | a frame is 15 calls. The indexed draw of the index count comes after the constant update and before the present. By the draw every pipeline slot holds what this frame bound, whatever earlier frames left |
| App.AppWindow.constructor | Ghost_Engine_3D/AppWindow.cpp:57-59 | the window holds its objects, with the timers and counters at zero |
| App.AppWindow.UpdateQuadPosition | Ghost_Engine_3D/AppWindow.cpp:61-122 | advances both counters by the last frame time, and writes the frame's constants over the whole constant buffer |
| App.AppWindow.BeginFrame | Ghost_Engine_3D/AppWindow.cpp:236-241 | clear, then viewport: binds the swap chain's views and a viewport of the client size |
| App.AppWindow.DrawFrame | Ghost_Engine_3D/AppWindow.cpp:247-263 | binds the constants to VS then PS, the shaders, the vertex and index buffers, then draws and presents |
| App.AppWindow.BindShaders | Ghost_Engine_3D/AppWindow.cpp:247-252 | the constants to both stages, then the vertex and pixel shaders |
| App.AppWindow.BindInputsAndDraw | Ghost_Engine_3D/AppWindow.cpp:255-263 | the vertex buffer and its layout, the index buffer, the indexed draw and `present(true)` |
| App.AppWindow.OnUpdate | Ghost_Engine_3D/AppWindow.cpp:230-273 | one frame's calls in source order, after which every slot holds what this frame bound. The constant buffer is overwritten with the frame's constants and no other memory changes; no object is created, and the engine keeps its immediate context. Then the timing update: the previous tick becomes the old one and the frame time follows DeltaTime. The counters advance by the previous frame time |
| App.AppWindow.OnSize | Ghost_Engine_3D/AppWindow.cpp:277-281 | resizes the swap chain to the client width and height, keeping the same swap chain. The views become the newly created ones, a refused view is null and one never reached keeps its released handle; buffer memory is unchanged |
| App.AppWindow.OnKeyDown | Ghost_Engine_3D/AppWindow.cpp:283-286 | presses only that key in the camera input |
| App.AppWindow.OnKeyUp | Ghost_Engine_3D/AppWindow.cpp:288-291 | releases only that key in the camera input |
| App.AppWindow.OnDestroy | Ghost_Engine_3D/AppWindow.cpp:293-306 | releases in the order vb, ib, cb, swap chain, vs, ps, and then the engine last; it creates nothing and changes no buffer memory |
| App.ReleasingRemoves | Ghost_Engine_3D/AppWindow.cpp:298-305 | a run of releases removes exactly the released objects from the live set |
| App.TeardownReleases | Ghost_Engine_3D/AppWindow.cpp:298-305 | `onDestroy` only releases, and it releases every object the window and the engine hold |
| App.TeardownLeavesNothing | Ghost_Engine_3D/AppWindow.cpp:293-306 | after `onDestroy`, none of the window's objects, the constant buffer or the engine's five objects is alive, and nothing new is alive |

## Left out

- Window.cpp and Window.h are not part of this model. They hold Win32 window creation and the message pump. The client rectangle's width and height are parameters of `OnUpdate` and `OnSize`.
- `AppWindow::onCreate` is not modelled as a sequence of calls, only its constant cube data. It calls parameterless factories followed by `init`/`load` methods, and ConstantBuffer.cpp and SwapChain.cpp do not have those methods (they use constructors). `App.AppWindow.constructor` takes the created objects as arguments.
- The matrices built by `updateQuadPosition` (`setRotationZ`, `setRotationY`, `setOrthoLH`) are not modelled. Matrix4x4 is not part of this model. The constant bytes are a parameter of `UpdateQuadPosition`, and the size of Matrix4x4 is a parameter of the struct layout. `ConstantLayout` takes Matrix4x4 to be made of `float`s: 4-byte aligned, with a size that is a multiple of 4 (`ConstantTypeOffset` and the lemmas after it require `m % 4 == 0`).
- `GetTickCount` is a parameter (`tick`). The tick fields are taken to be 32-bit unsigned, and the tick fields, `m_delta_time`, `m_delta_pos` and `m_delta_scale` are taken to start at zero, because the window's header, where their initial values would be, is not part of this model.
- `sinf` and `cosf` are a `Trig` parameter with no properties.
- Float rounding is not modelled: speeds, poses, timers and the colour are `real`.
- `Input::MouseDown` is not modelled: it only beeps. `RMouseDown`, `RMouseUp`, `MouseMove` and `MouseLeave` are declared in Input.h, but Input.cpp has no body for them. The mouse state is kept only as the initial values.
- The `Input` destructor is left out, because `delete this` in a destructor is undefined behaviour. The `delete this` of the `release()` methods is also not modelled. Release is modelled as one `Released` event per object.
- Reference counting is not modelled: one `Release()` ends an object's life in `LiveIds`.
- Engine.GraphicsEngine.Init: the DXGI device, adapter and factory queries are taken to succeed. The source does not check their results, so a failure there is not modelled.
- The allocator factories of GraphicsEngine.cpp are not modelled: `createSwapChain`, `createVertexBuffer`, `createIndexBuffer`, `createConstantBuffer` and `createInput` only call `new`. WIC image decoding in TextureShader.cpp is not part of this model.
- Shader byte code, its contents and the compiler are not modelled; the compiler's answer is a parameter. GraphicsEngine.h is not modelled: it holds declarations only.
- IndexBuffer is not part of this model. The window holds its handle and its count, and releasing it is one `Released` event.
- Engine.GraphicsEngine.CreateShader models `createTextureShader` only as far as GraphicsEngine.cpp goes, with a texture shader as one driver object. TextureShader.cpp does the work in a constructor taking the file name (TextureShader.cpp:39-64): it creates a texture (`m_picture`, line 50) and a shader-resource view on it (`m_ts`, line 58), without checking either result, and its destructor (lines 73-77) releases both. The parameterless constructor and the `init(file)` that GraphicsEngine.cpp:206-208 call are not in TextureShader.cpp, so what a failed texture shader's partial object holds is assumed (nothing), not read from the code.
- VertexShader and PixelShader are represented by `Engine.ShaderObject`, and their `release()` is one `Released` event each. When `CreateShader`'s `init` fails, the partial object holds no driver object, so its `release()` is not a driver call and leaves no event in the log.
- CameraInput.Input.KeyDown and CameraInput.Input.KeyUp (and App.AppWindow.OnKeyDown and App.AppWindow.OnKeyUp, which forward to them) require the key to be below 256. Input.cpp:42 and Input.cpp:48 index the 256-entry key table without a check, so a larger key is an out-of-bounds write, which is undefined behaviour and not modelled.
- App.AppWindow.OnDestroy: `m_cb->release()` and `m_swap_chain->release()` name methods that ConstantBuffer.h and SwapChain.cpp do not declare. The model uses their destructors instead (`ConstantBuffer::~ConstantBuffer` and `SwapChain::~SwapChain`). `m_input->release()` releases no driver object.
- Swap.NewSwapChain: when a step after the swap chain throws, the objects created before it are not released. The model shows them in the log but states no leak property about them.
- `tinyobj::LoadObj` is not modelled. Its result (success flag, error string, attributes and shapes) is a parameter of `Mesh.Load`.
- The wide-to-UTF-8 path conversion is not modelled, because the parser is outside the model.
- Vector2D, Vector3D and Vector4D are data carriers only. `lerp` and `crossPro` are not modelled.
- What the driver renders or presents is outside the model; only the calls and the bound state are modelled.
- MeshModel's destructor is not modelled. Its `delete` of the two buffers releases no driver object.
- CameraInput.Input getters (`getRotX` … `getPosZ`) have no contract of their own. They read the pose fields that `CameraState` exposes.

## Findings

| source | as written | input that shows it | evidently intended | confidence | as-written member | corrected member |
|---|---|---|---|---|---|---|
| Ghost_Engine_3D/VertexBuffer.cpp:59-80 | `load` releases the held buffer and layout but does not clear the pointers; when `CreateBuffer` then fails it returns early, so `m_layout` still points at the released layout | `load` succeeds, then a `load` whose buffer creation is refused, then any further `load`: the third call releases the first layout a second time | clear both pointers after releasing them, so that every later release concerns a live object and each object is released once | not executed | VertexBuffers.StaleLayoutReleasedTwice | VertexBuffers.ResettingReleasesOnce |
