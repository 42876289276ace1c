# metl in Dafny

A model of the core of `metl`, a Rust binding to Apple's Metal graphics API,
and of the parts of its `metal-sys` layer that carry data (enum tags, option
bits, struct constructors).

The binding wraps Objective-C object pointers (`id`) in typed wrappers. Every
wrapper is built by `from_raw`, which rejects a nil pointer and then asks the
Objective-C runtime whether the object conforms to a protocol or is of a class.
Many small enums cross between a safe Rust enum and a foreign `#[repr(usize)]`
enum through a generated match table (`convertible_enum!`), a hand-written
match, or a `transmute` that keeps the discriminant.

The model's building blocks:

- `ObjC`: object pointers are naturals, `Nil` is 0, `BOOL` is a signed byte
  with `YES` = 1 and `NO` = 0, and `usize`/`NSUInteger` are the naturals below
  2^64. The runtime is a value, `Runtime(conformsTo, kindOf, classNamed)`: it
  answers whether an object conforms to a named protocol and whether it is of a
  named class, and it gives the class object registered under a name (nil when
  there is none). A message to nil answers `NO` or nil.
- `Internal`: the generator. A bridge is a list of arms (safe variant, foreign
  tag). `Into` and `From` take the first arm that matches. Round trips,
  injectivity and the full table are proved once for every list whose two
  columns are duplicate-free. Each enum in the other modules is one such list
  plus a foreign tag type that holds exactly the declared values. The module
  also has the two runtime predicates with the polarity the code gives them.
- `Raw`: `from_raw` for every wrapper, as a table from wrapper to the macro arm
  and the name that wrapper declares. `as_raw` and `into_raw` are here too.
- One module per source file for the rest. Objects whose properties the source
  changes through `&mut self` (the sampler descriptor, the render pass
  attachment descriptor, the caller's byte vector) are classes with fields.
  The loops that build vectors are methods with loop invariants. Everything
  else is functions and lemmas.

Where this model differs from a plain reading of the documentation:

- The class arm of `from_raw` returns `WrongPointerType` when the runtime says
  the object IS of the class. The doc comment promises the opposite. The model
  follows the code, and a corrected version is proved beside it (see
  Findings). The protocol arm is correct overall: `conforms_to_protocol`
  answers true when the runtime answers `NO`, and the arm rejects on true.
  So the arm accepts exactly the conforming objects.
- `SamplerDescriptor::new` and every `clone` in the class-arm wrappers unwrap a
  class-arm `from_raw`, so in the model they panic on a genuine descriptor.
- `Texture::new` and `Texture::with_pixel_format` pass `nil` into an unused
  receiver slot, and the binding sends the view message to `class("MTLTexture")`.
  "MTLTexture" names a protocol, not a class. So when no class is registered
  under that name, the message goes to nil and they yield `Err(NilPointer)`
  (see Findings).
- The library completion path builds its error from the `NSError` pointer. The
  source calls `LibraryError::from` with an `Option<NSError>`, but no such
  conversion is defined in the files. The model takes the error to carry the
  optional `NSError` and the kind `SourceError`.
- The macOS feature set enum keeps its hidden `_non_unary_compile_dummy` arm
  with tag -1, as declared.
- The depth attachment wrapper checks its class arm against the name
  `MTLRenderPathDepthAttachmentDescriptor` ("Path"). The model keeps that
  string, and `RenderPassDepthAttachmentDescriptor.ClassName` states what the
  arm then accepts.
- Dafny needs distinct constructor names within a module. So the mip filter's
  `Nearest`/`Linear` are `MipNearest`/`MipLinear`, the store action's
  `DontCare` is `StoreDontCare`, the command buffer statuses drop their
  `CommandBufferStatus` prefix, and the macOS dummy is `NonUnaryCompileDummy`.

## Model

| member | source | states |
|---|---|---|
| ObjC.WrapU64 | src/texture.rs:21-22 | a `usize` result of integer arithmetic is the value modulo 2^64, and equals it when it is in range |
| ObjC.WrapI64 | src/texture.rs:21-22 | an `isize` difference is the value modulo 2^64 in the signed range, and equals it when it is in range |
| ObjC.FromBool | src/sampler_state.rs:100-102 | `b as BOOL` is `YES` for true and `NO` for false, and nothing else |
| ObjC.ConformsToProtocolReply | src/internal.rs:32-42 | the runtime's `conformsToProtocol:` reply is `YES` exactly when the object is not nil and conforms; nil answers `NO` |
| ObjC.IsKindOfClassReply | src/internal.rs:44-48 | the `isKindOfClass:` reply is `YES` exactly when the object is not nil, a class is registered under the name, and the object is of it |
| ObjC.UnregisteredClassHasNoInstances | src/internal.rs:45-46 | when `class(name)` finds no class, the reply is `NO` for every object |
| ObjC.SendForId | metal-sys/src/protocols/mtl_texture.rs:59-61 | a message sent to nil returns nil; otherwise the receiver's answer |
| Internal.Into | src/internal.rs:14-20 | the generated `into` returns a tag that is paired with the variant in the arm list |
| Internal.From | src/internal.rs:22-28 | the generated `from` returns a variant that is paired with the tag in the arm list |
| Internal.IntoFirstMatch | src/internal.rs:14-20 | `into` returns the tag of the first arm naming the variant |
| Internal.FromFirstMatch | src/internal.rs:22-28 | `from` returns the variant of the first arm naming the tag |
| Internal.RoundTripSafe | src/internal.rs:14-28 | with distinct tags, `from(into(v)) == v` for every listed variant |
| Internal.RoundTripForeign | src/internal.rs:14-28 | with distinct variants, `into(from(t)) == t` for every listed tag |
| Internal.IntoInjective | src/internal.rs:14-20 | with distinct tags, two variants with the same tag are equal |
| Internal.Table | src/internal.rs:14-28 | with both columns distinct, every arm is what `into` and `from` compute |
| Internal.ConformsToProtocol | src/internal.rs:32-42 | `conforms_to_protocol` is true exactly when the runtime does NOT report conformance (it compares the reply with `NO`) |
| Internal.IsKindOfClass | src/internal.rs:44-48 | `is_kind_of_class` is true exactly when the object is not nil and is an instance of the class registered under the name |
| Raw.ErrorTextsDistinct | src/raw.rs:107-123 | the two `FromRawError` variants have different `Display` texts and different descriptions |
| Raw.FromRaw | src/raw.rs:41-104 | `from_raw` is `Err(NilPointer)` exactly on nil, and on success wraps exactly the input pointer |
| Raw.StoreThroughRawMut | src/raw.rs:62-65 | writing through `as_raw_mut` changes the stored pointer and nothing else |
| Raw.NilNeverQueried | src/raw.rs:47-48 | for every wrapper and every runtime, nil gives `Err(NilPointer)`, so the runtime is never asked |
| Raw.NonNilAsksValidator | src/raw.rs:49-52 | for a non-nil pointer, `WrongPointerType` exactly when the arm's validator answers true, and `Ok` otherwise |
| Raw.ProtocolArm | src/raw.rs:49-52 | protocol arm: a non-nil pointer is accepted exactly when the runtime reports conformance |
| Raw.ClassArm | src/raw.rs:81-84 | class arm as written: a non-nil pointer is rejected exactly when the runtime reports it to be of the class |
| Raw.ClassArmRejectsGenuineInstance | src/raw.rs:33-38 | a non-nil object that is of the declared class is rejected, contrary to the doc comment |
| Raw.SamplerDescriptorCounterexample | src/sampler_state.rs:147 | a runtime with a class registered as "MTLSamplerDescriptor" and a pointer that is an instance of it, which gets `WrongPointerType` |
| Raw.FromRawIntended | src/raw.rs:33-38 | corrected `from_raw`: nil still gives `NilPointer`, success still wraps the input |
| Raw.IntendedContract | src/raw.rs:33-38 | corrected `from_raw` accepts a non-nil pointer exactly when the object satisfies its declared protocol or class |
| Raw.IntendedVersusWritten | src/raw.rs:41-104 | the corrected and written versions agree on every protocol wrapper and disagree on every non-nil pointer of a class wrapper |
| Raw.RoundTrip | src/raw.rs:52-71 | after a successful `from_raw`, `as_raw` and `into_raw` give back the input pointer and the wrapper type is kept |
| Error.New | src/error.rs:10-16 | `NSError::new` is `None` exactly on nil and otherwise holds the pointer unchanged |
| Error.NewVersusFromRaw | src/error.rs:10-16 | `NSError::new` accepts whatever `from_raw` does not call nil, including pointers `from_raw` calls the wrong type |
| Library.FromRawError | src/library.rs:58-65 | the conversion from `FromRawError` has no `NSError` and the kind `FromRaw(e)` with `e` unchanged |
| Library.FromRawErrorInjective | src/library.rs:58-65 | different raw errors give different library errors |
| Library.FromNSError | src/device.rs:107-111 | a library error built from the `NSError` keeps it and has the kind `SourceError` |
| Library.NewFunctionWithName | src/library.rs:15-21 | `new_function_with_name` is `None` exactly when `from_raw` rejects the reply, so always on nil, and otherwise wraps the reply |
| Library.FunctionNames | src/library.rs:23-34 | `function_names` returns one entry per array element, entry i being the name at index i |
| Device.FromRawError | src/device.rs:253-257 | `DeviceError::from` gives `RawError` with the error unchanged |
| Device.Cause | src/device.rs:280-285 | `cause` is `None` for `ConstructionFailed` and the wrapped error for `RawError` |
| Device.DescriptionSeparatesVariants | src/device.rs:269-278 | the two variants have different descriptions |
| Device.DisplayConflatesVariants | src/device.rs:259-267 | as written, `Display` prints the same text for `RawError` as for `ConstructionFailed` |
| Device.DisplayIntendedSeparatesVariants | src/device.rs:259-267 | corrected `Display` prints different texts for the two variants |
| Device.SystemDefaultDevice | src/device.rs:24-27 | `system_default_device` is `Ok` exactly when the runtime returned non-nil, wrapping that pointer, else `ConstructionFailed` |
| Device.SystemDefaultDeviceSkipsValidation | src/device.rs:24-27 | it does no type check: a pointer `from_raw` would reject as the wrong type is still accepted |
| Device.EnumerateAllSystemDevices | src/device.rs:29-45 | the result has one entry per device in array order; entry i is `Ok(Device(obj_i))` exactly when `obj_i` is not nil, else `ConstructionFailed` |
| Device.NewDefaultLibrary | src/device.rs:90-95 | `new_default_library` is `Ok` exactly when `from_raw` accepts the library, and otherwise carries the converted raw error |
| Device.NewLibraryResult | src/device.rs:98-128 | a nil library gives the error built from the `NSError`; a non-nil library gives what `from_raw` gives |
| Device.NilLibraryIgnoresRuntime | src/device.rs:106-111 | on a nil library `from_raw` is never consulted and the error kind is `SourceError` |
| Device.NonNilLibraryIgnoresError | src/device.rs:121-126 | on a non-nil library the `NSError` pointer plays no part |
| Device.CompletionHandler | src/device.rs:136-145 | one call of the completion block sends exactly one result, classified as above |
| Device.MacOSFeatureSetTags | src/device.rs:237-245 | `OsxGpuFamily1_v1` maps to 10000 and the hidden dummy to -1, both ways |
| Device.MacOSFeatureSetRoundTrip | src/device.rs:237-245 | the macOS bridge round-trips both ways |
| Device.IOSFeatureSetTags | src/device.rs:224-235 | the i-th declared iOS feature set maps to tag i, both ways |
| Device.IOSFeatureSetRoundTrip | src/device.rs:224-235 | the iOS bridge round-trips both ways |
| Texture.TextureTypeTags | src/texture.rs:165-176 | Type1D..TypeCube map to 0..5 and Type3D to 7; tag 6 has no arm |
| Texture.TextureTypeRoundTrip | src/texture.rs:165-176 | the texture type bridge round-trips both ways |
| Texture.TextureUsageTags | src/texture.rs:178-187 | the usages map to 0, 1, 2, 4 and 0x10 |
| Texture.TextureUsageRoundTrip | src/texture.rs:178-187 | the usage bridge round-trips both ways |
| Texture.GetTextureType | src/texture.rs:84-86 | `texture_type` is the variant whose tag the texture reports |
| Texture.GetUsage | src/texture.rs:128-130 | `usage` is the variant whose tag the texture reports |
| Texture.GetSize | src/texture.rs:92-106 | `size` is the reported width, height and depth in that order |
| Texture.RootResource | src/texture.rs:124-126 | `root_resource` is `None` exactly when `from_raw` rejects the reply, in particular on nil |
| Texture.ParentTexture | src/texture.rs:132-134 | `parent_texture` is `None` exactly when `from_raw` rejects the reply, in particular on nil |
| Texture.ReplaceRegion | src/texture.rs:42-54 | `replace_region` panics exactly when `bytes_per_row` is 0, writes exactly when the length is a multiple of it, and passes its arguments unchanged |
| Texture.ReplaceRegionIgnoresRegionExtent | src/texture.rs:42-54 | the guard never consults the region: with a non-zero row length, an empty byte slice is written to a region of any extent |
| Texture.BytesNeeded | src/texture.rs:61 | the vector size is `width*height*depth` whenever that product fits in `usize` |
| Texture.Resized | src/texture.rs:61 | `Vec::resize` keeps the old prefix and fills the new tail with the value |
| Texture.ByteVec.Resize | src/texture.rs:61 | resizing the caller's vector in place gives the resized contents |
| Texture.ByteVec.ShrinkToFit | src/texture.rs:68 | `shrink_to_fit` leaves the contents unchanged |
| Texture.ByteVec.CopyFromRuntime | src/texture.rs:73-79 | the runtime's copy through the vector's pointer sets its contents and keeps its length |
| Texture.GetBytes | src/texture.rs:71-82 | `get_bytes` leaves the caller's vector exactly `width*height*depth` long, holding what the runtime's copy writes into the zero-extended buffer |
| Texture.GetBytesAtSlice | src/texture.rs:58-69 | `get_bytes_at_slice` sizes the vector the same way and leaves in it what the runtime's slice copy writes |
| Texture.LevelRange | src/texture.rs:21-22 | the level range starts at `levels.start` and ends at `levels.end` when the difference fits |
| Texture.NewRequest | metal-sys/src/protocols/mtl_texture.rs:63-70 | as written, the view request goes to the class registered as "MTLTexture", with the converted type and the level range |
| Texture.ViewConstructorsAlwaysFail | src/texture.rs:14-29 | as written, when no class is registered as "MTLTexture", `new` and `with_pixel_format` give `Err(NilPointer)` whatever a texture would answer |
| Texture.ViewConstructorsAskRegisteredClass | metal-sys/src/protocols/mtl_texture.rs:59-70 | when a class is registered as "MTLTexture", both constructors give what `from_raw` makes of that class's answer |
| Texture.New | src/texture.rs:19-29 | as written, `new` succeeds only when a class is registered as "MTLTexture" and `from_raw` accepts its answer, and then wraps that answer |
| Texture.WithPixelFormat | src/texture.rs:14-17 | as written, `with_pixel_format` succeeds only when a class is registered as "MTLTexture" and `from_raw` accepts its answer, and then wraps that answer |
| Texture.NewView | src/texture.rs:19-29 | corrected: a view is only created from a non-nil texture, and it wraps the texture's answer |
| Texture.NewViewRequest | src/texture.rs:19-29 | corrected: the request goes to the texture itself |
| Texture.NewViewSucceeds | src/texture.rs:19-29 | corrected: sent to a non-nil texture, the view is created exactly when the answer is non-nil and conforms to `MTLTexture`, and it wraps the answer |
| SamplerState.AddressModeTags | src/sampler_state.rs:149-157 | ClampToEdge, Repeat, MirrorRepeat, ClampToZero map to 0, 2, 3, 4 both ways; tag 1 has no arm |
| SamplerState.AddressModeRoundTrip | src/sampler_state.rs:149-157 | the address mode bridge round-trips both ways |
| SamplerState.MinMagFilterTags | src/sampler_state.rs:159-165 | Nearest and Linear map to 0 and 1 both ways |
| SamplerState.MinMagFilterRoundTrip | src/sampler_state.rs:159-165 | the min/mag filter bridge round-trips both ways |
| SamplerState.MipFilterTags | src/sampler_state.rs:167-174 | NotMipmapped, Nearest, Linear map to 0, 1, 2 both ways |
| SamplerState.MipFilterRoundTrip | src/sampler_state.rs:167-174 | the mip filter bridge round-trips both ways |
| SamplerState.SamplerDescriptor.constructor | metal-sys/src/classes/mtl_sampler_descriptor.rs:11-124 | a new descriptor holds the documented defaults, which lie in the anisotropy range and allow non-normalized coordinates |
| SamplerState.SamplerDescriptor.SetRAddressMode | src/sampler_state.rs:32-38 | the setter stores the mode's tag and the getter reads the mode back |
| SamplerState.SamplerDescriptor.SetSAddressMode | src/sampler_state.rs:40-46 | the setter stores the mode's tag and the getter reads the mode back |
| SamplerState.SamplerDescriptor.SetTAddressMode | src/sampler_state.rs:48-54 | the setter stores the mode's tag and the getter reads the mode back |
| SamplerState.SamplerDescriptor.SetMinFilter | src/sampler_state.rs:56-62 | the setter stores the filter's tag and the getter reads the filter back |
| SamplerState.SamplerDescriptor.SetMagFilter | src/sampler_state.rs:64-70 | the setter stores the filter's tag and the getter reads the filter back |
| SamplerState.SamplerDescriptor.SetMipFilter | src/sampler_state.rs:72-78 | the setter stores the filter's tag and the getter reads the filter back |
| SamplerState.SamplerDescriptor.LodAverage | src/sampler_state.rs:96-98 | `lod_average` is true exactly when the stored BOOL is `YES` |
| SamplerState.SamplerDescriptor.SetLodAverage | src/sampler_state.rs:100-102 | the setter stores `b as BOOL` and the getter reads `b` back |
| SamplerState.SamplerDescriptor.SetMaxAnisotropy | src/sampler_state.rs:104-110 | the anisotropy crosses unchanged both ways |
| SamplerState.SamplerDescriptor.HasNormalizedCoordinates | src/sampler_state.rs:112-114 | true exactly when the stored BOOL is `YES` |
| SamplerState.SamplerDescriptor.SetHasNormalizedCoordinates | src/sampler_state.rs:116-118 | the setter stores `b as BOOL` and the getter reads `b` back |
| SamplerState.BoolPropertyRoundTrip | src/sampler_state.rs:96-118 | a descriptor holding any BOOL other than `YES` (such as 2) reads as false in both BOOL getters, and only `YES` reads as true |
| SamplerState.New | src/sampler_state.rs:28-30 | `SamplerDescriptor::new` returns exactly when `from_raw` accepts the new object, and otherwise panics |
| SamplerState.Clone | src/sampler_state.rs:141-145 | `clone` returns exactly when the copy is non-nil and not reported to be a sampler descriptor, wrapping the copy, and otherwise panics |
| SamplerState.NewPanicsOnGenuineDescriptor | src/sampler_state.rs:28-30 | it panics exactly when allocation failed or the object is a sampler descriptor |
| SamplerState.SamplerWrapperArms | src/sampler_state.rs:23 | the sampler state uses the protocol arm and the descriptor the class arm |
| MtlResource.ResourceOptionValues | metal-sys/src/protocols/mtl_resource.rs:138-183 | default cache and shared storage are 0, write-combined is 4096, private is 131072, and the deprecated aliases equal their replacements |
| MtlResource.OptionFieldsSeparate | metal-sys/src/protocols/mtl_resource.rs:138-167 | the cache and storage flags share no bits, and each field is read back from any combination |
| Resource.StorageModeTags | src/resource.rs:45-51 | Shared and Private map to 0 and 2; tag 1 has no arm |
| Resource.StorageModeRoundTrip | src/resource.rs:45-51 | the storage mode bridge round-trips both ways |
| Resource.CpuCacheModeTags | src/resource.rs:53-59 | DefaultCache and WriteCombined map to 0 and 1 |
| Resource.CpuCacheModeRoundTrip | src/resource.rs:53-59 | the CPU cache mode bridge round-trips both ways |
| Resource.PurgeableStateTags | src/resource.rs:61-69 | KeepCurrent..Empty map to 1..4; tag 0 has no arm |
| Resource.PurgeableStateRoundTrip | src/resource.rs:61-69 | the purgeable state bridge round-trips both ways |
| Resource.SetPurgeableState | src/resource.rs:38-40 | `set_purgeable_state` sends the state's tag and returns the variant of the tag the runtime replies |
| Resource.SetPurgeableStateReportsPrevious | src/resource.rs:38-40 | when the runtime replies the previous state, that state is returned |
| Resource.ResourceArm | src/resource.rs:43 | a resource is validated through the protocol arm with "MTLResource" |
| RenderPassAttachmentDescriptor.LoadActionTags | src/render_pass_attachment_descriptor.rs:98-105 | DontCare, Load, Clear map to 0, 1, 2 both ways |
| RenderPassAttachmentDescriptor.LoadActionRoundTrip | src/render_pass_attachment_descriptor.rs:98-105 | the load action bridge round-trips both ways |
| RenderPassAttachmentDescriptor.StoreActionTags | src/render_pass_attachment_descriptor.rs:107-114 | DontCare, Store, MultisampleResolve map to 0, 1, 2 both ways |
| RenderPassAttachmentDescriptor.StoreActionRoundTrip | src/render_pass_attachment_descriptor.rs:107-114 | the store action bridge round-trips both ways |
| RenderPassAttachmentDescriptor.RenderPassAttachmentDescriptor.constructor | metal-sys/src/classes/mtl_render_pass_attachment_descriptor.rs:73-172 | a new descriptor holds the documented defaults: levels, slices and planes 0, both actions DontCare |
| RenderPassAttachmentDescriptor.RenderPassAttachmentDescriptor.Texture | src/render_pass_attachment_descriptor.rs:9-11 | `texture` is `None` exactly when `from_raw` rejects the stored pointer, in particular nil, and otherwise holds it |
| RenderPassAttachmentDescriptor.RenderPassAttachmentDescriptor.SetTexture | src/render_pass_attachment_descriptor.rs:13-15 | `set_texture` stores the texture's own pointer unchanged |
| RenderPassAttachmentDescriptor.RenderPassAttachmentDescriptor.SetLevel | src/render_pass_attachment_descriptor.rs:17-23 | the level crosses unchanged both ways |
| RenderPassAttachmentDescriptor.RenderPassAttachmentDescriptor.SetSlice | src/render_pass_attachment_descriptor.rs:25-31 | the slice crosses unchanged both ways |
| RenderPassAttachmentDescriptor.RenderPassAttachmentDescriptor.SetDepthPlane | src/render_pass_attachment_descriptor.rs:33-39 | the depth plane crosses unchanged both ways |
| RenderPassAttachmentDescriptor.RenderPassAttachmentDescriptor.SetLoadAction | src/render_pass_attachment_descriptor.rs:41-47 | the setter stores the action's tag and the getter reads the action back |
| RenderPassAttachmentDescriptor.RenderPassAttachmentDescriptor.SetStoreAction | src/render_pass_attachment_descriptor.rs:49-55 | the setter stores the action's tag and the getter reads the action back |
| RenderPassAttachmentDescriptor.RenderPassAttachmentDescriptor.ResolveTexture | src/render_pass_attachment_descriptor.rs:57-59 | `resolve_texture` is `None` exactly when `from_raw` rejects the stored pointer, in particular nil |
| RenderPassAttachmentDescriptor.RenderPassAttachmentDescriptor.SetResolveTexture | src/render_pass_attachment_descriptor.rs:61-63 | `set_resolve_texture` stores the texture's own pointer unchanged |
| RenderPassAttachmentDescriptor.RenderPassAttachmentDescriptor.SetResolveLevel | src/render_pass_attachment_descriptor.rs:65-71 | the resolve level crosses unchanged both ways |
| RenderPassAttachmentDescriptor.RenderPassAttachmentDescriptor.SetResolveSlice | src/render_pass_attachment_descriptor.rs:73-79 | the resolve slice crosses unchanged both ways |
| RenderPassAttachmentDescriptor.RenderPassAttachmentDescriptor.SetResolveDepthPlane | src/render_pass_attachment_descriptor.rs:81-87 | the resolve depth plane crosses unchanged both ways |
| RenderPassAttachmentDescriptor.SetThenGetTexture | src/render_pass_attachment_descriptor.rs:9-15 | a texture that `from_raw` produced, once set, is read back as the same texture |
| RenderPassAttachmentDescriptor.ClassName | src/render_pass_attachment_descriptor.rs:96 | the descriptor uses the class arm with "MTLRenderPassAttachmentDescriptor" |
| RenderPassAttachmentDescriptor.Clone | src/render_pass_attachment_descriptor.rs:90-94 | `clone` returns exactly when the copy is non-nil and not reported to be of the class, and otherwise panics |
| RenderPassDepthAttachmentDescriptor.FilterTags | src/render_pass_depth_attachment_descriptor.rs:44-52 | Sample0, Min, Max map to 0, 1, 2 both ways |
| RenderPassDepthAttachmentDescriptor.FilterRoundTrip | src/render_pass_depth_attachment_descriptor.rs:44-52 | the resolve filter bridge round-trips both ways |
| RenderPassDepthAttachmentDescriptor.SetDepthResolveFilter | src/render_pass_depth_attachment_descriptor.rs:18-24 | the setter stores the filter's tag and the getter reads the filter back |
| RenderPassDepthAttachmentDescriptor.InitialFilter | metal-sys/src/classes/mtl_render_pass_depth_attachment_descriptor.rs:21 | the documented default filter reads as `Sample0` |
| RenderPassDepthAttachmentDescriptor.SetReadFilterUnchanged | src/render_pass_depth_attachment_descriptor.rs:18-24 | storing the filter just read leaves the descriptor unchanged |
| RenderPassDepthAttachmentDescriptor.ClassName | src/render_pass_depth_attachment_descriptor.rs:41-42 | the class arm checks the name "MTLRenderPathDepthAttachmentDescriptor"; a non-nil pointer passes exactly when not reported to be of that class |
| RenderPassDepthAttachmentDescriptor.Clone | src/render_pass_depth_attachment_descriptor.rs:27-31 | `clone` returns exactly when the copy is non-nil and not reported to be of that class |
| CommandBuffer.StatusTags | src/command_buffer.rs:99-135 | the i-th declared status maps to tag i and back |
| CommandBuffer.StatusRoundTrip | src/command_buffer.rs:99-135 | the hand-written `from` and `into` undo each other |
| CommandBuffer.DeclaredStatusesComplete | src/command_buffer.rs:89-97 | every status appears once in the declaration order |
| CommandBuffer.LifecycleTagsIncrease | metal-sys/src/constants.rs:144-182 | along NotEnqueued, Enqueued, Committed, Scheduled, Completed the tags strictly increase, and Error's tag is above them all |
| CommandBuffer.GetStatus | src/command_buffer.rs:58-60 | `get_status` is the status whose tag the buffer reports |
| CommandBuffer.New | src/command_buffer.rs:19-31 | both constructors wrap the queue's reply without `from_raw`, panicking only when debug assertions are on and the reply is nil |
| Constants.Default | src/constants.rs:11-15 | the default language version is `Latest` |
| Constants.LanguageVersionValues | metal-sys/src/protocols/mtl_library.rs:130-133 | the declared tags `1 << 16` and `(1 << 16) + 1` are 65536 and 65537 |
| Constants.LanguageVersionTags | src/constants.rs:29-45 | version 1.0 maps to 65536 and 1.1 to 65537, both ways |
| Constants.LanguageVersionRoundTrip | src/constants.rs:29-45 | the language version bridge round-trips both ways |
| Constants.RequestedTag | tests/lib.rs:93-109 | only a specific version carries a tag, and that tag names the version |
| Argument.AccessTags | src/argument.rs:59-76 | ReadOnly, ReadWrite, WriteOnly map to 0, 1, 2 both ways |
| Argument.AccessRoundTrip | src/argument.rs:66-76 | the access transmute round-trips both ways and each tag has exactly one variant |
| Argument.ArgumentTypeTags | src/argument.rs:78-96 | Buffer, ThreadgroupMemory, Texture, Sampler map to 0..3 both ways |
| Argument.ArgumentTypeRoundTrip | src/argument.rs:86-96 | the argument type transmute round-trips both ways and each tag has exactly one variant |
| Argument.DataTypeTags | src/argument.rs:98-182 | tag i names the data type declared i-th, which maps back to i |
| Argument.DataTypeDecodes | src/argument.rs:172-182 | every data type is named again by its own tag |
| Argument.DataTypeRoundTrip | src/argument.rs:172-182 | the data type transmute round-trips both ways and each tag has exactly one variant |
| Argument.DataTypeOrdinalInjective | src/argument.rs:98-170 | different data types have different discriminants |
| Argument.Access | src/argument.rs:16-18 | `access` is the variant whose tag the argument reports |
| Argument.GetType | src/argument.rs:28-30 | `get_type` is the variant whose tag the argument reports |
| Function.FunctionTypeTags | src/function.rs:27-34 | Vertex, Fragment, Kernel map to 1, 2, 3 both ways; tag 0 has no arm |
| Function.FunctionTypeRoundTrip | src/function.rs:27-34 | the function type bridge round-trips both ways |
| Function.GetFunctionType | src/function.rs:15-17 | `function_type` is the variant whose tag the function reports |
| Function.FunctionProtocol | src/function.rs:25 | a function is validated through the protocol arm with "MTLFunction" |
| MtlFunctions.MTLOriginMake | metal-sys/src/functions.rs:12-18 | the origin holds x, y, z in that order |
| MtlFunctions.MTLSizeMake | metal-sys/src/functions.rs:46-52 | the size holds width, height, depth in that order |
| MtlFunctions.MTLRegionMake1D | metal-sys/src/functions.rs:20-25 | origin (x, 0, 0) and size (width, 1, 1) |
| MtlFunctions.MTLRegionMake2D | metal-sys/src/functions.rs:27-32 | origin (x, y, 0) and size (width, height, 1) |
| MtlFunctions.MTLRegionMake3D | metal-sys/src/functions.rs:34-44 | all six arguments in their fields |
| MtlFunctions.RegionMakeDimensions | metal-sys/src/functions.rs:20-44 | the 1D and 2D makers are the 3D maker with unit extents and zero offsets |
| ValueTypes.OriginNew | src/value_types.rs:59-67 | `Origin::new` holds x, y, z |
| ValueTypes.OriginFromComponents | src/value_types.rs:69-79 | an origin from an array or a tuple equals the one with the same components in order |
| ValueTypes.OriginRoundTrip | src/value_types.rs:81-91 | `Origin` and `MTLOrigin` convert into each other without loss |
| ValueTypes.SizeNew | src/value_types.rs:178-186 | `Size::new` holds width, height, depth |
| ValueTypes.SizeFromComponents | src/value_types.rs:188-198 | a size from an array or a tuple equals the one with the same components in order |
| ValueTypes.SizeRoundTrip | src/value_types.rs:200-210 | `Size` and `MTLSize` convert into each other without loss |
| ValueTypes.RegionFromParts | src/value_types.rs:99-105 | `from_parts` keeps the size and the origin |
| ValueTypes.RegionNew1D | src/value_types.rs:107-111 | origin (x, 0, 0) and size (width, 1, 1) |
| ValueTypes.RegionNew2D | src/value_types.rs:113-117 | origin (x, y, 0) and size (width, height, 1) |
| ValueTypes.RegionNew3D | src/value_types.rs:119-123 | all six arguments in their fields |
| ValueTypes.RegionRoundTrip | src/value_types.rs:126-139 | `Region` and `MTLRegion` convert into each other field by field without loss |
| ValueTypes.RegionConstructorsAgree | src/value_types.rs:107-139 | converting `Region::new_1d/2d/3d` gives `MTLRegionMake1D/2D/3D` of the same arguments |
| ValueTypes.ScissorRectRoundTrip | src/value_types.rs:149-169 | `ScissorRect` and `MTLScissorRect` convert into each other without loss |
| Wrappers.Result.ToOption | src/library.rs:15-21 | `Result::ok` is `Some` exactly on `Ok`, holding the same value |

## Left out

- Reference counting and `StrongPtr`: no shown file defines the retain and release behaviour.
- Strings: every label, name and description getter goes through `NSString` and `CStr`, which are not modelled. `Library.FunctionNames` takes the names as already converted strings.
- Floating point: clear colours, viewports, `clear_depth` and the sampler's LOD clamps.
- Byte copies into and out of textures: only the `replace_region` guard and the vector sizing are modelled. The runtime's copy into the vector is a parameter of `get_bytes`, constrained only to keep the length; which texels it writes for a region and row pitch is not modelled. `replace_region_at_slice` has no guard and only forwards its arguments.
- The async channel and block plumbing around the library completion handler: one call of the block is modelled as appending to a `Sender`.
- `mem::transmute` reference casts (`Deref` from the depth attachment descriptor to the attachment descriptor, and the device and resource accessors).
- Message forwarding in `metal-sys`: only its enum tables, option bits and constructors are used.
- Device BOOL and size getters, buffer constructors, `new_command_queue`, `new_texture`, `new_sampler_state` and `new_depth_stencil_state`: they forward to the runtime and apply `from_raw` or a plain wrap, which `Raw.FromRaw` already covers.
- The `CompareFunction` bridge and the pixel format bridge: their foreign tables are not part of this model. The sampler descriptor stores the compare function as a raw tag.
- `NSError` code, domain and localized description: string and integer forwarding.
- The `_IoError` payload of `LibraryErrorType::IoError`: its type is not defined in the modelled files, so the model keeps an opaque code.
- Wrappers that consist only of an `impl_from_into_raw!` line are entries of `Raw.Declared`. `compute_pipeline_state` matches neither arm and is not part of this model.
- Whether debug assertions are on is a parameter of `CommandBuffer.New`. Integer overflow, which panics in a debug build, is modelled as the release build's wrap-around.
- Texture.GetBytes: the runtime's copy is required to keep the vector's length. The source sizes the vector to `width*height*depth` bytes, ignoring `bytes_per_row`, the region and the pixel size. So a runtime that writes past the vector (a 1×1×1 RGBA8 texture with `bytes_per_row` = 4 gets a 1-byte vector) is outside the model.
- Texture.GetBytesAtSlice: the same; writes past the vector that `bytes_per_row`, `bytes_per_image` and the region can ask for are outside the model.
- Texture.ByteVec.CopyFromRuntime: requires the copy to keep the length, so it cannot express an out-of-bounds write.
- Texture.BytesNeeded: states the product only when it fits in `usize`. Above that the model wraps, where a debug build would panic.
- RenderPassAttachmentDescriptor.RenderPassAttachmentDescriptor.constructor: says nothing about the initial textures, because their default is not documented.
- SamplerState.SamplerDescriptor.constructor: says nothing about the initial `lodAverage`, because its default is not documented.

## Findings

| source | as written | input that shows it | evidently intended | confidence | as-written member | corrected member |
|---|---|---|---|---|---|---|
| src/raw.rs:81-84 | the class arm returns `WrongPointerType` when `is_kind_of_class` is true | any non-nil object that is of the declared class, such as a new `MTLSamplerDescriptor` | reject exactly the objects that are NOT of the class, as the doc comment at src/raw.rs:33-38 says | not executed | Raw.ClassArmRejectsGenuineInstance | Raw.IntendedContract |
| src/texture.rs:14-29 | `with_pixel_format` and `new` pass `nil` into an unused slot, and the binding (metal-sys/src/protocols/mtl_texture.rs:59-70) sends the view message to `class("MTLTexture")`, a lookup by a protocol name | a runtime with no class registered as "MTLTexture", with any pixel format and level range: the message goes to nil, so the result is `Err(NilPointer)` | send the message to an existing texture | not executed; assumes no class is registered under the protocol's name | Texture.ViewConstructorsAlwaysFail | Texture.NewViewSucceeds |
| src/device.rs:259-267 | `Display` prints "DeviceError::ConstructionFailed" for both variants | `RawError(NilPointer)` | print a text naming the `RawError` variant | not executed | Device.DisplayConflatesVariants | Device.DisplayIntendedSeparatesVariants |
