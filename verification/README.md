# ComputeSharp core, modelled in Dafny

This project models the pure logic at the core of ComputeSharp. ComputeSharp is a .NET library that runs C# shaders on the GPU through DirectX 12 and Direct2D. The model covers seven pieces:

- **`[AutoConstructor]` source generator** (`AutoConstructorGenerator`). It sorts a struct's fields into constructor parameters, fields set to `default`, and dropped fields. It emits a constructor only when there is a parameter, and fixes that constructor's exact shape.
- **D2D1 shader rewriter hooks** (`ShaderSourceRewriter`). A sampled texture access becomes an explicit sampling call that names an implicit sampler. A flag records whether the shader reads the scene position, and it only ever turns on.
- **Diagnostic catalogue** (`DiagnosticDescriptors`, with `MessageTemplates`). This is the closed table of 41 descriptors, `CMPS0001` to `CMPS0041`. A message template is a list of text and placeholder segments. The format string is the rendering of that list, with braces escaped. A reader recovers the placeholders from a format string.
- **Pixel-shader-effect property callbacks** (`PixelShaderEffectProperties`):
  - get and set of the constant buffer, each with its ordered cascade of HRESULT checks;
  - the resource-texture index lookup;
  - the argument checks of the resource-texture manager getter.
- **HRESULT helpers** (`HResultExtensions`, over `HResults` and `BoundedInts`): `Assert` and `IsDeviceLostReason`. HRESULT constants are the Windows SDK bit patterns, read as signed 32-bit integers.
- **Vector primitives** (`UInt2Members`, `Double3Members`, over `VectorTypes`): constructors, splats, named constants, and the casts that always throw `InvalidExecutionContextException`.

How the model represents the program:

- Raw pointers become `Option` values, where `None` is null.
- A caller's memory is the byte sequence it holds.
- Roslyn symbols and syntax trees become small records.
- Two tables are not shown and become function-typed parameters: the HLSL keyword table and the intrinsic-method table.
- Two things come from process state and become inputs: the debug-output switch and the D3D12 info-queue report.

## Model

| member | source | states |
|---|---|---|
| AutoConstructorGenerator.GetData | src/ComputeSharp.Core.SourceGenerators/AutoConstructorGenerator.cs:58-88 | one pass over the fields; the two lists together never hold more entries than there are fields |
| AutoConstructorGenerator.Selected | src/ComputeSharp.Core.SourceGenerators/AutoConstructorGenerator.cs:63-85 | the positions of fields with a given placement: each in range with that placement, strictly increasing, and none missing |
| AutoConstructorGenerator.ParametersFollowDeclarationOrder | src/ComputeSharp.Core.SourceGenerators/AutoConstructorGenerator.cs:63-84 | the parameter list is exactly the fields placed as parameters, as (type, name) pairs, in declaration order |
| AutoConstructorGenerator.DefaultedFollowDeclarationOrder | src/ComputeSharp.Core.SourceGenerators/AutoConstructorGenerator.cs:71-77 | the defaulted list is exactly the names of the fields placed as defaulted, in declaration order |
| AutoConstructorGenerator.ParameterIffPlainInstanceField | src/ComputeSharp.Core.SourceGenerators/AutoConstructorGenerator.cs:66-84 | a field is a parameter iff it is a non-const, non-static, non-fixed, explicitly declared field whose type does not carry the single `IgnoreAndSetToDefault` argument (any other argument count or value makes it a parameter) |
| AutoConstructorGenerator.DefaultedIffIgnoreBehavior | src/ComputeSharp.Core.SourceGenerators/AutoConstructorGenerator.cs:72-77 | a field is defaulted iff it is such an instance field and its TYPE carries the behaviour attribute with exactly one argument equal to `IgnoreAndSetToDefault` |
| AutoConstructorGenerator.PlacementOfEachField | src/ComputeSharp.Core.SourceGenerators/AutoConstructorGenerator.cs:63-69 | no field is in both lists, and a field is in neither iff it is const, static, a fixed-size buffer or implicitly declared |
| AutoConstructorGenerator.NoParametersIffNoPlainInstanceField | src/ComputeSharp.Core.SourceGenerators/AutoConstructorGenerator.cs:63-87 | the parameter list is empty iff every field is dropped or defaulted |
| AutoConstructorGenerator.HasPointerType | src/ComputeSharp.Core.SourceGenerators/AutoConstructorGenerator.cs:120 | true iff some parameter type name contains `*` |
| AutoConstructorGenerator.GetSyntax | src/ComputeSharp.Core.SourceGenerators/AutoConstructorGenerator.cs:112-123 | the constructor is named after the type; its modifiers are exactly `public`, followed by `unsafe` iff some parameter type contains `*`; its parameters are the parameter list in order, with matching names and types; its body is one `this.f = f;` per parameter in order, then one `this.g = default;` per defaulted field in order, and nothing else |
| AutoConstructorGenerator.Generate | src/ComputeSharp.Core.SourceGenerators/AutoConstructorGenerator.cs:33-45 | nothing is generated iff every field is dropped or defaulted (defaulted fields alone give nothing); otherwise the hint name is the filename hint followed by `.Ctor` |
| AutoConstructorGenerator.SingleFieldStruct | tests/ComputeSharp.Tests.DeviceLost/DeviceDisposalTests.cs:134-144 | a struct with one ordinary `readonly` field gets a public one-parameter constructor with a single assignment |
| ShaderSourceRewriter.SamplerName | src/ComputeSharp.D2D1.SourceGenerators/SyntaxRewriters/ShaderSourceRewriter.cs:22-28 | the sampler identifier is `__sampler__` followed by the keyword mapping of the field name when there is one, and by the field name itself otherwise |
| ShaderSourceRewriter.RewriteSampledTextureAccess | src/ComputeSharp.D2D1.SourceGenerators/SyntaxRewriters/ShaderSourceRewriter.cs:18-29 | the result is a call on the original target expression with two arguments: the sampler identifier for the receiver's field name, then the original argument unchanged |
| ShaderSourceRewriter.SamplerIgnoresCallSite | src/ComputeSharp.D2D1.SourceGenerators/SyntaxRewriters/ShaderSourceRewriter.cs:20-28 | the sampler argument depends only on the receiver, never on the call-site target or arguments |
| ShaderSourceRewriter.NonFieldReceiverUsesEmptyName | src/ComputeSharp.D2D1.SourceGenerators/SyntaxRewriters/ShaderSourceRewriter.cs:20-22 | a receiver that is not a field reference gives the field name `""`: the sampler is `__sampler__` plus the mapping of `""`, if any |
| ShaderSourceRewriter.UnmappedSamplersAreDistinct | src/ComputeSharp.D2D1.SourceGenerators/SyntaxRewriters/ShaderSourceRewriter.cs:28 | for field names without a keyword mapping, the sampler names are equal iff the field names are |
| ShaderSourceRewriter.TrackKnownPropertyAccess | src/ComputeSharp.D2D1.SourceGenerators/SyntaxRewriters/ShaderSourceRewriter.cs:32-35 | a property access leaves the rewriter state unchanged |
| ShaderSourceRewriter.TrackKnownMethodInvocation | src/ComputeSharp.D2D1.SourceGenerators/SyntaxRewriters/ShaderSourceRewriter.cs:38-45 | afterwards the flag is set iff it was set before or the intrinsic needs the scene position |
| ShaderSourceRewriter.RunIsDisjunction | src/ComputeSharp.D2D1.SourceGenerators/SyntaxRewriters/ShaderSourceRewriter.cs:15-45 | after any sequence of hook calls, the flag is its initial value OR'd with the predicate over every method name visited |
| ShaderSourceRewriter.FreshRunFlag | src/ComputeSharp.D2D1.SourceGenerators/SyntaxRewriters/ShaderSourceRewriter.cs:15 | starting from a fresh rewriter (flag false), the flag ends set iff some visited intrinsic needs the scene position |
| ShaderSourceRewriter.FlagNeverResets | src/ComputeSharp.D2D1.SourceGenerators/SyntaxRewriters/ShaderSourceRewriter.cs:41-44 | once set, the flag stays set whatever is visited next |
| MessageTemplates.DigitValue | src/ComputeSharp.SourceGenerators/Diagnostics/DiagnosticDescriptors.cs:19 | reading a digit character gives the index that writes that character back |
| MessageTemplates.EscapeKeepsBracelessText | src/ComputeSharp.SourceGenerators/Diagnostics/DiagnosticDescriptors.cs:99 | literal text without braces appears unchanged in a format string |
| MessageTemplates.PlaceholdersOfRender | src/ComputeSharp.SourceGenerators/Diagnostics/DiagnosticDescriptors.cs:19 | reading the placeholders back out of a rendered template gives exactly the template's argument indices, in order |
| DiagnosticDescriptors.Id | src/ComputeSharp.SourceGenerators/Diagnostics/DiagnosticDescriptors.cs:16-589 | each descriptor's `id` is an eight-character string; `IdsAreConsecutive` states which one |
| DiagnosticDescriptors.Title | src/ComputeSharp.SourceGenerators/Diagnostics/DiagnosticDescriptors.cs:16-589 | the `title` each descriptor declares; `TitlesAreNotUnique` and `InternalErrorsNameTheirGenerator` state what is known about them |
| DiagnosticDescriptors.MessageTemplate | src/ComputeSharp.SourceGenerators/Diagnostics/DiagnosticDescriptors.cs:16-589 | the `messageFormat` each descriptor declares, as text and argument segments; `ArgumentsMatchArity` and `PlaceholderCounts` state its placeholders |
| DiagnosticDescriptors.Descriptor | src/ComputeSharp.SourceGenerators/Diagnostics/DiagnosticDescriptors.cs:16-589 | the descriptor declared for each name: enabled by default, and a warning iff its category is a generator |
| DiagnosticDescriptors.Ordinal | src/ComputeSharp.SourceGenerators/Diagnostics/DiagnosticDescriptors.cs:16-589 | each descriptor's position in declaration order lies in 1..41 and names it back |
| DiagnosticDescriptors.DeclarationOrder | src/ComputeSharp.SourceGenerators/Diagnostics/DiagnosticDescriptors.cs:16-589 | the catalogue lists 41 descriptors, each exactly once, each at its own position |
| DiagnosticDescriptors.ParseFormattedId | src/ComputeSharp.SourceGenerators/Diagnostics/DiagnosticDescriptors.cs:17 | reading the number out of a `CMPSdddd` identifier gives back the number it was formatted from |
| DiagnosticDescriptors.ParsedIdIsFormatted | src/ComputeSharp.SourceGenerators/Diagnostics/DiagnosticDescriptors.cs:17 | an identifier that reads as n is exactly the formatted identifier of n |
| DiagnosticDescriptors.IdsAreConsecutive | src/ComputeSharp.SourceGenerators/Diagnostics/DiagnosticDescriptors.cs:17-582 | the k-th declared descriptor has identifier `CMPS` followed by k in four digits: `CMPS0001` to `CMPS0041` in declaration order |
| DiagnosticDescriptors.IdsAreUnique | src/ComputeSharp.SourceGenerators/Diagnostics/DiagnosticDescriptors.cs:17-582 | no two descriptors share an identifier |
| DiagnosticDescriptors.SeveritySplit | src/ComputeSharp.SourceGenerators/Diagnostics/DiagnosticDescriptors.cs:21-586 | `CMPS0001`-`CMPS0036` are errors and `CMPS0037`-`CMPS0041` warnings; the warnings are exactly the internal-generator descriptors |
| DiagnosticDescriptors.InternalErrorsNameTheirGenerator | src/ComputeSharp.SourceGenerators/Diagnostics/DiagnosticDescriptors.cs:517-586 | each internal-error descriptor is a warning, its title is "Internal error for " followed by the generator type its category names (its namespace is not modelled), and its message takes one argument |
| DiagnosticDescriptors.AllEnabledByDefault | src/ComputeSharp.SourceGenerators/Diagnostics/DiagnosticDescriptors.cs:22-587 | every descriptor is enabled by default |
| DiagnosticDescriptors.ArgumentsMatchArity | src/ComputeSharp.SourceGenerators/Diagnostics/DiagnosticDescriptors.cs:19-584 | the argument holes of each message template, in order, are exactly `0` .. `n-1` for the descriptor's arity n |
| DiagnosticDescriptors.PlaceholderCounts | src/ComputeSharp.SourceGenerators/Diagnostics/DiagnosticDescriptors.cs:19-584 | each format string holds exactly `{0}` .. `{n-1}`, once each and in order: n is 3, 3, 3, 2 and 1 for the first five, 1 for `CMPS0010`, `CMPS0031` and the five generator errors (their `{{0}}` interpolation escape), 0 for every other descriptor |
| DiagnosticDescriptors.UsageTemplatesTakeNoArguments | src/ComputeSharp.SourceGenerators/Diagnostics/DiagnosticDescriptors.cs:93-147 | the `ThreadIds`, `GroupIds`, `GroupSize` and `WarpIds` usage messages have no placeholder |
| DiagnosticDescriptors.TitlesAreNotUnique | src/ComputeSharp.SourceGenerators/Diagnostics/DiagnosticDescriptors.cs:253-279 | `CMPS0017`, `CMPS0018` and `CMPS0019` carry the same title "Foreach statement" under distinct identifiers |
| PixelShaderEffectProperties.GetConstantBuffer | src/ComputeSharp.D2D1/Shaders/Interop/Effects/PixelShaderEffect.Properties.cs:70-114 | a null buffer of size 0 with a non-null `actualSize` gives `S_FALSE` and reports the declared size; otherwise, in order: null buffer gives `E_POINTER`, too small a buffer gives `E_NOT_SUFFICIENT_BUFFER`, no stored buffer gives `E_NOT_VALID_STATE`, and `S_OK` happens iff all checks pass; nothing is written on failure; on `S_OK` the first size bytes are the stored buffer, the rest of the caller's bytes are untouched, and `actualSize` (if present) is the size |
| PixelShaderEffectProperties.SetConstantBuffer | src/ComputeSharp.D2D1/Shaders/Interop/Effects/PixelShaderEffect.Properties.cs:118-144 | null data gives `E_POINTER`, then a size other than the declared one gives `E_INVALIDARG`, and in both cases the state is unchanged; otherwise the stored buffer becomes a copy of the input; the declared size never changes, and the size/buffer invariant is preserved |
| PixelShaderEffectProperties.SetThenGet | src/ComputeSharp.D2D1/Shaders/Interop/Effects/PixelShaderEffect.Properties.cs:89-143 | a successful set followed by a get into a large enough buffer returns `S_OK` and exactly the bytes that were set |
| PixelShaderEffectProperties.SizeQueryReportsSize | src/ComputeSharp.D2D1/Shaders/Interop/Effects/PixelShaderEffect.Properties.cs:75-82 | a size query returns `S_FALSE`, leaves the caller's memory alone and stores the declared size |
| PixelShaderEffectProperties.FirstWithIndex | src/ComputeSharp.D2D1/Shaders/Interop/Effects/PixelShaderEffect.Properties.cs:273-281 | the first description with the index, or none iff no description has it |
| PixelShaderEffectProperties.IsResourceTextureManagerIndexValid | src/ComputeSharp.D2D1/Shaders/Interop/Effects/PixelShaderEffect.Properties.cs:271-286 | true iff some description has the index, with the dimensions (cast to `uint`) of the first such description; otherwise false with 0 dimensions |
| PixelShaderEffectProperties.ScanMatchesFirstWithIndex | src/ComputeSharp.D2D1/Shaders/Interop/Effects/PixelShaderEffect.Properties.cs:271-286 | the scan agrees with the first-match definition |
| PixelShaderEffectProperties.GetResourceTextureManagerAtIndex | src/ComputeSharp.D2D1/Shaders/Interop/Effects/PixelShaderEffect.Properties.cs:154-181 | in order: an unknown index gives `E_INVALIDARG`, a null buffer `E_POINTER`, a buffer smaller than a pointer `E_INVALIDARG`; the manager is copied out iff the result is `S_OK`, and only then does `actualSize` receive the pointer size |
| HResults.ErrorCodesAreDistinctFailures | src/ComputeSharp.D2D1/Shaders/Interop/Effects/PixelShaderEffect.Properties.cs:81-96 | the error codes of the property callbacks are four distinct failure codes, and `S_OK`/`S_FALSE` are distinct success codes |
| HResultExtensions.Assert | src/ComputeSharp/Graphics/Extensions/Interop/HResultExtensions.cs:34-67 | outside debug mode it throws iff the result is negative, carrying the code; a negative result always throws with its code; in debug mode a non-negative result still throws iff the info queue reported errors or warnings, and then with the info-queue message |
| HResultExtensions.AssertHResult | src/ComputeSharp/Graphics/Extensions/Interop/HResultExtensions.cs:23-26 | `Assert(HRESULT)` behaves exactly as `Assert(int)` on the underlying value |
| HResultExtensions.IsDeviceLostReason | src/ComputeSharp/Graphics/Extensions/Interop/HResultExtensions.cs:85-94 | a result is a device-lost reason iff its value lies in the set of six DXGI codes; every such result is a failure code of the DXGI facility |
| HResultExtensions.DeviceLostReasonsAreExactlySix | src/ComputeSharp/Graphics/Extensions/Interop/HResultExtensions.cs:85-94 | a result is a device-lost reason iff it is one of the six listed DXGI codes, and those are six distinct values |
| HResultExtensions.DeviceLostReasonsAreDxgiFailures | src/ComputeSharp/Graphics/Extensions/Interop/HResultExtensions.cs:87-93 | every device-lost reason is a negative DXGI-facility code, so non-debug `Assert` throws on each |
| HResultExtensions.SuccessCodesAreNotDeviceLost | src/ComputeSharp/Graphics/Extensions/Interop/HResultExtensions.cs:85-94 | no success code, such as `S_OK` or `S_FALSE`, is a device-lost reason |
| UInt2Members.New | src/ComputeSharp/Core/Primitives/UInt/UInt2.cs:37-41 | `x` is the first component and `y` the second |
| UInt2Members.FromScalar | src/ComputeSharp/Core/Primitives/UInt/UInt2.cs:47 | the implicit conversion from `uint` puts the scalar in both components |
| UInt2Members.ComponentsRoundTrip | src/ComputeSharp/Core/Primitives/UInt/UInt2.cs:37-41 | rebuilding a vector from its components gives it back |
| UInt2Members.SplatsAreTheDiagonal | src/ComputeSharp/Core/Primitives/UInt/UInt2.cs:47 | a vector is the implicit conversion of some scalar iff its components agree, and then of its first component |
| UInt2Members.Zero | src/ComputeSharp/Core/Primitives/UInt/UInt2.cs:15 | `Zero` is (0, 0) |
| UInt2Members.One | src/ComputeSharp/Core/Primitives/UInt/UInt2.cs:20 | `One` is (1, 1) |
| UInt2Members.NamedConstantsAreDistinct | src/ComputeSharp/Core/Primitives/UInt/UInt2.cs:15-30 | `Zero`, `One`, `UnitX` and `UnitY` are four distinct vectors; the units are not splats |
| UInt2Members.UnitX | src/ComputeSharp/Core/Primitives/UInt/UInt2.cs:25 | `UnitX` is (1, 0) |
| UInt2Members.UnitY | src/ComputeSharp/Core/Primitives/UInt/UInt2.cs:30 | `UnitY` is (0, 1) |
| UInt2Members.ToInt2 | src/ComputeSharp/Core/Primitives/UInt/UInt2.cs:53 | the cast to `Int2` never yields a value; it throws with message `UInt2.(Int2)` |
| UInt2Members.ToFloat2 | src/ComputeSharp/Core/Primitives/UInt/UInt2.cs:59 | the cast to `Float2` always throws, with message `UInt2.(Float2)` |
| UInt2Members.ToDouble2 | src/ComputeSharp/Core/Primitives/UInt/UInt2.cs:65 | the cast to `Double2` always throws, with message `UInt2.(Double2)` |
| Double3Members.New | src/ComputeSharp/Core/Primitives/Double/Double3.cs:43-48 | the components are stored in order |
| Double3Members.FromXYAndZ | src/ComputeSharp/Core/Primitives/Double/Double3.cs:55-60 | `Double3(xy, z)` takes its first two components from `xy` in order and its third from `z` |
| Double3Members.FromXAndYZ | src/ComputeSharp/Core/Primitives/Double/Double3.cs:67-72 | `Double3(x, yz)` takes its first component from `x` and its last two from `yz` in order |
| Double3Members.FromScalar | src/ComputeSharp/Core/Primitives/Double/Double3.cs:78 | the implicit conversion from `double` puts the scalar in all three components |
| Double3Members.ConstructorsAgree | src/ComputeSharp/Core/Primitives/Double/Double3.cs:55-72 | `Double3(xy, z)` is `Double3(xy.X, xy.Y, z)` and `Double3(x, yz)` is `Double3(x, yz.X, yz.Y)` |
| Double3Members.SplitRoundTrip | src/ComputeSharp/Core/Primitives/Double/Double3.cs:55-72 | every vector splits both ways into a two-component part and a scalar and is rebuilt by the matching constructor |
| Double3Members.SplatsAreTheDiagonal | src/ComputeSharp/Core/Primitives/Double/Double3.cs:78 | a vector is the implicit conversion of some scalar iff its three components agree |
| Double3Members.Zero | src/ComputeSharp/Core/Primitives/Double/Double3.cs:15 | `Zero` is the splat of 0 |
| Double3Members.One | src/ComputeSharp/Core/Primitives/Double/Double3.cs:20 | `One` is the splat of 1 |
| Double3Members.UnitX | src/ComputeSharp/Core/Primitives/Double/Double3.cs:25 | `UnitX` is (1, 0, 0) |
| Double3Members.UnitY | src/ComputeSharp/Core/Primitives/Double/Double3.cs:30 | `UnitY` is (0, 1, 0) |
| Double3Members.UnitZ | src/ComputeSharp/Core/Primitives/Double/Double3.cs:35 | `UnitZ` is (0, 0, 1) |
| Double3Members.NamedConstantsAreDistinct | src/ComputeSharp/Core/Primitives/Double/Double3.cs:15-35 | the five named constants are distinct vectors |
| Double3Members.ToInt3 | src/ComputeSharp/Core/Primitives/Double/Double3.cs:84 | the cast to `Int3` always throws, with message `Double3.(Int3)` |
| Double3Members.ToUInt3 | src/ComputeSharp/Core/Primitives/Double/Double3.cs:90 | the cast to `UInt3` always throws, with message `Double3.(UInt3)` |
| Double3Members.ToFloat3 | src/ComputeSharp/Core/Primitives/Double/Double3.cs:96 | the cast to `Float3` always throws, with message `Double3.(Float3)` |

Points where the code differs from what its names or documentation suggest (the model follows the code):

- The parameter `arguments` of `RewriteSampledTextureAccess` is a single `ArgumentSyntax`, not a list. The rewritten call therefore has exactly two arguments: the sampler, then that argument.
- The doc comments of the four usage descriptors (`CMPS0006` to `CMPS0009`) describe `{0}`/`{1}` placeholders. The templates have none.
- `CMPS0018` (lock statement) and `CMPS0019` (query expression) both carry the title of `CMPS0017`, "Foreach statement".
- The behaviour attribute that sends a field to the defaulted list is looked up on the field's type, not on the field itself.

## Left out

- The incremental-generator pipeline of `AutoConstructorGenerator.Initialize` is not modelled beyond the empty-parameter filter and the hint name. That means the syntax provider, the `[AutoConstructor]` attribute filter, and the comparers.
- `GetSyntax` attributes: the generated-code attribute list needs assembly version reflection, so the model leaves it out. The enclosing type hierarchy that `HierarchyInfo.GetSyntax` wraps around the constructor is also left out.
- `AutoConstructorGenerator.IgnoreAndSetToDefault`: the `AutoConstructorBehavior` enum is not part of this model. Its value is taken as 0, the default for a first enum member. No proof depends on the value.
- `AutoConstructorGenerator.PlacementOfEachField`, `ParameterIffPlainInstanceField` and `DefaultedIffIgnoreBehavior` require distinct field names. C# guarantees this for the members of a struct.
- The contents of `HlslKnownKeywords` and `HlslKnownMethods` are not part of this model. They enter as function parameters.
- Description, help link URI and the namespaces of the category strings are left out of `DiagnosticDescriptors`. Generator categories keep only the generator's type name; the construct diagnostics share one category.
- `MessageTemplates.ArgIndex`: placeholders are single digits, which is all the catalogue uses. Format items with alignment or format strings are not modelled.
- `PixelShaderEffectProperties.GetConstantBuffer` requires `Valid(state)`, meaning the size is non-negative and a stored buffer has exactly that size. `SetConstantBuffer` preserves this invariant. The effect's initialization, which establishes it, is not part of this model.
- `PixelShaderEffectProperties.IsResourceTextureManagerIndexValid` takes the `Index` and `Dimensions` fields of `D2D1ResourceTextureDescription` to be `int`s, because that declaration is not part of this model.
- `PixelShaderEffectProperties.GetResourceTextureManagerAtIndex` takes the pointer size (4 or 8) as a parameter. The `ComPtr` copy after validation is reduced to a `copied` flag.
- `SetResourceTextureManagerAtIndex` is left out, together with the QueryInterface, Initialize and Release/Detach reference counting it performs. It is COM interop over objects the model does not have.
- Also left out: the function-pointer getters and the delegate marshalling used before .NET 6 (lines 16-66).
- `HResultExtensions.Assert`: the debug branch takes the info-queue result as an input. Flushing the D3D12 info queues through `DeviceHelper` is device I/O. Reading `Configuration.IsDebugOutputEnabled` is process configuration.
- `Configuration.cs`, the Win2D drawing-session extensions and the TerraFX interop declarations carry no logic of the core.
- Floating point: the `Double3` and float components are `real`. The modelled members do no arithmetic, so IEEE rounding plays no part.
