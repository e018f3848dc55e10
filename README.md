# Pixelate filter: block-size configuration

A Dafny model of the configuration layer of `PixelateFilter`, the filter that makes display objects look "blocky". It covers three things:

- how the constructor argument resolves, either as a bare size or as an options object spread over `DEFAULT_OPTIONS`;
- which options go on to the base filter;
- how the `size`, `sizeX` and `sizeY` accessors read and write the `uSize` uniform buffer that the shader samples with.

The model has three modules:

- `JsObject` (`js_object.dfy`) covers plain objects as object spread and object rest destructuring see them. An object has two parts. Its array-index properties (canonical decimal keys below 2^32 - 1) form a map, because they are always enumerated in ascending numeric order. Its other string-keyed properties form a list in creation order. `Define` defines one non-index property. `DefineAll` defines a list of them. `Remove` deletes one. `Copy` is one `...source` element of an object literal. `Omit` is the rest object of `{ size, ...rest } = o`. Its lemmas prove that rest after a spread is the spread of the rests, and that `{ ...o }` is `o`.
- `Pixelate` (`pixelate_filter.dfy`) covers the `Size` variant (a number, an array or a point), the constructor argument, the `DEFAULT_OPTIONS` object and the pure resolution function `Resolve`. `DEFAULT_OPTIONS` is a public object whose `size` callers may reassign, so `Resolve` and the constructor take its current value as a parameter, while the default argument of the constructor stays the literal 10. It also covers the options object handed to the base filter and the class `PixelateFilter`, whose one mutable field is the `uSize` buffer, a Dafny `array<real>`. Writing a slot in place and replacing the field with another array are distinct operations, exactly as in the source.
- `PixelateUsage` (`pixelate_usage.dfy`) contains callers that rely only on the contracts above: default construction, an options object without `size`, and a buffer replacement followed by per-axis writes.

`new PixelateFilter([5, 15])` and `size = [5, 15]` keep the caller's array as the buffer (line 95). No copy is made, so later `sizeX`/`sizeY` writes land in that array. The constructor's contract says `uSize == a`, and `ReplacedBufferIsDetached` shows that later writes land in `a`.

## Model

| member | source | states |
|---|---|---|
| `JsObject.Define` | src/pixelate/PixelateFilter.ts:47 | defining a non-index key in an object literal under construction: the key reads back its new value, no other key changes, an existing key keeps its place, a new key goes last, and distinct keys stay distinct |
| `JsObject.DefineAll` | src/pixelate/PixelateFilter.ts:47 | defining the non-index properties of a source in order: each key reads the source's value when the source has it and the target's otherwise; distinct keys stay distinct |
| `JsObject.Remove` | src/pixelate/PixelateFilter.ts:47 | leaving a non-index key out of the rest: the key is absent, every other key reads as before, a list without the key is returned unchanged, distinct keys stay distinct |
| `JsObject.Copy` | src/pixelate/PixelateFilter.ts:47 | `...source` onto a target: each key, index or not, reads the source's value when the source has it and the target's otherwise; a well-formed target stays well-formed |
| `JsObject.Omit` | src/pixelate/PixelateFilter.ts:47 | the rest object of destructuring out key `k`: `k` is absent, every other key reads as before, an object without `k` is returned unchanged (same keys, same order), well-formedness is kept |
| `JsObject.RemoveDefine` | src/pixelate/PixelateFilter.ts:47 | dropping `k` after defining `j` equals defining `j` after dropping `k` (or just dropping `k` when `j == k`) |
| `JsObject.RemoveDefineAll` | src/pixelate/PixelateFilter.ts:47 | dropping `k` after defining a list equals defining the list without `k` on the target without `k` |
| `JsObject.DefineAllFresh` | src/pixelate/PixelateFilter.ts:47 | defining a list whose keys are all new on the target appends it in its order |
| `JsObject.OmitCopy` | src/pixelate/PixelateFilter.ts:47 | the rest of a spread `{ ...a, ...b }` equals spreading the rest of `a` with the rest of `b` |
| `JsObject.CopyOfObject` | src/pixelate/PixelateFilter.ts:47 | `{ ...o }` is `o`, property for property and in order |
| `Pixelate.DefaultOptions` | src/pixelate/PixelateFilter.ts:24-26 | `DEFAULT_OPTIONS` has the one key `size`, holding whatever number `DEFAULT_OPTIONS.size` currently is (10 initially); the object is public and writable, so it is a parameter of resolution |
| `Pixelate.DefaultArg` | src/pixelate/PixelateFilter.ts:36 | the default argument is the literal number 10, independent of `DEFAULT_OPTIONS`; whatever `DEFAULT_OPTIONS.size` is, it resolves to size 10 with nothing forwarded |
| `Pixelate.Resolve` | src/pixelate/PixelateFilter.ts:36-48 | a bare number, array or point is the size and nothing is forwarded; for an options object the size is its `size` when present and the current `DEFAULT_OPTIONS.size` otherwise, and the forwarded options are exactly the caller's options without `size`, in the caller's order |
| `Pixelate.OwnOptions` | src/pixelate/PixelateFilter.ts:67-74 | the filter's own base options hold exactly `gpuProgram`, `glProgram` and `resources` |
| `Pixelate.BaseOptions` | src/pixelate/PixelateFilter.ts:67-76 | every forwarded option reaches the base filter with its value, overriding the filter's own entry of the same key; each own entry survives when no forwarded option has its key; no other key appears |
| `Pixelate.PixelateFilter.constructor` | src/pixelate/PixelateFilter.ts:36-79 | resolves against the current `DEFAULT_OPTIONS.size`; the forwarded options, from which `BaseOptions` builds the base filter's options, are exactly the resolved rest and well-formed; a number `s` gives the fresh buffer `[s, s]`; a point gives the fresh buffer `[x, y]`; an array becomes the buffer itself with its contents untouched |
| `Pixelate.PixelateFilter.GetSize` | src/pixelate/PixelateFilter.ts:85 | the `size` getter returns the live buffer itself, which has both slots |
| `Pixelate.PixelateFilter.GetSizeX` | src/pixelate/PixelateFilter.ts:107 | the `sizeX` getter reads slot 0 of the buffer that `size` returns |
| `Pixelate.PixelateFilter.GetSizeY` | src/pixelate/PixelateFilter.ts:114 | the `sizeY` getter reads slot 1 of the buffer that `size` returns |
| `Pixelate.PixelateFilter.SetSizeX` | src/pixelate/PixelateFilter.ts:108 | writes only slot 0 of the current buffer; the buffer reference and every other slot are unchanged, and the `sizeX` getter then reads the value written while `sizeY` reads what it read before |
| `Pixelate.PixelateFilter.SetSizeY` | src/pixelate/PixelateFilter.ts:115 | writes only slot 1 of the current buffer; the buffer reference and every other slot are unchanged, and the `sizeY` getter then reads the value written while `sizeX` reads what it read before |
| `Pixelate.PixelateFilter.SetSize` | src/pixelate/PixelateFilter.ts:86-101 | a point writes x and y into slots 0 and 1 of the same buffer; a number writes itself into both slots of the same buffer; an array becomes the buffer (the `size` getter then returns that array), its contents are untouched and the previous buffer is not written |
| `PixelateUsage.DefaultFilter` | src/pixelate/PixelateFilter.ts:36-43 | constructing with no argument (the default parameter 10, applied at line 78 through the number branch at lines 97-100) gives `sizeX == 10`, `sizeY == 10` and no forwarded options, whatever `DEFAULT_OPTIONS.size` is |
| `PixelateUsage.OptionsWithoutSize` | src/pixelate/PixelateFilter.ts:24-47 | an options object without `size` gives a square block of the current `DEFAULT_OPTIONS.size` and forwards every option exactly as given |
| `PixelateUsage.ReplacedBufferIsDetached` | src/pixelate/PixelateFilter.ts:93-115 | after `size = a`, the `size` getter returns `a`, later `sizeX`/`sizeY` writes land in `a` and read back, and the previously held buffer is never written again |

## Left out

- Program construction: `GpuProgram.from`, `GlProgram.from` and the base `Filter` constructor (lines 50-76) are pixi.js code. The model keeps only the options passed to the base filter, with the two programs and the uniform group as opaque values `GpuProgram`, `GlProgram` and `Resources`, and a fresh two-slot buffer filled with zeros, as `new Float32Array(2)` is.
- Pixelate.PixelateFilter.constructor: the link between the `resources` entry and `uSize` is not modelled. When the options carry their own `resources`, `BaseOptions` states that it overrides the filter's uniform group. The base filter then holds no `pixelateUniforms`, and the accessors of the source would fail. The model keeps `uSize` as a field of its own, so it does not capture that failure.
- Pixelate.PixelateFilter.SetSize: only the filter's own `Float32Array` is excluded as a `Vector`. A `Float32Array` is not `Array.isArray`, so `f.size = f.size` takes the number branch and writes `NaN` into both slots, and `NaN` has no `real` counterpart. Typed arrays of other filters are treated like plain arrays, and so is `new PixelateFilter(f.size)`. The source would take the options branch there instead.
- The pixelation sampling itself: it lives in the fragment shaders, and `pixelate.frag` and `pixelate.wgsl` are not part of this model. It is also GPU floating-point arithmetic.
- `Float32Array` storage rounds values to 32-bit floats. Here block sizes are exact `real`s.
- Runtime type tests (`typeof`, `Array.isArray`, `instanceof Point`) are replaced by the closed datatypes `Size` and `Arg`. `Pixelate.WellTyped` states what the declared TypeScript types guarantee: an options object is a well-formed object, and its `size`, when present, is a `Size`.
- Symbol-keyed, inherited, non-enumerable and accessor properties are not modelled. Objects hold own enumerable string-keyed data properties only.
- `Point` is modelled as a value `(x, y)` read at the time of the call. pixi.js's observable point objects are not modelled.
- Arrays shorter than two slots assigned to `size` are excluded by `Pixelate.Assignable`. The source does not define what happens with them.
- An explicit `size: undefined` in an options object is not modelled: a key is either present with a `Size` or absent.
- Zero and negative block sizes are accepted as they are, as in the source. Their effect lies in the shader, which is not modelled.
- Rendering, uniform upload timing and host/GPU synchronisation are not modelled.
