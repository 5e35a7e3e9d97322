# cerus-compression, modelled in Dafny

cerus-compression is a plugin for the cerus framework. It wraps Node's zlib
behind a compression object. The factory in `lib/compression.js` creates that
object. The object keeps eight settings in closure variables: flush, finish,
chunk, level, memory, strategy, window and the variant `type`. It exposes a
combined getter/setter for each setting. It offers one operation,
`compress(data)`. With no data, `compress` builds a zlib stream. With data, it
starts a one-shot zlib call and returns a cerus promise that the zlib callback
settles.

The model has three modules:

- `JsValues` (`jsvalues.dfy`): the JavaScript values the code can tell apart.
  It defines loose comparison with `null` (`IsNullish`) and truthiness
  (`Truthy`).
- `Settings` (`settings.dfy`): the eight settings as a value (`Config`).
  `Access` gives the meaning of one accessor call. `Replay` gives the meaning
  of a sequence of calls. The lemmas cover get-after-set, idempotence,
  independence of the fields, and "the last committed value wins".
- `Compression` (`compression.dfy`): the rest of `lib/compression.js`.
  - The class `Compressor` holds the closure variables as fields, one
    mutating method per accessor, and `Compress`. The class is proved against
    the functions of `Settings`.
  - `Options` is the options record handed to zlib.
  - `Dispatch` picks one of fourteen zlib operations. The operations are
    abstract tags and are never run.
  - `CompressOutcome` is what `compress` returns.
  - `Complete` is the one-shot callback. `Settle` is the host promise's
    resolver.

Behaviours a caller may not expect, reproduced as written:

- The constructor discards the caller's variant. Line 15 overwrites the
  parameter `type` of line 4 with "deflate", although a caller would expect
  its variant to be used. See "## Findings".
- The `type` accessor stores any non-nullish value unchanged. It does no case
  normalisation and no validation.
- An unknown variant makes `compress` return undefined in stream mode. In
  one-shot mode it returns a promise that this code never settles. No error
  is raised.
- In one-shot mode with a known variant, `Buffer.from(data)` runs before
  zlib. It throws a TypeError for a number, a boolean, NaN or an object that
  is not a buffer source, and zlib is then never called.
- `compress` takes no per-call overrides and offers no stream lifecycle
  methods.
- On success the callback passes `data`, the caller's input, as the signal
  name. It does not pass the string "data". See "## Findings".

## Model

| member | source | states |
|---|---|---|
| `Settings.Put` | lib/compression.js:20-112 | assigning one setting gives it the new value and leaves the other seven unchanged |
| `Settings.Access` | lib/compression.js:26-109 | a nullish argument returns the stored value and changes nothing; any other argument, falsy ones included, is stored and returned; no other setting changes |
| `Settings.GetAfterSet` | lib/compression.js:26-109 | after a call with a non-nullish `v`, a call with undefined or null returns `v` and changes nothing |
| `Settings.SetIdempotent` | lib/compression.js:26-109 | storing the same value a second time changes nothing |
| `Settings.AccessorsCommute` | lib/compression.js:20-112 | calls on two different settings reach the same state in either order |
| `Settings.Initial` | lib/compression.js:8-15 | the construction state holds the seven registry defaults and the variant "deflate"; the `type` argument plays no part |
| `Settings.InitialIntended` | lib/compression.js:15 | the corrected construction state takes a non-nullish `type` argument as the variant and "deflate" otherwise; the other seven settings are those of `Initial` |
| `Settings.InitialDiscardsRequestedType` | lib/compression.js:4-15 | the construction as written and as intended agree exactly when no variant, or "deflate", is passed |
| `Settings.ReplayKeepsLastCommitted` | lib/compression.js:20-112 | after any sequence of accessor calls, each setting holds the last non-nullish argument given to its accessor, or its earlier value if there was none |
| `Compression.Compressor.constructor` | lib/compression.js:4-15 | the seven settings come from the registry defaults; the variant is "deflate" whatever `type` argument was passed |
| `Compression.Compressor.Flush` | lib/compression.js:26-32 | state and result of `flush(arg)` are those of `Access` on the flush setting |
| `Compression.Compressor.Finish` | lib/compression.js:37-43 | state and result of `finish(arg)` are those of `Access` on the finish setting |
| `Compression.Compressor.Chunk` | lib/compression.js:48-54 | state and result of `chunk(arg)` are those of `Access` on the chunk setting |
| `Compression.Compressor.Level` | lib/compression.js:59-65 | state and result of `level(arg)` are those of `Access` on the level setting |
| `Compression.Compressor.Memory` | lib/compression.js:70-76 | state and result of `memory(arg)` are those of `Access` on the memory setting |
| `Compression.Compressor.Strategy` | lib/compression.js:81-87 | state and result of `strategy(arg)` are those of `Access` on the strategy setting |
| `Compression.Compressor.Window` | lib/compression.js:92-98 | state and result of `window(arg)` are those of `Access` on the window setting |
| `Compression.Compressor.Type` | lib/compression.js:103-109 | state and result of `type(arg)` are those of `Access` on the variant |
| `Compression.Compressor.Compress` | lib/compression.js:117-184 | returns the outcome fixed by the current settings and `data`; it has no modifies clause, so no setting changes |
| `Compression.Compressor.Intended` | lib/compression.js:4-15 | the corrected constructor's state is `InitialIntended`: the caller's variant is kept |
| `Compression.IntendedTypeIsRequested` | lib/compression.js:4-15 | with the corrected constructor, `type()` returns the requested variant, or "deflate" when none is passed |
| `Compression.FreshTypeIsDeflate` | lib/compression.js:4-15 | a newly created object's `type()` returns "deflate" for every requested variant |
| `Compression.LevelZeroIsStored` | lib/compression.js:59-65 | `level(0)` returns 0, and a following `level()` returns 0 too: the guard is `!= null`, not truthiness |
| `Compression.CompressTestString` | tests/compression.test.js:13 | `compression().compress("test 123 test")` is a promise around `zlib.deflate` of that string with the registry's options |
| `Compression.Options` | lib/compression.js:118-126 | the record has exactly the keys flush, finishFlush, chunkSize, windowBits, level, memLevel and strategy; each key holds the setting it is renamed from |
| `Compression.OptionKeysRenameSettings` | lib/compression.js:118-126 | the renaming is one-to-one; every key comes from a setting; only the variant has no key |
| `Compression.OptionsIgnoreVariant` | lib/compression.js:118-126 | changing the variant leaves the options record unchanged |
| `Compression.Dispatch` | lib/compression.js:128-179 | a selected operation is a stream constructor exactly when `data` is nullish, and its variant name equals the variant string; nothing is selected exactly when the variant is not one of the seven names, letter case included |
| `Compression.DispatchSelectsExactly` | lib/compression.js:128-179 | an operation is selected exactly when the variant is its name and the mode is its mode |
| `Compression.ModesAgree` | lib/compression.js:128-179 | the stream and one-shot switches recognise the same names and select the same variant |
| `Compression.CompressOutcome` | lib/compression.js:117-184 | nullish `data` gives a stream constructor when the variant is recognised and undefined otherwise. Other data gives a promise. Its executor calls zlib exactly when the variant is recognised and `Buffer.from` accepts `data`; it throws in `Buffer.from` exactly when the variant is recognised and `data` is not accepted. Every zlib call gets the options record of the settings at the `compress` call and, in one-shot mode, the caller's data; in one-shot mode this assumes the promise executor runs inside that call |
| `Compression.CompressNumberThrows` | lib/compression.js:159 | `compress` of a number with the initial variant throws in `Buffer.from` and never calls zlib |
| `Compression.Complete` | lib/compression.js:148-155 | a truthy `err` gives the signal "error" with no payload; otherwise the signal name is `data` and the payload is `[res]` |
| `Compression.CompleteSettles` | lib/compression.js:147-155 | the promise is rejected when zlib fails; it is also rejected when the input was "error" and zlib succeeded; otherwise it is fulfilled with zlib's result |
| `Compression.ErrorInputSuccessIsRejected` | lib/compression.js:154 | `compress("error")` with a successful zlib call settles as a rejection |
| `Compression.CompleteIntended` | lib/compression.js:154 | the corrected callback signals "data" with `[res]` on success and "error" with no payload on failure |
| `Compression.CompleteIntendedSettles` | lib/compression.js:154 | with the corrected callback, the promise is rejected exactly when zlib fails and is otherwise fulfilled with zlib's result, for every input |

## Left out

- zlib: compression, decompression, stream objects and round-trip laws belong
  to a foreign library whose code is not part of this model. Its operations
  are the abstract tags of `Op`.
- lib/constants.js: every member returns a zlib constant that the file does
  not define.
- The host framework is not part of this model.
  - The seven defaults from `cerus.settings().compression()` are constructor
    inputs (`Defaults`).
  - `cerus.promise` is reduced to its resolver contract (`Settle`): "error"
    rejects and any other signal fulfils. Nothing of its code is modelled.
  - The executor's `return func` has no modelled effect.
- `Buffer.from(data)`: the text-to-bytes conversion is a runtime library
  call. `Job.input` keeps the caller's `data` unconverted. Only whether the
  conversion succeeds is modelled (`BufferAccepts`). For an object this is a
  flag of the value (`Obj.bufferSource`), since the object's shape is not
  modelled.
- Compression.CompressOutcome: reads the options record (line 118) and, in
  one-shot mode, the variant and `Buffer.from(data)` (lines 157-177) from one
  settings state. The options record is built when `compress` is called. The
  variant is read inside the function given to `cerus.promise` (line 147).
  The model assumes the host runs that function synchronously, inside the
  `compress` call. If the host defers it, a `type(v)` call made after
  `compress(data)` would change which zlib operation runs, while the options
  stay those of the earlier call. The model does not capture that
  interleaving.
- What the host promise does when its executor throws is not modelled;
  `Launch.ConversionThrows` records only that the executor throws before
  zlib is entered.
- `self.settings()` returns a fresh accessor object on every call. All those
  objects share the same closure variables. The model puts the eight
  accessors directly on `Compressor`, so object identity of the accessor
  objects is not modelled.
- JavaScript numbers are modelled as exact reals plus NaN. The infinities and
  floating-point rounding are not modelled, since no setting is computed with.
  BigInt and Symbol values are not modelled either; `Buffer.from` would
  reject both (`compress(1n)` throws), and `0n` is falsy.
- index.js is plugin registration glue.
- The asynchronous flow of tests/compression.test.js (callback order,
  `then`/`catch`) is not modelled.

## Findings

| source | as written | input that shows it | evidently intended | confidence | as-written member | corrected member |
|---|---|---|---|---|---|---|
| lib/compression.js:15 | `var type = "deflate"` overwrites the parameter `type` of line 4, so the variant passed to `compression(cerus, type)` (index.js:17-18) is lost | `compression(cerus, "gzip")`: `settings().type()` returns "deflate" and `compress` deflates | the caller's variant is used, with "deflate" only when none is passed, as the no-argument call of tests/compression.test.js:13 needs | medium; not executed | `Settings.Initial`, shown by `Compression.FreshTypeIsDeflate` and `Settings.InitialDiscardsRequestedType` | `Settings.InitialIntended` with `Compression.Compressor.Intended`, proved by `Compression.IntendedTypeIsRequested` |
| lib/compression.js:154 | on success the callback calls `event(data, res)`, so the caller's input becomes the signal name | `compress("error")` where zlib succeeds: the signal is "error", and the host promise rejects a successful result | `event("data", res)`: success is always signalled as "data" and fulfils the promise | medium; not executed | `Compression.Complete`, shown by `Compression.ErrorInputSuccessIsRejected` and `Compression.CompleteSettles` | `Compression.CompleteIntended`, proved by `Compression.CompleteIntendedSettles` |
