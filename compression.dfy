/** The compression object of lib/compression.js: its eight settings
    accessors, the options record it hands to zlib, the choice of one of
    fourteen zlib operations, and the mapping of zlib's completion callback
    onto the host's promise. zlib itself is only named, never run: its
    operations are the tags of `Op`. */
module Compression {
  import opened JsValues
  import opened Settings

  /** The fourteen zlib operations `compress` can call: seven stream
      constructors and seven one-shot transforms. */
  datatype Op =
    | CreateDeflate | CreateDeflateRaw | CreateGunzip | CreateGzip
    | CreateInflate | CreateInflateRaw | CreateUnzip
    | Deflate | DeflateRaw | Gunzip | Gzip
    | Inflate | InflateRaw | Unzip

  /** Whether `op` builds a stream (`zlib.createX`) rather than transforming
      one buffer (`zlib.x`). */
  predicate IsStreamConstructor(op: Op) {
    op.CreateDeflate? || op.CreateDeflateRaw? || op.CreateGunzip? || op.CreateGzip? ||
    op.CreateInflate? || op.CreateInflateRaw? || op.CreateUnzip?
  }

  /** The variant name whose `case` label leads to `op`. */
  function VariantName(op: Op): string {
    match op
    case CreateDeflate => "deflate"
    case CreateDeflateRaw => "deflate_raw"
    case CreateGunzip => "gunzip"
    case CreateGzip => "gzip"
    case CreateInflate => "inflate"
    case CreateInflateRaw => "inflate_raw"
    case CreateUnzip => "unzip"
    case Deflate => "deflate"
    case DeflateRaw => "deflate_raw"
    case Gunzip => "gunzip"
    case Gzip => "gzip"
    case Inflate => "inflate"
    case InflateRaw => "inflate_raw"
    case Unzip => "unzip"
  }

  /** The seven names the two `switch` statements recognise. */
  const VariantNames: set<string> :=
    {"deflate", "deflate_raw", "gunzip", "gzip", "inflate", "inflate_raw", "unzip"}

  /** Whether a `type` value is one of the seven names, in exactly that
      letter case. */
  predicate Recognised(variant: JsValue) {
    variant.Str? && variant.s in VariantNames
  }

  /** The operation `compress` calls for the current variant and the `data`
      argument: a stream constructor when `data == null`, the one-shot
      transform otherwise. The `switch` compares with `===`, so only a
      string equal to one of the seven names, in exactly that letter case,
      selects an operation; anything else falls through both switches. */
  function Dispatch(variant: JsValue, data: JsValue): (r: Option<Op>)
    ensures r.Some? ==> variant == Str(VariantName(r.value))
    ensures r.Some? ==> (IsStreamConstructor(r.value) <==> IsNullish(data))
    ensures r.None? <==> !Recognised(variant)
  {
    if IsNullish(data) then
      if variant == Str("deflate") then Some(CreateDeflate)
      else if variant == Str("deflate_raw") then Some(CreateDeflateRaw)
      else if variant == Str("gunzip") then Some(CreateGunzip)
      else if variant == Str("gzip") then Some(CreateGzip)
      else if variant == Str("inflate") then Some(CreateInflate)
      else if variant == Str("inflate_raw") then Some(CreateInflateRaw)
      else if variant == Str("unzip") then Some(CreateUnzip)
      else None
    else
      if variant == Str("deflate") then Some(Deflate)
      else if variant == Str("deflate_raw") then Some(DeflateRaw)
      else if variant == Str("gunzip") then Some(Gunzip)
      else if variant == Str("gzip") then Some(Gzip)
      else if variant == Str("inflate") then Some(Inflate)
      else if variant == Str("inflate_raw") then Some(InflateRaw)
      else if variant == Str("unzip") then Some(Unzip)
      else None
  }

  /** Conversely, every operation is selected by its own name in its own
      mode, so each recognised name selects exactly one operation per mode. */
  lemma DispatchSelectsExactly(variant: JsValue, data: JsValue, op: Op)
    ensures Dispatch(variant, data) == Some(op) <==>
            variant == Str(VariantName(op)) && (IsStreamConstructor(op) <==> IsNullish(data))
  {
  }

  /** The stream and one-shot modes recognise the same names and pick the
      same variant. */
  lemma ModesAgree(variant: JsValue, data: JsValue)
    requires !IsNullish(data)
    ensures Dispatch(variant, Null).Some? <==> Dispatch(variant, data).Some?
    ensures Dispatch(variant, Null).Some? ==>
            VariantName(Dispatch(variant, Null).value) == VariantName(Dispatch(variant, data).value)
  {
  }

  /** The key under which the options record carries a setting; the variant
      is not part of the record. */
  function OptionKey(f: Field): Option<string> {
    match f
    case Flush => Some("flush")
    case Finish => Some("finishFlush")
    case Chunk => Some("chunkSize")
    case Window => Some("windowBits")
    case Level => Some("level")
    case Memory => Some("memLevel")
    case Strategy => Some("strategy")
    case Type => None
  }

  /** The seven keys of the options record. */
  const OptionKeys: set<string> :=
    {"flush", "finishFlush", "chunkSize", "windowBits", "level", "memLevel", "strategy"}

  /** The options object literal `compress` builds from the settings at the
      time of the call. */
  function Options(c: Config): (o: map<string, JsValue>)
    ensures o.Keys == OptionKeys
    ensures forall f :: OptionKey(f).Some? ==>
              OptionKey(f).value in o && o[OptionKey(f).value] == Get(c, f)
  {
    map["flush" := c.flush, "finishFlush" := c.finish, "chunkSize" := c.chunk,
        "windowBits" := c.window, "level" := c.level, "memLevel" := c.memory,
        "strategy" := c.strategy]
  }

  /** The renaming is one-to-one and onto the seven keys: every key names
      exactly one setting, and only the variant has no key. */
  lemma OptionKeysRenameSettings(f: Field, g: Field, k: string)
    ensures OptionKey(f).None? <==> f == Type
    ensures OptionKey(f).Some? && OptionKey(f) == OptionKey(g) ==> f == g
    ensures k in OptionKeys ==> exists h :: OptionKey(h) == Some(k)
  {
    if k in OptionKeys {
      if k == "flush" { assert OptionKey(Flush) == Some(k); }
      else if k == "finishFlush" { assert OptionKey(Finish) == Some(k); }
      else if k == "chunkSize" { assert OptionKey(Chunk) == Some(k); }
      else if k == "windowBits" { assert OptionKey(Window) == Some(k); }
      else if k == "level" { assert OptionKey(Level) == Some(k); }
      else if k == "memLevel" { assert OptionKey(Memory) == Some(k); }
      else { assert OptionKey(Strategy) == Some(k); }
    }
  }

  /** Changing the variant leaves the options record as it was. */
  lemma OptionsIgnoreVariant(c: Config, v: JsValue)
    ensures Options(Put(c, Type, v)) == Options(c)
  {
  }

  /** A one-shot zlib call: `op(Buffer.from(input), options, callback)`. */
  datatype Job = Job(op: Op, input: JsValue, options: map<string, JsValue>)

  /** What the promise executor of a one-shot `compress` does. */
  datatype Launch =
      /** the variant is unknown: no case matches, no zlib call is made and
          the callback is never called, so this code never settles the
          promise */
    | NotStarted
      /** the variant is known but `Buffer.from(data)` throws a TypeError,
          before zlib is entered */
    | ConversionThrows
      /** the zlib call started */
    | Started(job: Job)

  /** What `compress` returns. */
  datatype Outcome =
      /** `data == null` and a known variant: the stream `op(options)` built */
    | Stream(op: Op, options: map<string, JsValue>)
      /** `data == null` and an unknown variant: the switch falls through
          and the function returns undefined */
    | NoValue
      /** `data != null`: a host promise, and what its executor did */
    | Promise(launch: Launch)

  /** The result of `compress(data)` in settings state `c`. */
  function CompressOutcome(c: Config, data: JsValue): (out: Outcome)
    ensures (out.Stream? || out.NoValue?) <==> IsNullish(data)
    ensures out.Stream? ==> IsStreamConstructor(out.op) && c.variant == Str(VariantName(out.op))
    ensures out.Stream? ==> out.options == Options(c)
    ensures out.Promise? && out.launch.Started? ==>
              !IsStreamConstructor(out.launch.job.op) && c.variant == Str(VariantName(out.launch.job.op)) &&
              out.launch.job.input == data && out.launch.job.options == Options(c)
    ensures out.Promise? ==> (out.launch.Started? <==> Recognised(c.variant) && BufferAccepts(data))
    ensures out.Promise? ==> (out.launch.ConversionThrows? <==> Recognised(c.variant) && !BufferAccepts(data))
    ensures (out.NoValue? || out == Promise(NotStarted)) <==> !Recognised(c.variant)
  {
    var options := Options(c);
    match Dispatch(c.variant, data)
    case Some(op) =>
      if IsNullish(data) then Stream(op, options)
      else if BufferAccepts(data) then Promise(Started(Job(op, data, options)))
      else Promise(ConversionThrows)
    case None => if IsNullish(data) then NoValue else Promise(NotStarted)
  }

  /** `compress(5)` with the variant "deflate" never reaches zlib: the
      number is rejected by `Buffer.from`. */
  lemma CompressNumberThrows(defaults: Defaults, requestedType: JsValue, x: real)
    ensures CompressOutcome(Initial(defaults, requestedType), Num(x)) == Promise(ConversionThrows)
  {
  }

  /** The arguments the one-shot callback passes to the host's resolver:
      the signal name and the payload that follows it. */
  datatype Signal = Signal(name: JsValue, args: seq<JsValue>)

  /** The one-shot callback `func(err, res)` of `compress(data)`: on a
      truthy `err` it signals "error" without a payload; otherwise it passes
      `data` itself, the caller's input, as the signal name and `res` as the
      payload. */
  function Complete(data: JsValue, err: JsValue, res: JsValue): (s: Signal)
    ensures s.args == [] <==> Truthy(err)
    ensures Truthy(err) ==> s.name == Str("error")
    ensures !Truthy(err) ==> s.name == data && s.args == [res]
  {
    if Truthy(err) then Signal(Str("error"), []) else Signal(data, [res])
  }

  /** How a host promise settles. */
  datatype Settlement = Fulfilled(values: seq<JsValue>) | Rejected(values: seq<JsValue>)

  /** The host promise's resolver: the signal "error" rejects the promise;
      any other signal fulfils it with the payload. */
  function Settle(s: Signal): Settlement {
    if s.name == Str("error") then Rejected(s.args) else Fulfilled(s.args)
  }

  /** As written, a failed zlib call rejects the promise, and a successful
      one fulfils it with the result, unless the input was the string
      "error", in which case the success is reported as a failure. */
  lemma CompleteSettles(data: JsValue, err: JsValue, res: JsValue)
    ensures Settle(Complete(data, err, res)) ==
            if Truthy(err) then Rejected([])
            else if data == Str("error") then Rejected([res])
            else Fulfilled([res])
  {
  }

  /** The input that shows the discrepancy: `compress("error")` whose zlib
      call succeeds settles as a rejection. */
  lemma ErrorInputSuccessIsRejected(res: JsValue)
    ensures Settle(Complete(Str("error"), Undefined, res)).Rejected?
  {
  }

  /** The callback as evidently intended: success signals "data". */
  function CompleteIntended(data: JsValue, err: JsValue, res: JsValue): (s: Signal)
    ensures s.args == [] <==> Truthy(err)
    ensures Truthy(err) ==> s.name == Str("error")
    ensures !Truthy(err) ==> s == Signal(Str("data"), [res])
  {
    if Truthy(err) then Signal(Str("error"), []) else Signal(Str("data"), [res])
  }

  /** With the intended callback the promise is rejected exactly when zlib
      reports an error, and otherwise fulfilled with zlib's result, whatever
      the input. */
  lemma CompleteIntendedSettles(data: JsValue, err: JsValue, res: JsValue)
    ensures Settle(CompleteIntended(data, err, res)) ==
            if Truthy(err) then Rejected([]) else Fulfilled([res])
  {
  }

  /** The object `compression(cerus, type)` returns; its fields are the
      closure variables of lib/compression.js:8-15, and its accessor methods
      are those of the object `settings()` returns. */
  class Compressor {
    var flush: JsValue
    var finish: JsValue
    var chunk: JsValue
    var level: JsValue
    var memory: JsValue
    var strategy: JsValue
    var window: JsValue
    /** The JavaScript variable `type`. */
    var variant: JsValue

    /** The settings held by this object. */
    function State(): Config
      reads this
    {
      Config(flush, finish, chunk, level, memory, strategy, window, variant)
    }

    /** Seeds the settings from the registry. `requestedType` is discarded:
        the variant always starts as "deflate". */
    constructor(defaults: Defaults, requestedType: JsValue)
      ensures State() == Initial(defaults, requestedType)
    {
      flush := defaults.flush;
      finish := defaults.finish;
      chunk := defaults.chunk;
      level := defaults.level;
      memory := defaults.memory;
      strategy := defaults.strategy;
      window := defaults.window;
      variant := Str("deflate");
    }

    /** The construction as evidently intended: a non-nullish
        `requestedType` becomes the variant. */
    constructor Intended(defaults: Defaults, requestedType: JsValue)
      ensures State() == InitialIntended(defaults, requestedType)
    {
      flush := defaults.flush;
      finish := defaults.finish;
      chunk := defaults.chunk;
      level := defaults.level;
      memory := defaults.memory;
      strategy := defaults.strategy;
      window := defaults.window;
      variant := if IsNullish(requestedType) then Str("deflate") else requestedType;
    }

    method Flush(arg: JsValue) returns (r: JsValue)
      modifies this
      ensures (State(), r) == Access(old(State()), Field.Flush, arg)
    {
      if !IsNullish(arg) {
        flush := arg;
      }
      r := flush;
    }

    method Finish(arg: JsValue) returns (r: JsValue)
      modifies this
      ensures (State(), r) == Access(old(State()), Field.Finish, arg)
    {
      if !IsNullish(arg) {
        finish := arg;
      }
      r := finish;
    }

    method Chunk(arg: JsValue) returns (r: JsValue)
      modifies this
      ensures (State(), r) == Access(old(State()), Field.Chunk, arg)
    {
      if !IsNullish(arg) {
        chunk := arg;
      }
      r := chunk;
    }

    method Level(arg: JsValue) returns (r: JsValue)
      modifies this
      ensures (State(), r) == Access(old(State()), Field.Level, arg)
    {
      if !IsNullish(arg) {
        level := arg;
      }
      r := level;
    }

    method Memory(arg: JsValue) returns (r: JsValue)
      modifies this
      ensures (State(), r) == Access(old(State()), Field.Memory, arg)
    {
      if !IsNullish(arg) {
        memory := arg;
      }
      r := memory;
    }

    method Strategy(arg: JsValue) returns (r: JsValue)
      modifies this
      ensures (State(), r) == Access(old(State()), Field.Strategy, arg)
    {
      if !IsNullish(arg) {
        strategy := arg;
      }
      r := strategy;
    }

    method Window(arg: JsValue) returns (r: JsValue)
      modifies this
      ensures (State(), r) == Access(old(State()), Field.Window, arg)
    {
      if !IsNullish(arg) {
        window := arg;
      }
      r := window;
    }

    method Type(arg: JsValue) returns (r: JsValue)
      modifies this
      ensures (State(), r) == Access(old(State()), Field.Type, arg)
    {
      if !IsNullish(arg) {
        variant := arg;
      }
      r := variant;
    }

    /** `compress(data)`. It only reads the settings: it has no `modifies`
        clause. */
    method Compress(data: JsValue) returns (out: Outcome)
      ensures out == CompressOutcome(State(), data)
    {
      var options := Options(State());
      var op := Dispatch(variant, data);
      if IsNullish(data) {
        out := if op.Some? then Stream(op.value, options) else NoValue;
      } else if op.None? {
        out := Promise(NotStarted);
      } else if BufferAccepts(data) {
        out := Promise(Started(Job(op.value, data, options)));
      } else {
        out := Promise(ConversionThrows);
      }
    }
  }

  /** Whatever variant a caller asks for, a new object reports "deflate". */
  method FreshTypeIsDeflate(defaults: Defaults, requestedType: JsValue) returns (r: JsValue)
    ensures r == Str("deflate")
  {
    var compression := new Compressor(defaults, requestedType);
    r := compression.Type(Undefined);
  }

  /** With the intended construction, the variant a caller asks for is the
      one `type()` reports, and "deflate" remains the default. */
  method IntendedTypeIsRequested(defaults: Defaults, requestedType: JsValue) returns (r: JsValue)
    ensures r == if IsNullish(requestedType) then Str("deflate") else requestedType
  {
    var compression := new Compressor.Intended(defaults, requestedType);
    r := compression.Type(Undefined);
  }

  /** A falsy value that is not nullish is stored: `level(0)` then
      `level()` both return 0. */
  method LevelZeroIsStored(defaults: Defaults) returns (set0: JsValue, get0: JsValue)
    ensures set0 == Num(0.0) && get0 == Num(0.0)
  {
    var compression := new Compressor(defaults, Undefined);
    set0 := compression.Level(Num(0.0));
    get0 := compression.Level(Undefined);
  }

  /** `compression().compress("test 123 test")`: a promise around a call of
      `zlib.deflate` on the string, with the registry's options. */
  method CompressTestString(defaults: Defaults) returns (out: Outcome)
    ensures out == Promise(Started(Job(Deflate, Str("test 123 test"), Options(Initial(defaults, Undefined)))))
  {
    var compression := new Compressor(defaults, Undefined);
    out := compression.Compress(Str("test 123 test"));
  }
}
