/** The settings state of one compression object (lib/compression.js:8-15)
    and the meaning of its eight combined getter/setter accessors
    (lib/compression.js:20-112), as values. The class in module Compression
    holds this state in mutable fields and is proved against these
    functions. */
module Settings {
  import opened JsValues

  /** The eight settings, one per accessor of `self.settings()`. `Type` is
      the compression variant (the JavaScript variable `type`). */
  datatype Field = Flush | Finish | Chunk | Level | Memory | Strategy | Window | Type

  /** The values of the eight closure variables. Nothing checks their
      JavaScript types, so each holds an arbitrary value. */
  datatype Config = Config(
    flush: JsValue,
    finish: JsValue,
    chunk: JsValue,
    level: JsValue,
    memory: JsValue,
    strategy: JsValue,
    window: JsValue,
    variant: JsValue)

  /** The seven values the host's settings registry supplies when a
      compression object is created (lib/compression.js:8-14). */
  datatype Defaults = Defaults(
    flush: JsValue,
    finish: JsValue,
    chunk: JsValue,
    level: JsValue,
    memory: JsValue,
    strategy: JsValue,
    window: JsValue)

  /** The value of one setting. */
  function Get(c: Config, f: Field): JsValue {
    match f
    case Flush => c.flush
    case Finish => c.finish
    case Chunk => c.chunk
    case Level => c.level
    case Memory => c.memory
    case Strategy => c.strategy
    case Window => c.window
    case Type => c.variant
  }

  /** The state after assigning `v` to the variable of `f`. */
  function Put(c: Config, f: Field, v: JsValue): (d: Config)
    ensures Get(d, f) == v
    ensures forall g :: g != f ==> Get(d, g) == Get(c, g)
  {
    match f
    case Flush => c.(flush := v)
    case Finish => c.(finish := v)
    case Chunk => c.(chunk := v)
    case Level => c.(level := v)
    case Memory => c.(memory := v)
    case Strategy => c.(strategy := v)
    case Window => c.(window := v)
    case Type => c.(variant := v)
  }

  /** A state is nothing but the values of its eight settings. */
  lemma ConfigExtensionality(c: Config, d: Config)
    requires forall f :: Get(c, f) == Get(d, f)
    ensures c == d
  {
    assert Get(c, Flush) == Get(d, Flush) && Get(c, Finish) == Get(d, Finish);
    assert Get(c, Chunk) == Get(d, Chunk) && Get(c, Level) == Get(d, Level);
    assert Get(c, Memory) == Get(d, Memory) && Get(c, Strategy) == Get(d, Strategy);
    assert Get(c, Window) == Get(d, Window) && Get(c, Type) == Get(d, Type);
  }

  /** The state right after construction: the registry's seven defaults and
      the variant "deflate". The constructor's `type` argument plays no
      part, because line 15 overwrites the parameter `type` with "deflate". */
  function Initial(defaults: Defaults, requestedType: JsValue): (c: Config)
    ensures Get(c, Type) == Str("deflate")
    ensures Get(c, Flush) == defaults.flush && Get(c, Finish) == defaults.finish
    ensures Get(c, Chunk) == defaults.chunk && Get(c, Level) == defaults.level
    ensures Get(c, Memory) == defaults.memory && Get(c, Strategy) == defaults.strategy
    ensures Get(c, Window) == defaults.window
  {
    Config(defaults.flush, defaults.finish, defaults.chunk, defaults.level,
           defaults.memory, defaults.strategy, defaults.window, Str("deflate"))
  }

  /** The construction state as evidently intended: a variant the caller
      passes is used, and "deflate" is only the default for a missing one. */
  function InitialIntended(defaults: Defaults, requestedType: JsValue): (c: Config)
    ensures Get(c, Type) == if IsNullish(requestedType) then Str("deflate") else requestedType
    ensures forall f :: f != Type ==> Get(c, f) == Get(Initial(defaults, requestedType), f)
  {
    Initial(defaults, requestedType).(variant := if IsNullish(requestedType) then Str("deflate") else requestedType)
  }

  /** The two construction states differ exactly when the caller passes a
      variant other than "deflate": as written, that variant is lost. */
  lemma InitialDiscardsRequestedType(defaults: Defaults, requestedType: JsValue)
    ensures Initial(defaults, requestedType) == InitialIntended(defaults, requestedType) <==>
            IsNullish(requestedType) || requestedType == Str("deflate")
  {
  }

  /** One accessor call `f(arg)` in state `c`: the state afterwards and the
      value the call returns. A nullish argument only reads; any other
      argument, falsy ones such as 0, "" and false included, is stored. */
  function Access(c: Config, f: Field, arg: JsValue): (r: (Config, JsValue))
    ensures IsNullish(arg) ==> r == (c, Get(c, f))
    ensures !IsNullish(arg) ==> r.1 == arg && Get(r.0, f) == arg
    ensures forall g :: g != f ==> Get(r.0, g) == Get(c, g)
  {
    var d := if IsNullish(arg) then c else Put(c, f, arg);
    (d, Get(d, f))
  }

  /** A call without an argument right after a call with `v` returns `v`
      and leaves the state as the first call left it. */
  lemma GetAfterSet(c: Config, f: Field, v: JsValue)
    requires !IsNullish(v)
    ensures var d := Access(c, f, v).0;
            Access(d, f, Undefined) == (d, v) && Access(d, f, Null) == (d, v)
  {
  }

  /** Storing the same value twice is the same as storing it once. */
  lemma SetIdempotent(c: Config, f: Field, v: JsValue)
    ensures var d := Access(c, f, v).0; Access(d, f, v) == (d, Get(d, f))
  {
  }

  /** Since each accessor writes only its own variable, calls on two
      different settings can be issued in either order. */
  lemma AccessorsCommute(c: Config, f: Field, a: JsValue, g: Field, b: JsValue)
    requires f != g
    ensures Access(Access(c, f, a).0, g, b).0 == Access(Access(c, g, b).0, f, a).0
  {
    var x := Access(Access(c, f, a).0, g, b).0;
    var y := Access(Access(c, g, b).0, f, a).0;
    forall h ensures Get(x, h) == Get(y, h) {
    }
    ConfigExtensionality(x, y);
  }

  /** One accessor call in a sequence of calls. */
  datatype Call = Call(field: Field, arg: JsValue)

  /** The state after performing `calls` in order, starting from `c`. */
  function Replay(c: Config, calls: seq<Call>): Config
    decreases |calls|
  {
    if calls == [] then c
    else Replay(Access(c, calls[0].field, calls[0].arg).0, calls[1..])
  }

  /** The last non-nullish argument given to the accessor of `f` in
      `calls`, or `init` when there is none. */
  function LastCommitted(calls: seq<Call>, f: Field, init: JsValue): JsValue
    decreases |calls|
  {
    if calls == [] then init
    else
      var last := calls[|calls| - 1];
      if last.field == f && !IsNullish(last.arg) then last.arg
      else LastCommitted(calls[..|calls| - 1], f, init)
  }

  /** Performing one more call after a sequence. */
  lemma {:induction false} ReplaySnoc(c: Config, calls: seq<Call>, x: Call)
    ensures Replay(c, calls + [x]) == Access(Replay(c, calls), x.field, x.arg).0
    decreases |calls|
  {
    if calls == [] {
      assert calls + [x] == [x];
    } else {
      assert (calls + [x])[1..] == calls[1..] + [x];
      ReplaySnoc(Access(c, calls[0].field, calls[0].arg).0, calls[1..], x);
    }
  }

  /** Whatever calls were made, every setting holds the last value
      committed to it, or its value before the calls if none was. */
  lemma {:induction false} ReplayKeepsLastCommitted(c: Config, calls: seq<Call>, f: Field)
    ensures Get(Replay(c, calls), f) == LastCommitted(calls, f, Get(c, f))
    decreases |calls|
  {
    if calls != [] {
      var front, last := calls[..|calls| - 1], calls[|calls| - 1];
      assert calls == front + [last];
      ReplaySnoc(c, front, last);
      ReplayKeepsLastCommitted(c, front, f);
    }
  }
}
