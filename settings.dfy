// The forwarder's settings: the keys of the `user_settings` dictionary, the
// values stored under them, the configured defaults, and the Python
// operations the handlers apply to them (`dict.get`, truthiness, and reading
// the first command argument as an integer).

module Settings {

  import opened PyInt

  /** The six keys the setter handlers write into `user_settings`. */
  datatype Key =
    | BatchSize      // 'batch_size'
    | DelayTime      // 'delay_time'
    | SourceChannel  // 'source_channel'
    | TargetChannel  // 'target_channel'
    | StartMessage   // 'start_message'
    | EndMessage     // 'end_message'

  /** A Python value as stored in the settings or the configuration. */
  datatype Value = IntVal(i: int) | StrVal(s: string)

  /** Keys whose setter stores the parsed integer; the channel setters store the raw text. */
  predicate IsIntKey(k: Key) {
    k != SourceChannel && k != TargetChannel
  }

  /** Every stored value has the type its setter gives it. */
  predicate WellTyped(m: map<Key, Value>) {
    forall k :: k in m ==> (m[k].IntVal? <==> IsIntKey(k))
  }

  /** Python truthiness of an optional value: `None`, `0` and `""` are false. */
  function Truthy(v: Option<Value>): (r: bool)
    ensures r <==> v.Some? && v.value != IntVal(0) && v.value != StrVal("")
  {
    match v
    case None => false
    case Some(IntVal(i)) => i != 0
    case Some(StrVal(s)) => s != ""
  }

  /** `m.get(k, default)`, with `None` as the default when none is given. */
  function Get(m: map<Key, Value>, k: Key, default: Option<Value>): (r: Option<Value>)
    ensures k in m ==> r == Some(m[k])
    ensures k !in m ==> r == default
    ensures r.Some? <==> k in m || default.Some?
  {
    if k in m then Some(m[k]) else default
  }

  /**
   * `int(context.args[0])`: `None` stands for the IndexError of a missing
   * argument and for the ValueError of a malformed one.
   */
  function ParseArg(args: seq<string>): (r: Option<int>)
    ensures args == [] ==> r == None
    ensures args != [] ==> r == ParseInt(args[0])
    ensures r.Some? ==> |args| > 0 && args[0] != ""
  {
    if |args| == 0 then None else ParseInt(args[0])
  }

  /** The configuration constants of the config module other than the token. */
  datatype Config = Config(
    batchSize: int,                 // DEFAULT_BATCH_SIZE
    delay: int,                     // DEFAULT_DELAY
    sourceChannel: Option<Value>,   // SOURCE_CHANNEL
    targetChannel: Option<Value>)   // TARGET_CHANNEL
}
