/** Parsing of a channel's configuration array: the `level` and
    `action_level` names and the channel name. */
module LogConfiguration {
  import opened Wrappers
  import opened Values

  /** The eight Monolog levels. */
  datatype Level = Debug | Info | Notice | Warning | Error | Critical | Alert | Emergency

  /** The level-name table. */
  const Levels: map<string, Level> := map[
    "alert" := Alert,
    "critical" := Critical,
    "debug" := Debug,
    "emergency" := Emergency,
    "error" := Error,
    "info" := Info,
    "notice" := Notice,
    "warning" := Warning
  ]

  datatype ConfigError =
    | InvalidArgument(message: string)
    | IllegalOffsetType   // an array or object used as the table key

  const InvalidLevel := "Invalid log level."
  const InvalidActionLevel := "Invalid log action level."

  /** `$config[key] ?? default`. */
  function Coalesce(config: map<string, Value>, key: string, default: Value): (r: Value)
    ensures key in config && config[key] != Null ==> r == config[key]
    ensures key !in config || config[key] == Null ==> r == default
  {
    if key in config && config[key] != Null then config[key] else default
  }

  /** `isset($this->levels[$name])`, then the table entry. Only a string can
      name a level; an array or object offset is a type error. */
  function LookupLevel(name: Value, invalid: string): (r: Result<Level, ConfigError>)
    ensures r.Success? <==> name.Str? && name.s in Levels
    ensures r.Success? ==> r.value == Levels[name.s]
    ensures r.Failure? && !(name.List? || name.Dict? || name.Object? || name.Incomplete?) ==>
              r.error == InvalidArgument(invalid)
    ensures r.Failure? && (name.List? || name.Dict? || name.Object? || name.Incomplete?) ==>
              r.error == IllegalOffsetType
  {
    match name
    case Str(s) => if s in Levels then Success(Levels[s]) else Failure(InvalidArgument(invalid))
    case List(_) => Failure(IllegalOffsetType)
    case Dict(_) => Failure(IllegalOffsetType)
    case Object(_, _) => Failure(IllegalOffsetType)
    case Incomplete(_) => Failure(IllegalOffsetType)
    case _ => Failure(InvalidArgument(invalid))
  }

  /** `level`: the `level` entry, `debug` when it is missing or null. */
  function ParseLevel(config: map<string, Value>): (r: Result<Level, ConfigError>)
    ensures "level" !in config || config["level"] == Null ==> r == Success(Debug)
    ensures "level" in config && config["level"].Str? && config["level"].s in Levels ==>
              r == Success(Levels[config["level"].s])
    ensures "level" in config && config["level"].Str? && config["level"].s !in Levels ==>
              r == Failure(InvalidArgument(InvalidLevel))
    ensures r.Success? ==> r.value in Levels.Values
  {
    LookupLevel(Coalesce(config, "level", Str("debug")), InvalidLevel)
  }

  /** `actionLevel`: the same rules on the `action_level` entry. */
  function ParseActionLevel(config: map<string, Value>): (r: Result<Level, ConfigError>)
    ensures "action_level" !in config || config["action_level"] == Null ==> r == Success(Debug)
    ensures "action_level" in config && config["action_level"].Str? && config["action_level"].s in Levels ==>
              r == Success(Levels[config["action_level"].s])
    ensures "action_level" in config && config["action_level"].Str? && config["action_level"].s !in Levels ==>
              r == Failure(InvalidArgument(InvalidActionLevel))
    ensures r.Success? ==> r.value in Levels.Values
  {
    LookupLevel(Coalesce(config, "action_level", Str("debug")), InvalidActionLevel)
  }

  /** `parseChannel`: the `name` entry, or the fallback channel name when
      it is missing or null. */
  function ParseChannel(config: map<string, Value>, fallback: string): (r: Value)
    ensures "name" in config && config["name"] != Null ==> r == config["name"]
    ensures "name" !in config || config["name"] == Null ==> r == Str(fallback)
  {
    Coalesce(config, "name", Str(fallback))
  }

  /** Every name in the table parses to its own level. */
  lemma EveryNameParses(name: string)
    requires name in Levels
    ensures ParseLevel(map["level" := Str(name)]) == Success(Levels[name])
    ensures ParseActionLevel(map["action_level" := Str(name)]) == Success(Levels[name])
  {
  }

  /** `level` reads nothing but the `level` entry, and `actionLevel`
      nothing but the `action_level` entry. */
  lemma ParsesReadOneKey(c1: map<string, Value>, c2: map<string, Value>)
    ensures Coalesce(c1, "level", Null) == Coalesce(c2, "level", Null) ==> ParseLevel(c1) == ParseLevel(c2)
    ensures Coalesce(c1, "action_level", Null) == Coalesce(c2, "action_level", Null) ==>
              ParseActionLevel(c1) == ParseActionLevel(c2)
  {
  }
}
