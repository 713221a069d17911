/** `Logger` from src/utils/logger.ts: a level threshold, a list of field
    names to mask, and recursive masking of the values logged with a
    message. The static configuration is the field of one `Logger` object,
    and a console call is the `LogLine` a logging method returns. */
module Logging {
  import opened Js

  /** In declaration order, which is the order of `Object.values(LogLevel)`. */
  datatype LogLevel = DEBUG | INFO | WARN | ERROR

  function LevelIndex(l: LogLevel): (i: nat)
    ensures i < 4
  {
    match l
    case DEBUG => 0
    case INFO => 1
    case WARN => 2
    case ERROR => 3
  }

  function LevelName(l: LogLevel): string {
    match l
    case DEBUG => "DEBUG"
    case INFO => "INFO"
    case WARN => "WARN"
    case ERROR => "ERROR"
  }

  /** `LoggerConfig`; either field may have been set to undefined by `configure`. */
  datatype LoggerConfig = LoggerConfig(level: Option<LogLevel>, maskFields: Option<seq<string>>)

  const DefaultMaskFields := ["Authorization", "X-Signature", "client_secret", "access_token", "password", "secret"]
  const DefaultConfig := LoggerConfig(Some(INFO), Some(DefaultMaskFields))
  const MaskedValue := "***MASKED***"

  /** A property of a `Partial<LoggerConfig>`: left out, or present (possibly undefined). */
  datatype Setting<T> = Unset | Set(value: T)

  datatype PartialConfig = PartialConfig(level: Setting<Option<LogLevel>>, maskFields: Setting<Option<seq<string>>>)

  /** `{ ...config, ...partial }` */
  function Merge(c: LoggerConfig, p: PartialConfig): (r: LoggerConfig)
    ensures p.level.Unset? ==> r.level == c.level
    ensures p.level.Set? ==> r.level == p.level.value
    ensures p.maskFields.Unset? ==> r.maskFields == c.maskFields
    ensures p.maskFields.Set? ==> r.maskFields == p.maskFields.value
  {
    LoggerConfig(if p.level.Set? then p.level.value else c.level,
                 if p.maskFields.Set? then p.maskFields.value else c.maskFields)
  }

  /** Two partial configurations applied one after the other, as one. */
  function Then(p: PartialConfig, q: PartialConfig): PartialConfig {
    PartialConfig(if q.level.Set? then q.level else p.level,
                  if q.maskFields.Set? then q.maskFields else p.maskFields)
  }

  /** Configuring twice is configuring once with the later settings winning;
      configuring with nothing changes nothing. */
  lemma ConfigureComposes(c: LoggerConfig, p: PartialConfig, q: PartialConfig)
    ensures Merge(Merge(c, p), q) == Merge(c, Then(p, q))
    ensures Merge(c, PartialConfig(Unset, Unset)) == c
  {
  }

  /** `levels.indexOf(config.level)`: -1 when the level was set to undefined. */
  function ConfigIndex(level: Option<LogLevel>): int {
    if level.Some? then LevelIndex(level.value) else -1
  }

  predicate ShouldLog(c: LoggerConfig, level: LogLevel) {
    LevelIndex(level) >= ConfigIndex(c.level)
  }

  /** The threshold is monotone, errors always pass, an undefined level lets
      everything through, and the default configuration drops only debug. */
  lemma ThresholdProperties(c: LoggerConfig, a: LogLevel, b: LogLevel)
    ensures ShouldLog(c, a) && LevelIndex(a) <= LevelIndex(b) ==> ShouldLog(c, b)
    ensures ShouldLog(c, ERROR)
    ensures c.level.None? ==> ShouldLog(c, a)
    ensures ShouldLog(DefaultConfig, a) <==> a != DEBUG
    ensures LevelIndex(a) == LevelIndex(b) ==> a == b
  {
  }

  predicate IsObject(v: Json) {
    v.JArr? || v.JObj?
  }

  /** A key is masked when, lower-cased, it contains some lower-cased mask field. */
  predicate Sensitive(maskFields: Option<seq<string>>, key: string) {
    maskFields.Some? && exists f :: f in maskFields.value && Includes(Lower(key), Lower(f))
  }

  /** `maskSensitiveData`: arrays elementwise; objects property by property,
      a sensitive key's value replaced whatever it is, other object values
      masked recursively; everything else unchanged. */
  function Mask(maskFields: Option<seq<string>>, v: Json): (r: Json)
    ensures !IsObject(v) ==> r == v
    ensures v.JArr? ==> r.JArr? && |r.items| == |v.items|
                        && forall i :: 0 <= i < |v.items| ==> r.items[i] == Mask(maskFields, v.items[i])
    ensures v.JObj? ==> r.JObj? && |r.fields| == |v.fields|
                        && forall i :: 0 <= i < |v.fields| ==> r.fields[i].key == v.fields[i].key
    ensures v.JObj? ==> forall i :: 0 <= i < |v.fields| && Sensitive(maskFields, v.fields[i].key) ==>
                          r.fields[i].val == JStr(MaskedValue)
    ensures v.JObj? ==> forall i :: 0 <= i < |v.fields| && !Sensitive(maskFields, v.fields[i].key) ==>
                          r.fields[i].val == (if IsObject(v.fields[i].val) then Mask(maskFields, v.fields[i].val)
                                              else v.fields[i].val)
    decreases v
  {
    match v
    case JArr(items) => JArr(seq(|items|, i requires 0 <= i < |items| => Mask(maskFields, items[i])))
    case JObj(fields) =>
      JObj(seq(|fields|, i requires 0 <= i < |fields| =>
        Prop(fields[i].key,
             if Sensitive(maskFields, fields[i].key) then JStr(MaskedValue)
             else if IsObject(fields[i].val) then Mask(maskFields, fields[i].val)
             else fields[i].val)))
    case _ => v
  }

  /** No sensitive key anywhere in `v` holds anything but the mask. */
  predicate Redacted(maskFields: Option<seq<string>>, v: Json)
    decreases v
  {
    match v
    case JArr(items) => forall i :: 0 <= i < |items| ==> Redacted(maskFields, items[i])
    case JObj(fields) =>
      forall i :: 0 <= i < |fields| ==>
        if Sensitive(maskFields, fields[i].key) then fields[i].val == JStr(MaskedValue)
        else Redacted(maskFields, fields[i].val)
    case _ => true
  }

  lemma {:induction false} MaskRedacts(maskFields: Option<seq<string>>, v: Json)
    ensures Redacted(maskFields, Mask(maskFields, v))
    decreases v
  {
    match v
    case JArr(items) =>
      forall i | 0 <= i < |items|
        ensures Redacted(maskFields, Mask(maskFields, items[i]))
      {
        MaskRedacts(maskFields, items[i]);
      }
    case JObj(fields) =>
      var r := Mask(maskFields, v);
      forall i | 0 <= i < |fields| && !Sensitive(maskFields, fields[i].key)
        ensures Redacted(maskFields, r.fields[i].val)
      {
        MaskRedacts(maskFields, fields[i].val);
      }
    case _ =>
  }

  /** Masking twice is masking once. */
  lemma {:induction false} MaskIdempotent(maskFields: Option<seq<string>>, v: Json)
    ensures Mask(maskFields, Mask(maskFields, v)) == Mask(maskFields, v)
    decreases v
  {
    match v
    case JArr(items) =>
      var once := Mask(maskFields, v);
      forall i | 0 <= i < |items|
        ensures Mask(maskFields, once.items[i]) == once.items[i]
      {
        MaskIdempotent(maskFields, items[i]);
      }
    case JObj(fields) =>
      var once := Mask(maskFields, v);
      forall i | 0 <= i < |fields|
        ensures Mask(maskFields, once).fields[i] == once.fields[i]
      {
        if !Sensitive(maskFields, fields[i].key) && IsObject(fields[i].val) {
          MaskIdempotent(maskFields, fields[i].val);
        }
      }
    case _ =>
  }

  /** With no mask fields (undefined or empty) every value is logged as is. */
  lemma {:induction false} NoFieldsNoMasking(maskFields: Option<seq<string>>, v: Json)
    requires maskFields.None? || maskFields.value == []
    ensures Mask(maskFields, v) == v
    decreases v
  {
    match v
    case JArr(items) =>
      forall i | 0 <= i < |items|
        ensures Mask(maskFields, items[i]) == items[i]
      {
        NoFieldsNoMasking(maskFields, items[i]);
      }
      assert Mask(maskFields, v).items == items;
    case JObj(fields) =>
      forall i | 0 <= i < |fields|
        ensures Mask(maskFields, v).fields[i] == fields[i]
      {
        NoFieldsNoMasking(maskFields, fields[i].val);
      }
      assert Mask(maskFields, v).fields == fields;
    case _ =>
  }

  /** The matching ignores case and accepts any key containing a field:
      `client_secret`, `X-SECRET-KEY` and `secret` are all masked by default. */
  lemma SecretKeysMaskedByDefault(key: string)
    requires Includes(Lower(key), "secret")
    ensures Sensitive(DefaultConfig.maskFields, key)
  {
    LowerKeepsLowercase("secret");
    assert DefaultMaskFields[5] == "secret";
  }

  /** One console call: the prefixed message and the values after it. */
  datatype LogLine = LogLine(level: LogLevel, text: string, values: seq<Json>)

  function MaskAll(maskFields: Option<seq<string>>, args: seq<Json>): (r: seq<Json>)
    ensures |r| == |args| && forall i :: 0 <= i < |args| ==> r[i] == Mask(maskFields, args[i])
  {
    seq(|args|, i requires 0 <= i < |args| => Mask(maskFields, args[i]))
  }

  class Logger {
    var config: LoggerConfig

    constructor ()
      ensures config == DefaultConfig
    {
      config := DefaultConfig;
    }

    /** `configure` */
    method Configure(p: PartialConfig)
      modifies this
      ensures config == Merge(old(config), p)
    {
      config := Merge(config, p);
    }

    /** The shared shape of `debug`, `info`, `warn` and `error`: nothing when
        the level is below the threshold, else the prefixed message followed
        by `leading` and the masked arguments. */
    method Emit(level: LogLevel, message: string, leading: seq<Json>, args: seq<Json>) returns (line: Option<LogLine>)
      ensures line.Some? <==> ShouldLog(config, level)
      ensures line.Some? ==> line.value == LogLine(level, "[" + LevelName(level) + "] " + message,
                                                   leading + MaskAll(config.maskFields, args))
    {
      if !ShouldLog(config, level) {
        return None;
      }
      var masked := MaskAll(config.maskFields, args);
      line := Some(LogLine(level, "[" + LevelName(level) + "] " + message, leading + masked));
    }

    method Debug(message: string, args: seq<Json>) returns (line: Option<LogLine>)
      ensures line.Some? <==> ShouldLog(config, DEBUG)
      ensures line.Some? ==> line.value.text == "[DEBUG] " + message && line.value.values == MaskAll(config.maskFields, args)
    {
      line := Emit(DEBUG, message, [], args);
    }

    method Info(message: string, args: seq<Json>) returns (line: Option<LogLine>)
      ensures line.Some? <==> ShouldLog(config, INFO)
      ensures line.Some? ==> line.value.text == "[INFO] " + message && line.value.values == MaskAll(config.maskFields, args)
    {
      line := Emit(INFO, message, [], args);
    }

    method Warn(message: string, args: seq<Json>) returns (line: Option<LogLine>)
      ensures line.Some? <==> ShouldLog(config, WARN)
      ensures line.Some? ==> line.value.text == "[WARN] " + message && line.value.values == MaskAll(config.maskFields, args)
    {
      line := Emit(WARN, message, [], args);
    }

    /** `error`: always logged; the error's message (or the empty string)
        comes before the masked arguments. */
    method Error(message: string, error: Option<string>, args: seq<Json>) returns (line: LogLine)
      ensures line.text == "[ERROR] " + message
      ensures line.values == [JStr(if error.Some? then error.value else "")] + MaskAll(config.maskFields, args)
    {
      ThresholdProperties(config, ERROR, ERROR);
      var emitted := Emit(ERROR, message, [JStr(if error.Some? then error.value else "")], args);
      line := emitted.value;
    }
  }
}
