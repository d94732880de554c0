/**
 * The collector base: the interval parser, the "did the fetch succeed"
 * gauge, and `BaseEsCollector`, which decides from its configuration
 * whether it is scheduled and then either fetches on every collect or
 * drains the one-shot generator its scheduled job stored.
 */
module Base {
  import opened Wrappers
  import opened Json
  import opened Metrics

  /** The configuration errors that abort a collector's construction or job generation. */
  datatype ConfigError =
    | NotSupportInterval(literal: Json)  // RuntimeError('Not support interval:<literal>')
    | MissingKey(key: string)            // KeyError on a configuration dict

  // ---------------------------------------------------------------------
  // Python's int() applied to a str
  // ---------------------------------------------------------------------

  /**
   * The characters `int()` skips around a literal: the ASCII whitespace tab
   * to carriage return and space, and the non-ASCII characters
   * `str.isspace()` accepts (NEL, no-break space and the Unicode space
   * separators), which are turned into spaces first. The ASCII separators
   * 0x1C-0x1F are copied unchanged and are not skipped.
   */
  predicate IsSpace(c: char)
  {
    var n := c as int;
    || 0x09 <= n <= 0x0D || n == 0x20 || n == 0x85 || n == 0xA0 || n == 0x1680
    || 0x2000 <= n <= 0x200A || n == 0x2028 || n == 0x2029 || n == 0x202F || n == 0x205F || n == 0x3000
  }

  predicate IsDigit(c: char)
  {
    '0' <= c <= '9'
  }

  function StripRight(s: string): string
  {
    if s != [] && IsSpace(s[|s| - 1]) then StripRight(s[..|s| - 1]) else s
  }

  function StripLeft(s: string): string
  {
    if s != [] && IsSpace(s[0]) then StripLeft(s[1..]) else s
  }

  /** A decimal literal: digits, with single underscores allowed between two digits. */
  predicate DigitGroups(s: string)
  {
    && s != []
    && IsDigit(s[0])
    && IsDigit(s[|s| - 1])
    && (forall i :: 0 <= i < |s| ==> IsDigit(s[i]) || s[i] == '_')
    && (forall i :: 0 <= i < |s| - 1 ==> !(s[i] == '_' && s[i + 1] == '_'))
  }

  function DigitValue(c: char): nat
  {
    if IsDigit(c) then c as int - '0' as int else 0
  }

  /** The number a decimal literal denotes; underscores are skipped. */
  function DigitsValue(s: string): nat
  {
    if s == [] then 0
    else if s[|s| - 1] == '_' then DigitsValue(s[..|s| - 1])
    else 10 * DigitsValue(s[..|s| - 1]) + DigitValue(s[|s| - 1])
  }

  /**
   * `int(s)` for a str: surrounding whitespace is ignored, one optional sign,
   * then a decimal literal. None where Python raises ValueError.
   */
  function PyInt(s: string): Option<int>
  {
    var t := StripLeft(StripRight(s));
    if t != [] && (t[0] == '+' || t[0] == '-') then
      if DigitGroups(t[1..]) then
        var v: int := DigitsValue(t[1..]);
        Some(if t[0] == '-' then -v else v)
      else None
    else if DigitGroups(t) then Some(DigitsValue(t))
    else None
  }

  function DigitChar(d: nat): char
    requires d < 10
  {
    ('0' as int + d) as char
  }

  /** `str(n)` for a natural number. */
  function Decimal(n: nat): string
  {
    if n < 10 then [DigitChar(n)] else Decimal(n / 10) + [DigitChar(n % 10)]
  }

  lemma {:induction false} DecimalDigits(n: nat)
    ensures Decimal(n) != []
    ensures forall i :: 0 <= i < |Decimal(n)| ==> IsDigit(Decimal(n)[i])
    ensures DigitsValue(Decimal(n)) == n
  {
    if n >= 10 {
      DecimalDigits(n / 10);
      var s := Decimal(n);
      assert s[..|s| - 1] == Decimal(n / 10);
    }
  }

  /** `int(str(n)) == n`: printing a number and parsing it back is the identity. */
  lemma DecimalParses(n: nat)
    ensures PyInt(Decimal(n)) == Some(n)
  {
    DecimalDigits(n);
    var s := Decimal(n);
    assert StripRight(s) == s;
    assert StripLeft(s) == s;
  }

  /** A number followed by a character that is not part of an integer literal does not parse. */
  lemma DecimalWithSuffixFails(n: nat, u: char)
    requires !IsDigit(u) && !IsSpace(u)
    ensures PyInt(Decimal(n) + [u]) == None
  {
    DecimalDigits(n);
    var s := Decimal(n) + [u];
    assert StripRight(s) == s;
    assert s[0] == Decimal(n)[0];
    assert StripLeft(s) == s;
  }

  // ---------------------------------------------------------------------
  // interval_handle
  // ---------------------------------------------------------------------

  /**
   * `interval_handle`: an integer literal is seconds; otherwise the literal
   * minus its last character must be an integer and the last character is
   * the unit: `s` seconds, `m` minutes, `h` hours, anything else unscaled.
   * A config value that is a YAML int or bool is passed through `int()`.
   */
  function IntervalHandle(lit: Json): (r: Result<int, ConfigError>)
    ensures r.Failure? ==> r.error == NotSupportInterval(lit)
    ensures lit.JInt? ==> r == Success(lit.n)
    ensures lit.JStr? ==>
      (r.Failure? <==> PyInt(lit.s).None? && (lit.s == [] || PyInt(lit.s[..|lit.s| - 1]).None?))
    ensures lit.JNull? || lit.JList? || lit.JObj? ==> r.Failure?
  {
    match lit
    case JInt(n) => Success(n)
    case JBool(b) => Success(if b then 1 else 0)
    case JStr(s) =>
      (match PyInt(s)
       case Some(n) => Success(n)
       case None =>
         if s == [] then Failure(NotSupportInterval(lit))
         else match PyInt(s[..|s| - 1])
           case None => Failure(NotSupportInterval(lit))
           case Some(n) =>
             var unit := s[|s| - 1];
             Success(if unit == 's' then n
                     else if unit == 'm' then n * 60
                     else if unit == 'h' then n * 60 * 60
                     else n))
    case _ => Failure(NotSupportInterval(lit))
  }

  /** Plain seconds: `"45"` is 45. */
  lemma IntervalPlain(n: nat)
    ensures IntervalHandle(JStr(Decimal(n))) == Success(n)
  {
    DecimalParses(n);
  }

  /** `"Ns"` is N, `"Nm"` is 60·N, `"Nh"` is 3600·N, and any other unit letter leaves N unscaled. */
  lemma IntervalWithUnit(n: nat, unit: char)
    requires !IsDigit(unit) && !IsSpace(unit)
    ensures IntervalHandle(JStr(Decimal(n) + [unit])) == Success(
      if unit == 's' then n else if unit == 'm' then 60 * n else if unit == 'h' then 3600 * n else n)
  {
    var s := Decimal(n) + [unit];
    DecimalWithSuffixFails(n, unit);
    assert s[..|s| - 1] == Decimal(n);
    DecimalParses(n);
  }

  lemma IntervalExamples()
    ensures IntervalHandle(JStr("30s")) == Success(30)
    ensures IntervalHandle(JStr("5m")) == Success(300)
    ensures IntervalHandle(JStr("2h")) == Success(7200)
    ensures IntervalHandle(JStr("45")) == Success(45)
    ensures IntervalHandle(JStr("30x")) == Success(30)
  {
    ThirtyWithUnit('s');
    ThirtyWithUnit('x');
    DigitWithUnit(5, 'm');
    DigitWithUnit(2, 'h');
    TwoDigits(4, 5);
  }

  /** `"5m"` and `"2h"`: a one-digit numeral and a unit letter. */
  lemma DigitWithUnit(d: nat, unit: char)
    requires (d == 5 && unit == 'm') || (d == 2 && unit == 'h')
    ensures IntervalHandle(JStr([DigitChar(d), unit])) == Success(if unit == 'm' then 60 * d else 3600 * d)
  {
    assert [DigitChar(d), unit] == Decimal(d) + [unit];
    IntervalWithUnit(d, unit);
  }

  /** A two-digit numeral is its own number of seconds. */
  lemma TwoDigits(a: nat, b: nat)
    requires 0 < a < 10 && b < 10
    ensures IntervalHandle(JStr([DigitChar(a), DigitChar(b)])) == Success(10 * a + b)
  {
    assert Decimal(10 * a + b) == [DigitChar(a), DigitChar(b)];
    IntervalPlain(10 * a + b);
  }

  /** `"30s"` and `"30x"`: the recognised and an unrecognised unit letter. */
  lemma ThirtyWithUnit(unit: char)
    requires unit == 's' || unit == 'x'
    ensures IntervalHandle(JStr(['3', '0', unit])) == Success(30)
  {
    assert Decimal(30) == "30";
    assert ['3', '0', unit] == Decimal(30) + [unit];
    IntervalWithUnit(30, unit);
  }

  /** Whitespace that `int()` skips around a numeral is ignored. */
  lemma IntervalSkipsSpace(n: nat, c: char)
    requires IsSpace(c)
    ensures IntervalHandle(JStr([c] + Decimal(n) + [c])) == Success(n)
  {
    DecimalDigits(n);
    DecimalParses(n);
    var d := Decimal(n);
    var s := [c] + d + [c];
    assert s[..|s| - 1] == [c] + d;
    assert StripRight(s) == StripRight([c] + d);
    assert ([c] + d)[|[c] + d| - 1] == d[|d| - 1];
    assert StripRight([c] + d) == [c] + d;
    assert ([c] + d)[1..] == d;
    assert StripLeft([c] + d) == StripLeft(d);
    assert StripRight(d) == d;
  }

  /**
   * The ASCII separator 0x1C is not skipped: neither `"\x1c5"` nor `"\x1c"`
   * is an integer, so the literal is refused.
   */
  lemma IntervalRejectsSeparator()
    ensures IntervalHandle(JStr([0x1C as char, '5'])) == Failure(NotSupportInterval(JStr([0x1C as char, '5'])))
  {
    var s: string := [0x1C as char, '5'];
    assert StripRight(s) == s;
    assert StripLeft(s) == s;
    assert !DigitGroups(s);
    assert PyInt(s) == None;
    assert s[..|s| - 1] == [0x1C as char];
    assert StripRight([0x1C as char]) == [0x1C as char];
    assert StripLeft([0x1C as char]) == [0x1C as char];
    assert PyInt([0x1C as char]) == None;
  }

  /** Neither "abc" nor "ab" is an integer, so "abc" is refused with the literal in the error. */
  lemma IntervalRejectsWord()
    ensures IntervalHandle(JStr("abc")) == Failure(NotSupportInterval(JStr("abc")))
  {
    assert StripRight("abc") == "abc";
    assert StripLeft("abc") == "abc";
    assert PyInt("abc") == None;
    var s: string := "abc";
    assert s[..|s| - 1] == "ab";
    assert StripRight("ab") == "ab";
    assert StripLeft("ab") == "ab";
    assert PyInt("ab") == None;
  }

  // ---------------------------------------------------------------------
  // collector_up_gauge and the configuration defaults
  // ---------------------------------------------------------------------

  /** `collector_up_gauge`: the family `<name>_up`, 1 when the fetch succeeded and 0 otherwise. */
  function CollectorUpGauge(name: string, succeeded: bool): (f: Family)
    ensures f.name == name + "_up" && f.labels == []
    ensures f.samples == [Sample([], JInt(if succeeded then 1 else 0))]
  {
    GaugeValue(name + "_up", "Did the " + name + " fetch succeed.", JInt(if succeeded then 1 else 0))
  }

  /** `if 'timeout' not in c: c['timeout'] = global['timeout']`. */
  function DefaultTimeout(c: map<string, Json>, global: map<string, Json>): (r: Result<map<string, Json>, ConfigError>)
    ensures r.Failure? <==> "timeout" !in c && "timeout" !in global
    ensures r.Failure? ==> r.error == MissingKey("timeout")
    ensures r.Success? ==> r.value.Keys == c.Keys + {"timeout"}
    ensures r.Success? ==> forall k :: k in c ==> r.value[k] == c[k]
    ensures r.Success? && "timeout" !in c ==> r.value["timeout"] == global["timeout"]
  {
    if "timeout" in c then Success(c)
    else if "timeout" in global then Success(c["timeout" := global["timeout"]])
    else Failure(MissingKey("timeout"))
  }

  /** A collector's own configuration after construction, and whether it is scheduled. */
  datatype Settings = Settings(config: map<string, Json>, enableScheduler: bool)

  /**
   * What `BaseEsCollector.__init__` does to the collector's configuration
   * section: an `interval` key switches scheduling on and is replaced by its
   * parsed seconds (the global interval is looked up first, as the eager
   * default argument of `dict.get`), then a missing timeout is filled in.
   */
  function InitConfig(section: map<string, Json>, global: map<string, Json>): (r: Result<Settings, ConfigError>)
    ensures r.Failure? <==>
      || ("interval" in section && ("interval" !in global || IntervalHandle(section["interval"]).Failure?))
      || ("timeout" !in section && "timeout" !in global)
    ensures r.Success? ==> r.value.enableScheduler == ("interval" in section)
    ensures r.Success? ==> r.value.config.Keys == section.Keys + {"timeout"}
    ensures r.Success? && "interval" in section ==>
      IntervalHandle(section["interval"]).Success? &&
      r.value.config["interval"] == JInt(IntervalHandle(section["interval"]).value)
    ensures r.Success? ==> forall k :: k in section && k != "interval" ==> r.value.config[k] == section[k]
    ensures r.Success? && "timeout" !in section ==> r.value.config["timeout"] == global["timeout"]
  {
    if "interval" in section then
      if "interval" !in global then Failure(MissingKey("interval"))
      else match IntervalHandle(section["interval"])
        case Failure(e) => Failure(e)
        case Success(seconds) =>
          match DefaultTimeout(section["interval" := JInt(seconds)], global)
          case Failure(e) => Failure(e)
          case Success(c) => Success(Settings(c, true))
    else
      match DefaultTimeout(section, global)
      case Failure(e) => Failure(e)
      case Success(c) => Success(Settings(c, false))
  }

  /**
   * What `custom_metric_value` holds: None before the job first runs, then
   * the generator object `self._get_metric()` the job stored. A generator
   * runs only when it is iterated, and once drained it yields nothing more.
   */
  datatype JobCache = NotRun | Pending | Drained

  /**
   * `BaseEsCollector`. The `_get_metric` of a concrete collector is not a
   * member here: what it would produce if it ran at a given moment is
   * passed in as a Stream wherever it runs.
   */
  class BaseEsCollector {
    const key: string
    const globalConfig: map<string, Json>
    var config: map<string, Json>
    var enableScheduler: bool
    var customMetricValue: JobCache

    /** Construction leaves the collector scheduled exactly when its section has an interval. */
    predicate Valid()
      reads this
    {
      enableScheduler == ("interval" in config)
    }

    constructor (key: string, section: map<string, Json>, globalConfig: map<string, Json>)
      ensures this.key == key && this.globalConfig == globalConfig && config == section
      ensures !enableScheduler && customMetricValue == NotRun
    {
      this.key := key;
      this.globalConfig := globalConfig;
      config := section;
      enableScheduler := false;
      customMetricValue := NotRun;
    }

    /** `BaseEsCollector(config, key)`: a failure is the exception `__init__` raises. */
    static method Create(config: map<string, map<string, Json>>, key: string)
      returns (r: Result<BaseEsCollector, ConfigError>)
      ensures key !in config ==> r == Failure(MissingKey(key))
      ensures key in config && "global" !in config ==> r == Failure(MissingKey("global"))
      ensures key in config && "global" in config && InitConfig(config[key], config["global"]).Failure? ==>
        r == Failure(InitConfig(config[key], config["global"]).error)
      ensures key in config && "global" in config && InitConfig(config[key], config["global"]).Success? ==>
        && r.Success? && fresh(r.value)
        && r.value.key == key && r.value.globalConfig == config["global"]
        && r.value.config == InitConfig(config[key], config["global"]).value.config
        && r.value.enableScheduler == InitConfig(config[key], config["global"]).value.enableScheduler
        && r.value.customMetricValue == NotRun
      ensures r.Success? ==> r.value.Valid()
    {
      if key !in config {
        return Failure(MissingKey(key));
      }
      if "global" !in config {
        return Failure(MissingKey("global"));
      }
      var c := new BaseEsCollector(key, config[key], config["global"]);
      if "interval" in c.config {
        c.enableScheduler := true;
        if "interval" !in c.globalConfig {
          return Failure(MissingKey("interval"));
        }
        var parsed := IntervalHandle(c.config["interval"]);
        if parsed.Failure? {
          return Failure(parsed.error);
        }
        c.config := c.config["interval" := JInt(parsed.value)];
      }
      if "timeout" !in c.config {
        if "timeout" !in c.globalConfig {
          return Failure(MissingKey("timeout"));
        }
        c.config := c.config["timeout" := c.globalConfig["timeout"]];
      }
      return Success(c);
    }

    /**
     * `get_metric`: everything `_get_metric` yielded, then exactly one up
     * gauge, 1 if it returned and 0 if it raised; nothing is re-raised.
     */
    function GetMetric(inner: Stream): (r: Stream)
      ensures r.failure == None
      ensures |r.items| == |inner.items| + 1
      ensures r.items[..|inner.items|] == inner.items
      ensures r.items[|inner.items|] == CollectorUpGauge(key, inner.failure == None)
    {
      Stream(inner.items + [CollectorUpGauge(key, inner.failure.None?)], None)
    }

    /**
     * `gen_job`: the interval and the name to schedule the job under; a
     * KeyError when the section has no interval, which for a constructed
     * collector is exactly when it is not scheduled.
     */
    method GenJob() returns (r: Result<(Json, string), ConfigError>)
      ensures r.Success? <==> "interval" in config
      ensures r.Success? ==> r.value == (config["interval"], key)
      ensures r.Failure? ==> r.error == MissingKey("interval")
      ensures Valid() ==> (r.Success? <==> enableScheduler)
    {
      if "interval" !in config {
        return Failure(MissingKey("interval"));
      }
      return Success((config["interval"], key));
    }

    /** The job `gen_job` returns: stores a fresh, not yet started `_get_metric()` generator, and nothing else. */
    method RunJob()
      modifies this`customMetricValue
      ensures customMetricValue == Pending
    {
      customMetricValue := Pending;
    }

    /**
     * `collect`. `current` is what `_get_metric` produces if it runs now.
     * Scheduled: before the first job nothing; a stored generator runs now
     * (its failure propagates, with no up gauge) and is drained afterwards;
     * a drained one yields nothing. Unscheduled: `get_metric` of a run now.
     */
    method Collect(current: Stream) returns (out: Stream)
      modifies this`customMetricValue
      ensures enableScheduler && old(customMetricValue) == Pending ==>
        out == current && customMetricValue == Drained
      ensures enableScheduler && old(customMetricValue) != Pending ==>
        out == Empty && customMetricValue == old(customMetricValue)
      ensures !enableScheduler ==> out == GetMetric(current) && customMetricValue == old(customMetricValue)
    {
      if enableScheduler {
        if customMetricValue == Pending {
          out := current;
          customMetricValue := Drained;
        } else {
          out := Empty;
        }
      } else {
        out := GetMetric(current);
      }
    }
  }

  /**
   * A scheduled collector yields nothing until its job has run; the collect
   * after a job run yields what a fetch gives at that collect, and a second
   * collect before the next job run yields nothing.
   */
  method ScheduledRunsOnce(c: BaseEsCollector, now0: Stream, now1: Stream, now2: Stream, now3: Stream)
    returns (before: Stream, first: Stream, second: Stream, rerun: Stream)
    requires c.enableScheduler && c.customMetricValue == NotRun
    modifies c
    ensures before == Empty
    ensures first == now1 && second == Empty
    ensures rerun == now3
  {
    before := c.Collect(now0);
    c.RunJob();
    first := c.Collect(now1);
    second := c.Collect(now2);
    c.RunJob();
    rerun := c.Collect(now3);
  }
}
