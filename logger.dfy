/**
 * The logger: a JS `Map` of named transports plus per-level duplicate and
 * redirect loggers. `log` hands the message to the duplicate or redirect
 * logger first, then to every own transport that accepts the level.
 * Other loggers are named by strings; what a receiver does with a message
 * is outside this model, which records who received it in `outbox`.
 */
module Logging {
  import opened Wrappers
  import opened JsValues
  import opened JsObjects
  import opened OrderedMaps
  import opened LoggerUtils
  import opened LoggerTransport

  /** `{excludes}`; None is a missing (falsy) list. */
  datatype LoggerOptions = LoggerOptions(excludes: Option<seq<string>>)

  /** A `duplicateLoggers` entry `{logger, options}`; None is a falsy member. */
  datatype DuplicateLogger = DuplicateLogger(logger: Option<string>, options: Option<LoggerOptions>)

  /** One forwarded message: to another logger, or to an own transport by its key. */
  datatype Delivery = ToLogger(logger: string, level: string) | ToTransport(key: string, level: string)

  /** `excludes && excludes.includes(key)`. */
  predicate Excluded(excludes: Option<seq<string>>, key: string) {
    excludes.Some? && key in excludes.value
  }

  /** The own transports that receive a message, in key order. */
  function Fanout(keys: seq<string>, accepting: set<string>, excludes: Option<seq<string>>, level: string)
    : (r: seq<Delivery>)
    ensures |r| <= |keys|
  {
    if keys == [] then []
    else
      var k := keys[|keys| - 1];
      Fanout(keys[..|keys| - 1], accepting, excludes, level)
        + (if k in accepting && !Excluded(excludes, k) then [ToTransport(k, level)] else [])
  }

  /** Extending the keys by one extends the deliveries by that key's, if any. */
  lemma FanoutStep(keys: seq<string>, i: nat, accepting: set<string>, excludes: Option<seq<string>>, level: string)
    requires i < |keys|
    ensures Fanout(keys[..i + 1], accepting, excludes, level) == Fanout(keys[..i], accepting, excludes, level)
      + (if keys[i] in accepting && !Excluded(excludes, keys[i]) then [ToTransport(keys[i], level)] else [])
  {
    assert keys[..i + 1][..i] == keys[..i];
  }

  /** A transport receives the message iff it accepts the level and is not excluded. */
  lemma {:induction false} FanoutMembers(keys: seq<string>, accepting: set<string>, excludes: Option<seq<string>>,
                                         level: string, d: Delivery)
    ensures d in Fanout(keys, accepting, excludes, level) <==>
      d.ToTransport? && d.level == level && d.key in keys && d.key in accepting && !Excluded(excludes, d.key)
  {
    if keys != [] {
      var init := keys[..|keys| - 1];
      FanoutMembers(init, accepting, excludes, level, d);
      assert keys == init + [keys[|keys| - 1]];
    }
  }

  /** The fan-out keeps key order: it distributes over concatenation of the keys. */
  lemma {:induction false} FanoutAppend(a: seq<string>, b: seq<string>, accepting: set<string>,
                                        excludes: Option<seq<string>>, level: string)
    ensures Fanout(a + b, accepting, excludes, level)
      == Fanout(a, accepting, excludes, level) + Fanout(b, accepting, excludes, level)
  {
    if b != [] {
      var init := b[..|b| - 1];
      FanoutAppend(a, init, accepting, excludes, level);
      assert (a + b)[..|a + b| - 1] == a + init;
    } else {
      assert a + b == a;
    }
  }

  /** With distinct keys each transport receives the message at most once. */
  lemma {:induction false} FanoutOnce(keys: seq<string>, accepting: set<string>, excludes: Option<seq<string>>,
                                      level: string)
    requires Distinct(keys)
    ensures Distinct(Fanout(keys, accepting, excludes, level))
  {
    if keys != [] {
      var init := keys[..|keys| - 1];
      var k := keys[|keys| - 1];
      assert Distinct(init);
      FanoutOnce(init, accepting, excludes, level);
      FanoutMembers(init, accepting, excludes, level, ToTransport(k, level));
      assert k !in init;
    }
  }

  /**
   * What one `log(level)` call delivers: a duplicate logger with options
   * gets the message and its `excludes` apply to the own transports; a
   * duplicate without options gets nothing; with no duplicate, a redirect
   * logger gets the message instead of every own transport.
   */
  function Plan(level: string, duplicate: Option<DuplicateLogger>, redirect: Option<string>,
                keys: seq<string>, accepting: set<string>): seq<Delivery>
  {
    var dup := duplicate.GetOr(DuplicateLogger(None, None));
    if dup.logger.Some? then
      if dup.options.Some? then
        [ToLogger(dup.logger.value, level)] + Fanout(keys, accepting, dup.options.value.excludes, level)
      else Fanout(keys, accepting, None, level)
    else if redirect.Some? then [ToLogger(redirect.value, level)]
    else Fanout(keys, accepting, None, level)
  }

  /** Without a duplicate logger, a redirect logger is the only receiver. */
  lemma RedirectOnly(level: string, duplicate: Option<DuplicateLogger>, redirect: string,
                     keys: seq<string>, accepting: set<string>)
    requires duplicate.None? || duplicate.value.logger.None?
    ensures Plan(level, duplicate, Some(redirect), keys, accepting) == [ToLogger(redirect, level)]
  {
  }

  /**
   * A duplicate logger is consulted before the redirect: with options it
   * receives the message first, and the own transports outside its
   * `excludes` that accept the level follow; the redirect is never used.
   */
  lemma DuplicateFirst(level: string, dup: DuplicateLogger, redirect: Option<string>,
                       keys: seq<string>, accepting: set<string>, d: Delivery)
    requires dup.logger.Some?
    ensures var p := Plan(level, Some(dup), redirect, keys, accepting);
      && (dup.options.Some? ==> p != [] && p[0] == ToLogger(dup.logger.value, level))
      && (d in p <==>
            (dup.options.Some? && d == ToLogger(dup.logger.value, level)) ||
            (d.ToTransport? && d.level == level && d.key in keys && d.key in accepting &&
             !(dup.options.Some? && Excluded(dup.options.value.excludes, d.key))))
  {
    var excludes := if dup.options.Some? then dup.options.value.excludes else None;
    FanoutMembers(keys, accepting, excludes, level, d);
  }

  class Logger {
    /** The entries of the `Map` the logger extends: transports by key, in insertion order. */
    var transports: OrderedMap<string, Transport>
    var options: Object
    var redirectLoggers: map<string, string>
    var duplicateLoggers: map<string, DuplicateLogger>
    /** Every message forwarded so far, in order. */
    var outbox: seq<Delivery>

    ghost predicate Valid()
      reads this`transports
    {
      transports.Valid()
    }

    /** `new Logger(options)`: the empty defaults overlaid by the given options. */
    constructor (given: Option<Object>)
      ensures Valid()
      ensures options == Overlay(map[], given.GetOr(map[]))
      ensures transports == Empty() && redirectLoggers == map[] && duplicateLoggers == map[] && outbox == []
    {
      var target := new JsObject(map[]);
      var merged := Assign(target, [Some(given.GetOr(map[]))]);
      options := merged.props;
      transports := Empty();
      redirectLoggers := map[];
      duplicateLoggers := map[];
      outbox := [];
    }

    /** `logger.set(key, transport)`. */
    method SetTransport(key: string, t: Transport)
      requires Valid()
      modifies this`transports
      ensures Valid()
      ensures transports == old(transports).Set(key, t)
    {
      transports := transports.Set(key, t);
    }

    /** The keys of the transports that accept `level`. */
    function Accepting(level: string): set<string>
      reads this`transports, transports.entries.Values
    {
      set k | k in transports.entries && transports.entries[k].ShouldLog(level)
    }

    function DuplicateFor(level: string): Option<DuplicateLogger>
      reads this`duplicateLoggers
    {
      if level in duplicateLoggers then Some(duplicateLoggers[level]) else None
    }

    function RedirectFor(level: string): Option<string>
      reads this`redirectLoggers
    {
      if level in redirectLoggers then Some(redirectLoggers[level]) else None
    }

    /** `log(level, args)`: forwards as `Plan` says. */
    method Log(level: string)
      requires Valid()
      modifies this`outbox
      ensures outbox == old(outbox)
        + Plan(level, DuplicateFor(level), RedirectFor(level), transports.keys, Accepting(level))
    {
      var excludes: Option<seq<string>> := None;
      var dup := if level in duplicateLoggers then duplicateLoggers[level] else DuplicateLogger(None, None);
      if dup.logger.Some? {
        if dup.options.Some? {
          excludes := dup.options.value.excludes;
          outbox := outbox + [ToLogger(dup.logger.value, level)];
        }
      } else if level in redirectLoggers {
        outbox := outbox + [ToLogger(redirectLoggers[level], level)];
        return;
      }
      SendToTransports(level, excludes);
    }

    /** The loop over the own entries: each accepting, non-excluded transport in key order. */
    method SendToTransports(level: string, excludes: Option<seq<string>>)
      requires Valid()
      modifies this`outbox
      ensures outbox == old(outbox) + Fanout(transports.keys, Accepting(level), excludes, level)
    {
      ghost var accepting := Accepting(level);
      var keys := transports.keys;
      for i := 0 to |keys|
        invariant outbox == old(outbox) + Fanout(keys[..i], accepting, excludes, level)
      {
        FanoutStep(keys, i, accepting, excludes, level);
        SendToTransport(keys[i], level, excludes);
      }
      assert keys[..|keys|] == keys;
    }

    /** One round of the loop: the transport under `key` gets the message if it accepts it and is not excluded. */
    method SendToTransport(key: string, level: string, excludes: Option<seq<string>>)
      requires Valid() && key in transports.keys
      modifies this`outbox
      ensures outbox == old(outbox)
        + (if key in Accepting(level) && !Excluded(excludes, key) then [ToTransport(key, level)] else [])
    {
      assert key in transports.entries.Keys;
      var t := transports.entries[key];
      if t.ShouldLog(level) && !(excludes.Some? && key in excludes.value) {
        outbox := outbox + [ToTransport(key, level)];
      }
    }

    method Error()
      requires Valid()
      modifies this`outbox
      ensures outbox == old(outbox)
        + Plan("ERROR", DuplicateFor("ERROR"), RedirectFor("ERROR"), transports.keys, Accepting("ERROR"))
    {
      Log("ERROR");
    }

    method Warn()
      requires Valid()
      modifies this`outbox
      ensures outbox == old(outbox)
        + Plan("WARN", DuplicateFor("WARN"), RedirectFor("WARN"), transports.keys, Accepting("WARN"))
    {
      Log("WARN");
    }

    method Info()
      requires Valid()
      modifies this`outbox
      ensures outbox == old(outbox)
        + Plan("INFO", DuplicateFor("INFO"), RedirectFor("INFO"), transports.keys, Accepting("INFO"))
    {
      Log("INFO");
    }

    method Debug()
      requires Valid()
      modifies this`outbox
      ensures outbox == old(outbox)
        + Plan("DEBUG", DuplicateFor("DEBUG"), RedirectFor("DEBUG"), transports.keys, Accepting("DEBUG"))
    {
      Log("DEBUG");
    }
  }
}
