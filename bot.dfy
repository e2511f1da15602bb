// The command handlers of the forwarder bot: one process-wide settings
// dictionary and one forwarding flag, six setters that each write one key,
// the stop handler, and the forward handler with its loop over message IDs.

module Bot {

  import opened PyInt
  import opened Settings
  import opened ForwardLoop

  /** The chat reply of a setter or of the stop handler. */
  datatype Reply =
    | Confirmed(key: Key, value: Value)  // "... set to <value>. Now, please ..."
    | Usage(key: Key)                    // "Usage: /<command> <argument>"
    | Stopped                            // "Forwarding has been stopped."

  class Forwarder {
    /** `user_settings`: the values set by the commands so far. */
    var settings: map<Key, Value>
    /** `is_forwarding`: whether a forward run is in progress. */
    var isForwarding: bool

    /** Every stored value has the type its setter gives it. */
    ghost predicate Valid()
      reads this
    {
      WellTyped(settings)
    }

    /** The state at process start: no settings and the flag clear. */
    constructor ()
      ensures Valid() && settings == map[] && !isForwarding
    {
      settings := map[];
      isForwarding := false;
    }

    /**
     * The shared body of the numeric setters: `int(context.args[0])`, then
     * one write on success, or the usage reply and no write on a missing or
     * malformed argument.
     */
    method SetIntSetting(k: Key, args: seq<string>) returns (reply: Reply)
      requires Valid() && IsIntKey(k)
      modifies this`settings
      ensures Valid()
      ensures ParseArg(args).Some? ==>
        && settings == old(settings)[k := IntVal(ParseArg(args).value)]
        && reply == Confirmed(k, IntVal(ParseArg(args).value))
      ensures ParseArg(args).None? ==> settings == old(settings) && reply == Usage(k)
    {
      var parsed := ParseArg(args);
      if parsed.Some? {
        settings := settings[k := IntVal(parsed.value)];
        reply := Confirmed(k, IntVal(parsed.value));
      } else {
        reply := Usage(k);
      }
    }

    /** The shared body of the channel setters: store `context.args[0]` as it is. */
    method SetChannelSetting(k: Key, args: seq<string>) returns (reply: Reply)
      requires Valid() && !IsIntKey(k)
      modifies this`settings
      ensures Valid()
      ensures args != [] ==> settings == old(settings)[k := StrVal(args[0])] && reply == Confirmed(k, StrVal(args[0]))
      ensures args == [] ==> settings == old(settings) && reply == Usage(k)
    {
      if |args| > 0 {
        settings := settings[k := StrVal(args[0])];
        reply := Confirmed(k, StrVal(args[0]));
      } else {
        reply := Usage(k);
      }
    }

    /** `/batchsize <number>` */
    method SetBatchSize(args: seq<string>) returns (reply: Reply)
      requires Valid()
      modifies this`settings
      ensures Valid()
      ensures ParseArg(args).Some? ==>
        && settings == old(settings)[BatchSize := IntVal(ParseArg(args).value)]
        && reply == Confirmed(BatchSize, IntVal(ParseArg(args).value))
      ensures ParseArg(args).None? ==> settings == old(settings) && reply == Usage(BatchSize)
    {
      reply := SetIntSetting(BatchSize, args);
    }

    /** `/delay <seconds>` */
    method SetDelay(args: seq<string>) returns (reply: Reply)
      requires Valid()
      modifies this`settings
      ensures Valid()
      ensures ParseArg(args).Some? ==>
        && settings == old(settings)[DelayTime := IntVal(ParseArg(args).value)]
        && reply == Confirmed(DelayTime, IntVal(ParseArg(args).value))
      ensures ParseArg(args).None? ==> settings == old(settings) && reply == Usage(DelayTime)
    {
      reply := SetIntSetting(DelayTime, args);
    }

    /** `/source <channel_id>` */
    method SetSourceChannel(args: seq<string>) returns (reply: Reply)
      requires Valid()
      modifies this`settings
      ensures Valid()
      ensures args != [] ==>
        settings == old(settings)[SourceChannel := StrVal(args[0])] && reply == Confirmed(SourceChannel, StrVal(args[0]))
      ensures args == [] ==> settings == old(settings) && reply == Usage(SourceChannel)
    {
      reply := SetChannelSetting(SourceChannel, args);
    }

    /** `/target <channel_id>` */
    method SetTargetChannel(args: seq<string>) returns (reply: Reply)
      requires Valid()
      modifies this`settings
      ensures Valid()
      ensures args != [] ==>
        settings == old(settings)[TargetChannel := StrVal(args[0])] && reply == Confirmed(TargetChannel, StrVal(args[0]))
      ensures args == [] ==> settings == old(settings) && reply == Usage(TargetChannel)
    {
      reply := SetChannelSetting(TargetChannel, args);
    }

    /** `/start <message_id>` */
    method SetStartMessage(args: seq<string>) returns (reply: Reply)
      requires Valid()
      modifies this`settings
      ensures Valid()
      ensures ParseArg(args).Some? ==>
        && settings == old(settings)[StartMessage := IntVal(ParseArg(args).value)]
        && reply == Confirmed(StartMessage, IntVal(ParseArg(args).value))
      ensures ParseArg(args).None? ==> settings == old(settings) && reply == Usage(StartMessage)
    {
      reply := SetIntSetting(StartMessage, args);
    }

    /** `/end <message_id>` */
    method SetEndMessage(args: seq<string>) returns (reply: Reply)
      requires Valid()
      modifies this`settings
      ensures Valid()
      ensures ParseArg(args).Some? ==>
        && settings == old(settings)[EndMessage := IntVal(ParseArg(args).value)]
        && reply == Confirmed(EndMessage, IntVal(ParseArg(args).value))
      ensures ParseArg(args).None? ==> settings == old(settings) && reply == Usage(EndMessage)
    {
      reply := SetIntSetting(EndMessage, args);
    }

    /** `/stop`: clears the flag whatever its value, and touches nothing else. */
    method StopForwarding() returns (reply: Reply)
      modifies this`isForwarding
      ensures !isForwarding && settings == old(settings) && reply == Stopped
    {
      isForwarding := false;
      reply := Stopped;
    }

    /**
     * `/forward`. `delivers(source, target, id)` says whether fetching message
     * `id` from the source and sending its text to the target succeeds;
     * `flagAt(id)` is the value of the flag when the loop reaches `id`, which
     * a `/stop` handled in between may have cleared.
     */
    method ForwardMessages(cfg: Config, delivers: (Value, Value, int) -> bool, flagAt: int -> bool)
      returns (trace: seq<Event>)
      requires Valid()
      modifies this`isForwarding
      ensures settings == old(settings)
      ensures trace == ForwardTrace(cfg, settings, delivers, flagAt)
      ensures trace != [] && (isForwarding <==> trace[|trace| - 1] != Interrupted)
    {
      isForwarding := true;

      var source := Get(settings, SourceChannel, cfg.sourceChannel);
      var target := Get(settings, TargetChannel, cfg.targetChannel);
      var batchSize := IntSetting(settings, BatchSize, cfg.batchSize);
      var delayTime := IntSetting(settings, DelayTime, cfg.delay);
      var startMessage := Get(settings, StartMessage, None);
      var endMessage := Get(settings, EndMessage, None);

      if !Truthy(source) || !Truthy(target) {
        trace := [ConfigError(ChannelsUnset)];
        return;
      }
      if !Truthy(startMessage) || !Truthy(endMessage) {
        trace := [ConfigError(MessageIdsUnset)];
        return;
      }

      var first := startMessage.value.i;
      var last := endMessage.value.i;
      assert JobOf(cfg, settings, delivers, flagAt)
          == Job(source.value, target.value, last, last - first + 1, batchSize, delayTime, delivers, flagAt);
      trace := CopyRange(source.value, target.value, first, last, batchSize, delayTime, delivers, flagAt);
    }

    /**
     * The loop of `/forward` over the IDs `first..last`, after the checks
     * have passed and with the flag set: it produces exactly `Loop` of the
     * job these values make, and leaves the flag clear only when a stop
     * interrupted it.
     */
    method CopyRange(source: Value, target: Value, first: int, last: int, batchSize: int, delayTime: int,
                     delivers: (Value, Value, int) -> bool, flagAt: int -> bool)
      returns (trace: seq<Event>)
      requires isForwarding
      modifies this`isForwarding
      ensures trace == Loop(Job(source, target, last, last - first + 1, batchSize, delayTime, delivers, flagAt), first, 0)
      ensures trace != [] && (isForwarding <==> trace[|trace| - 1] != Interrupted)
    {
      var forwarded := 0;
      var total := last - first + 1;
      ghost var j := Job(source, target, last, total, batchSize, delayTime, delivers, flagAt);
      ghost var goal := Loop(j, first, 0);

      trace := [];
      var messageId := first;
      while messageId <= last
        invariant isForwarding
        invariant trace + Loop(j, messageId, forwarded) == goal
        decreases last + 1 - messageId
      {
        ghost var before, n := trace, forwarded;
        isForwarding := flagAt(messageId);
        if !isForwarding {
          InterruptedAt(j, messageId, n, before, goal);
          trace := trace + [Interrupted];
          return;
        }
        if delivers(source, target, messageId) {
          forwarded := forwarded + 1;
          trace := trace + [Copied(source, target, messageId), Progress(forwarded, total, total - forwarded)];
        } else {
          trace := trace + [Failed(messageId)];
        }
        assert trace == before + Visit(j, messageId, n) && forwarded == After(j, messageId, n);
        if batchSize == 0 {
          CrashedAt(j, messageId, n, DivisionByZero, before, goal);
          trace := trace + [Crashed(DivisionByZero)];
          return;
        }
        if PyMod(forwarded, batchSize) == 0 {
          if SleepRaises(delayTime) {
            CrashedAt(j, messageId, n, SleepError(delayTime), before, goal);
            trace := trace + [Crashed(SleepError(delayTime))];
            return;
          }
          trace := trace + [Pause(delayTime)];
        }
        assert trace == before + Step(j, messageId, n);
        ContinuesAt(j, messageId, n, before, goal);
        messageId := messageId + 1;
      }
      assert Loop(j, messageId, forwarded) == [Finished(forwarded)];
      trace := trace + [Finished(forwarded)];
    }
  }
}
