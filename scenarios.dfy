// Worked runs of the forward handler over messages 10 to 14 with a batch
// size of 2 and a delay of 1 second: every copy succeeding, a stop before
// message 13, a failure at message 12, and a batch size of 0.

module Scenarios {

  import opened PyInt
  import opened Settings
  import opened ForwardLoop
  import opened Bot

  const Src := StrVal("@source")
  const Tgt := StrVal("@target")

  /** The settings after `/source`, `/target`, `/start 10`, `/end 14`, `/batchsize b` and `/delay 1`. */
  function Example(batch: int): (s: map<Key, Value>)
    ensures WellTyped(s) && ChannelsSet(Config(0, 0, None, None), s) && IdsSet(s)
  {
    map[SourceChannel := Src, TargetChannel := Tgt, StartMessage := IntVal(10), EndMessage := IntVal(14),
        BatchSize := IntVal(batch), DelayTime := IntVal(1)]
  }

  function JobFor(batch: int, delivers: (Value, Value, int) -> bool, flagAt: int -> bool): Job {
    Job(Src, Tgt, 14, 5, batch, 1, delivers, flagAt)
  }

  lemma ExampleJob(cfg: Config, batch: int, delivers: (Value, Value, int) -> bool, flagAt: int -> bool)
    ensures ForwardTrace(cfg, Example(batch), delivers, flagAt) == Loop(JobFor(batch, delivers, flagAt), 10, 0)
  {
    var s := Example(batch);
    assert Get(s, SourceChannel, cfg.sourceChannel) == Some(Src);
    assert Get(s, TargetChannel, cfg.targetChannel) == Some(Tgt);
  }

  /** One iteration that copies `id` and does not pause. */
  lemma CopyStep(j: Job, id: int, n: int)
    requires id <= j.last && j.flagAt(id) && j.batchSize != 0 && Delivers(j, id) && PyMod(n + 1, j.batchSize) != 0
    ensures Loop(j, id, n) == [Copied(j.source, j.target, id), Progress(n + 1, j.total, j.total - (n + 1))] + Loop(j, id + 1, n + 1)
  {
  }

  /** One iteration that copies `id` and then pauses. */
  lemma CopyPauseStep(j: Job, id: int, n: int)
    requires id <= j.last && j.flagAt(id) && j.batchSize != 0 && Delivers(j, id) && PyMod(n + 1, j.batchSize) == 0
    requires !SleepRaises(j.delay)
    ensures Loop(j, id, n) == [Copied(j.source, j.target, id), Progress(n + 1, j.total, j.total - (n + 1)), Pause(j.delay)]
                              + Loop(j, id + 1, n + 1)
  {
  }

  /** One iteration that fails on `id` and then pauses. */
  lemma FailPauseStep(j: Job, id: int, n: int)
    requires id <= j.last && j.flagAt(id) && j.batchSize != 0 && !Delivers(j, id) && PyMod(n, j.batchSize) == 0
    requires !SleepRaises(j.delay)
    ensures Loop(j, id, n) == [Failed(id), Pause(j.delay)] + Loop(j, id + 1, n)
  {
  }

  /** All five copies succeed: five progress replies 1 of 5 to 5 of 5, pauses after the 2nd and 4th. */
  lemma AllFiveCopied(cfg: Config)
    ensures ForwardTrace(cfg, Example(2), (_, _, _) => true, _ => true) ==
      [Copied(Src, Tgt, 10), Progress(1, 5, 4)] + (
      [Copied(Src, Tgt, 11), Progress(2, 5, 3), Pause(1)] + (
      [Copied(Src, Tgt, 12), Progress(3, 5, 2)] + (
      [Copied(Src, Tgt, 13), Progress(4, 5, 1), Pause(1)] + (
      [Copied(Src, Tgt, 14), Progress(5, 5, 0)] +
      [Finished(5)]))))
  {
    var j := JobFor(2, (_, _, _) => true, _ => true);
    ExampleJob(cfg, 2, (_, _, _) => true, _ => true);
    AllFiveCopiedRest(j);
    CopyStep(j, 12, 2);
    CopyPauseStep(j, 11, 1);
    CopyStep(j, 10, 0);
  }

  /** The loop of `AllFiveCopied` from message 13 on. */
  lemma AllFiveCopiedRest(j: Job)
    requires j == JobFor(2, (_, _, _) => true, _ => true)
    ensures Loop(j, 13, 3) ==
      [Copied(Src, Tgt, 13), Progress(4, 5, 1), Pause(1)] + (
      [Copied(Src, Tgt, 14), Progress(5, 5, 0)] +
      [Finished(5)])
  {
    assert Loop(j, 15, 5) == [Finished(5)];
    CopyStep(j, 14, 4);
    CopyPauseStep(j, 13, 3);
  }

  /** The flag is clear when the loop reaches 13: 10 to 12 are copied, then the run is interrupted. */
  lemma StoppedBefore13(cfg: Config)
    ensures ForwardTrace(cfg, Example(2), (_, _, _) => true, id => id < 13) ==
      [Copied(Src, Tgt, 10), Progress(1, 5, 4)] + (
      [Copied(Src, Tgt, 11), Progress(2, 5, 3), Pause(1)] + (
      [Copied(Src, Tgt, 12), Progress(3, 5, 2)] +
      [Interrupted]))
  {
    var j := JobFor(2, (_, _, _) => true, id => id < 13);
    ExampleJob(cfg, 2, (_, _, _) => true, id => id < 13);
    assert Loop(j, 13, 3) == [Interrupted];
    CopyStep(j, 12, 2);
    CopyPauseStep(j, 11, 1);
    CopyStep(j, 10, 0);
  }

  /**
   * Message 12 fails: it is skipped, the total stays 5, the later IDs are
   * still copied, and the pause check fires again at the unchanged count 2.
   */
  lemma FailureAt12(cfg: Config)
    ensures ForwardTrace(cfg, Example(2), (_, _, id) => id != 12, _ => true) ==
      [Copied(Src, Tgt, 10), Progress(1, 5, 4)] + (
      [Copied(Src, Tgt, 11), Progress(2, 5, 3), Pause(1)] + (
      [Failed(12), Pause(1)] + (
      [Copied(Src, Tgt, 13), Progress(3, 5, 2)] + (
      [Copied(Src, Tgt, 14), Progress(4, 5, 1), Pause(1)] +
      [Finished(4)]))))
  {
    var j := JobFor(2, (_, _, id) => id != 12, _ => true);
    ExampleJob(cfg, 2, (_, _, id) => id != 12, _ => true);
    FailureAt12Rest(j);
    CopyPauseStep(j, 11, 1);
    CopyStep(j, 10, 0);
    assert Loop(j, 10, 0) == [Copied(Src, Tgt, 10), Progress(1, 5, 4)] + Loop(j, 11, 1);
  }

  /** The loop of `FailureAt12` from message 12 on. */
  lemma FailureAt12Rest(j: Job)
    requires j == JobFor(2, (_, _, id) => id != 12, _ => true)
    ensures Loop(j, 12, 2) ==
      [Failed(12), Pause(1)] + (
      [Copied(Src, Tgt, 13), Progress(3, 5, 2)] + (
      [Copied(Src, Tgt, 14), Progress(4, 5, 1), Pause(1)] +
      [Finished(4)]))
  {
    assert Loop(j, 15, 4) == [Finished(4)];
    CopyPauseStep(j, 14, 3);
    CopyStep(j, 13, 2);
    FailPauseStep(j, 12, 2);
  }

  /** A failure before any copy pauses too, since 0 is a multiple of every batch size. */
  lemma FailureFirst(cfg: Config)
    ensures ForwardTrace(cfg, Example(2), (_, _, id) => id != 10, _ => true)[..2] == [Failed(10), Pause(1)]
  {
    var j := JobFor(2, (_, _, id) => id != 10, _ => true);
    ExampleJob(cfg, 2, (_, _, id) => id != 10, _ => true);
    FailPauseStep(j, 10, 0);
  }

  /** A batch size of 0: the first pause check divides by zero after message 10 is copied. */
  lemma BatchSizeZero(cfg: Config)
    ensures ForwardTrace(cfg, Example(0), (_, _, _) => true, _ => true) == [
      Copied(Src, Tgt, 10), Progress(1, 5, 4), Crashed(DivisionByZero)]
  {
    ExampleJob(cfg, 0, (_, _, _) => true, _ => true);
  }

  /**
   * A delay `time.sleep` refuses, such as `-1` (ValueError) or `10000000000`
   * seconds (OverflowError): messages 10 and 11 are copied, then the first due
   * pause raises and ends the run.
   */
  lemma DelayRefused(delay: int)
    requires SleepRaises(delay)
    ensures var j := Job(Src, Tgt, 14, 5, 2, delay, (_, _, _) => true, _ => true);
      Loop(j, 10, 0) ==
        [Copied(Src, Tgt, 10), Progress(1, 5, 4)] +
        [Copied(Src, Tgt, 11), Progress(2, 5, 3), Crashed(SleepError(delay))]
  {
    var j := Job(Src, Tgt, 14, 5, 2, delay, (_, _, _) => true, _ => true);
    CopyStep(j, 10, 0);
  }

  /**
   * A session through the handlers: `/source`, `/target`, `/start` with an
   * argument that parses to 0 (such as `0`, `00` or `-0`), `/end` with any
   * integer, then `/forward`. The ID 0 counts as unset, so the run stops at
   * the configuration error without visiting any ID, and the flag stays set.
   */
  method StartZeroSession(cfg: Config, source: string, target: string, startArgs: seq<string>, endArgs: seq<string>,
                          delivers: (Value, Value, int) -> bool, flagAt: int -> bool)
    returns (replies: seq<Reply>, trace: seq<Event>, flag: bool)
    requires source != "" && target != ""
    requires ParseArg(startArgs) == Some(0) && ParseArg(endArgs).Some?
    ensures replies == [Confirmed(SourceChannel, StrVal(source)), Confirmed(TargetChannel, StrVal(target)),
                        Confirmed(StartMessage, IntVal(0)), Confirmed(EndMessage, IntVal(ParseArg(endArgs).value))]
    ensures trace == [ConfigError(MessageIdsUnset)] && flag
  {
    var bot := new Forwarder();
    var r1 := bot.SetSourceChannel([source]);
    var r2 := bot.SetTargetChannel([target]);
    var r3 := bot.SetStartMessage(startArgs);
    var r4 := bot.SetEndMessage(endArgs);
    assert bot.settings[StartMessage] == IntVal(0);
    assert bot.settings[SourceChannel] == StrVal(source) && bot.settings[TargetChannel] == StrVal(target);
    ForwardRejectsUnset(cfg, bot.settings, delivers, flagAt);
    replies := [r1, r2, r3, r4];
    trace := bot.ForwardMessages(cfg, delivers, flagAt);
    flag := bot.isForwarding;
  }
}
