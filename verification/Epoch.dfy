/** The epoch test of libpcp/src/pcp_utils.h over 32-bit arithmetic: does a reply
    say that the server lost its state (section 8.5 of RFC 6887)? */
module EpochModel {
  import opened Types

  /** The value that marks an epoch not yet learned. */
  const NO_EPOCH: u32 := 0xFFFF_FFFF

  function Wrap(x: int): u32 { x % U32 }

  /** The condition computed from the two deltas, every operation modulo 2^32. */
  predicate Diverged(client: u32, server: u32) {
    || Wrap(client + 2) < server - server / 16
    || Wrap(server + 2) < client - client / 16
  }

  /** The two fields of the server that the test reads and may initialise. */
  datatype Baseline = Baseline(epoch: u32, clientTime: int)

  /** compare_epochs: a server without an epoch takes the one received. */
  function Learn(b: Baseline, epoch: u32, time: int): Baseline {
    if b.epoch == NO_EPOCH then Baseline(epoch, time) else b
  }

  predicate Restarted(b: Baseline, epoch: u32, time: int) {
    var l := Learn(b, epoch, time);
    Diverged(Wrap(time - l.clientTime), Wrap(epoch - l.epoch))
  }

  /** What a received message leaves as the baseline. */
  function Observe(b: Baseline, epoch: u32, time: int): Baseline {
    if Restarted(b, epoch, time) then Baseline(epoch, time) else Learn(b, epoch, time)
  }

  /** Section 8.5 of RFC 6887 over true integers, written with the fifteen sixteenths
      of a delta rounded up: the deltas agree when neither, cut by a sixteenth,
      runs ahead of the other by more than two seconds. */
  predicate Agree(client: int, server: int) {
    && client <= server + 2 + client / 16
    && server <= client + 2 + server / 16
  }

  /** Away from the last two values of the 32-bit range the wrapped test is the
      integer one. */
  lemma DivergedIsDisagreement(client: u32, server: u32)
    requires client < U32 - 2 && server < U32 - 2
    ensures Diverged(client, server) <==> !Agree(client, server)
  {
    assert Wrap(client + 2) == client + 2 && Wrap(server + 2) == server + 2;
  }

  /** ... and the two last values are where they part: there every pair of deltas is a restart. */
  lemma DivergedExactly(client: u32, server: u32)
    ensures Diverged(client, server) <==> client >= U32 - 2 || server >= U32 - 2 || !Agree(client, server)
  {
    if client >= U32 - 2 {
      assert Wrap(client + 2) == client + 2 - U32;
    }
    if server >= U32 - 2 {
      assert Wrap(server + 2) == server + 2 - U32;
    }
    if client < U32 - 2 && server < U32 - 2 {
      DivergedIsDisagreement(client, server);
    }
  }

  /** A server epoch that went back by 1 to 2^31 seconds is reported while the client
      has seen fewer than 2013265918 seconds; at that bound the largest step is missed. */
  lemma BackwardStepReported(b: Baseline, epoch: u32, time: int, back: int)
    requires b.epoch != NO_EPOCH
    requires 1 <= back <= 0x8000_0000
    requires epoch == Wrap(b.epoch - back)
    requires 0 <= time - b.clientTime < 2013265918
    ensures Restarted(b, epoch, time)
  {
    var server := Wrap(epoch - b.epoch);
    assert server == U32 - back;
    assert server - server / 16 >= 2013265920;
    assert Wrap(Wrap(time - b.clientTime) + 2) == time - b.clientTime + 2;
  }

  lemma BackwardStepBoundIsTight(b: Baseline)
    requires b.epoch != NO_EPOCH
    ensures !Restarted(b, Wrap(b.epoch - 0x8000_0000), b.clientTime + 2013265918)
  {
    var server := Wrap(Wrap(b.epoch - 0x8000_0000) - b.epoch);
    assert server == 0x8000_0000;
    assert Wrap(b.clientTime + 2013265918 - b.clientTime) == 2013265918;
  }

  /** Right after a message, the same epoch at the same time is no restart:
      neither after a restart nor after an ordinary reply nor for the sentinel. */
  lemma NotReportedTwice(b: Baseline, epoch: u32, time: int)
    ensures !Restarted(Observe(b, epoch, time), epoch, time)
  {
    if Restarted(b, epoch, time) || Learn(b, epoch, time).epoch == NO_EPOCH {
      assert Wrap(time - time) == 0 && Wrap(epoch - epoch) == 0;
    }
  }

  /** A server that keeps counting seconds is never taken for a restarted one, over any
      time below 2^32-2 seconds and with up to two seconds of skew either way. */
  lemma SteadyServerNotReported(b: Baseline, epoch: u32, time: int, skew: int)
    requires b.epoch != NO_EPOCH
    requires -2 <= skew <= 2
    requires 0 <= time - b.clientTime < U32 - 2
    requires 0 <= time - b.clientTime + skew < U32 - 2
    requires epoch == Wrap(b.epoch + time - b.clientTime + skew)
    ensures !Restarted(b, epoch, time) && Observe(b, epoch, time) == b
  {
    var d := time - b.clientTime;
    WrapDifference(b.epoch, d + skew);
    assert Wrap(d) == d;
    DivergedIsDisagreement(d, d + skew);
  }

  lemma WrapDifference(e: u32, d: int)
    requires 0 <= d < U32
    ensures Wrap(Wrap(e + d) - e) == d
  {
    if e + d < U32 {
      assert Wrap(e + d) == e + d;
    } else {
      assert Wrap(e + d) == e + d - U32;
    }
  }
}
