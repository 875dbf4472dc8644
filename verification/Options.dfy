/** The indexer's options: what accepted values guarantee to the flush protocol and to the
    heartbeat. Durations are in nanoseconds. */
module Options {
  import opened Json
  import opened FlushProtocol
  import opened Uploads
  import opened Sums

  const Second := 1_000_000_000
  const ConsumerAckWait := 300 * Second
  const HeartbeatMargin := 3
  const HeartbeatHardFloor := 2
  const IndexesPerFlushBudget := 10

  /** `named` says that the connection settings and the API key are all set. */
  datatype IndexerOptions = IndexerOptions(
    named: bool, chunkSize: int, batchSize: int, flushInterval: int, maxRetries: int, retryDelay: int,
    maxUploads: int, maxInFlight: int, taskWaitTimeout: int, taskPollInterval: int, ackProgressInterval: int)

  datatype OptionError =
    | Unset | ChunkSizeTooSmall | BatchSizeTooSmall | FlushIntervalTooSmall | NoRetries | NegativeDelay
    | TooFewUploads | NoFlushes | NoWaitTimeout | NoPollInterval | NoProgressInterval | HeartbeatTooSlow

  function Validate(o: IndexerOptions): Option<OptionError> {
    if !o.named then Some(Unset)
    else if o.chunkSize < 500 then Some(ChunkSizeTooSmall)
    else if o.batchSize < 500 then Some(BatchSizeTooSmall)
    else if o.flushInterval < Second then Some(FlushIntervalTooSmall)
    else if o.maxRetries < 1 then Some(NoRetries)
    else if o.retryDelay < 0 then Some(NegativeDelay)
    else if o.maxUploads < o.maxInFlight * IndexesPerFlushBudget then Some(TooFewUploads)
    else if o.maxInFlight < 1 then Some(NoFlushes)
    else if o.taskWaitTimeout <= 0 then Some(NoWaitTimeout)
    else if o.taskPollInterval <= 0 then Some(NoPollInterval)
    else if o.ackProgressInterval <= 0 then Some(NoProgressInterval)
    else if HeartbeatMargin * o.ackProgressInterval > ConsumerAckWait then Some(HeartbeatTooSlow)
    else None
  }

  /** Exactly these options are accepted. */
  lemma AcceptedExactly(o: IndexerOptions)
    ensures Validate(o) == None <==>
              && o.named
              && o.chunkSize >= 500 && o.batchSize >= 500
              && o.flushInterval >= 1_000_000_000 && o.taskWaitTimeout > 0 && o.taskPollInterval > 0
              && o.maxRetries > 0 && o.retryDelay >= 0
              && o.maxInFlight > 0 && o.maxUploads >= 10 * o.maxInFlight
              && 0 < o.ackProgressInterval <= 100_000_000_000
  {}

  function OrDefault(value: int, default: nat): nat { if value <= 0 then default else value }

  /** The limits the batcher and the search client run with, defaults filled in. */
  function Configure(o: IndexerOptions): Config
    requires o.batchSize >= 0
  {
    Config(o.batchSize, OrDefault(o.maxInFlight, 16), OrDefault(o.maxUploads, 100),
           OrDefault(o.chunkSize, 1000), OrDefault(o.maxRetries, 3))
  }

  // ---- upload slots ------------------------------------------------------------------------------

  /** Accepted options give a working configuration. */
  lemma AcceptedConfig(o: IndexerOptions)
    requires Validate(o) == None
    ensures ConfigOk(Configure(o))
    ensures Configure(o) == Config(o.batchSize, o.maxInFlight, o.maxUploads, o.chunkSize, o.maxRetries)
  {}

  /** Limits left unset get their defaults, and with a batch size they always make up a working
      configuration. */
  lemma DefaultConfig(o: IndexerOptions)
    requires o.batchSize >= 1
    ensures ConfigOk(Configure(o))
    ensures o.maxInFlight <= 0 ==> Configure(o).slots == 16
    ensures o.maxUploads <= 0 ==> Configure(o).uploads == 100
    ensures o.chunkSize <= 0 ==> Configure(o).chunk == 1000
    ensures o.maxRetries <= 0 ==> Configure(o).retries == 3
  {}

  /** In it, flushes of up to ten enqueue calls never wait for an upload slot, shutdown included. */
  lemma TenCallsNeverWait(o: IndexerOptions)
    requires Validate(o) == None
    ensures !CallWaitsEver(Configure(o), IndexesPerFlushBudget)
  {
    CallWaitsEverExactly(Configure(o), IndexesPerFlushBudget);
  }

  /** The budget is meant for ten indexes per flush, and one index can take two calls: such flushes
      can be kept waiting before shutdown exactly when there are fewer than twenty upload slots, and
      during shutdown exactly when there are fewer than twenty per flush slot. */
  lemma TenIndexesWait(o: IndexerOptions)
    requires Validate(o) == None
    ensures IndexWaits(Configure(o), IndexesPerFlushBudget) <==> o.maxUploads < 20
    ensures IndexWaitsEver(Configure(o), IndexesPerFlushBudget) <==> o.maxUploads < o.maxInFlight * 20
  {
    AcceptedConfig(o);
    IndexWaitsExactly(Configure(o), IndexesPerFlushBudget);
    IndexWaitsEverExactly(Configure(o), IndexesPerFlushBudget);
  }

  /** Accepted options under which a flush to ten indexes waits although nothing shuts down. */
  lemma TenIndexesWaitExample()
    ensures var o := IndexerOptions(true, 500, 500, Second, 1, 0, 10, 1, 1, 1, Second);
            Validate(o) == None && IndexWaits(Configure(o), IndexesPerFlushBudget)
  {
    TenIndexesWait(IndexerOptions(true, 500, 500, Second, 1, 0, 10, 1, 1, 1, Second));
  }

  /** With two flush slots or more the accepted upload slots are always enough before shutdown. */
  lemma TwoFlushesSuffice(o: IndexerOptions)
    requires Validate(o) == None && o.maxInFlight >= 2
    ensures !IndexWaits(Configure(o), IndexesPerFlushBudget)
  {
    TenIndexesWait(o);
  }

  // ---- heartbeats --------------------------------------------------------------------------------

  /** Tick k of a flush happens k intervals after its start; `lands` says which ticks reach the server. */
  ghost predicate LosesAtMost(lands: nat -> bool, lost: nat) {
    forall i: nat :: LandsWithin(lands, i, lost)
  }

  ghost predicate LandsWithin(lands: nat -> bool, i: nat, lost: nat) {
    exists j: nat :: i <= j <= i + lost && lands(j)
  }

  /** Ticks i and j are landing heartbeats with none landing between them. */
  ghost predicate NextLanding(lands: nat -> bool, i: nat, j: nat) {
    i < j && lands(i) && lands(j) && forall k: nat :: i < k < j ==> !lands(k)
  }

  /** However the heartbeat loses up to `lost` ticks in a row, landing heartbeats stay within ackWait. */
  ghost predicate Tolerates(interval: int, ackWait: int, lost: nat) {
    forall lands: nat -> bool, i: nat, j: nat ::
      LosesAtMost(lands, lost) && NextLanding(lands, i, j) ==> (j - i) * interval <= ackWait
  }

  lemma LandingGap(lands: nat -> bool, lost: nat, i: nat, j: nat)
    requires LosesAtMost(lands, lost) && NextLanding(lands, i, j)
    ensures j - i <= lost + 1
  {
    assert LandsWithin(lands, i + 1, lost);
    var next: nat :| i + 1 <= next <= i + 1 + lost && lands(next);
  }

  lemma ToleratesIf(interval: int, ackWait: int, lost: nat)
    requires interval > 0 && (lost + 1) * interval <= ackWait
    ensures Tolerates(interval, ackWait, lost)
  {
    forall lands: nat -> bool, i: nat, j: nat | LosesAtMost(lands, lost) && NextLanding(lands, i, j)
      ensures (j - i) * interval <= ackWait
    {
      LandingGap(lands, lost, i, j);
      MulMono(interval, j - i, lost + 1);
    }
  }

  /** The schedule that loses exactly `lost` ticks after its first. */
  lemma WorstSchedule(lost: nat) returns (lands: nat -> bool)
    ensures LosesAtMost(lands, lost) && NextLanding(lands, 0, lost + 1)
  {
    lands := (k: nat) => k == 0 || k > lost;
    forall i: nat ensures LandsWithin(lands, i, lost) {
      assert lands(if i == 0 then 0 else i + lost);
    }
  }

  /** Losing `lost` ticks in a row is tolerated exactly when one more interval still fits. */
  lemma ToleratesExactly(interval: int, ackWait: int, lost: nat)
    requires interval > 0
    ensures Tolerates(interval, ackWait, lost) <==> (lost + 1) * interval <= ackWait
  {
    if (lost + 1) * interval <= ackWait {
      ToleratesIf(interval, ackWait, lost);
    } else {
      var lands := WorstSchedule(lost);
      assert (lost + 1 - 0) * interval > ackWait;
    }
  }

  /** Of otherwise valid options, exactly those are accepted whose heartbeat survives two
      consecutive lost ticks. */
  lemma AcceptedHeartbeat(o: IndexerOptions)
    requires Validate(o) == None || Validate(o) == Some(HeartbeatTooSlow)
    ensures Validate(o) == None <==> Tolerates(o.ackProgressInterval, 300_000_000_000, 2)
  {
    ToleratesExactly(o.ackProgressInterval, ConsumerAckWait, 2);
  }

  datatype WaitCheck = WaitTooShort | WaitTight | WaitFine

  /** The startup check against a consumer's live ackWait: an error, a warning or nothing. */
  function CheckAckWait(ackWait: int, progress: int): WaitCheck {
    if HeartbeatHardFloor * progress > ackWait then WaitTooShort
    else if HeartbeatMargin * progress > ackWait then WaitTight
    else WaitFine
  }

  /** It fails exactly when one lost tick is too many, and warns exactly when a second one is. */
  lemma CheckedWait(ackWait: int, progress: int)
    requires progress > 0
    ensures CheckAckWait(ackWait, progress) == WaitTooShort <==> !Tolerates(progress, ackWait, 1)
    ensures CheckAckWait(ackWait, progress) == WaitFine <==> Tolerates(progress, ackWait, 2)
  {
    ToleratesExactly(progress, ackWait, 1);
    ToleratesExactly(progress, ackWait, 2);
  }
}
