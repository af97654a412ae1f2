/**
 * LLM usage tracking: the per-model price table and the linear cost
 * formula, the usage record, and the tracker that writes each record to the
 * database or, when the write fails, keeps it in an in-memory buffer that a
 * later flush persists.
 */
module LlmUsage {
  import opened Wrappers

  const DefaultModel: string := "claude-sonnet-4-20250514"

  /** Price per million tokens, input and output. */
  datatype Price = Price(input: real, output: real)

  /** `MODEL_PRICING`. */
  function Pricing(model: string): Option<Price> {
    if model in {"claude-sonnet-4-20250514", "claude-3-5-sonnet-20241022", "claude-3-sonnet-20240229"} then Some(Price(3.00, 15.00))
    else if model == "voyage-2" then Some(Price(0.10, 0.0))
    else if model == "voyage-large-2" then Some(Price(0.12, 0.0))
    else None
  }

  /** The price a model is charged at: its own, or the default model's. */
  function PriceOf(model: string): (p: Price)
    ensures Pricing(model).Some? ==> p == Pricing(model).value
    ensures Pricing(model).None? ==> p == Pricing(DefaultModel).value
  {
    match Pricing(model)
    case Some(p) => p
    case None => Price(3.00, 15.00)
  }

  /** `calculate_cost`, before rounding to six places. */
  function CalculateCost(model: string, tokensInput: int, tokensOutput: int): (cost: real)
    ensures tokensInput >= 0 && tokensOutput >= 0 ==> cost >= 0.0
    ensures tokensInput == 0 && tokensOutput == 0 ==> cost == 0.0
  {
    (tokensInput as real / 1000000.0) * PriceOf(model).input + (tokensOutput as real / 1000000.0) * PriceOf(model).output
  }

  /** The cost is additive in the token counts. */
  lemma CostAdditive(model: string, a: int, b: int, c: int, d: int)
    ensures CalculateCost(model, a + b, c + d) == CalculateCost(model, a, c) + CalculateCost(model, b, d)
  {
  }

  /** A million input tokens cost the input price, a million output tokens the output price. */
  lemma CostPerMillion(model: string)
    ensures CalculateCost(model, 1000000, 0) == PriceOf(model).input
    ensures CalculateCost(model, 0, 1000000) == PriceOf(model).output
  {
  }

  /** A model missing from the table costs what the default model costs. */
  lemma UnknownModelAtDefaultPrice(model: string, tokensInput: int, tokensOutput: int)
    requires Pricing(model).None?
    ensures CalculateCost(model, tokensInput, tokensOutput) == CalculateCost(DefaultModel, tokensInput, tokensOutput)
  {
  }

  /** Embedding models charge nothing for output tokens. */
  lemma EmbeddingsChargeInputOnly(tokensInput: int, tokensOutput: int)
    ensures CalculateCost("voyage-2", tokensInput, tokensOutput) == CalculateCost("voyage-2", tokensInput, 0)
    ensures CalculateCost("voyage-large-2", tokensInput, tokensOutput) == CalculateCost("voyage-large-2", tokensInput, 0)
  {
  }

  datatype UsageRecord = UsageRecord(
    serviceName: string,
    modelName: string,
    modelProvider: string,
    requestType: string,
    tokensInput: int,
    tokensOutput: int,
    durationMs: int,
    success: bool,
    errorMessage: Option<string>)
  {
    function TokensTotal(): (t: int)
      ensures t - tokensInput == tokensOutput
    {
      tokensInput + tokensOutput
    }

    function CostUsd(): real {
      CalculateCost(modelName, tokensInput, tokensOutput)
    }
  }

  /** A record with the dataclass defaults: no tokens, no time, a success without error. */
  function NewRecord(serviceName: string, modelName: string, modelProvider: string, requestType: string): (r: UsageRecord)
    ensures r.TokensTotal() == 0 && r.durationMs == 0 && r.success && r.errorMessage.None?
    ensures r.serviceName == serviceName && r.modelName == modelName
    ensures r.modelProvider == modelProvider && r.requestType == requestType
  {
    UsageRecord(serviceName, modelName, modelProvider, requestType, 0, 0, 0, true, None)
  }

  /** How a database session behaves: it works, cannot be opened, or refuses the commit. */
  datatype DbMode = Up | Unreachable | RejectsCommit

  /** The usage table, as far as the tracker sees it. */
  class Database {
    var rows: seq<UsageRecord>
    var mode: DbMode
    /** Sessions opened so far. */
    var sessions: nat

    constructor (mode: DbMode)
      ensures rows == [] && this.mode == mode && sessions == 0
    {
      rows := [];
      this.mode := mode;
      sessions := 0;
    }
  }

  /** `LLMUsageTracker`: the fallback buffer of records not yet persisted. */
  class Tracker {
    var inMemory: seq<UsageRecord>

    constructor ()
      ensures inMemory == []
    {
      inMemory := [];
    }

    /** `record`: one session; the record lands in the table, or in the buffer when the write fails. */
    method Record(usage: UsageRecord, db: Database)
      modifies this, db
      ensures db.sessions == old(db.sessions) + 1 && db.mode == old(db.mode)
      ensures old(db.mode).Up? ==> db.rows == old(db.rows) + [usage] && inMemory == old(inMemory)
      ensures !old(db.mode).Up? ==> db.rows == old(db.rows) && inMemory == old(inMemory) + [usage]
    {
      db.sessions := db.sessions + 1;
      if db.mode.Up? {
        db.rows := db.rows + [usage];
      } else {
        inMemory := inMemory + [usage];
      }
    }

    /** `record_sync`: always buffered. */
    method RecordSync(usage: UsageRecord)
      modifies this
      ensures inMemory == old(inMemory) + [usage]
    {
      inMemory := inMemory + [usage];
    }

    /**
     * `flush_memory`: an empty buffer returns 0 and opens no session.
     * Otherwise every buffered record is staged; a commit empties the buffer,
     * a failure keeps it, and the count of staged records is returned either
     * way (none when the session could not be opened).
     */
    method FlushMemory(db: Database) returns (count: nat)
      modifies this, db
      ensures old(inMemory) == [] ==> count == 0 && unchanged(db) && inMemory == []
      ensures old(inMemory) != [] ==> db.sessions == old(db.sessions) + 1
      ensures old(inMemory) != [] && old(db.mode).Up? ==>
        db.rows == old(db.rows) + old(inMemory) && inMemory == [] && count == |old(inMemory)|
      ensures old(inMemory) != [] && old(db.mode).RejectsCommit? ==>
        db.rows == old(db.rows) && inMemory == old(inMemory) && count == |old(inMemory)|
      ensures old(inMemory) != [] && old(db.mode).Unreachable? ==>
        db.rows == old(db.rows) && inMemory == old(inMemory) && count == 0
      ensures db.mode == old(db.mode)
    {
      if inMemory == [] {
        return 0;
      }
      count := 0;
      db.sessions := db.sessions + 1;
      if db.mode.Unreachable? {
        return;
      }
      var staged: seq<UsageRecord> := [];
      var i := 0;
      while i < |inMemory|
        invariant 0 <= i <= |inMemory|
        invariant staged == inMemory[..i] && count == i
      {
        staged := staged + [inMemory[i]];
        count := count + 1;
        i := i + 1;
      }
      if db.mode.Up? {
        assert staged == inMemory;
        db.rows := db.rows + staged;
        inMemory := [];
      }
    }

    /**
     * `track`: the body runs with a fresh record it fills in place, and
     * gives back the record as it left it with the error it raised, if any.
     * Whatever happens that record is written exactly once, marked failed
     * with the message when the body raised, and the error is raised again.
     */
    method Track(serviceName: string, modelName: string, modelProvider: string, requestType: string,
                 body: UsageRecord -> (UsageRecord, Option<PyError>), message: PyError -> string, durationMs: int,
                 db: Database)
      returns (r: Result<UsageRecord>)
      modifies this, db
      ensures var (filled, raised) := body(NewRecord(serviceName, modelName, modelProvider, requestType));
        && (raised.None? ==>
              && r == Ok(filled.(durationMs := durationMs))
              && Sent(old(db.rows), old(inMemory), db.rows, inMemory, r.value))
        && (raised.Some? ==>
              && r == Err(raised.value)
              && Sent(old(db.rows), old(inMemory), db.rows, inMemory,
                      filled.(success := false, errorMessage := Some(message(raised.value)), durationMs := durationMs)))
      ensures db.sessions == old(db.sessions) + 1 && db.mode == old(db.mode)
    {
      var ctx := NewRecord(serviceName, modelName, modelProvider, requestType);
      var outcome := body(ctx);
      ctx := outcome.0;
      if outcome.1.Some? {
        ctx := ctx.(success := false, errorMessage := Some(message(outcome.1.value)));
      }
      ctx := ctx.(durationMs := durationMs);
      Record(ctx, db);
      if outcome.1.Some? {
        r := Err(outcome.1.value);
      } else {
        r := Ok(ctx);
      }
    }
  }

  /** Exactly one record was added, to the table or to the buffer. */
  predicate Sent(rows0: seq<UsageRecord>, buffer0: seq<UsageRecord>, rows: seq<UsageRecord>, buffer: seq<UsageRecord>, u: UsageRecord) {
    (rows == rows0 + [u] && buffer == buffer0) || (rows == rows0 && buffer == buffer0 + [u])
  }

  /** The module's global tracker slot. */
  class Registry {
    var tracker: Tracker?

    constructor ()
      ensures tracker == null
    {
      tracker := null;
    }

    /** `get_tracker`: created on the first call, the same instance on every later one. */
    method GetTracker() returns (t: Tracker)
      modifies this
      ensures old(tracker) != null ==> t == old(tracker)
      ensures old(tracker) == null ==> fresh(t) && t.inMemory == []
      ensures tracker == t
    {
      if tracker == null {
        tracker := new Tracker();
      }
      t := tracker;
    }

    /** `record_usage`: builds the record from its fields and records it with the global tracker. */
    method RecordUsage(serviceName: string, modelName: string, modelProvider: string, requestType: string, db: Database,
                       tokensInput: int := 0, tokensOutput: int := 0, durationMs: int := 0,
                       success: bool := true, errorMessage: Option<string> := None)
      modifies this, tracker, db
      ensures tracker != null && (old(tracker) != null ==> tracker == old(tracker)) && (old(tracker) == null ==> fresh(tracker))
      ensures var u := UsageRecord(serviceName, modelName, modelProvider, requestType, tokensInput, tokensOutput, durationMs, success, errorMessage);
        var buffer0 := if old(tracker) == null then [] else old(tracker.inMemory);
        Sent(old(db.rows), buffer0, db.rows, tracker.inMemory, u)
    {
      var t := GetTracker();
      t.Record(UsageRecord(serviceName, modelName, modelProvider, requestType, tokensInput, tokensOutput, durationMs, success, errorMessage), db);
    }
  }
}
