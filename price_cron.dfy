/** `StockCron` from src/stock/stock.cron.ts: sets up the polling job and, on
    each tick, fetches a quote for every active symbol and stores one price row
    per symbol, isolating each symbol's failure. The database, the quote
    service and the scheduler are collaborators: what each call of theirs
    yields is an input of the model. */
module PriceCron {
  import opened Wrappers
  import opened Exceptions
  import opened Config
  import opened QuoteModel
  import QuoteService

  const CronExpressionKey := "CRON_EXPRESSION"
  /** Every minute, at second 0. */
  const DefaultCronExpression := "0 * * * * *"

  /** `configService.get('CRON_EXPRESSION') || '0 * * * * *'`: an unset or
      empty setting falls back to the default. */
  function CronExpression(env: Env): (e: string)
    ensures CronExpressionKey in env && env[CronExpressionKey] != "" ==> e == env[CronExpressionKey]
    ensures !(CronExpressionKey in env && env[CronExpressionKey] != "") ==> e == DefaultCronExpression
    ensures e != ""
  {
    match Get(env, CronExpressionKey)
    case Some(v) => if v != "" then v else DefaultCronExpression
    case None => DefaultCronExpression
  }

  /** A row of the `Symbol` table. */
  datatype Symbol = Symbol(id: int, code: string, isActive: bool)

  /** The `data` of one `prisma.stockPrice.create` call: a row of the price table. */
  datatype PriceRow = PriceRow(symbolId: int, price: Field<Price>, timestamp: Date)

  /** The second argument of `logger.error`. */
  datatype ErrorDetail =
    | Message(text: string)  // a string derived from the error
    | Cause(error: Thrown)   // the error object itself

  /** One line written by the class's logger. */
  datatype LogEntry =
    | Debug(text: string)
    | Info(text: string)
    | PriceSaved(code: string, price: Field<Price>)  // debug `Price saved: <code> - <price>`
    | Error(text: string, detail: ErrorDetail)

  const RunningMessage := "Cron job running: Get prices of active symbols"
  const NoActiveSymbolMessage := "There is no active symbol"

  function SetupMessage(expression: string): string
  {
    "Cron job set up with the following expression: " + expression
  }

  function InvalidExpressionMessage(expression: string): string
  {
    "Invalid cron expression: " + expression
  }

  function RetrievalFailedMessage(code: string): string
  {
    "Error retrieving price: " + code
  }

  /** The first failure among the three steps of setting up the job:
      constructing the `CronJob`, registering it, starting it. */
  function SetupFailure(construct: Outcome<Thrown>, register: Outcome<Thrown>, start: Outcome<Thrown>)
    : (r: Option<Thrown>)
    ensures r.None? <==> construct.Pass? && register.Pass? && start.Pass?
    ensures construct.Fail? ==> r == Some(construct.error)
    ensures construct.Pass? && register.Fail? ==> r == Some(register.error)
    ensures construct.Pass? && register.Pass? && start.Fail? ==> r == Some(start.error)
  {
    if construct.Fail? then Some(construct.error)
    else if register.Fail? then Some(register.error)
    else if start.Fail? then Some(start.error)
    else None
  }

  /** The data stored for a symbol whose quote was fetched: the symbol's id,
      the current price, and the quote's seconds turned into a `Date`. */
  function RowFor(sym: Symbol, p: StockPrice): (row: PriceRow)
    ensures row.symbolId == sym.id && row.price == p.currentPrice
    ensures row.timestamp == DateFromSeconds(p.timestamp)
  {
    PriceRow(sym.id, p.currentPrice, DateFromSeconds(p.timestamp))
  }

  /** What happened to one symbol during a tick. */
  datatype SymbolOutcome =
    | FetchFailed(error: Thrown)
    | CreateFailed(row: PriceRow, error: Thrown)
    | Saved(row: PriceRow)

  /** One symbol's iteration: fetch, then create only if the fetch succeeded. */
  function Process(sym: Symbol, fetched: Result<StockPrice, Thrown>, created: Outcome<Thrown>): (o: SymbolOutcome)
    ensures o.Saved? <==> fetched.Success? && created.Pass?
    ensures fetched.Failure? ==> o == FetchFailed(fetched.error)
    ensures fetched.Success? ==> !o.FetchFailed? && o.row == RowFor(sym, fetched.value)
    ensures fetched.Success? && created.Fail? ==> o.error == created.error
  {
    match fetched
    case Failure(e) => FetchFailed(e)
    case Success(p) =>
      match created
      case Fail(e) => CreateFailed(RowFor(sym, p), e)
      case Pass => Saved(RowFor(sym, p))
  }

  /** The outcome for each symbol of a tick, in list order. */
  function Outcomes(syms: seq<Symbol>, fetched: seq<Result<StockPrice, Thrown>>, created: seq<Outcome<Thrown>>)
    : (outs: seq<SymbolOutcome>)
    requires |fetched| == |syms| && |created| == |syms|
    ensures |outs| == |syms|
    ensures forall i :: 0 <= i < |syms| ==> outs[i] == Process(syms[i], fetched[i], created[i])
  {
    seq(|syms|, i requires 0 <= i < |syms| => Process(syms[i], fetched[i], created[i]))
  }

  /** The log line for one symbol: `Price saved` after a successful create,
      otherwise `Error retrieving price: <code>` with the error's message. */
  function LogLine(sym: Symbol, o: SymbolOutcome): (line: LogEntry)
    ensures line.PriceSaved? <==> o.Saved?
    ensures o.Saved? ==> line == PriceSaved(sym.code, o.row.price)
    ensures !o.Saved? ==> line == Error(RetrievalFailedMessage(sym.code), Message(Detail(o.error)))
  {
    match o
    case Saved(row) => PriceSaved(sym.code, row.price)
    case FetchFailed(e) => Error(RetrievalFailedMessage(sym.code), Message(Detail(e)))
    case CreateFailed(_, e) => Error(RetrievalFailedMessage(sym.code), Message(Detail(e)))
  }

  /** The log lines of the loop, one per symbol in list order. */
  function TickLines(syms: seq<Symbol>, outs: seq<SymbolOutcome>): (lines: seq<LogEntry>)
    requires |outs| == |syms|
    ensures |lines| == |syms|
    ensures forall i :: 0 <= i < |syms| ==> lines[i] == LogLine(syms[i], outs[i])
  {
    seq(|syms|, i requires 0 <= i < |syms| => LogLine(syms[i], outs[i]))
  }

  /** The rows stored by a tick, in list order. */
  function SavedRows(outs: seq<SymbolOutcome>): seq<PriceRow>
  {
    if outs == [] then []
    else
      var last := outs[|outs| - 1];
      SavedRows(outs[..|outs| - 1]) + (if last.Saved? then [last.row] else [])
  }

  /** The data passed to `prisma.stockPrice.create`, in call order. */
  function CreateCalls(outs: seq<SymbolOutcome>): seq<PriceRow>
  {
    if outs == [] then []
    else
      var last := outs[|outs| - 1];
      CreateCalls(outs[..|outs| - 1]) + (if last.FetchFailed? then [] else [last.row])
  }

  /** The codes passed to `getStockPrice`, in call order. */
  function Codes(syms: seq<Symbol>): (codes: seq<string>)
    ensures |codes| == |syms|
    ensures forall i :: 0 <= i < |syms| ==> codes[i] == syms[i].code
  {
    seq(|syms|, i requires 0 <= i < |syms| => syms[i].code)
  }

  /** Extending a tick's prefix by one symbol extends each of its records by
      that symbol's contribution. */
  lemma PrefixStep(syms: seq<Symbol>, outs: seq<SymbolOutcome>, i: nat)
    requires |outs| == |syms| && i < |syms|
    ensures SavedRows(outs[..i + 1]) == SavedRows(outs[..i]) + (if outs[i].Saved? then [outs[i].row] else [])
    ensures CreateCalls(outs[..i + 1]) == CreateCalls(outs[..i]) + (if outs[i].FetchFailed? then [] else [outs[i].row])
    ensures Codes(syms[..i + 1]) == Codes(syms[..i]) + [syms[i].code]
    ensures TickLines(syms[..i + 1], outs[..i + 1]) == TickLines(syms[..i], outs[..i]) + [LogLine(syms[i], outs[i])]
  {
    assert outs[..i + 1][..i] == outs[..i];
  }

  /** The indices of the symbols whose fetch and create both succeeded. */
  ghost function Succeeded(fetched: seq<Result<StockPrice, Thrown>>, created: seq<Outcome<Thrown>>): set<int>
    requires |created| == |fetched|
  {
    set i | 0 <= i < |fetched| && fetched[i].Success? && created[i].Pass?
  }

  /** The outcomes of a prefix of the symbols are the prefix of the outcomes. */
  lemma OutcomesPrefix(syms: seq<Symbol>, fetched: seq<Result<StockPrice, Thrown>>,
                       created: seq<Outcome<Thrown>>, m: nat)
    requires |fetched| == |syms| && |created| == |syms| && m <= |syms|
    ensures Outcomes(syms[..m], fetched[..m], created[..m]) == Outcomes(syms, fetched, created)[..m]
  {
  }

  /** The positions of the stored outcomes. */
  ghost function SavedIndices(outs: seq<SymbolOutcome>): set<int>
  {
    set i | 0 <= i < |outs| && outs[i].Saved?
  }

  /** One row per stored outcome. */
  lemma {:induction false} SavedRowsLength(outs: seq<SymbolOutcome>)
    ensures |SavedRows(outs)| == |SavedIndices(outs)|
  {
    if outs == [] {
      assert SavedIndices(outs) == {};
    } else {
      var m := |outs| - 1;
      SavedRowsLength(outs[..m]);
      var before := SavedIndices(outs[..m]);
      if outs[m].Saved? {
        assert SavedIndices(outs) == before + {m};
      } else {
        assert SavedIndices(outs) == before;
      }
    }
  }

  /** A tick stores as many rows as there are symbols whose fetch and create
      both succeeded. */
  lemma SavedRowsCount(syms: seq<Symbol>, fetched: seq<Result<StockPrice, Thrown>>,
                       created: seq<Outcome<Thrown>>)
    requires |fetched| == |syms| && |created| == |syms|
    ensures |SavedRows(Outcomes(syms, fetched, created))| == |Succeeded(fetched, created)|
  {
    var outs := Outcomes(syms, fetched, created);
    SavedRowsLength(outs);
    assert SavedIndices(outs) == Succeeded(fetched, created);
  }

  /** Each stored row is the row built for a symbol whose fetch and create
      both succeeded, and each such symbol's row is stored. */
  lemma {:induction false} SavedRowsAreSuccesses(syms: seq<Symbol>, fetched: seq<Result<StockPrice, Thrown>>,
                                                 created: seq<Outcome<Thrown>>)
    requires |fetched| == |syms| && |created| == |syms|
    ensures forall row :: row in SavedRows(Outcomes(syms, fetched, created)) <==>
              exists i :: i in Succeeded(fetched, created) && row == RowFor(syms[i], fetched[i].value)
  {
    if syms != [] {
      var m := |syms| - 1;
      SavedRowsAreSuccesses(syms[..m], fetched[..m], created[..m]);
      OutcomesPrefix(syms, fetched, created, m);
      var before := Succeeded(fetched[..m], created[..m]);
      if fetched[m].Success? && created[m].Pass? {
        assert Succeeded(fetched, created) == before + {m};
      } else {
        assert Succeeded(fetched, created) == before;
      }
    }
  }

  /** Rows are appended in list order: the rows of a tick over `a + b` are
      those of `a` followed by those of `b`. */
  lemma {:induction false} SavedRowsAppend(a: seq<SymbolOutcome>, b: seq<SymbolOutcome>)
    ensures SavedRows(a + b) == SavedRows(a) + SavedRows(b)
  {
    if b != [] {
      var m := |b| - 1;
      assert (a + b)[..|a + b| - 1] == a + b[..m];
      SavedRowsAppend(a, b[..m]);
    } else {
      assert a + b == a;
    }
  }

  /** The outcomes of a tick over the list without symbol `k` are the
      outcomes of the full tick without the `k`-th. */
  lemma OutcomesWithout(syms: seq<Symbol>, fetched: seq<Result<StockPrice, Thrown>>,
                        created: seq<Outcome<Thrown>>, k: nat)
    requires |fetched| == |syms| && |created| == |syms| && k < |syms|
    ensures var outs := Outcomes(syms, fetched, created);
            Outcomes(syms[..k] + syms[k + 1..], fetched[..k] + fetched[k + 1..], created[..k] + created[k + 1..])
            == outs[..k] + outs[k + 1..]
  {
    var outs := Outcomes(syms, fetched, created);
    var ss, fs, cs := syms[..k] + syms[k + 1..], fetched[..k] + fetched[k + 1..], created[..k] + created[k + 1..];
    var rest := Outcomes(ss, fs, cs);
    var want := outs[..k] + outs[k + 1..];
    forall i | 0 <= i < |rest|
      ensures rest[i] == want[i]
    {
      if i < k {
        assert ss[i] == syms[i] && fs[i] == fetched[i] && cs[i] == created[i];
      } else {
        assert ss[i] == syms[i + 1] && fs[i] == fetched[i + 1] && cs[i] == created[i + 1];
      }
    }
  }

  /** An outcome that stored nothing can be dropped without changing the rows. */
  lemma SavedRowsSkip(outs: seq<SymbolOutcome>, k: nat)
    requires k < |outs| && !outs[k].Saved?
    ensures SavedRows(outs) == SavedRows(outs[..k] + outs[k + 1..])
  {
    assert outs == (outs[..k] + [outs[k]]) + outs[k + 1..];
    SavedRowsAppend(outs[..k] + [outs[k]], outs[k + 1..]);
    SavedRowsAppend(outs[..k], [outs[k]]);
    SavedRowsAppend(outs[..k], outs[k + 1..]);
    assert [outs[k]][..0] == [];
  }

  /** A symbol whose fetch or create fails affects no other symbol: the tick
      stores the same rows as a tick over the list without that symbol. */
  lemma FailureIsIsolated(syms: seq<Symbol>, fetched: seq<Result<StockPrice, Thrown>>,
                          created: seq<Outcome<Thrown>>, k: nat)
    requires |fetched| == |syms| && |created| == |syms| && k < |syms|
    requires fetched[k].Failure? || created[k].Fail?
    ensures SavedRows(Outcomes(syms, fetched, created))
            == SavedRows(Outcomes(syms[..k] + syms[k + 1..], fetched[..k] + fetched[k + 1..],
                                  created[..k] + created[k + 1..]))
  {
    OutcomesWithout(syms, fetched, created, k);
    SavedRowsSkip(Outcomes(syms, fetched, created), k);
  }

  /** `Price saved` is logged for a symbol exactly when its row was stored;
      every other symbol gets one `Error retrieving price: <code>` line whose
      detail is the message of the error its fetch or its create raised. */
  lemma TickLinesMatchRows(syms: seq<Symbol>, fetched: seq<Result<StockPrice, Thrown>>,
                           created: seq<Outcome<Thrown>>, i: nat)
    requires |fetched| == |syms| && |created| == |syms| && i < |syms|
    ensures var line := TickLines(syms, Outcomes(syms, fetched, created))[i];
            && (line.PriceSaved? <==> i in Succeeded(fetched, created))
            && (line.PriceSaved? ==> line == PriceSaved(syms[i].code, fetched[i].value.currentPrice))
            && (!line.PriceSaved? ==> line.Error? && line.text == RetrievalFailedMessage(syms[i].code))
            && (fetched[i].Failure? ==> line.detail == Message(Detail(fetched[i].error)))
            && (fetched[i].Success? && created[i].Fail? ==> line.detail == Message(Detail(created[i].error)))
  {
  }

  /** Of two active symbols, the first failing to fetch: one row is stored,
      for the second, and one failure is logged, for the first. */
  lemma OneOfTwoFails(s0: Symbol, s1: Symbol, e: Thrown, c0: Outcome<Thrown>, p: StockPrice)
    ensures var outs := Outcomes([s0, s1], [Failure(e), Success(p)], [c0, Pass]);
            && SavedRows(outs) == [RowFor(s1, p)]
            && TickLines([s0, s1], outs)
               == [Error(RetrievalFailedMessage(s0.code), Message(Detail(e))), PriceSaved(s1.code, p.currentPrice)]
  {
    var outs := Outcomes([s0, s1], [Failure(e), Success(p)], [c0, Pass]);
    assert outs == [FetchFailed(e), Saved(RowFor(s1, p))];
    assert outs[..1] == [FetchFailed(e)] && outs[..1][..0] == [];
    assert SavedRows(outs[..1]) == [];
  }

  /** The fetch result the loop sees when it awaits `getStockPrice`: the
      service's `HttpException` is an `Error`. */
  function FetchResult(r: Result<StockPrice, HttpException>): (f: Result<StockPrice, Thrown>)
    ensures f.Success? <==> r.Success?
    ensures r.Success? ==> f.value == r.value
    ensures r.Failure? ==> f.error.ErrorObject? && Detail(f.error) == r.error.message
  {
    match r
    case Success(p) => Success(p)
    case Failure(e) => Failure(AsThrown(e))
  }

  /** Whatever the upstream failure, the tick logs the service's one message,
      `Error retrieving stock price`, under `Error retrieving price: <code>`. */
  lemma ServiceFailureIsLogged(svc: QuoteService.StockService, sym: Symbol,
                               http: string -> QuoteService.HttpOutcome, created: Outcome<Thrown>)
    requires QuoteService.GetStockPrice(svc, sym.code, http).Failure?
    ensures LogLine(sym, Process(sym, FetchResult(QuoteService.GetStockPrice(svc, sym.code, http)), created))
            == Error(RetrievalFailedMessage(sym.code), Message(QuoteService.RetrievalErrorMessage))
  {
  }

  /** The documented setting is used as is; no setting, or an empty one, gives
      the default; feeding the chosen expression back changes nothing. */
  lemma CronExpressionExamples(env: Env)
    ensures CronExpression(map[CronExpressionKey := "*/5 * * * * *"]) == "*/5 * * * * *"
    ensures CronExpression(map[]) == DefaultCronExpression
    ensures CronExpression(map[CronExpressionKey := ""]) == DefaultCronExpression
    ensures CronExpression(env[CronExpressionKey := CronExpression(env)]) == CronExpression(env)
  {
  }

  /** The polling job together with the state its ticks act on: the price
      table, the logger's output, and the calls made to the collaborators. */
  class StockCron {
    /** The rows of the `StockPrice` table. */
    var stored: seq<PriceRow>
    /** Everything logged, oldest first. */
    var log: seq<LogEntry>
    /** The symbol codes passed to `stockService.getStockPrice`. */
    var quoteRequests: seq<string>
    /** The data passed to `prisma.stockPrice.create`, whether or not it succeeded. */
    var createCalls: seq<PriceRow>
    /** The schedule given to the `CronJob`. */
    var cronExpression: string
    /** The job built by the last `addCronJob` call is in the scheduler
        registry. A job registered by an earlier call is not tracked: the code
        calls `addCronJob` once, from the constructor. */
    var registered: bool
    /** The job built by the last `addCronJob` call was started. */
    var started: bool

    /** The constructor, which sets up the job with `addCronJob`. */
    constructor (env: Env, table: seq<PriceRow>,
                 construct: Outcome<Thrown>, register: Outcome<Thrown>, start: Outcome<Thrown>)
      ensures stored == table && quoteRequests == [] && createCalls == []
      ensures cronExpression == CronExpression(env)
      ensures registered == (construct.Pass? && register.Pass?)
      ensures started == (registered && start.Pass?)
      ensures match SetupFailure(construct, register, start)
              case None => log == [Info(SetupMessage(CronExpression(env)))]
              case Some(e) => log == [Error(InvalidExpressionMessage(CronExpression(env)), Cause(e))]
    {
      stored, quoteRequests, createCalls, log := table, [], [], [];
      cronExpression, registered, started := "", false, false;
      new;
      AddCronJob(env, construct, register, start);
    }

    /** `addCronJob()`: picks the expression, then constructs, registers and
        starts the job; any failure on the way is caught and logged, never rethrown. */
    method AddCronJob(env: Env, construct: Outcome<Thrown>, register: Outcome<Thrown>, start: Outcome<Thrown>)
      modifies this`cronExpression, this`registered, this`started, this`log
      ensures cronExpression == CronExpression(env)
      ensures registered == (construct.Pass? && register.Pass?)
      ensures started == (registered && start.Pass?)
      ensures match SetupFailure(construct, register, start)
              case None => log == old(log) + [Info(SetupMessage(cronExpression))]
              case Some(e) => log == old(log) + [Error(InvalidExpressionMessage(cronExpression), Cause(e))]
    {
      var expression := CronExpression(env);
      cronExpression := expression;
      registered, started := false, false;
      if construct.Fail? {
        log := log + [Error(InvalidExpressionMessage(expression), Cause(construct.error))];
        return;
      }
      if register.Fail? {
        log := log + [Error(InvalidExpressionMessage(expression), Cause(register.error))];
        return;
      }
      registered := true;
      if start.Fail? {
        log := log + [Error(InvalidExpressionMessage(expression), Cause(start.error))];
        return;
      }
      started := true;
      log := log + [Info(SetupMessage(expression))];
    }

    /** One iteration of the tick's loop: fetch the symbol's quote and, if that
        succeeds, store its row and log it; a failure of either call is
        caught and logged with the error's message. */
    method PollSymbol(sym: Symbol, fetched: Result<StockPrice, Thrown>, created: Outcome<Thrown>)
      modifies this`stored, this`log, this`quoteRequests, this`createCalls
      ensures var o := Process(sym, fetched, created);
              && stored == old(stored) + (if o.Saved? then [o.row] else [])
              && createCalls == old(createCalls) + (if o.FetchFailed? then [] else [o.row])
              && quoteRequests == old(quoteRequests) + [sym.code]
              && log == old(log) + [LogLine(sym, o)]
    {
      quoteRequests := quoteRequests + [sym.code];
      match fetched
      case Failure(e) =>
        log := log + [Error(RetrievalFailedMessage(sym.code), Message(Detail(e)))];
      case Success(p) =>
        var row := RowFor(sym, p);
        createCalls := createCalls + [row];
        match created
        case Fail(e) =>
          log := log + [Error(RetrievalFailedMessage(sym.code), Message(Detail(e)))];
        case Pass =>
          stored := stored + [row];
          log := log + [PriceSaved(sym.code, p.currentPrice)];
    }

    /** The tick's `for` loop over the active symbols, in list order. */
    method PollSymbols(syms: seq<Symbol>, fetched: seq<Result<StockPrice, Thrown>>, created: seq<Outcome<Thrown>>)
      requires |fetched| == |syms| && |created| == |syms|
      modifies this`stored, this`log, this`quoteRequests, this`createCalls
      ensures var outs := Outcomes(syms, fetched, created);
              && stored == old(stored) + SavedRows(outs)
              && createCalls == old(createCalls) + CreateCalls(outs)
              && quoteRequests == old(quoteRequests) + Codes(syms)
              && log == old(log) + TickLines(syms, outs)
    {
      ghost var outs := Outcomes(syms, fetched, created);
      for i := 0 to |syms|
        invariant stored == old(stored) + SavedRows(outs[..i])
        invariant createCalls == old(createCalls) + CreateCalls(outs[..i])
        invariant quoteRequests == old(quoteRequests) + Codes(syms[..i])
        invariant log == old(log) + TickLines(syms[..i], outs[..i])
      {
        PrefixStep(syms, outs, i);
        PollSymbol(syms[i], fetched[i], created[i]);
      }
      assert outs[..|syms|] == outs && syms[..|syms|] == syms;
    }

    /** `handleCron()`: one tick. `listing` is what the query for active
        symbols yields; `fetched[i]` and `created[i]` are what `getStockPrice`
        and `prisma.stockPrice.create` yield for the i-th symbol. A failed
        listing is not caught and ends the tick with its error. */
    method HandleCron(listing: Result<seq<Symbol>, Thrown>,
                      fetched: seq<Result<StockPrice, Thrown>>, created: seq<Outcome<Thrown>>)
      returns (outcome: Outcome<Thrown>)
      requires listing.Success? ==> |fetched| == |listing.value| && |created| == |listing.value|
      modifies this`stored, this`log, this`quoteRequests, this`createCalls
      ensures listing.Failure? ==>
                && outcome == Fail(listing.error)
                && stored == old(stored) && createCalls == old(createCalls)
                && quoteRequests == old(quoteRequests)
                && log == old(log) + [Debug(RunningMessage)]
      ensures listing.Success? && listing.value == [] ==>
                && outcome == Pass
                && stored == old(stored) && createCalls == old(createCalls)
                && quoteRequests == old(quoteRequests)
                && log == old(log) + [Debug(RunningMessage), Debug(NoActiveSymbolMessage)]
      ensures listing.Success? && listing.value != [] ==>
                var outs := Outcomes(listing.value, fetched, created);
                && outcome == Pass
                && stored == old(stored) + SavedRows(outs)
                && createCalls == old(createCalls) + CreateCalls(outs)
                && quoteRequests == old(quoteRequests) + Codes(listing.value)
                && log == old(log) + [Debug(RunningMessage)] + TickLines(listing.value, outs)
    {
      log := log + [Debug(RunningMessage)];
      if listing.Failure? {
        return Fail(listing.error);
      }
      var syms := listing.value;
      if |syms| == 0 {
        log := log + [Debug(NoActiveSymbolMessage)];
        return Pass;
      }
      PollSymbols(syms, fetched, created);
      return Pass;
    }
  }
}
