/**
 Idempotent commands and creations: a receipt per key, and any number of clients between begin and complete
 (app/storage/mission_command_idempotency.py, app/storage/resource_creation_idempotency.py,
 app/api/routes/missions.py:216-270 and 1062-1102).

 The two stores differ in what they call a key and what they compare: the command store has the idempotency key and
 the pair of mission and command, the creation store the pair of scope and key and the request's fingerprint.
 */
module Idempotency {
  import opened Wrappers

  type Key = nat
  type Intent = nat
  type ResultId = nat
  type ClientId = nat

  datatype Receipt = Receipt(intent: Intent, result: Option<ResultId>)
  type Records = map<Key, Receipt>

  datatype BeginError = Conflict | InProgress

  /** The answer of `begin`: None means that the caller is to execute. */
  function BeginAnswer(records: Records, key: Key, intent: Intent): Result<Option<ResultId>, BeginError> {
    if key !in records then Success(None)
    else if records[key].intent != intent then Failure(Conflict)
    else if records[key].result.None? then Failure(InProgress)
    else Success(records[key].result)
  }

  function AfterBegin(records: Records, key: Key, intent: Intent): Records {
    if key in records then records else records[key := Receipt(intent, None)]
  }

  function AfterComplete(records: Records, key: Key, result: ResultId): Records
    requires key in records
  {
    records[key := records[key].(result := Some(result))]
  }

  function AfterAbort(records: Records, key: Key, intent: Intent): Records {
    if key in records && records[key] == Receipt(intent, None) then records - {key} else records
  }

  /** Either in-memory store; its lock makes every method atomic. */
  class ReceiptStore {
    var records: Records

    constructor ()
      ensures records == map[]
    {
      records := map[];
    }

    method Begin(key: Key, intent: Intent) returns (r: Result<Option<ResultId>, BeginError>)
      modifies this
      ensures r == BeginAnswer(old(records), key, intent)
      ensures records == AfterBegin(old(records), key, intent)
      ensures r == Success(None) <==> key !in old(records)
      ensures r == Failure(Conflict) <==> key in old(records) && old(records)[key].intent != intent
      ensures r == Failure(InProgress) <==> key in old(records) && old(records)[key] == Receipt(intent, None)
      ensures r.Success? && r.value.Some? <==> key in old(records) && old(records)[key].intent == intent && old(records)[key].result.Some?
      ensures r.Success? && r.value.Some? ==> old(records)[key] == Receipt(intent, r.value)
      ensures key in records && (key !in old(records) ==> records[key] == Receipt(intent, None))
      ensures forall k :: k in old(records) ==> k in records && records[k] == old(records)[k]
      ensures forall k :: k in records && k != key ==> k in old(records)
    {
      if key !in records {
        records := records[key := Receipt(intent, None)];
        return Success(None);
      }
      var receipt := records[key];
      if receipt.intent != intent {
        return Failure(Conflict);
      }
      if receipt.result.None? {
        return Failure(InProgress);
      }
      return Success(receipt.result);
    }

    /** A KeyError if there is no receipt. */
    method Complete(key: Key, result: ResultId) returns (ok: bool)
      modifies this
      ensures ok <==> key in old(records)
      ensures records == if ok then AfterComplete(old(records), key, result) else old(records)
      ensures ok ==> key in records && records[key] == Receipt(old(records)[key].intent, Some(result))
      ensures records.Keys == old(records).Keys && forall k :: k in records && k != key ==> records[k] == old(records)[k]
    {
      if key !in records {
        return false;
      }
      records := records[key := Receipt(records[key].intent, Some(result))];
      return true;
    }

    method Abort(key: Key, intent: Intent)
      modifies this
      ensures records == AfterAbort(old(records), key, intent)
      ensures key in records <==> key in old(records) && old(records)[key] != Receipt(intent, None)
      ensures forall k :: k in records ==> k in old(records) && records[k] == old(records)[k]
      ensures forall k :: k in old(records) && k != key ==> k in records
    {
      if key in records && records[key] == Receipt(intent, None) {
        records := records - {key};
      }
    }

    /** `_execute_idempotent_mission_command` undisturbed; `execution` is what the command would do. */
    method Execute(key: Key, intent: Intent, execution: Result<ResultId, ()>)
      returns (r: Result<ResultId, Option<BeginError>>, executed: bool)
      modifies this
      ensures executed <==> key !in old(records)
      ensures match BeginAnswer(old(records), key, intent) {
                case Failure(error) => r == Failure(Some(error)) && records == old(records)
                case Success(Some(previous)) => r == Success(previous) && records == old(records)
                case Success(None) =>
                  if execution.Success? then r == Success(execution.value) && BeginAnswer(records, key, intent) == Success(Some(execution.value))
                  else r == Failure(None) && records == old(records)
              }
      ensures forall other :: other != key ==> (other in records <==> other in old(records))
      ensures forall other :: other != key && other in records ==> records[other] == old(records)[other]
    {
      var previous := Begin(key, intent);
      if previous.Failure? {
        return Failure(Some(previous.error)), false;
      }
      if previous.value.Some? {
        return Success(previous.value.value), false;
      }
      if execution.Failure? {
        Abort(key, intent);
        assert records == old(records);
        return Failure(None), true;
      }
      var completed := Complete(key, execution.value);
      return Success(execution.value), true;
    }
  }

  // --------------------------------------------------------- concurrent clients

  datatype Request = Request(key: Key, intent: Intent)

  datatype Client =
    | Starting(request: Request)
    | Executing(request: Request)
    | Executed(request: Request, result: ResultId)
    | Answered(request: Request, result: ResultId)
    | Refused(request: Request, error: BeginError)
    | Gone(request: Request)

  /** `finished` are the executions that came to an end, in order; `creation` tells create_mission from the commands. */
  datatype World = World(
    records: Records, clients: map<ClientId, Client>, finished: seq<(Key, ResultId)>, creation: bool)

  datatype Step =
    | Arrive(c: ClientId, request: Request)
    | Begin(c: ClientId)
    | Finish(c: ClientId, result: ResultId)
    | Raise(c: ClientId)
    | Complete(c: ClientId)
    | Vanish(c: ClientId)
    /**
     The store itself fails: in `begin`, or in `complete` after the execution came to an end.  Either may have taken
     effect all the same.
     */
    | BeginFails(c: ClientId, landed: bool)
    | CompleteFails(c: ClientId, landed: bool)

  predicate CanStep(w: World, s: Step) {
    match s
    case Arrive(c, _) => c !in w.clients
    case Begin(c) => c in w.clients && w.clients[c].Starting?
    case Finish(c, _) => c in w.clients && w.clients[c].Executing?
    case Raise(c) => c in w.clients && w.clients[c].Executing?
    case Complete(c) => c in w.clients && w.clients[c].Executed? && w.clients[c].request.key in w.records
    case Vanish(c) => c in w.clients && (w.clients[c].Executing? || w.clients[c].Executed?)
    case BeginFails(c, _) => c in w.clients && w.clients[c].Starting?
    case CompleteFails(c, landed) => c in w.clients && w.clients[c].Executed? && (landed ==> w.clients[c].request.key in w.records)
  }

  function Next(w: World, s: Step): World
    requires CanStep(w, s)
  {
    match s
    case Arrive(c, request) => w.(clients := w.clients[c := Starting(request)])
    case Begin(c) =>
      var q := w.clients[c].request;
      var client := match BeginAnswer(w.records, q.key, q.intent)
        case Failure(error) => Refused(q, error)
        case Success(None) => Executing(q)
        case Success(Some(result)) => Answered(q, result);
      w.(records := AfterBegin(w.records, q.key, q.intent), clients := w.clients[c := client])
    case Finish(c, result) =>
      var q := w.clients[c].request;
      w.(clients := w.clients[c := Executed(q, result)], finished := w.finished + [(q.key, result)])
    case Raise(c) =>
      var q := w.clients[c].request;
      w.(records := AfterAbort(w.records, q.key, q.intent), clients := w.clients[c := Gone(q)])
    case Complete(c) =>
      var q := w.clients[c].request;
      w.(records := AfterComplete(w.records, q.key, w.clients[c].result), clients := w.clients[c := Answered(q, w.clients[c].result)])
    case Vanish(c) => w.(clients := w.clients[c := Gone(w.clients[c].request)])
    case BeginFails(c, landed) =>
      var q := w.clients[c].request;
      var begun := if landed then AfterBegin(w.records, q.key, q.intent) else w.records;
      w.(records := if w.creation then AfterAbort(begun, q.key, q.intent) else begun, clients := w.clients[c := Gone(q)])
    case CompleteFails(c, landed) =>
      var q := w.clients[c].request;
      var completed := if landed then AfterComplete(w.records, q.key, w.clients[c].result) else w.records;
      w.(records := AfterAbort(completed, q.key, q.intent), clients := w.clients[c := Gone(q)])
  }

  /**
   The faults that do no harm.  After a `complete` that took effect the abort finds no pending receipt.  A command aborts only what it began; create_mission aborts after a failed `begin` too,
   which is harmless where that frees nothing, and where the receipt it frees has lost its owner before the
   execution came to an end.
   */
  ghost predicate Harmless(w: World, s: Step) {
    match s
    case CompleteFails(_, landed) => landed
    case BeginFails(c, _) => c in w.clients ==> FreesNothing(w, w.clients[c].request) || Abandoned(w, w.clients[c].request.key)
    case _ => true
  }

  /** The abort after a failed `begin` finds no receipt that it takes for its own. */
  predicate FreesNothing(w: World, q: Request) {
    !w.creation || q.key !in w.records || w.records[q.key] != Receipt(q.intent, None)
  }

  /** Nobody is about to complete the key, and nothing was executed under it. */
  ghost predicate Abandoned(w: World, key: Key) {
    Finished(w.finished, key) == [] && forall d :: !Active(w, d, key)
  }

  ghost predicate Leads(w: World, s: Step, after: World) {
    CanStep(w, s) && Harmless(w, s) && after == Next(w, s)
  }

  ghost predicate StepsTo(w: World, after: World) {
    exists s :: Leads(w, s, after)
  }

  ghost predicate Initial(w: World) {
    w.records == map[] && w.clients == map[] && w.finished == []
  }

  ghost predicate IsRun(run: seq<World>) {
    && run != [] && Initial(run[0])
    && forall i :: 0 < i < |run| ==> StepsTo(run[i - 1], run[i])
  }

  // ---------------------------------------------------------------- invariant

  /** Between `begin` and the end of `complete` or `abort`. */
  predicate Active(w: World, c: ClientId, key: Key) {
    c in w.clients && (w.clients[c].Executing? || w.clients[c].Executed?) && w.clients[c].request.key == key
  }

  function Finished(finished: seq<(Key, ResultId)>, key: Key): seq<ResultId> {
    if finished == [] then []
    else
      var last := finished[|finished| - 1];
      Finished(finished[..|finished| - 1], key) + (if last.0 == key then [last.1] else [])
  }

  lemma FinishedAppend(finished: seq<(Key, ResultId)>, key: Key, f: (Key, ResultId))
    ensures Finished(finished + [f], key) == Finished(finished, key) + (if f.0 == key then [f.1] else [])
  {
    assert (finished + [f])[..|finished|] == finished;
  }

  ghost predicate OneActive(w: World) {
    forall c, d, key :: Active(w, c, key) && Active(w, d, key) ==> c == d
  }

  ghost predicate ActiveIsPending(w: World) {
    forall c, key :: Active(w, c, key) ==> key in w.records && w.records[key] == Receipt(w.clients[c].request.intent, None)
  }

  /** What the executions that ended under a key say: none before the end, one afterwards, and it is the result. */
  ghost predicate FinishedOk(w: World, key: Key) {
    && (key !in w.records ==> Finished(w.finished, key) == [])
    && (key in w.records && w.records[key].result.Some? ==> Finished(w.finished, key) == [w.records[key].result.value])
    && |Finished(w.finished, key)| <= 1
    && (forall c :: Active(w, c, key) ==>
          Finished(w.finished, key) == if w.clients[c].Executed? then [w.clients[c].result] else [])
  }

  ghost predicate AnswersOk(w: World) {
    forall c :: c in w.clients && w.clients[c].Answered? ==>
      && w.clients[c].request.key in w.records
      && w.records[w.clients[c].request.key] == Receipt(w.clients[c].request.intent, Some(w.clients[c].result))
  }

  ghost predicate WorldOk(w: World) {
    OneActive(w) && ActiveIsPending(w) && (forall key :: FinishedOk(w, key)) && AnswersOk(w)
  }

  /** Records of other keys and clients of other keys do not matter to a key. */
  lemma FinishedSame(w: World, after: World, key: Key)
    requires FinishedOk(w, key)
    requires key in after.records <==> key in w.records
    requires key in w.records ==> after.records[key] == w.records[key]
    requires Finished(after.finished, key) == Finished(w.finished, key)
    requires forall c :: Active(after, c, key) ==> Active(w, c, key) && after.clients[c] == w.clients[c]
    ensures FinishedOk(after, key)
  {
  }

  lemma BeginKeeps(w: World, c: ClientId)
    requires WorldOk(w) && CanStep(w, Begin(c))
    ensures WorldOk(Next(w, Begin(c)))
  {
    hide Finished;
    var after := Next(w, Begin(c));
    var q := w.clients[c].request;
    assert forall d, key :: Active(after, d, key) ==> Active(w, d, key) || (d == c && key == q.key && key !in w.records);
    forall key
      ensures FinishedOk(after, key)
    {
      assert FinishedOk(w, key);
      if key != q.key || key in w.records {
        FinishedSame(w, after, key);
      }
    }
  }

  lemma FinishKeeps(w: World, c: ClientId, result: ResultId)
    requires WorldOk(w) && CanStep(w, Finish(c, result))
    ensures WorldOk(Next(w, Finish(c, result)))
  {
    hide Finished;
    var after := Next(w, Finish(c, result));
    var q := w.clients[c].request;
    assert Active(w, c, q.key);
    assert FinishedOk(w, q.key);
    assert forall d, key :: Active(after, d, key) <==> Active(w, d, key);
    forall key
      ensures FinishedOk(after, key)
    {
      assert FinishedOk(w, key);
      FinishedAppend(w.finished, key, (q.key, result));
      if key != q.key {
        FinishedSame(w, after, key);
      }
    }
  }

  lemma EndKeeps(w: World, s: Step)
    requires WorldOk(w) && CanStep(w, s) && (s.Raise? || s.Complete? || (s.CompleteFails? && s.landed))
    ensures WorldOk(Next(w, s))
  {
    hide Finished;
    var after := Next(w, s);
    var q := w.clients[s.c].request;
    assert Active(w, s.c, q.key);
    forall d, key | Active(after, d, key)
      ensures Active(w, d, key) && d != s.c && key != q.key && after.clients[d] == w.clients[d]
    {
      assert d != s.c;
      assert Active(w, d, key);
    }
    forall key
      ensures FinishedOk(after, key)
    {
      assert FinishedOk(w, key);
      if key != q.key {
        FinishedSame(w, after, key);
      }
    }
  }

  lemma QuietKeeps(w: World, s: Step)
    requires WorldOk(w) && CanStep(w, s) && (s.Arrive? || s.Vanish? || s.BeginFails?)
    requires s.BeginFails? ==> FreesNothing(w, w.clients[s.c].request)
    ensures WorldOk(Next(w, s))
  {
    hide Finished;
    var after := Next(w, s);
    var claims := s.BeginFails? && s.landed && !w.creation && w.clients[s.c].request.key !in w.records;
    assert !claims ==> after.records == w.records;
    assert forall d, key :: Active(after, d, key) ==> Active(w, d, key) && after.clients[d] == w.clients[d];
    forall key
      ensures FinishedOk(after, key)
    {
      assert FinishedOk(w, key);
      if !claims || key != w.clients[s.c].request.key {
        FinishedSame(w, after, key);
      }
    }
  }

  /** A failed `begin` that frees a receipt keeps everything in order exactly where the receipt was abandoned. */
  lemma BeginFaultExactly(w: World, c: ClientId, landed: bool)
    requires WorldOk(w) && CanStep(w, BeginFails(c, landed)) && !FreesNothing(w, w.clients[c].request)
    ensures WorldOk(Next(w, BeginFails(c, landed))) <==> Abandoned(w, w.clients[c].request.key)
  {
    hide Finished;
    var after, q := Next(w, BeginFails(c, landed)), w.clients[c].request;
    assert after.records == w.records - {q.key};
    assert forall d, key :: Active(after, d, key) <==> Active(w, d, key);
    assert forall d, key :: Active(after, d, key) ==> after.clients[d] == w.clients[d];
    if Abandoned(w, q.key) {
      forall key
        ensures FinishedOk(after, key)
      {
        assert FinishedOk(w, key);
        if key != q.key {
          FinishedSame(w, after, key);
        }
      }
    } else if Finished(w.finished, q.key) != [] {
      assert !FinishedOk(after, q.key);
    }
  }

  /** A `complete` that fails without effect never does. */
  lemma CompleteFaultHarms(w: World, c: ClientId)
    requires WorldOk(w) && CanStep(w, CompleteFails(c, false))
    ensures !WorldOk(Next(w, CompleteFails(c, false)))
    ensures var q, after := w.clients[c].request, Next(w, CompleteFails(c, false));
            q.key !in after.records && Finished(after.finished, q.key) == [w.clients[c].result]
  {
    hide Finished;
    var q, after := w.clients[c].request, Next(w, CompleteFails(c, false));
    assert Active(w, c, q.key);
    assert FinishedOk(w, q.key);
    assert !FinishedOk(after, q.key);
  }

  /** One step keeps everything in order exactly when it is harmless. */
  lemma HarmlessExactly(w: World, s: Step)
    requires WorldOk(w) && CanStep(w, s)
    ensures WorldOk(Next(w, s)) <==> Harmless(w, s)
  {
    hide WorldOk, Next, Abandoned;
    match s
    case Begin(c) => BeginKeeps(w, c);
    case Finish(c, result) => FinishKeeps(w, c, result);
    case Raise(_) => EndKeeps(w, s);
    case Complete(_) => EndKeeps(w, s);
    case CompleteFails(c, landed) =>
      if landed {
        EndKeeps(w, s);
      } else {
        CompleteFaultHarms(w, c);
      }
    case BeginFails(c, landed) =>
      if FreesNothing(w, w.clients[c].request) {
        QuietKeeps(w, s);
      } else {
        BeginFaultExactly(w, c, landed);
      }
    case _ => QuietKeeps(w, s);
  }

  lemma {:induction false} RunIsOk(run: seq<World>, n: nat)
    requires IsRun(run) && n < |run|
    ensures WorldOk(run[n])
  {
    hide WorldOk, Next, Harmless;
    if n == 0 {
      InitialIsOk(run[0]);
    } else {
      RunIsOk(run, n - 1);
      assert StepsTo(run[n - 1], run[n]);
      var s :| Leads(run[n - 1], s, run[n]);
      HarmlessExactly(run[n - 1], s);
    }
  }

  lemma InitialIsOk(w: World)
    requires Initial(w)
    ensures WorldOk(w)
  {
  }

  // ------------------------------------------------------------- main results

  predicate HasAnswer(w: World, c: ClientId, key: Key) {
    c in w.clients && w.clients[c].Answered? && w.clients[c].request.key == key
  }

  /**
   At most once: in every run no two clients execute under one key at the same time, at most one execution per key
   ever comes to an end, and every client that is answered under a key asked for the same thing and gets the result
   of that execution.
   */
  lemma AtMostOnce(run: seq<World>, n: nat, key: Key)
    requires IsRun(run) && n < |run|
    ensures forall c, d :: Active(run[n], c, key) && Active(run[n], d, key) ==> c == d
    ensures |Finished(run[n].finished, key)| <= 1
    ensures forall c :: HasAnswer(run[n], c, key) ==> Finished(run[n].finished, key) == [run[n].clients[c].result]
    ensures forall c, d :: HasAnswer(run[n], c, key) && HasAnswer(run[n], d, key) ==> run[n].clients[c] == run[n].clients[d]
  {
    hide Finished;
    RunIsOk(run, n);
    assert FinishedOk(run[n], key);
  }

  /** A pending receipt disappears only by the client that began it, or when that client is gone and nothing was executed. */
  lemma OnlyOwnerRemoves(run: seq<World>, n: nat, s: Step, key: Key)
    requires IsRun(run) && n + 1 < |run| && Leads(run[n], s, run[n + 1])
    requires key in run[n].records && key !in run[n + 1].records
    ensures run[n].records[key].result.None?
    ensures if exists d :: Active(run[n], d, key) then s.Raise? && Active(run[n], s.c, key)
            else s.BeginFails? && Abandoned(run[n], key)
  {
    hide Finished;
    RunIsOk(run, n);
    if s.Raise? {
      assert Active(run[n], s.c, run[n].clients[s.c].request.key);
    }
  }

  /** A completed receipt stays as it is, so every later matching request is answered with the same result. */
  lemma ResultStays(run: seq<World>, n: nat, s: Step, key: Key)
    requires IsRun(run) && n + 1 < |run| && Leads(run[n], s, run[n + 1])
    requires key in run[n].records && run[n].records[key].result.Some?
    ensures key in run[n + 1].records && run[n + 1].records[key] == run[n].records[key]
    ensures BeginAnswer(run[n + 1].records, key, run[n].records[key].intent) == Success(run[n].records[key].result)
  {
    hide Finished;
    RunIsOk(run, n);
    if s.Complete? || s.CompleteFails? {
      assert Active(run[n], s.c, run[n].clients[s.c].request.key);
    }
  }

  // ------------------------------------------------------------------ the faults

  /**
   At-most-once is lost with every step that is not harmless: another client then starts to execute under the key although
   one execution has come to an end or is still under way.
   */
  lemma HarmLosesAtMostOnce(w: World, s: Step, d: ClientId)
    requires WorldOk(w) && CanStep(w, s) && !Harmless(w, s) && d !in w.clients
    ensures var q, harmed := w.clients[s.c].request, Next(w, s);
            && CanStep(harmed, Arrive(d, q)) && CanStep(Next(harmed, Arrive(d, q)), Begin(d))
            && var after := Next(Next(harmed, Arrive(d, q)), Begin(d));
               Active(after, d, q.key)
               && (Finished(after.finished, q.key) != [] || exists e :: e != d && Active(after, e, q.key))
  {
    hide Finished;
    var q, harmed := w.clients[s.c].request, Next(w, s);
    if s.CompleteFails? {
      CompleteFaultHarms(w, s.c);
    } else {
      assert s.BeginFails? && harmed.records == w.records - {q.key};
      if Finished(w.finished, q.key) == [] {
        var e :| Active(w, e, q.key);
        var after := Next(Next(harmed, Arrive(d, q)), Begin(d));
        assert e != d && Active(after, e, q.key);
      }
    }
  }

  /** A `complete` that fails without effect after the execution came to an end leaves the key free for a second execution. */
  lemma CompleteFaultRepeats(run: seq<World>, n: nat, c: ClientId)
    requires IsRun(run) && n < |run| && CanStep(run[n], CompleteFails(c, false))
    ensures var q, after := run[n].clients[c].request, Next(run[n], CompleteFails(c, false));
            Finished(after.finished, q.key) == [run[n].clients[c].result]
            && BeginAnswer(after.records, q.key, q.intent) == Success(None)
  {
    hide Finished;
    RunIsOk(run, n);
    CompleteFaultHarms(run[n], c);
  }

  function After(w: World, steps: seq<Step>): Option<World>
    decreases |steps|
  {
    if steps == [] then Some(w)
    else if CanStep(w, steps[0]) then After(Next(w, steps[0]), steps[1..])
    else None
  }

  const EMPTY_CREATIONS := World(map[], map[], [], true)
  const REQUEST := Request(7, 1)

  const FREED := World(map[], map[1 := Executing(REQUEST), 2 := Gone(REQUEST)], [], true)

  lemma FailedBeginFreesKey()
    ensures After(EMPTY_CREATIONS, [Arrive(1, REQUEST), Begin(1)] + [Arrive(2, REQUEST), BeginFails(2, false)]) == Some(FREED)
  {
    var w := TwoSteps(EMPTY_CREATIONS, Arrive(1, REQUEST), Begin(1));
    var freed := TwoSteps(w, Arrive(2, REQUEST), BeginFails(2, false));
    assert freed == FREED;
    Replay(EMPTY_CREATIONS, [Arrive(1, REQUEST), Begin(1)], [Arrive(2, REQUEST), BeginFails(2, false)], w);
  }

  lemma ThirdClientCreates()
    ensures var w := After(FREED, [Arrive(3, REQUEST), Begin(3)] + [Finish(1, 10), Finish(3, 11)]);
            w.Some? && Finished(w.value.finished, 7) == [10, 11]
  {
    var w := TwoSteps(FREED, Arrive(3, REQUEST), Begin(3));
    var last := TwoSteps(w, Finish(1, 10), Finish(3, 11));
    Replay(FREED, [Arrive(3, REQUEST), Begin(3)], [Finish(1, 10), Finish(3, 11)], w);
    FinishedAppend([], 7, (7, 10));
    FinishedAppend([(7, 10)], 7, (7, 11));
    assert last.finished == [] + [(7, 10)] + [(7, 11)];
  }

  /** From an empty store: a second client whose `begin` fails frees the first one's key, and a third creates the resource again. */
  lemma FailedBeginCreatesTwice()
    ensures Initial(EMPTY_CREATIONS)
    ensures var w := After(EMPTY_CREATIONS,
                           [Arrive(1, REQUEST), Begin(1)] + [Arrive(2, REQUEST), BeginFails(2, false)]
                           + ([Arrive(3, REQUEST), Begin(3)] + [Finish(1, 10), Finish(3, 11)]));
            w.Some? && Finished(w.value.finished, 7) == [10, 11]
  {
    hide After, Finished;
    FailedBeginFreesKey();
    ThirdClientCreates();
    Replay(EMPTY_CREATIONS, [Arrive(1, REQUEST), Begin(1)] + [Arrive(2, REQUEST), BeginFails(2, false)],
           [Arrive(3, REQUEST), Begin(3)] + [Finish(1, 10), Finish(3, 11)], FREED);
  }

  lemma TwoSteps(w: World, s: Step, t: Step) returns (after: World)
    requires CanStep(w, s) && CanStep(Next(w, s), t)
    ensures after == Next(Next(w, s), t) && After(w, [s, t]) == Some(after)
  {
    after := Next(Next(w, s), t);
    assert [s, t][1..] == [t];
    assert After(after, []) == Some(after);
    assert After(Next(w, s), [t]) == Some(after);
  }

  lemma {:induction false} Replay(w: World, first: seq<Step>, rest: seq<Step>, middle: World)
    requires After(w, first) == Some(middle)
    ensures After(w, first + rest) == After(middle, rest)
    decreases |first|
  {
    if first == [] {
      assert first + rest == rest;
    } else {
      assert (first + rest)[1..] == first[1..] + rest;
      Replay(Next(w, first[0]), first[1..], rest, middle);
    }
  }
}
