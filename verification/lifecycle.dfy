/** The per-item lifecycle of the current worker (internal/worker/worker.go):
    a request goes through a fixed chain of fallible steps, each of which
    may set the in-memory status and write to the store; the first failing
    step ends the chain and `handleError` marks the item as failed. Every
    step's success or failure is an input, and the fold records the
    statuses assigned, the store writes attempted and the steps run. The
    ticker goroutine, the context and the report channel's timing are not
    modelled. */
module Lifecycle {
  import opened Results
  import opened Models
  import Ytdlp
  import Downloader
  import Text

  /** The steps of the per-item closure, in order. */
  datatype Step = NewSource | LoadMeta | SaveMeta | SetLoading | Download | SetReady

  const Steps: seq<Step> := [NewSource, LoadMeta, SaveMeta, SetLoading, Download, SetReady]

  /** What each fallible call returns. `source` is `downloader.NewSource`,
      `meta` the provider's metadata answer, `save` `SaveItemMetadata`,
      `loading` and `ready` the two `SetStatus` calls, `download` the
      source's download. */
  datatype Outcomes = Outcomes(
    source: Result<()>,
    meta: Result<Ytdlp.SourceMeta>,
    save: Result<()>,
    loading: Result<()>,
    download: Result<()>,
    ready: Result<()>)

  /** A store write: `SaveItemMetadata(item, playlist, status)` or
      `SetStatus(id, status)`. */
  datatype Write = SaveMetadata(item: Request, status: Status) | SetStatus(id: Uuid, status: Status)

  /** Whether the step's call failed, and with what. */
  function Outcome(step: Step, o: Outcomes): Result<()> {
    match step
    case NewSource => o.source
    case LoadMeta => if o.meta.Err? then Err(o.meta.msg) else Ok(())
    case SaveMeta => o.save
    case SetLoading => o.loading
    case Download => o.download
    case SetReady => o.ready
  }

  /** The statuses a step assigns to the in-memory item. `NewSource` and
      `LoadMeta` assign theirs only when they succeed; the others assign
      theirs before their store call. */
  function StepTrace(step: Step, o: Outcomes): seq<Status> {
    match step
    case NewSource => if o.source.Ok? then [New] else []
    case LoadMeta => if o.meta.Ok? then [Meta] else []
    case SaveMeta => [Meta]
    case SetLoading => [Loading]
    case Download => []
    case SetReady => [Ready]
  }

  /** The status a step writes to the store, if it writes. */
  function StepWrite(step: Step): seq<Status> {
    match step
    case SaveMeta => [Meta]
    case SetLoading => [Loading]
    case SetReady => [Ready]
    case _ => []
  }

  /** One step's effect on the item, the statuses it assigns in memory and
      the writes it attempts. */
  datatype Effect = Effect(item: Request, trace: seq<Status>, writes: seq<Write>)

  function StepEffect(step: Step, item: Request, o: Outcomes): (e: Effect)
    ensures e.item.id == item.id && e.item.error == item.error
  {
    match step
    case NewSource =>
      Effect(if o.source.Err? then item else item.(status := New), StepTrace(NewSource, o), [])
    case LoadMeta =>
      var (item', _) := Downloader.LoadMeta(item, o.meta);
      Effect(item', StepTrace(LoadMeta, o), [])
    case SaveMeta =>
      var item' := item.(status := Meta);
      Effect(item', [Meta], [SaveMetadata(item', Meta)])
    case SetLoading =>
      Effect(item.(status := Loading), [Loading], [SetStatus(item.id, Loading)])
    case Download =>
      Effect(item, [], [])
    case SetReady =>
      Effect(item.(status := Ready, done := true), [Ready], [SetStatus(item.id, Ready)])
  }

  /** The state of the closure: the item, the statuses assigned so far, the
      writes attempted, the steps run, the error, and the items reported. */
  datatype State = State(
    item: Request,
    trace: seq<Status>,
    writes: seq<Write>,
    attempted: seq<Step>,
    err: Option<string>,
    reports: seq<Request>)

  /** The state before the first step. */
  function Init(item: Request): State {
    State(item, [], [], [], None, [])
  }

  /** Runs one step. */
  function Next(s: State, step: Step, o: Outcomes): (s': State)
    ensures s'.reports == s.reports && s'.item.id == s.item.id && s'.item.error == s.item.error
    ensures s'.attempted == s.attempted + [step]
    ensures s'.err.None? <==> Outcome(step, o).Ok?
  {
    var e := StepEffect(step, s.item, o);
    var res := Outcome(step, o);
    State(e.item, s.trace + e.trace, s.writes + e.writes, s.attempted + [step],
          if res.Err? then Some(res.msg) else None, s.reports)
  }

  /** One step extends the in-memory statuses and the writes by its own. */
  lemma NextLog(s: State, step: Step, o: Outcomes)
    ensures Next(s, step, o).trace == s.trace + StepTrace(step, o)
    ensures Statuses(Next(s, step, o).writes) == Statuses(s.writes) + StepWrite(step)
  {
  }

  /** Runs `steps` from `s` until one fails. */
  function Run(s: State, steps: seq<Step>, o: Outcomes): (r: State)
    ensures r.reports == s.reports && r.item.id == s.item.id && r.item.error == s.item.error
    decreases |steps|
  {
    if steps == [] || s.err.Some? then s
    else Run(Next(s, steps[0], o), steps[1..], o)
  }

  /** The statuses of a sequence of writes. */
  function Statuses(ws: seq<Write>): (ss: seq<Status>)
    ensures |ss| == |ws| && forall i :: 0 <= i < |ws| ==> ss[i] == ws[i].status
  {
    if ws == [] then [] else [ws[0].status] + Statuses(ws[1..])
  }

  /** The statuses `steps` assign in memory and write, in order. */
  function Traces(steps: seq<Step>, o: Outcomes): seq<Status> {
    if steps == [] then [] else StepTrace(steps[0], o) + Traces(steps[1..], o)
  }

  function WriteTrace(steps: seq<Step>): seq<Status> {
    if steps == [] then [] else StepWrite(steps[0]) + WriteTrace(steps[1..])
  }

  /** The index of the first failing step, or `|steps|` when none fails. */
  function FirstFail(steps: seq<Step>, o: Outcomes): (k: nat)
    ensures k <= |steps|
    ensures forall i :: 0 <= i < k ==> Outcome(steps[i], o).Ok?
    ensures k < |steps| ==> Outcome(steps[k], o).Err?
  {
    if steps == [] then 0
    else if Outcome(steps[0], o).Err? then 0
    else 1 + FirstFail(steps[1..], o)
  }

  /** The chain stops at the first failing step: exactly the steps up to and
      including it run, and its error is the chain's error. */
  lemma {:induction false} RunStops(s: State, steps: seq<Step>, o: Outcomes)
    requires s.err.None?
    ensures var r := Run(s, steps, o);
      var k := FirstFail(steps, o);
      && (k < |steps| ==> r.attempted == s.attempted + steps[..k + 1] && r.err == Some(Outcome(steps[k], o).msg))
      && (k == |steps| ==> r.attempted == s.attempted + steps && r.err.None?)
    decreases |steps|
  {
    if steps != [] {
      var s' := Next(s, steps[0], o);
      assert Run(s, steps, o) == Run(s', steps[1..], o);
      if Outcome(steps[0], o).Ok? {
        RunStops(s', steps[1..], o);
        var k := FirstFail(steps, o);
        var k' := FirstFail(steps[1..], o);
        assert k == k' + 1;
        if k < |steps| {
          assert steps[..k + 1] == [steps[0]] + steps[1..][..k' + 1];
          assert Outcome(steps[k], o) == Outcome(steps[1..][k'], o);
          Text.Assoc(s.attempted, [steps[0]], steps[1..][..k' + 1]);
        } else {
          assert steps == [steps[0]] + steps[1..];
          Text.Assoc(s.attempted, [steps[0]], steps[1..]);
        }
      } else {
        assert steps[..1] == [steps[0]];
      }
    }
  }

  /** The number of steps a chain over `steps` runs. */
  function Ran(steps: seq<Step>, o: Outcomes): (n: nat)
    ensures n <= |steps|
  {
    if FirstFail(steps, o) < |steps| then FirstFail(steps, o) + 1 else |steps|
  }

  /** The chain's in-memory statuses and its writes are those of the steps
      it ran, in order. */
  lemma {:induction false} RunLog(s: State, steps: seq<Step>, o: Outcomes)
    requires s.err.None?
    ensures Run(s, steps, o).trace == s.trace + Traces(steps[..Ran(steps, o)], o)
    ensures Statuses(Run(s, steps, o).writes) == Statuses(s.writes) + WriteTrace(steps[..Ran(steps, o)])
    decreases |steps|
  {
    if steps != [] {
      var s' := Next(s, steps[0], o);
      var n := Ran(steps, o);
      var head := steps[..n];
      assert head[0] == steps[0];
      NextLog(s, steps[0], o);
      if Outcome(steps[0], o).Ok? {
        RunLog(s', steps[1..], o);
        assert head[1..] == steps[1..][..Ran(steps[1..], o)];
        Text.Assoc(s.trace, StepTrace(steps[0], o), Traces(head[1..], o));
        Text.Assoc(Statuses(s.writes), StepWrite(steps[0]), WriteTrace(head[1..]));
      } else {
        assert head == [steps[0]];
        assert head[1..] == [];
      }
    }
  }

  /** `handleError`: the error's text and the Error status go on the item,
      the store is told, and the item is reported. The store's answer is
      only logged, so it does not affect the result. */
  function HandleError(item: Request, e: string, dberr: Result<()>): (out: (Request, Write))
    ensures out.0 == item.(error := Some(e), status := Error)
    ensures out.1 == SetStatus(item.id, Error)
  {
    (item.(error := Some(e), status := Error), SetStatus(item.id, Error))
  }

  /** The per-item closure: the chain, then `handleError` if it failed.
      `dberr` is the store's answer to the Error write. */
  function Process(item: Request, o: Outcomes, dberr: Result<()>): (p: State)
    ensures p.attempted == Steps[..Ran(Steps, o)]
    ensures p.err.Some? <==> FirstFail(Steps, o) < |Steps|
    ensures p.item.id == item.id
    ensures p.err.None? ==> p.reports == [] && p.item.error == item.error
    ensures p.err.Some? ==>
      && p.err == Some(Outcome(Steps[FirstFail(Steps, o)], o).msg)
      && p.item.status == Error && p.item.error == p.err
      && p.reports == [p.item]
      && p.writes != [] && p.writes[|p.writes| - 1] == SetStatus(item.id, Error)
  {
    RunStops(Init(item), Steps, o);
    assert Steps[..|Steps|] == Steps;
    var r := Run(Init(item), Steps, o);
    match r.err
    case None => r
    case Some(e) =>
      var (item', w) := HandleError(r.item, e, dberr);
      r.(item := item', trace := r.trace + [Error], writes := r.writes + [w], reports := r.reports + [item'])
  }

  /** The statuses a complete run assigns, in order. */
  const FullTrace: seq<Status> := [New, Meta, Meta, Loading, Ready]

  /** How much of `FullTrace` a chain failing at step `k` has assigned. */
  function TraceLength(k: nat): nat {
    if k == 0 then 0
    else if k == 1 then 1
    else if k == 2 then 3
    else if k <= 4 then 4
    else 5
  }

  /** The order of the statuses; Error comes last. */
  function Rank(s: Status): nat {
    match s
    case Unset => 0
    case New => 1
    case Meta => 2
    case Loading => 3
    case Ready => 4
    case Error => 5
  }

  /** Running the chain from step `i` is running step `i`, then the rest. */
  lemma RunUnfold(s: State, i: nat, o: Outcomes)
    requires i < |Steps| && s.err.None?
    ensures Run(s, Steps[i..], o) == Run(Next(s, Steps[i], o), Steps[i + 1..], o)
  {
    assert Steps[i..][1..] == Steps[i + 1..];
  }

  /** The state once `NewSource` and `LoadMeta` have succeeded. */
  function Loaded(item: Request, m: Ytdlp.SourceMeta): State {
    State(item.(status := Meta, title := m.title, sourceUrl := m.url), [New, Meta], [], [NewSource, LoadMeta], None, [])
  }

  lemma SourceAndMeta(item: Request, o: Outcomes)
    requires o.source.Ok? && o.meta.Ok?
    ensures Run(Init(item), Steps, o) == Run(Loaded(item, o.meta.value), Steps[2..], o)
  {
    var s1 := State(item.(status := New), [New], [], [NewSource], None, []);
    RunUnfold(Init(item), 0, o);
    assert Next(Init(item), NewSource, o) == s1;
    MetaStep(s1, item, o);
  }

  lemma MetaStep(s1: State, item: Request, o: Outcomes)
    requires o.meta.Ok?
    requires s1 == State(item.(status := New), [New], [], [NewSource], None, [])
    ensures Run(s1, Steps[1..], o) == Run(Loaded(item, o.meta.value), Steps[2..], o)
  {
    RunUnfold(s1, 1, o);
    assert Downloader.LoadMeta(s1.item, o.meta).0 == Loaded(item, o.meta.value).item;
    assert Next(s1, LoadMeta, o) == Loaded(item, o.meta.value);
  }

  /** The state once the metadata is saved and Downloading is written. */
  function SavedAndLoading(s: State): State {
    State(s.item.(status := Loading), s.trace + [Meta, Loading],
          s.writes + [SaveMetadata(s.item.(status := Meta), Meta), SetStatus(s.item.id, Loading)],
          s.attempted + [SaveMeta, SetLoading], None, s.reports)
  }

  lemma SaveAndLoading(s: State, o: Outcomes)
    requires s.err.None? && o.save.Ok? && o.loading.Ok?
    ensures Run(s, Steps[2..], o) == Run(SavedAndLoading(s), Steps[4..], o)
  {
    var s3 := Next(s, SaveMeta, o);
    RunUnfold(s, 2, o);
    RunUnfold(s3, 3, o);
    var saved := s.item.(status := Meta);
    assert s3 == State(saved, s.trace + [Meta], s.writes + [SaveMetadata(saved, Meta)], s.attempted + [SaveMeta], None, s.reports);
    assert s.trace + [Meta] + [Loading] == s.trace + [Meta, Loading];
    assert s.writes + [SaveMetadata(saved, Meta)] + [SetStatus(s.item.id, Loading)]
        == s.writes + [SaveMetadata(saved, Meta), SetStatus(s.item.id, Loading)];
    assert s.attempted + [SaveMeta] + [SetLoading] == s.attempted + [SaveMeta, SetLoading];
    assert Next(s3, SetLoading, o) == SavedAndLoading(s);
  }

  /** After a successful download, Available is written and the item is
      marked done before the store answers. */
  lemma DownloadAndReady(s: State, o: Outcomes)
    requires s.err.None? && o.download.Ok?
    ensures Run(s, Steps[4..], o)
            == State(s.item.(status := Ready, done := true), s.trace + [Ready],
                     s.writes + [SetStatus(s.item.id, Ready)], s.attempted + [Download, SetReady],
                     if o.ready.Err? then Some(o.ready.msg) else None, s.reports)
  {
    var s5 := Next(s, Download, o);
    RunUnfold(s, 4, o);
    RunUnfold(s5, 5, o);
    assert Steps[6..] == [];
    assert s.attempted + [Download] + [SetReady] == s.attempted + [Download, SetReady];
  }

  /** Every step succeeds: the item ends Available and done, its error is
      untouched and `handleError` never runs. */
  lemma AllSucceed(item: Request, o: Outcomes, dberr: Result<()>)
    requires o.source.Ok? && o.meta.Ok? && o.save.Ok? && o.loading.Ok? && o.download.Ok? && o.ready.Ok?
    ensures var r := Process(item, o, dberr);
      && r.err.None?
      && r.attempted == Steps
      && r.item.status == Ready && r.item.done
      && r.item.error == item.error
      && r.reports == []
  {
    var s2 := Loaded(item, o.meta.value);
    SourceAndMeta(item, o);
    var s4 := SavedAndLoading(s2);
    SaveAndLoading(s2, o);
    DownloadAndReady(s4, o);
    var r := Run(Init(item), Steps, o);
    assert r.attempted == [NewSource, LoadMeta] + [SaveMeta, SetLoading] + [Download, SetReady];
  }

  /** Every step succeeds: the item passes through New, FetchingMeta,
      Downloading and Available. */
  lemma AllSucceedTrace(item: Request, o: Outcomes, dberr: Result<()>)
    requires o.source.Ok? && o.meta.Ok? && o.save.Ok? && o.loading.Ok? && o.download.Ok? && o.ready.Ok?
    ensures Process(item, o, dberr).trace == FullTrace
  {
    var s2 := Loaded(item, o.meta.value);
    SourceAndMeta(item, o);
    var s4 := SavedAndLoading(s2);
    SaveAndLoading(s2, o);
    DownloadAndReady(s4, o);
    var r := Run(Init(item), Steps, o);
    assert r.trace == [New, Meta] + [Meta, Loading] + [Ready];
  }

  /** Every step succeeds: the store receives the metadata with
      FetchingMeta, then Downloading, then Available, and nothing else. */
  lemma AllSucceedWrites(item: Request, o: Outcomes, dberr: Result<()>)
    requires o.source.Ok? && o.meta.Ok? && o.save.Ok? && o.loading.Ok? && o.download.Ok? && o.ready.Ok?
    ensures var r := Process(item, o, dberr);
      && |r.writes| == 3
      && r.writes[0].SaveMetadata? && r.writes[0].status == Meta
      && r.writes[1] == SetStatus(item.id, Loading)
      && r.writes[2] == SetStatus(item.id, Ready)
  {
    var s2 := Loaded(item, o.meta.value);
    SourceAndMeta(item, o);
    var s4 := SavedAndLoading(s2);
    SaveAndLoading(s2, o);
    DownloadAndReady(s4, o);
  }

  lemma {:induction false} TracesAppend(a: seq<Step>, b: seq<Step>, o: Outcomes)
    ensures Traces(a + b, o) == Traces(a, o) + Traces(b, o)
  {
    if a == [] {
      assert a + b == b;
    } else {
      assert (a + b)[1..] == a[1..] + b;
      TracesAppend(a[1..], b, o);
    }
  }

  /** One more step of the chain appends that step's statuses. */
  lemma TracesStep(j: nat, o: Outcomes)
    requires j < |Steps|
    ensures Traces(Steps[..j + 1], o) == Traces(Steps[..j], o) + StepTrace(Steps[j], o)
  {
    assert Steps[..j + 1] == Steps[..j] + [Steps[j]];
    TracesAppend(Steps[..j], [Steps[j]], o);
  }

  /** The in-memory statuses of the steps up to and including the first
      failing one. */
  lemma FailedPrefixTrace(o: Outcomes)
    requires FirstFail(Steps, o) < |Steps|
    ensures Traces(Steps[..FirstFail(Steps, o) + 1], o) == FullTrace[..TraceLength(FirstFail(Steps, o))]
  {
    var k := FirstFail(Steps, o);
    assert Steps[..0] == [];
    TracesStep(0, o);
    if k == 1 {
      assert Outcome(Steps[0], o).Ok?;
      TracesStep(1, o);
    } else if k >= 2 {
      assert Outcome(Steps[0], o).Ok? && Outcome(Steps[1], o).Ok?;
      LaterTraces(o);
    }
  }

  /** Once `NewSource` and `LoadMeta` have succeeded, each later step's
      statuses follow `FullTrace`. */
  lemma LaterTraces(o: Outcomes)
    requires o.source.Ok? && o.meta.Ok?
    ensures forall j :: 2 <= j < |Steps| ==> Traces(Steps[..j + 1], o) == FullTrace[..TraceLength(j)]
  {
    assert Steps[..0] == [];
    TracesStep(0, o);
    TracesStep(1, o);
    TracesStep(2, o);
    TracesStep(3, o);
    TracesStep(4, o);
    TracesStep(5, o);
  }

  /** The steps never write the Error status themselves. */
  lemma {:induction false} NoErrorWrite(steps: seq<Step>)
    ensures Error !in WriteTrace(steps)
  {
    if steps != [] {
      NoErrorWrite(steps[1..]);
    }
  }

  /** A step fails: no later step runs, `handleError` runs once, the item
      carries the error's text and the Error status, the in-memory statuses
      are a prefix of the complete run's followed by Error, and the last
      write, and the only one with the Error status, is `handleError`'s. */
  lemma FailureHandled(item: Request, o: Outcomes, dberr: Result<()>)
    requires FirstFail(Steps, o) < |Steps|
    ensures var r := Process(item, o, dberr);
      var k := FirstFail(Steps, o);
      && r.attempted == Steps[..k + 1]
      && r.err == Some(Outcome(Steps[k], o).msg)
      && r.item.status == Error
      && r.item.error == r.err
      && r.reports == [r.item]
      && r.trace == FullTrace[..TraceLength(k)] + [Error]
      && Statuses(r.writes) == WriteTrace(Steps[..k + 1]) + [Error]
      && Error !in WriteTrace(Steps[..k + 1])
      && r.writes[|r.writes| - 1] == SetStatus(item.id, Error)
  {
    var r := Run(Init(item), Steps, o);
    RunStops(Init(item), Steps, o);
    ProcessFailed(item, o, dberr);
    FailureLog(item, o);
    assert Statuses(r.writes + [SetStatus(r.item.id, Error)]) == Statuses(r.writes) + [Error];
  }

  /** `handleError` after a failed chain. */
  lemma ProcessFailed(item: Request, o: Outcomes, dberr: Result<()>)
    requires Run(Init(item), Steps, o).err.Some?
    ensures var r := Run(Init(item), Steps, o);
      var failed := r.item.(error := r.err, status := Error);
      Process(item, o, dberr)
      == r.(item := failed, trace := r.trace + [Error], writes := r.writes + [SetStatus(item.id, Error)], reports := [failed])
  {
  }

  /** The chain's own statuses and writes when step `k` fails. */
  lemma FailureLog(item: Request, o: Outcomes)
    requires FirstFail(Steps, o) < |Steps|
    ensures var r := Run(Init(item), Steps, o);
      var k := FirstFail(Steps, o);
      && r.trace == FullTrace[..TraceLength(k)]
      && Statuses(r.writes) == WriteTrace(Steps[..k + 1])
      && Error !in WriteTrace(Steps[..k + 1])
  {
    RunLog(Init(item), Steps, o);
    FailedPrefixTrace(o);
    NoErrorWrite(Steps[..FirstFail(Steps, o) + 1]);
  }

  /** The statuses never go back in the order of `Rank`. */
  predicate Ordered(t: seq<Status>) {
    forall i, j :: 0 <= i < j < |t| ==> Rank(t[i]) <= Rank(t[j])
  }

  lemma FullTraceOrdered(n: nat)
    requires n <= |FullTrace|
    ensures Ordered(FullTrace[..n]) && Ordered(FullTrace[..n] + [Error])
    ensures Error !in FullTrace[..n]
  {
    var t := FullTrace[..n] + [Error];
    assert forall i :: 0 <= i < n ==> t[i] == FullTrace[i];
  }

  /** Whatever fails, the statuses the item passes through never go back in
      the order New, FetchingMeta, Downloading, Available, Error; Error is
      assigned exactly when a step failed, and then last; the item ends in
      the last status assigned. */
  lemma StatusesOrdered(item: Request, o: Outcomes, dberr: Result<()>)
    ensures var r := Process(item, o, dberr);
      && Ordered(r.trace)
      && (Error in r.trace <==> r.err.Some?)
      && (r.err.Some? ==> r.trace[|r.trace| - 1] == Error && Error !in r.trace[..|r.trace| - 1])
      && r.trace != [] && r.item.status == r.trace[|r.trace| - 1]
  {
    var k := FirstFail(Steps, o);
    if k < |Steps| {
      FailureHandled(item, o, dberr);
      var r := Process(item, o, dberr);
      var n := TraceLength(k);
      FullTraceOrdered(n);
      assert r.trace[..|r.trace| - 1] == FullTrace[..n];
    } else {
      assert Outcome(Steps[0], o).Ok? && Outcome(Steps[1], o).Ok? && Outcome(Steps[2], o).Ok?;
      assert Outcome(Steps[3], o).Ok? && Outcome(Steps[4], o).Ok? && Outcome(Steps[5], o).Ok?;
      AllSucceed(item, o, dberr);
      AllSucceedTrace(item, o, dberr);
      FullTraceOrdered(|FullTrace|);
      assert FullTrace[..|FullTrace|] == FullTrace;
    }
  }

  /** Only the final store write fails: the item is already marked done
      when `handleError` marks it failed, so it ends done and Error. */
  lemma ReadyWriteFails(item: Request, o: Outcomes, dberr: Result<()>)
    requires o.source.Ok? && o.meta.Ok? && o.save.Ok? && o.loading.Ok? && o.download.Ok? && o.ready.Err?
    ensures var r := Process(item, o, dberr);
      && r.attempted == Steps
      && r.item.done && r.item.status == Error
      && r.item.error == Some(o.ready.msg)
      && r.reports == [r.item]
  {
    var s2 := Loaded(item, o.meta.value);
    SourceAndMeta(item, o);
    var s4 := SavedAndLoading(s2);
    SaveAndLoading(s2, o);
    DownloadAndReady(s4, o);
    var r := Run(Init(item), Steps, o);
    assert r.err == Some(o.ready.msg) && r.item.done;
    assert r.attempted == [NewSource, LoadMeta] + [SaveMeta, SetLoading] + [Download, SetReady];
    ProcessFailed(item, o, dberr);
  }
}
