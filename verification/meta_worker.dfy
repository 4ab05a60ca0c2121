/** The older worker pool (internal/meta/worker/worker.go): requests wait in
    a channel of capacity 20; a worker takes them one by one and runs load
    meta, save with FetchingMeta, set Downloading, download and set
    Available, stopping a request at its first failing step with a single
    Error write. Every call's success or failure is an input; the store is
    represented by the writes the worker attempts. Several workers reading
    the one channel concurrently are not modelled: one worker drains the
    queue in order. */
module MetaWorker {
  import opened Results
  import opened Models

  /** The buffer size of the request channel. */
  const Capacity: nat := 20

  const ErrQueueFull: string := "Worker Queue is full"

  /** A queued request: the video's id and the tab it is saved under. */
  datatype Request = Request(video: Uuid, tabid: int)

  /** What each fallible call of one request returns: the video's
      `LoadMeta`, `SaveVideoMetadata`, the two `SetStatus` calls, the
      download, and the store's answer to `handleError`'s Error write. */
  datatype Outcomes = Outcomes(
    load: Result<()>,
    save: Result<()>,
    loading: Result<()>,
    download: Result<()>,
    ready: Result<()>,
    errorWrite: Result<()>)

  datatype Step = LoadMeta | SaveMeta | SetLoading | Download | SetReady

  const Steps: seq<Step> := [LoadMeta, SaveMeta, SetLoading, Download, SetReady]

  /** A store write: `SaveVideoMetadata(video, tabid, status)` or
      `SetStatus(id, status)`. */
  datatype Write = SaveVideoMetadata(video: Uuid, tabid: int, status: Status) | SetStatus(id: Uuid, status: Status)

  /** The call each step makes, in the order of `Steps`. */
  function Answers(o: Outcomes): (rs: seq<Result<()>>)
    ensures |rs| == |Steps|
  {
    [o.load, o.save, o.loading, o.download, o.ready]
  }

  /** The index of the first failing answer, or `|rs|` when none fails. */
  function FirstErr(rs: seq<Result<()>>): (k: nat)
    ensures k <= |rs|
    ensures forall i :: 0 <= i < k ==> rs[i].Ok?
    ensures k < |rs| ==> rs[k].Err?
  {
    if rs == [] then 0
    else if rs[0].Err? then 0
    else 1 + FirstErr(rs[1..])
  }

  /** The store write a step attempts, if any. */
  function StepWrites(r: Request, step: Step): seq<Write> {
    match step
    case SaveMeta => [SaveVideoMetadata(r.video, r.tabid, Meta)]
    case SetLoading => [SetStatus(r.video, Loading)]
    case SetReady => [SetStatus(r.video, Ready)]
    case _ => []
  }

  /** The writes of a sequence of steps, in order. */
  function WritesOf(r: Request, steps: seq<Step>): seq<Write> {
    if steps == [] then [] else StepWrites(r, steps[0]) + WritesOf(r, steps[1..])
  }

  /** What one request leaves behind: the writes attempted, in order, and
      the error that ended it, if any. */
  datatype Handled = Handled(writes: seq<Write>, err: Option<string>)

  /** `handleError`: the Error write. The store's answer is only logged. */
  function HandleError(r: Request, e: string, dberr: Result<()>): (w: Write)
    ensures w == SetStatus(r.video, Error)
  {
    SetStatus(r.video, Error)
  }

  /** The body of the loop in `start` for one request, as the code's chain
      of early `continue`s: a failure ends the request with `handleError`'s
      write. */
  function Handle(r: Request, o: Outcomes): (h: Handled)
    ensures h.err.None? <==> o.load.Ok? && o.save.Ok? && o.loading.Ok? && o.download.Ok? && o.ready.Ok?
    ensures h.err.Some? ==> h.writes != [] && h.writes[|h.writes| - 1] == SetStatus(r.video, Error)
    ensures 1 <= |h.writes| <= 4
  {
    var save := SaveVideoMetadata(r.video, r.tabid, Meta);
    var loading := SetStatus(r.video, Loading);
    var ready := SetStatus(r.video, Ready);
    if o.load.Err? then
      Handled([HandleError(r, o.load.msg, o.errorWrite)], Some(o.load.msg))
    else if o.save.Err? then
      Handled([save, HandleError(r, o.save.msg, o.errorWrite)], Some(o.save.msg))
    else if o.loading.Err? then
      Handled([save, loading, HandleError(r, o.loading.msg, o.errorWrite)], Some(o.loading.msg))
    else if o.download.Err? then
      Handled([save, loading, HandleError(r, o.download.msg, o.errorWrite)], Some(o.download.msg))
    else if o.ready.Err? then
      Handled([save, loading, ready, HandleError(r, o.ready.msg, o.errorWrite)], Some(o.ready.msg))
    else
      Handled([save, loading, ready], None)
  }

  lemma {:induction false} WritesAppend(r: Request, a: seq<Step>, b: seq<Step>)
    ensures WritesOf(r, a + b) == WritesOf(r, a) + WritesOf(r, b)
  {
    if a == [] {
      assert a + b == b;
    } else {
      assert (a + b)[1..] == a[1..] + b;
      WritesAppend(r, a[1..], b);
    }
  }

  /** One more step appends that step's write. */
  lemma WritesStep(r: Request, j: nat)
    requires j < |Steps|
    ensures WritesOf(r, Steps[..j + 1]) == WritesOf(r, Steps[..j]) + StepWrites(r, Steps[j])
  {
    assert Steps[..j + 1] == Steps[..j] + [Steps[j]];
    WritesAppend(r, Steps[..j], [Steps[j]]);
  }

  /** The early-return chain agrees with the step-wise description: the
      steps up to the first failure run and their writes are attempted, in
      order; a failure carries that step's error and adds exactly the one
      Error write; nothing after the failing step runs. */
  lemma HandleFollowsSteps(r: Request, o: Outcomes)
    ensures var h := Handle(r, o);
      var k := FirstErr(Answers(o));
      && (k < |Steps| ==> h.err == Some(Answers(o)[k].msg)
                          && h.writes == WritesOf(r, Steps[..k + 1]) + [SetStatus(r.video, Error)])
      && (k == |Steps| ==> h.err.None? && h.writes == WritesOf(r, Steps))
  {
    PrefixWrites(r);
    var rs := Answers(o);
    var k := FirstErr(rs);
    assert rs[0] == o.load && rs[1] == o.save && rs[2] == o.loading && rs[3] == o.download && rs[4] == o.ready;
    if o.load.Err? {
      assert k == 0;
    } else if o.save.Err? {
      assert k == 1;
    } else if o.loading.Err? {
      assert k == 2;
    } else if o.download.Err? {
      assert k == 3;
    } else if o.ready.Err? {
      assert k == 4;
    } else {
      assert k == 5;
    }
  }

  /** The writes of each prefix of the steps. */
  lemma PrefixWrites(r: Request)
    ensures var save := SaveVideoMetadata(r.video, r.tabid, Meta);
      var loading := SetStatus(r.video, Loading);
      && WritesOf(r, Steps[..1]) == []
      && WritesOf(r, Steps[..2]) == [save]
      && WritesOf(r, Steps[..3]) == [save, loading]
      && WritesOf(r, Steps[..4]) == [save, loading]
      && WritesOf(r, Steps[..5]) == [save, loading, SetStatus(r.video, Ready)]
      && Steps[..5] == Steps
  {
    assert Steps[..0] == [];
    WritesStep(r, 0);
    WritesStep(r, 1);
    WritesStep(r, 2);
    WritesStep(r, 3);
    WritesStep(r, 4);
  }

  /** The statuses of a sequence of writes. */
  function Statuses(ws: seq<Write>): (ss: seq<Status>)
    ensures |ss| == |ws| && forall i :: 0 <= i < |ws| ==> ss[i] == ws[i].status
  {
    if ws == [] then [] else [ws[0].status] + Statuses(ws[1..])
  }

  /** One request's writes: FetchingMeta, Downloading, Available when all
      succeed; otherwise a prefix of those followed by the one Error write,
      and nothing after the failing step. */
  lemma HandleStatuses(r: Request, o: Outcomes)
    ensures var h := Handle(r, o);
      && (h.err.None? ==> Statuses(h.writes) == [Meta, Loading, Ready])
      && (h.err.Some? ==> exists n :: 0 <= n <= 3 && Statuses(h.writes) == [Meta, Loading, Ready][..n] + [Error])
      && (forall i :: 0 <= i < |h.writes| ==> h.writes[i].status != Error || (h.err.Some? && i == |h.writes| - 1))
  {
    var h := Handle(r, o);
    if h.err.Some? {
      var n := |h.writes| - 1;
      assert Statuses(h.writes) == [Meta, Loading, Ready][..n] + [Error];
    }
  }

  /** The store's answer to the Error write changes nothing the worker
      does. */
  lemma ErrorWriteIgnored(r: Request, o: Outcomes, dberr: Result<()>)
    ensures Handle(r, o.(errorWrite := dberr)) == Handle(r, o)
  {
  }

  /** A queued request paired with the answers its calls get. */
  datatype Job = Job(req: Request, o: Outcomes)

  /** The loop in `start` over the queue: every request in order, whether
      or not earlier ones failed. */
  function Drain(jobs: seq<Job>): (ws: seq<Write>)
    ensures jobs == [] ==> ws == []
  {
    if jobs == [] then [] else Handle(jobs[0].req, jobs[0].o).writes + Drain(jobs[1..])
  }

  lemma {:induction false} DrainAppend(a: seq<Job>, b: seq<Job>)
    ensures Drain(a + b) == Drain(a) + Drain(b)
  {
    if a == [] {
      assert a + b == b;
    } else {
      assert (a + b)[1..] == a[1..] + b;
      DrainAppend(a[1..], b);
    }
  }

  /** A failed request does not stop the later ones: every request's own
      writes appear, whole, between those of the requests before it and
      those of the requests after it. */
  lemma EveryJobHandled(jobs: seq<Job>, i: nat)
    requires i < |jobs|
    ensures Drain(jobs) == Drain(jobs[..i]) + Handle(jobs[i].req, jobs[i].o).writes + Drain(jobs[i + 1..])
  {
    var before, rest, after := jobs[..i], jobs[i..], jobs[i + 1..];
    assert jobs == before + rest;
    DrainAppend(before, rest);
    assert rest[1..] == after;
    assert Drain(rest) == Handle(jobs[i].req, jobs[i].o).writes + Drain(after);
  }

  /** Every request attempts at least one write (its first store write or
      its Error write) and at most four, so the writes grow with the queue
      and never unboundedly. */
  lemma {:induction false} DrainBounds(jobs: seq<Job>)
    ensures |jobs| <= |Drain(jobs)| <= 4 * |jobs|
  {
    if jobs != [] {
      DrainBounds(jobs[1..]);
    }
  }

  /** The number of Error writes among `ws`. */
  function ErrorWrites(ws: seq<Write>): nat {
    if ws == [] then 0 else (if ws[0].status == Error then 1 else 0) + ErrorWrites(ws[1..])
  }

  /** The number of requests with a failing call. */
  function Failed(jobs: seq<Job>): nat {
    if jobs == [] then 0 else (if Handle(jobs[0].req, jobs[0].o).err.Some? then 1 else 0) + Failed(jobs[1..])
  }

  lemma {:induction false} ErrorWritesAppend(a: seq<Write>, b: seq<Write>)
    ensures ErrorWrites(a + b) == ErrorWrites(a) + ErrorWrites(b)
  {
    if a == [] {
      assert a + b == b;
    } else {
      assert (a + b)[1..] == a[1..] + b;
      ErrorWritesAppend(a[1..], b);
    }
  }

  /** One request writes Error once if it fails and never otherwise. */
  lemma HandleErrorWrites(r: Request, o: Outcomes)
    ensures ErrorWrites(Handle(r, o).writes) == if Handle(r, o).err.Some? then 1 else 0
  {
    var ws := Handle(r, o).writes;
    HandleStatuses(r, o);
    if ws != [] {
      ErrorWritesAppend(ws[..|ws| - 1], [ws[|ws| - 1]]);
      assert ws == ws[..|ws| - 1] + [ws[|ws| - 1]];
      NoErrorCounted(ws[..|ws| - 1]);
    }
  }

  lemma {:induction false} NoErrorCounted(ws: seq<Write>)
    requires forall i :: 0 <= i < |ws| ==> ws[i].status != Error
    ensures ErrorWrites(ws) == 0
  {
    if ws != [] {
      NoErrorCounted(ws[1..]);
    }
  }

  /** Over the whole queue, the store receives one Error write per failed
      request. */
  lemma {:induction false} ErrorsPerFailure(jobs: seq<Job>)
    ensures ErrorWrites(Drain(jobs)) == Failed(jobs)
  {
    if jobs != [] {
      var h := Handle(jobs[0].req, jobs[0].o);
      ErrorWritesAppend(h.writes, Drain(jobs[1..]));
      HandleErrorWrites(jobs[0].req, jobs[0].o);
      ErrorsPerFailure(jobs[1..]);
    }
  }

  /** `Download`: a non-blocking send on the channel. With room, the request
      joins the tail and the answer is nil; when full, the queue is
      unchanged and the answer is "Worker Queue is full". */
  function Enqueue(q: seq<Request>, r: Request): (out: (seq<Request>, Result<()>))
    ensures out.1.Ok? <==> |q| < Capacity
    ensures out.1.Ok? ==> out.0 == q + [r]
    ensures out.1.Err? ==> out.0 == q && out.1.msg == ErrQueueFull
    ensures |q| <= Capacity ==> |out.0| <= Capacity
  {
    if |q| < Capacity then (q + [r], Ok(())) else (q, Err(ErrQueueFull))
  }

  /** Several `Download` calls with no worker taking requests meanwhile. */
  function EnqueueAll(q: seq<Request>, rs: seq<Request>): (out: (seq<Request>, seq<Result<()>>))
    ensures |out.1| == |rs|
    decreases |rs|
  {
    if rs == [] then (q, [])
    else
      var (q', e) := Enqueue(q, rs[0]);
      var (q'', es) := EnqueueAll(q', rs[1..]);
      (q'', [e] + es)
  }

  function Min(a: int, b: int): int {
    if a <= b then a else b
  }

  /** Requests are accepted in the order of the calls until the channel is
      full, and every later one is refused: the queue gains exactly the
      first `Capacity - |q|` requests and the answers say which. */
  lemma {:induction false} EnqueueAllFills(q: seq<Request>, rs: seq<Request>)
    requires |q| <= Capacity
    decreases |rs|
    ensures var (q', es) := EnqueueAll(q, rs);
      var n := Min(|rs|, Capacity - |q|);
      && q' == q + rs[..n]
      && (forall i :: 0 <= i < |rs| ==> (es[i].Ok? <==> i < n))
      && (forall i :: n <= i < |rs| ==> es[i] == Err(ErrQueueFull))
  {
    if rs != [] {
      var (q1, e) := Enqueue(q, rs[0]);
      EnqueueAllFills(q1, rs[1..]);
      var (q', es) := EnqueueAll(q, rs);
      var n := Min(|rs|, Capacity - |q|);
      if |q| < Capacity {
        assert rs[..n] == [rs[0]] + rs[1..][..n - 1];
      } else {
        assert n == 0;
      }
      forall i | 0 <= i < |rs|
        ensures es[i].Ok? <==> i < n
      {
        if i > 0 {
          assert es[i] == EnqueueAll(q1, rs[1..]).1[i - 1];
        }
      }
    }
  }
}
