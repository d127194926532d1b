/**
 * The reporter a handler prints status lines through, and the tracked target that
 * carries it. The live progress view and its byte counters are not modelled; a report
 * either renders one line or fails.
 */
module Track {
  import opened Outcomes
  import opened Oci
  import opened Successors

  /** A reporter that accepts every line, or one that fails every call with `err`. */
  datatype Prompt = Discarder | ErrorPrompt(err: Error)

  /** The status verbs the hooks use. */
  datatype Verb = Exists | Skipped | Restored

  /** One rendered status line. */
  datatype Event = Event(verb: Verb, desc: Descriptor)

  /** The outcome of one report call. */
  function Report(p: Prompt): Option<Error>
  {
    match p
    case Discarder => None
    case ErrorPrompt(e) => Some(e)
  }

  /** The lines rendered by a sequence of report calls and the error that stopped it. */
  datatype Reported = Reported(rendered: seq<Event>, err: Option<Error>)

  /** One `verb` line per descriptor, in order. */
  function Lines(verb: Verb, ds: seq<Descriptor>): (r: seq<Event>)
    ensures |r| == |ds|
    ensures forall i | 0 <= i < |ds| :: r[i] == Event(verb, ds[i])
  {
    seq(|ds|, i requires 0 <= i < |ds| => Event(verb, ds[i]))
  }

  /**
   * Reports every descriptor of `ds` in order and stops at the first failing call,
   * whose error is returned as it is.
   */
  function ReportEach(p: Prompt, verb: Verb, ds: seq<Descriptor>): (r: Reported)
    ensures |r.rendered| <= |ds|
    ensures forall i | 0 <= i < |r.rendered| :: r.rendered[i] == Event(verb, ds[i])
    ensures r.err == None ==> r.rendered == Lines(verb, ds)
    ensures r.err != None ==> |r.rendered| < |ds|
    ensures r.err != None ==> r.rendered == []
    ensures r.err == (if ds == [] then None else Report(p))
    decreases |ds|
  {
    if ds == [] then Reported([], None)
    else match Report(p)
      case Some(e) => Reported([], Some(e))
      case None =>
        var rest := ReportEach(p, verb, ds[1..]);
        Reported([Event(verb, ds[0])] + rest.rendered, rest.err)
  }

  /** The loop of a hook that reports a list: one call per descriptor until one fails. */
  method ReportAll(p: Prompt, verb: Verb, ds: seq<Descriptor>) returns (rendered: seq<Event>, err: Option<Error>)
    ensures Reported(rendered, err) == ReportEach(p, verb, ds)
  {
    rendered, err := [], None;
    var i := 0;
    while i < |ds|
      invariant 0 <= i <= |ds|
      invariant rendered == Lines(verb, ds[..i])
      invariant i > 0 ==> Report(p) == None
    {
      var e := Report(p);
      if e.Some? {
        err := e;
        return;
      }
      assert ds[..i + 1] == ds[..i] + [ds[i]];
      rendered := rendered + [Event(verb, ds[i])];
      i := i + 1;
    }
    assert ds[..i] == ds;
  }

  /** The output a handler is created with: a live terminal, or a plain stream (a pipe, a file, nil). */
  datatype Output = Plain | Terminal(display: Prompt, closer: Option<Error>)

  /**
   * A storage target wrapped for progress tracking: the reporter, the wrapped target
   * (nil in tests that never fetch through it) and the result of closing it.
   */
  datatype Tracked = Tracked(prompt: Prompt, target: Option<Fetcher>, closer: Option<Error>)

  /** Wraps `gt` for tracking; fails, wrapping nothing, unless `out` is a terminal. */
  function NewTarget(gt: Option<Fetcher>, out: Output): (r: Result<Tracked>)
    ensures r.Failure? <==> out.Plain?
    ensures r.Failure? ==> r.error == NotTerminal
    ensures r.Success? ==> r.value.target == gt && r.value.prompt == out.display
    ensures r.Success? ==> r.value.closer == out.closer
  {
    match out
    case Plain => Failure(NotTerminal)
    case Terminal(display, closer) => Success(Tracked(display, gt, closer))
  }
}
