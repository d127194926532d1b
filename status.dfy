/**
 * The TTY status handlers. Each handler is an object whose fields the hooks update in
 * place: the committed-content registry (a sync.Map, read here as a sequential map),
 * the tracked target set up by StartTracking/TrackTarget, and a ghost log of the status
 * lines the reporter accepted. nil fetchers and trackers are `None`.
 */
module Status {
  import opened Outcomes
  import opened Oci
  import opened Successors
  import opened Track
  import Hooks

  /** The reporter of a tracked target, nil when there is none. */
  function PromptOf(tracked: Option<Tracked>): Option<Prompt>
  {
    if tracked.Some? then Some(tracked.value.prompt) else None
  }

  /** The storage target a tracked target wraps, nil when there is none. */
  function TargetOf(tracked: Option<Tracked>): Option<Fetcher>
  {
    if tracked.Some? then tracked.value.target else None
  }

  /** The push handler, also returned for attach. */
  class TTYPushHandler {
    const tty: Output
    const fetcher: Option<Fetcher>
    var tracked: Option<Tracked>
    var committed: map<string, string>
    ghost var reports: seq<Event>

    /** Every line reported so far is about committed content. */
    ghost predicate Valid()
      reads this
    {
      Hooks.Covered(committed, reports)
    }

    /** NewTTYPushHandler: no tracker yet, an empty registry. */
    constructor (tty: Output, fetcher: Option<Fetcher>)
      ensures Valid()
      ensures this.tty == tty && this.fetcher == fetcher
      ensures tracked == None && committed == map[] && reports == []
    {
      this.tty, this.fetcher := tty, fetcher;
      tracked, committed, reports := None, map[], [];
    }

    /** A struct literal naming the fields it sets; the output is left nil. */
    constructor WithFields(tracked: Option<Tracked>, committed: map<string, string>, fetcher: Option<Fetcher>)
      ensures Valid()
      ensures tty == Plain && this.fetcher == fetcher
      ensures this.tracked == tracked && this.committed == committed && reports == []
    {
      tty, this.fetcher := Plain, fetcher;
      this.tracked, this.committed, reports := tracked, committed, [];
    }

    method OnFileLoading(name: string) returns (err: Option<Error>)
      ensures err == None
    {
      err := None;
    }

    method OnEmptyArtifact() returns (err: Option<Error>)
      ensures err == None
    {
      err := None;
    }

    method PreCopy(d: Descriptor) returns (err: Option<Error>)
      ensures err == None
    {
      err := None;
    }

    /** Wraps `gt` for tracking on a terminal output; fails and keeps the old tracker otherwise. */
    method TrackTarget(gt: Option<Fetcher>) returns (r: Result<Tracked>)
      modifies this`tracked
      ensures r == NewTarget(gt, tty)
      ensures r.Failure? <==> tty.Plain?
      ensures tracked == if r.Success? then Some(r.value) else old(tracked)
    {
      r := NewTarget(gt, tty);
      if r.Success? {
        tracked := Some(r.value);
      }
    }

    method OnCopySkipped(d: Descriptor) returns (err: Option<Error>)
      requires Valid() && tracked.Some?
      modifies this`committed, this`reports
      ensures Valid()
      ensures var e := Hooks.CopySkipped(old(committed), tracked.value.prompt, d);
        committed == e.committed && reports == old(reports) + e.rendered && err == e.err
    {
      var e := Hooks.CopySkipped(committed, tracked.value.prompt, d);
      Hooks.CoveredExtends(committed, e.committed, reports, e.rendered);
      committed, err := e.committed, e.err;
      reports := reports + e.rendered;
    }

    method PostCopy(d: Descriptor) returns (err: Option<Error>)
      requires Valid() && Hooks.CanPostCopy(committed, fetcher, PromptOf(tracked), d)
      modifies this`committed, this`reports
      ensures Valid()
      ensures var e := Hooks.PostCopy(old(committed), fetcher, PromptOf(tracked), d);
        committed == e.committed && reports == old(reports) + e.rendered && err == e.err
    {
      var e := Hooks.RunPostCopy(committed, fetcher, PromptOf(tracked), d);
      Hooks.CoveredExtends(committed, e.committed, reports, e.rendered);
      committed, err := e.committed, e.err;
      reports := reports + e.rendered;
    }
  }

  /** NewTTYAttachHandler: attach shares the push handler. */
  method NewTTYAttachHandler(tty: Output, fetcher: Option<Fetcher>) returns (h: TTYPushHandler)
    ensures fresh(h) && h.Valid()
    ensures h.tty == tty && h.fetcher == fetcher
    ensures h.tracked == None && h.committed == map[] && h.reports == []
  {
    h := new TTYPushHandler(tty, fetcher);
  }

  /** The backup handler: the push handler's copy hooks, with StartTracking/StopTracking. */
  class TTYBackupHandler {
    const tty: Output
    const fetcher: Option<Fetcher>
    var tracked: Option<Tracked>
    var committed: map<string, string>
    ghost var reports: seq<Event>

    /** Every line reported so far is about committed content. */
    ghost predicate Valid()
      reads this
    {
      Hooks.Covered(committed, reports)
    }

    /** NewTTYBackupHandler: no tracker yet, an empty registry. */
    constructor (tty: Output, fetcher: Option<Fetcher>)
      ensures Valid()
      ensures this.tty == tty && this.fetcher == fetcher
      ensures tracked == None && committed == map[] && reports == []
    {
      this.tty, this.fetcher := tty, fetcher;
      tracked, committed, reports := None, map[], [];
    }

    /** A struct literal naming the fields it sets; the output is left nil. */
    constructor WithFields(tracked: Option<Tracked>, committed: map<string, string>, fetcher: Option<Fetcher>)
      ensures Valid()
      ensures tty == Plain && this.fetcher == fetcher
      ensures this.tracked == tracked && this.committed == committed && reports == []
    {
      tty, this.fetcher := Plain, fetcher;
      this.tracked, this.committed, reports := tracked, committed, [];
    }

    /** Wraps `gt` for tracking on a terminal output; fails and keeps the old tracker otherwise. */
    method StartTracking(gt: Option<Fetcher>) returns (r: Result<Tracked>)
      modifies this`tracked
      ensures r == NewTarget(gt, tty)
      ensures r.Failure? <==> tty.Plain?
      ensures tracked == if r.Success? then Some(r.value) else old(tracked)
    {
      r := NewTarget(gt, tty);
      if r.Success? {
        tracked := Some(r.value);
      }
    }

    /** Returns what closing the tracked target returns. */
    method StopTracking() returns (err: Option<Error>)
      requires tracked.Some?
      ensures err == tracked.value.closer
    {
      err := tracked.value.closer;
    }

    method PreCopy(d: Descriptor) returns (err: Option<Error>)
      ensures err == None
    {
      err := None;
    }

    method OnCopySkipped(d: Descriptor) returns (err: Option<Error>)
      requires Valid() && tracked.Some?
      modifies this`committed, this`reports
      ensures Valid()
      ensures var e := Hooks.CopySkipped(old(committed), tracked.value.prompt, d);
        committed == e.committed && reports == old(reports) + e.rendered && err == e.err
    {
      var e := Hooks.CopySkipped(committed, tracked.value.prompt, d);
      Hooks.CoveredExtends(committed, e.committed, reports, e.rendered);
      committed, err := e.committed, e.err;
      reports := reports + e.rendered;
    }

    method PostCopy(d: Descriptor) returns (err: Option<Error>)
      requires Valid() && Hooks.CanPostCopy(committed, fetcher, PromptOf(tracked), d)
      modifies this`committed, this`reports
      ensures Valid()
      ensures var e := Hooks.PostCopy(old(committed), fetcher, PromptOf(tracked), d);
        committed == e.committed && reports == old(reports) + e.rendered && err == e.err
    {
      var e := Hooks.RunPostCopy(committed, fetcher, PromptOf(tracked), d);
      Hooks.CoveredExtends(committed, e.committed, reports, e.rendered);
      committed, err := e.committed, e.err;
      reports := reports + e.rendered;
    }
  }

  /** The restore handler: the push handler's copy hooks, with StartTracking/StopTracking. */
  class TTYRestoreHandler {
    const tty: Output
    const fetcher: Option<Fetcher>
    var tracked: Option<Tracked>
    var committed: map<string, string>
    ghost var reports: seq<Event>

    /** Every line reported so far is about committed content. */
    ghost predicate Valid()
      reads this
    {
      Hooks.Covered(committed, reports)
    }

    /** NewTTYRestoreHandler: no tracker yet, an empty registry. */
    constructor (tty: Output, fetcher: Option<Fetcher>)
      ensures Valid()
      ensures this.tty == tty && this.fetcher == fetcher
      ensures tracked == None && committed == map[] && reports == []
    {
      this.tty, this.fetcher := tty, fetcher;
      tracked, committed, reports := None, map[], [];
    }

    /** A struct literal naming the fields it sets; the output is left nil. */
    constructor WithFields(tracked: Option<Tracked>, committed: map<string, string>, fetcher: Option<Fetcher>)
      ensures Valid()
      ensures tty == Plain && this.fetcher == fetcher
      ensures this.tracked == tracked && this.committed == committed && reports == []
    {
      tty, this.fetcher := Plain, fetcher;
      this.tracked, this.committed, reports := tracked, committed, [];
    }

    /** Wraps `gt` for tracking on a terminal output; fails and keeps the old tracker otherwise. */
    method StartTracking(gt: Option<Fetcher>) returns (r: Result<Tracked>)
      modifies this`tracked
      ensures r == NewTarget(gt, tty)
      ensures r.Failure? <==> tty.Plain?
      ensures tracked == if r.Success? then Some(r.value) else old(tracked)
    {
      r := NewTarget(gt, tty);
      if r.Success? {
        tracked := Some(r.value);
      }
    }

    /** Returns what closing the tracked target returns. */
    method StopTracking() returns (err: Option<Error>)
      requires tracked.Some?
      ensures err == tracked.value.closer
    {
      err := tracked.value.closer;
    }

    method PreCopy(d: Descriptor) returns (err: Option<Error>)
      ensures err == None
    {
      err := None;
    }

    method OnCopySkipped(d: Descriptor) returns (err: Option<Error>)
      requires Valid() && tracked.Some?
      modifies this`committed, this`reports
      ensures Valid()
      ensures var e := Hooks.CopySkipped(old(committed), tracked.value.prompt, d);
        committed == e.committed && reports == old(reports) + e.rendered && err == e.err
    {
      var e := Hooks.CopySkipped(committed, tracked.value.prompt, d);
      Hooks.CoveredExtends(committed, e.committed, reports, e.rendered);
      committed, err := e.committed, e.err;
      reports := reports + e.rendered;
    }

    method PostCopy(d: Descriptor) returns (err: Option<Error>)
      requires Valid() && Hooks.CanPostCopy(committed, fetcher, PromptOf(tracked), d)
      modifies this`committed, this`reports
      ensures Valid()
      ensures var e := Hooks.PostCopy(old(committed), fetcher, PromptOf(tracked), d);
        committed == e.committed && reports == old(reports) + e.rendered && err == e.err
    {
      var e := Hooks.RunPostCopy(committed, fetcher, PromptOf(tracked), d);
      Hooks.CoveredExtends(committed, e.committed, reports, e.rendered);
      committed, err := e.committed, e.err;
      reports := reports + e.rendered;
    }
  }

  /** The copy handler: successors are resolved through the tracked target itself. */
  class TTYCopyHandler {
    const tty: Output
    var tracked: Option<Tracked>
    var committed: map<string, string>
    ghost var reports: seq<Event>

    /** Every line reported so far is about committed content. */
    ghost predicate Valid()
      reads this
    {
      Hooks.Covered(committed, reports)
    }

    /** NewTTYCopyHandler: no tracker yet, an empty registry. */
    constructor (tty: Output)
      ensures Valid()
      ensures this.tty == tty && tracked == None && committed == map[] && reports == []
    {
      this.tty := tty;
      tracked, committed, reports := None, map[], [];
    }

    /** A struct literal naming the fields it sets; the output is left nil. */
    constructor WithFields(tracked: Option<Tracked>, committed: map<string, string>)
      ensures Valid()
      ensures tty == Plain && this.tracked == tracked && this.committed == committed && reports == []
    {
      tty := Plain;
      this.tracked, this.committed, reports := tracked, committed, [];
    }

    /** Wraps `gt` for tracking on a terminal output; fails and keeps the old tracker otherwise. */
    method StartTracking(gt: Option<Fetcher>) returns (r: Result<Tracked>)
      modifies this`tracked
      ensures r == NewTarget(gt, tty)
      ensures r.Failure? <==> tty.Plain?
      ensures tracked == if r.Success? then Some(r.value) else old(tracked)
    {
      r := NewTarget(gt, tty);
      if r.Success? {
        tracked := Some(r.value);
      }
    }

    method OnCopySkipped(d: Descriptor) returns (err: Option<Error>)
      requires Valid() && tracked.Some?
      modifies this`committed, this`reports
      ensures Valid()
      ensures var e := Hooks.CopySkipped(old(committed), tracked.value.prompt, d);
        committed == e.committed && reports == old(reports) + e.rendered && err == e.err
    {
      var e := Hooks.CopySkipped(committed, tracked.value.prompt, d);
      Hooks.CoveredExtends(committed, e.committed, reports, e.rendered);
      committed, err := e.committed, e.err;
      reports := reports + e.rendered;
    }

    method PostCopy(d: Descriptor) returns (err: Option<Error>)
      requires Valid() && Hooks.CanPostCopy(committed, TargetOf(tracked), PromptOf(tracked), d)
      modifies this`committed, this`reports
      ensures Valid()
      ensures var e := Hooks.PostCopy(old(committed), TargetOf(tracked), PromptOf(tracked), d);
        committed == e.committed && reports == old(reports) + e.rendered && err == e.err
    {
      var e := Hooks.RunPostCopy(committed, TargetOf(tracked), PromptOf(tracked), d);
      Hooks.CoveredExtends(committed, e.committed, reports, e.rendered);
      committed, err := e.committed, e.err;
      reports := reports + e.rendered;
    }
  }

  /** The pull handler: per-node hooks, two of which report. */
  class TTYPullHandler {
    const tty: Output
    var tracked: Option<Tracked>
    ghost var reports: seq<Event>

    /** NewTTYPullHandler: no tracker yet. */
    constructor (tty: Output)
      ensures this.tty == tty && tracked == None && reports == []
    {
      this.tty := tty;
      tracked, reports := None, [];
    }

    /** A struct literal naming the tracker; the output is left nil. */
    constructor WithFields(tracked: Option<Tracked>)
      ensures tty == Plain && this.tracked == tracked && reports == []
    {
      tty := Plain;
      this.tracked, reports := tracked, [];
    }

    method OnNodeDownloading(d: Descriptor) returns (err: Option<Error>)
      ensures err == None
    {
      err := None;
    }

    method OnNodeDownloaded(d: Descriptor) returns (err: Option<Error>)
      ensures err == None
    {
      err := None;
    }

    method OnNodeProcessing(d: Descriptor) returns (err: Option<Error>)
      ensures err == None
    {
      err := None;
    }

    method OnNodeRestored(d: Descriptor) returns (err: Option<Error>)
      requires tracked.Some?
      modifies this`reports
      ensures err == Report(tracked.value.prompt)
      ensures reports == old(reports) + if err == None then [Event(Restored, d)] else []
    {
      err := Report(tracked.value.prompt);
      if err == None {
        reports := reports + [Event(Restored, d)];
      }
    }

    method OnNodeSkipped(d: Descriptor) returns (err: Option<Error>)
      requires tracked.Some?
      modifies this`reports
      ensures err == Report(tracked.value.prompt)
      ensures reports == old(reports) + if err == None then [Event(Skipped, d)] else []
    {
      err := Report(tracked.value.prompt);
      if err == None {
        reports := reports + [Event(Skipped, d)];
      }
    }
  }

  /** The single-blob push handler: the blob is fixed at construction. */
  class TTYBlobPushHandler {
    const tty: Output
    const desc: Descriptor
    var tracked: Option<Tracked>
    ghost var reports: seq<Event>

    /** NewTTYBlobPushHandler: no tracker yet. */
    constructor (tty: Output, desc: Descriptor)
      ensures this.tty == tty && this.desc == desc && tracked == None && reports == []
    {
      this.tty, this.desc := tty, desc;
      tracked, reports := None, [];
    }

    /** A struct literal naming the fields it sets; the output is left nil. */
    constructor WithFields(desc: Descriptor, tracked: Option<Tracked>)
      ensures tty == Plain && this.desc == desc && this.tracked == tracked && reports == []
    {
      tty, this.desc := Plain, desc;
      this.tracked, reports := tracked, [];
    }

    /** Wraps `gt` for tracking on a terminal output; fails and keeps the old tracker otherwise. */
    method StartTracking(gt: Option<Fetcher>) returns (r: Result<Tracked>)
      modifies this`tracked
      ensures r == NewTarget(gt, tty)
      ensures r.Failure? <==> tty.Plain?
      ensures tracked == if r.Success? then Some(r.value) else old(tracked)
    {
      r := NewTarget(gt, tty);
      if r.Success? {
        tracked := Some(r.value);
      }
    }

    /** Returns what closing the tracked target returns. */
    method StopTracking() returns (err: Option<Error>)
      requires tracked.Some?
      ensures err == tracked.value.closer
    {
      err := tracked.value.closer;
    }

    /** Reports the handler's own blob as existing. */
    method OnBlobExists() returns (err: Option<Error>)
      requires tracked.Some?
      modifies this`reports
      ensures err == Report(tracked.value.prompt)
      ensures reports == old(reports) + if err == None then [Event(Exists, desc)] else []
    {
      err := Report(tracked.value.prompt);
      if err == None {
        reports := reports + [Event(Exists, desc)];
      }
    }

    method OnBlobUploading() returns (err: Option<Error>)
      ensures err == None
    {
      err := None;
    }

    method OnBlobUploaded() returns (err: Option<Error>)
      ensures err == None
    {
      err := None;
    }
  }
}
