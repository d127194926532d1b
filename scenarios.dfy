/**
 * The handler tests replayed against the model. Each method builds the handler the test
 * builds, calls the hook, and its postcondition is the test's assertion. The mock
 * fetcher's digests and titles are placeholders: only their distinctness matters.
 */
module Scenarios {
  import opened Outcomes
  import opened Oci
  import opened Successors
  import opened Track
  import Hooks
  import opened Status

  const Config: Descriptor := Descriptor(MediaTypeImageConfig, "sha256:c0nfig", 2, map[])
  const ImageLayer: Descriptor := Descriptor(MediaTypeImageLayer, "sha256:1ayer", 5, map[AnnotationTitle := "hello.txt"])
  const OciImage: Descriptor := Descriptor(MediaTypeImageManifest, "sha256:manifest", 300, map[])

  /** The mock fetcher: it holds one image manifest referencing the config and the layer. */
  const MockFetcher: Fetcher := MemoryStore(map[OciImage.digest := Parsed([Config, ImageLayer])])

  /** A descriptor with only the image manifest media type set. */
  const BareManifest: Descriptor := Descriptor(MediaTypeImageManifest, "", 0, map[])

  /** The error every fetch of the error fetcher returns. */
  const FetchError: Error := Message("fetch error")

  /** A PromptDiscarder with no target and a closer that succeeds. */
  const Discarding: Tracked := Tracked(Discarder, None, None)

  /** Whatever fails. */
  const Wanted: Error := Message("wanted error")

  /** The layer committed under its own title: PostCopy of the image reports nothing. */
  method PushPostCopyAlreadyCommitted() returns (err: Option<Error>)
    ensures err == None
  {
    var committed := map[ImageLayer.digest := Title(ImageLayer)];
    Hooks.SameTitleIsQuiet(committed, Some(MockFetcher), Some(Discarder), OciImage);
    var ph := new TTYPushHandler.WithFields(Some(Discarding), committed, Some(MockFetcher));
    err := ph.PostCopy(OciImage);
  }

  /** A push handler with no tracker and a failing fetcher returns the fetch error. */
  method PushPostCopyResolutionError() returns (err: Option<Error>)
    ensures err == Some(FetchError)
  {
    var ph := new TTYPushHandler(Plain, Some(ErrorFetcher(FetchError)));
    Hooks.ResolutionErrorIsReturned(map[], FetchError, None, BareManifest);
    err := ph.PostCopy(BareManifest);
  }

  /** The layer committed under another title is reported; the reporter's error comes back. */
  method PushPostCopyPromptError() returns (err: Option<Error>)
    ensures err == Some(Wanted)
  {
    var committed := map[ImageLayer.digest := Title(ImageLayer) + "1"];
    Hooks.MismatchedTitleIsReported(committed, Some(MockFetcher), OciImage, ImageLayer, Wanted);
    var ph := new TTYPushHandler.WithFields(Some(Tracked(ErrorPrompt(Wanted), None, None)), committed, Some(MockFetcher));
    err := ph.PostCopy(OciImage);
  }

  /** OnCopySkipped on a fresh push handler succeeds and commits the layer. */
  method PushOnCopySkipped() returns (err: Option<Error>, stored: bool)
    ensures err == None && stored
  {
    var ph := new TTYPushHandler.WithFields(Some(Discarding), map[], Some(MockFetcher));
    err := ph.OnCopySkipped(ImageLayer);
    stored := ImageLayer.digest in ph.committed;
  }

  /** OnCopySkipped on a fresh backup handler succeeds and commits the layer. */
  method BackupOnCopySkipped() returns (err: Option<Error>, stored: bool)
    ensures err == None && stored
  {
    var bh := new TTYBackupHandler.WithFields(Some(Discarding), map[], Some(MockFetcher));
    err := bh.OnCopySkipped(ImageLayer);
    stored := ImageLayer.digest in bh.committed;
  }

  /** The same for the restore handler. */
  method RestoreOnCopySkipped() returns (err: Option<Error>, stored: bool)
    ensures err == None && stored
  {
    var rh := new TTYRestoreHandler.WithFields(Some(Discarding), map[], Some(MockFetcher));
    err := rh.OnCopySkipped(ImageLayer);
    stored := ImageLayer.digest in rh.committed;
  }

  /** OnCopySkipped returns the reporter's error itself, not a wrapped one. */
  method PushOnCopySkippedReportError() returns (err: Option<Error>)
    ensures err == Some(Wanted)
  {
    var ph := new TTYPushHandler.WithFields(Some(Tracked(ErrorPrompt(Wanted), None, None)), map[], Some(MockFetcher));
    err := ph.OnCopySkipped(ImageLayer);
  }

  /** The restore handler with a failing fetcher returns the fetch error. */
  method RestorePostCopyResolutionError() returns (err: Option<Error>)
    ensures err == Some(FetchError)
  {
    var rh := new TTYRestoreHandler.WithFields(Some(Discarding), map[], Some(ErrorFetcher(FetchError)));
    Hooks.ResolutionErrorIsReturned(map[], FetchError, Some(Discarder), BareManifest);
    err := rh.PostCopy(BareManifest);
  }

  /** PostCopy of the config needs no fetch, so an empty store is enough. */
  method CopyPostCopyLeaf() returns (err: Option<Error>)
    ensures err == None
  {
    var ch := new TTYCopyHandler.WithFields(Some(Tracked(Discarder, Some(MemoryStore(map[])), None)), map[]);
    Hooks.LeafPostCopySucceeds(map[], Some(MemoryStore(map[])), Some(Discarder), Config);
    err := ch.PostCopy(Config);
  }

  /** PostCopy of a manifest absent from an empty store fails. */
  method CopyPostCopyNotFound() returns (err: Option<Error>)
    ensures err != None
  {
    var ch := new TTYCopyHandler.WithFields(Some(Tracked(Discarder, Some(MemoryStore(map[])), None)), map[]);
    err := ch.PostCopy(BareManifest);
  }

  /** The copy handler resolves through its tracked target and returns the reporter's error. */
  method CopyPostCopyPromptError() returns (err: Option<Error>)
    ensures err == Some(Wanted)
  {
    var committed := map[ImageLayer.digest := Title(ImageLayer) + "1"];
    Hooks.MismatchedTitleIsReported(committed, Some(MockFetcher), OciImage, ImageLayer, Wanted);
    var ch := new TTYCopyHandler.WithFields(Some(Tracked(ErrorPrompt(Wanted), Some(MockFetcher), None)), committed);
    err := ch.PostCopy(OciImage);
  }

  /** Tracking cannot start on an output that is not a terminal. */
  method StartTrackingOnPlainOutput() returns (push: bool, backup: bool, restore: bool, copy: bool, blob: bool)
    ensures push && backup && restore && copy && blob
  {
    var ph := new TTYPushHandler(Plain, Some(MockFetcher));
    var r := ph.TrackTarget(None);
    push := r.Failure?;
    var bh := new TTYBackupHandler(Plain, None);
    r := bh.StartTracking(Some(MemoryStore(map[])));
    backup := r.Failure?;
    var rh := new TTYRestoreHandler(Plain, None);
    r := rh.StartTracking(Some(MemoryStore(map[])));
    restore := r.Failure?;
    var ch := new TTYCopyHandler(Plain);
    r := ch.StartTracking(Some(MemoryStore(map[])));
    copy := r.Failure?;
    var bph := new TTYBlobPushHandler(Plain, Descriptor(MediaTypeImageLayer, "", 100, map[]));
    r := bph.StartTracking(Some(MemoryStore(map[])));
    blob := r.Failure?;
  }

  /** The pull handler's reporting hooks return the reporter's error as it is. */
  method PullReportErrors() returns (restored: Option<Error>, skipped: Option<Error>)
    ensures restored == Some(Wanted) && skipped == Some(Wanted)
  {
    var ph := new TTYPullHandler.WithFields(Some(Tracked(ErrorPrompt(Wanted), None, None)));
    restored := ph.OnNodeRestored(ImageLayer);
    skipped := ph.OnNodeSkipped(ImageLayer);
  }

  /** OnBlobExists reports the handler's own descriptor through the reporter. */
  method BlobExists() returns (ok: Option<Error>, failed: Option<Error>)
    ensures ok == None && failed == Some(Wanted)
  {
    var good := new TTYBlobPushHandler.WithFields(ImageLayer, Some(Discarding));
    ok := good.OnBlobExists();
    assert good.reports == [Event(Exists, ImageLayer)];
    var bad := new TTYBlobPushHandler.WithFields(ImageLayer, Some(Tracked(ErrorPrompt(Wanted), None, None)));
    failed := bad.OnBlobExists();
  }

  /** StopTracking with a closer that succeeds returns nil. */
  method StopTrackingWithNopCloser() returns (backup: Option<Error>, restore: Option<Error>, blob: Option<Error>)
    ensures backup == None && restore == None && blob == None
  {
    var bh := new TTYBackupHandler.WithFields(Some(Discarding), map[], None);
    backup := bh.StopTracking();
    var rh := new TTYRestoreHandler.WithFields(Some(Discarding), map[], None);
    restore := rh.StopTracking();
    var bph := new TTYBlobPushHandler.WithFields(ImageLayer, Some(Discarding));
    blob := bph.StopTracking();
  }

  /** Backup and restore handlers: the layer under its own title is not reported again. */
  method BackupRestorePostCopyAlreadyCommitted() returns (backup: Option<Error>, restore: Option<Error>)
    ensures backup == None && restore == None
  {
    var committed := map[ImageLayer.digest := Title(ImageLayer)];
    Hooks.SameTitleIsQuiet(committed, Some(MockFetcher), Some(Discarder), OciImage);
    var bh := new TTYBackupHandler.WithFields(Some(Discarding), committed, Some(MockFetcher));
    backup := bh.PostCopy(OciImage);
    var rh := new TTYRestoreHandler.WithFields(Some(Discarding), committed, Some(MockFetcher));
    restore := rh.PostCopy(OciImage);
  }

  /** The backup handler with a failing fetcher returns the fetch error. */
  method BackupPostCopyResolutionError() returns (err: Option<Error>)
    ensures err == Some(FetchError)
  {
    var bh := new TTYBackupHandler.WithFields(Some(Discarding), map[], Some(ErrorFetcher(FetchError)));
    Hooks.ResolutionErrorIsReturned(map[], FetchError, Some(Discarder), BareManifest);
    err := bh.PostCopy(BareManifest);
  }

  /** Backup and restore handlers: a title mismatch is reported and the reporter's error returned. */
  method BackupRestorePostCopyPromptError() returns (backup: Option<Error>, restore: Option<Error>)
    ensures backup == Some(Wanted) && restore == Some(Wanted)
  {
    var committed := map[ImageLayer.digest := Title(ImageLayer) + "1"];
    Hooks.MismatchedTitleIsReported(committed, Some(MockFetcher), OciImage, ImageLayer, Wanted);
    var failing := Some(Tracked(ErrorPrompt(Wanted), None, None));
    var bh := new TTYBackupHandler.WithFields(failing, committed, Some(MockFetcher));
    backup := bh.PostCopy(OciImage);
    var rh := new TTYRestoreHandler.WithFields(failing, committed, Some(MockFetcher));
    restore := rh.PostCopy(OciImage);
  }

  /** The hooks that only return nil do so on zero-value handlers and nil trackers too. */
  method NoOpHooks() returns (errs: seq<Option<Error>>)
    ensures |errs| == 10 && forall i | 0 <= i < |errs| :: errs[i] == None
  {
    var ph := new TTYPushHandler(Terminal(Discarder, None), Some(MockFetcher));
    var e0 := ph.OnFileLoading("test");
    var ah := NewTTYAttachHandler(Terminal(Discarder, None), Some(MockFetcher));
    var e1 := ah.OnEmptyArtifact();
    var zero := new TTYPushHandler.WithFields(None, map[], None);
    var e2 := zero.PreCopy(ImageLayer);
    var bh := new TTYBackupHandler.WithFields(None, map[], None);
    var e3 := bh.PreCopy(ImageLayer);
    var rh := new TTYRestoreHandler.WithFields(None, map[], None);
    var e4 := rh.PreCopy(ImageLayer);
    var pull := new TTYPullHandler(Plain);
    var e5 := pull.OnNodeDownloading(Descriptor("", "", 0, map[]));
    var e6 := pull.OnNodeDownloaded(Descriptor("", "", 0, map[]));
    var e7 := pull.OnNodeProcessing(Descriptor("", "", 0, map[]));
    var blob := new TTYBlobPushHandler.WithFields(Descriptor("", "", 0, map[]), None);
    var e8 := blob.OnBlobUploading();
    var e9 := blob.OnBlobUploaded();
    errs := [e0, e1, e2, e3, e4, e5, e6, e7, e8, e9];
  }

  /** The pull handler's reporting hooks succeed with a discarding reporter. */
  method PullReports() returns (restored: Option<Error>, skipped: Option<Error>)
    ensures restored == None && skipped == None
  {
    var ph := new TTYPullHandler.WithFields(Some(Discarding));
    restored := ph.OnNodeRestored(ImageLayer);
    skipped := ph.OnNodeSkipped(ImageLayer);
    assert ph.reports == [Event(Restored, ImageLayer), Event(Skipped, ImageLayer)];
  }
}
