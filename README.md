# ORAS CLI TTY status handlers: a Dafny model

This project models the deduplicating status layer of the ORAS CLI's TTY handlers, package
`status`. It covers the push handler (also returned for attach) and the backup, restore,
copy, pull and single-blob push handlers. A copy engine drives the handlers' hooks
(`PreCopy`, `PostCopy`, `OnCopySkipped` and the per-node and per-blob hooks). The
handlers keep a *committed* registry from digest to title. They print through a *tracked*
target's reporter, and they resolve a manifest's successors so that content already
committed under another title is reported once more, as "Skipped".

The handlers' implementation file is not part of this model. The model is a sequential
statement of the behaviour that the package's test file,
`cmd/oras/internal/display/status/tty_test.go`, pins down:

- `outcomes.dfy` (Outcomes): `Option`, `Result` and the `Error` values (a message error,
  not found, invalid manifest, not a terminal).
- `oci.dfy` (Oci): descriptors, the image manifest, index, config and layer media types, and
  the `org.opencontainers.image.title` annotation key. These are the pre-defined annotation
  keys of the OCI Image Format Specification (annotations.md).
- `successors.dfy` (Successors): successor resolution over a memory store or an error
  fetcher, the deduplication filter, and the filtered successor list.
- `track.dfy` (Track): the reporter (`Discarder`, or `ErrorPrompt(e)` that fails every call
  with `e`), the report loop, and tracked targets.
- `hooks.dfy` (Hooks): `OnCopySkipped` and `PostCopy` as pure functions from the registry
  to the new registry, the rendered lines and the returned error, plus the lemmas about them.
- `status.dfy` (Status): one class per handler. The fields are those the tests set
  (`tracked`, `committed`, `fetcher`, `desc`) plus a ghost log `reports` of accepted lines.
  The push, backup, restore and copy handlers have a `Valid()` predicate: every reported
  line is about committed content. Every hook of those four classes keeps it. The pull and
  blob-push handlers have no registry and no `Valid()`.
- `scenarios.dfy` (Scenarios): the test file's assertions, replayed against the classes. Each
  postcondition is one test's assertion. The tests of the non-nil constructors
  (`tty_test.go:112-117`, `199-204`, `424-433`) have no scenario; the constructors' own
  postconditions state what they build.

Modelling choices:

- nil fetchers, trackers and outputs are `None` / `Plain`. A hook that would dereference one
  requires it to be present. For example, `PostCopy` needs a fetcher only for a manifest or
  index. It needs a reporter only if something is to be reported. This is why a push handler
  built with no tracker still returns the fetch error.
- Go compares errors by identity. The model compares them by value: "returned verbatim"
  means the same value, never a wrapped one.
- The registry update is `sync.Map.Store`: it replaces an existing entry. The model
  proves that keys are never removed, not that values never change.
- A successor committed under another title is reported again, as `cmd/oras/internal/display/status/tty_test.go:409-410`
  requires. A title mismatch is never treated as a non-event.
- `PostCopy` stores its own descriptor in the registry before resolving successors. The
  test file does not show this step.
- No test calls the copy handler's `OnCopySkipped`. The model assumes it behaves like the
  push, backup and restore skip hooks (`Hooks.CopySkipped`).
- `TrackTarget` and `StartTracking` keep the old tracker when they fail. The tests only
  build fresh handlers, so this is a modelling choice.
- Only image manifests and image indexes have successors. Every other media type resolves to
  `[]` without using the fetcher.

## Model

| member | source | states |
|---|---|---|
| Successors.LeafNeedsNoFetch | cmd/oras/internal/display/status/tty_test.go:374-385 | a non-manifest, non-index descriptor resolves to no successors whatever the fetcher, nil included |
| Successors.FilterDeduplicated | cmd/oras/internal/display/status/tty_test.go:409-410 | the kept descriptors are exactly those of the input committed under a different title, each as often as in the input, in input order |
| Successors.NothingDeduplicatedKeepsNothing | cmd/oras/internal/display/status/tty_test.go:72-84 | if no successor is committed under another title, the filter keeps nothing |
| Successors.FilteredSuccessors | cmd/oras/internal/display/status/tty_test.go:86-95 | fails exactly when resolution fails and with its error; otherwise the kept successors are exactly the deduplicated ones, with their multiplicities, in order; a leaf gives [] |
| Track.ReportEach | cmd/oras/internal/display/status/tty_test.go:406-422 | reports in order and stops at the first failing call; the error is the reporter's own and, as these reporters fail on the first call, nothing is rendered; with no error every line is rendered |
| Track.ReportAll | cmd/oras/internal/display/status/tty_test.go:406-422 | the reporting loop renders and returns exactly what ReportEach specifies |
| Track.NewTarget | cmd/oras/internal/display/status/tty_test.go:44-49 | tracking fails with a not-a-terminal error exactly when the output is not a terminal, otherwise wraps the given target with the terminal's reporter and closer |
| Hooks.Commit | cmd/oras/internal/display/status/tty_test.go:74-75 | the registry gains the descriptor's digest under its title; no other key changes or disappears |
| Hooks.CoveredExtends | cmd/oras/internal/display/status/tty_test.go:138-141 | lines about committed content stay about committed content when the registry grows |
| Hooks.CopySkipped | cmd/oras/internal/display/status/tty_test.go:127-142 | the registry is the old one with the digest stored under its title, every other key unchanged; the result is exactly the reporter's error; an Exists line is rendered only on success; every line is about committed content |
| Hooks.PostCopy | cmd/oras/internal/display/status/tty_test.go:72-110 | the registry is the old one with the descriptor stored under its title, every other key unchanged; a resolution error is returned unchanged with no line; a leaf gives nil and no line; any other error is the reporter's, with no line; when some successor is committed under another title the error is exactly the reporter's; every line is a Skipped line for a successor committed under another title; a discarding reporter renders all of them and returns nil |
| Hooks.RunPostCopy | cmd/oras/internal/display/status/tty_test.go:72-110 | the imperative PostCopy body (resolve, filter, report loop) equals Hooks.PostCopy |
| Hooks.MismatchedTitleIsReported | cmd/oras/internal/display/status/tty_test.go:97-110 | a successor committed under a different title makes a failing reporter's error the result, and a discarding reporter renders a Skipped line for it |
| Hooks.SameTitleIsQuiet | cmd/oras/internal/display/status/tty_test.go:72-84 | when every successor is uncommitted or committed under its own title, PostCopy returns nil and renders nothing, with any reporter or none |
| Hooks.SkippedContentIsNotRepeated | cmd/oras/internal/display/status/tty_test.go:72-75 | content committed by OnCopySkipped is not reported again under the same descriptor by a parent's PostCopy |
| Hooks.LeafPostCopySucceeds | cmd/oras/internal/display/status/tty_test.go:374-385 | PostCopy of a leaf succeeds with no fetcher and any reporter, and only commits the leaf |
| Hooks.ResolutionErrorIsReturned | cmd/oras/internal/display/status/tty_test.go:86-95 | a manifest whose fetch fails makes PostCopy return that error with no line, even with no tracker |
| Status.TTYPushHandler.constructor | cmd/oras/internal/display/status/tty_test.go:30-35 | NewTTYPushHandler: no tracker, empty registry, empty log |
| Status.TTYPushHandler.WithFields | cmd/oras/internal/display/status/tty_test.go:76-80 | a handler built from given tracker, registry and fetcher |
| Status.TTYPushHandler.OnFileLoading | cmd/oras/internal/display/status/tty_test.go:30-35 | returns nil |
| Status.TTYPushHandler.OnEmptyArtifact | cmd/oras/internal/display/status/tty_test.go:37-42 | returns nil |
| Status.TTYPushHandler.PreCopy | cmd/oras/internal/display/status/tty_test.go:316-322 | returns nil, on a zero-value handler too |
| Status.TTYPushHandler.TrackTarget | cmd/oras/internal/display/status/tty_test.go:44-49 | fails on a non-terminal output and keeps the old tracker; on a terminal installs the new tracked target |
| Status.TTYPushHandler.OnCopySkipped | cmd/oras/internal/display/status/tty_test.go:286-314 | new registry, log and error are those of Hooks.CopySkipped; the invariant is kept |
| Status.TTYPushHandler.PostCopy | cmd/oras/internal/display/status/tty_test.go:72-110 | new registry, log and error are those of Hooks.PostCopy with the handler's fetcher; the invariant is kept |
| Status.NewTTYAttachHandler | cmd/oras/internal/display/status/tty_test.go:37-42 | the attach handler is a fresh push handler with no tracker and an empty registry |
| Status.TTYBackupHandler.constructor | cmd/oras/internal/display/status/tty_test.go:112-117 | NewTTYBackupHandler: no tracker, empty registry |
| Status.TTYBackupHandler.WithFields | cmd/oras/internal/display/status/tty_test.go:129-133 | a handler built from given tracker, registry and fetcher |
| Status.TTYBackupHandler.StartTracking | cmd/oras/internal/display/status/tty_test.go:119-125 | fails on a non-terminal output and keeps the old tracker; on a terminal installs the new tracked target |
| Status.TTYBackupHandler.StopTracking | cmd/oras/internal/display/status/tty_test.go:489-496 | returns the closer's result |
| Status.TTYBackupHandler.PreCopy | cmd/oras/internal/display/status/tty_test.go:144-150 | returns nil |
| Status.TTYBackupHandler.OnCopySkipped | cmd/oras/internal/display/status/tty_test.go:127-142 | as Hooks.CopySkipped |
| Status.TTYBackupHandler.PostCopy | cmd/oras/internal/display/status/tty_test.go:152-197 | as Hooks.PostCopy with the handler's fetcher |
| Status.TTYRestoreHandler.constructor | cmd/oras/internal/display/status/tty_test.go:199-204 | NewTTYRestoreHandler: no tracker, empty registry |
| Status.TTYRestoreHandler.WithFields | cmd/oras/internal/display/status/tty_test.go:216-220 | a handler built from given tracker, registry and fetcher |
| Status.TTYRestoreHandler.StartTracking | cmd/oras/internal/display/status/tty_test.go:206-212 | fails on a non-terminal output and keeps the old tracker; on a terminal installs the new tracked target |
| Status.TTYRestoreHandler.StopTracking | cmd/oras/internal/display/status/tty_test.go:498-505 | returns the closer's result |
| Status.TTYRestoreHandler.PreCopy | cmd/oras/internal/display/status/tty_test.go:231-237 | returns nil |
| Status.TTYRestoreHandler.OnCopySkipped | cmd/oras/internal/display/status/tty_test.go:214-229 | as Hooks.CopySkipped |
| Status.TTYRestoreHandler.PostCopy | cmd/oras/internal/display/status/tty_test.go:239-284 | as Hooks.PostCopy with the handler's fetcher |
| Status.TTYCopyHandler.constructor | cmd/oras/internal/display/status/tty_test.go:366-372 | NewTTYCopyHandler: no tracker, empty registry |
| Status.TTYCopyHandler.WithFields | cmd/oras/internal/display/status/tty_test.go:377-380 | a handler built from given tracker and registry |
| Status.TTYCopyHandler.StartTracking | cmd/oras/internal/display/status/tty_test.go:366-372 | fails on a non-terminal output and keeps the old tracker; on a terminal installs the new tracked target |
| Status.TTYCopyHandler.OnCopySkipped | cmd/oras/internal/display/status/tty_test.go:286-314 | as Hooks.CopySkipped, on the pattern of the push skip hook here and the backup and restore ones at lines 127-142 and 214-229 |
| Status.TTYCopyHandler.PostCopy | cmd/oras/internal/display/status/tty_test.go:374-422 | as Hooks.PostCopy, resolving through the tracked target |
| Status.TTYPullHandler.constructor | cmd/oras/internal/display/status/tty_test.go:51-56 | NewTTYPullHandler: no tracker |
| Status.TTYPullHandler.WithFields | cmd/oras/internal/display/status/tty_test.go:326-328 | a handler built from a given tracker |
| Status.TTYPullHandler.OnNodeDownloading | cmd/oras/internal/display/status/tty_test.go:51-56 | returns nil |
| Status.TTYPullHandler.OnNodeDownloaded | cmd/oras/internal/display/status/tty_test.go:58-63 | returns nil |
| Status.TTYPullHandler.OnNodeProcessing | cmd/oras/internal/display/status/tty_test.go:65-70 | returns nil |
| Status.TTYPullHandler.OnNodeRestored | cmd/oras/internal/display/status/tty_test.go:324-343 | returns exactly the reporter's result; a Restored line is logged only on success |
| Status.TTYPullHandler.OnNodeSkipped | cmd/oras/internal/display/status/tty_test.go:345-364 | returns exactly the reporter's result; a Skipped line is logged only on success |
| Status.TTYBlobPushHandler.constructor | cmd/oras/internal/display/status/tty_test.go:424-433 | NewTTYBlobPushHandler: the given blob, no tracker |
| Status.TTYBlobPushHandler.WithFields | cmd/oras/internal/display/status/tty_test.go:449-452 | a handler built from a given blob and tracker |
| Status.TTYBlobPushHandler.StartTracking | cmd/oras/internal/display/status/tty_test.go:435-445 | fails on a non-terminal output and keeps the old tracker; on a terminal installs the new tracked target |
| Status.TTYBlobPushHandler.StopTracking | cmd/oras/internal/display/status/tty_test.go:507-514 | returns the closer's result |
| Status.TTYBlobPushHandler.OnBlobExists | cmd/oras/internal/display/status/tty_test.go:447-468 | returns exactly the reporter's result; logs an Exists line for the handler's own blob only on success |
| Status.TTYBlobPushHandler.OnBlobUploading | cmd/oras/internal/display/status/tty_test.go:470-475 | returns nil |
| Status.TTYBlobPushHandler.OnBlobUploaded | cmd/oras/internal/display/status/tty_test.go:477-482 | returns nil |
| Scenarios.PushPostCopyAlreadyCommitted | cmd/oras/internal/display/status/tty_test.go:72-84 | the layer committed under its own title: PostCopy of the image returns nil |
| Scenarios.PushPostCopyResolutionError | cmd/oras/internal/display/status/tty_test.go:86-95 | a push handler with no tracker and a failing fetcher returns the fetcher's error |
| Scenarios.PushPostCopyPromptError | cmd/oras/internal/display/status/tty_test.go:97-110 | the layer committed under another title: PostCopy returns the reporter's error itself |
| Scenarios.BackupRestorePostCopyAlreadyCommitted | cmd/oras/internal/display/status/tty_test.go:152-164 | backup and restore PostCopy of the image return nil when the layer is committed under its own title |
| Scenarios.BackupPostCopyResolutionError | cmd/oras/internal/display/status/tty_test.go:166-182 | the backup handler returns the fetcher's error |
| Scenarios.BackupRestorePostCopyPromptError | cmd/oras/internal/display/status/tty_test.go:184-197 | backup and restore PostCopy return the reporter's error on a title mismatch |
| Scenarios.PushOnCopySkipped | cmd/oras/internal/display/status/tty_test.go:286-301 | OnCopySkipped on a push handler returns nil and the layer's digest is in the registry |
| Scenarios.BackupOnCopySkipped | cmd/oras/internal/display/status/tty_test.go:127-142 | OnCopySkipped returns nil and the layer's digest is in the registry |
| Scenarios.RestoreOnCopySkipped | cmd/oras/internal/display/status/tty_test.go:214-229 | the same for the restore handler |
| Scenarios.RestorePostCopyResolutionError | cmd/oras/internal/display/status/tty_test.go:253-269 | the restore handler returns the fetcher's error |
| Scenarios.PushOnCopySkippedReportError | cmd/oras/internal/display/status/tty_test.go:303-314 | OnCopySkipped returns the reporter's error itself |
| Scenarios.CopyPostCopyLeaf | cmd/oras/internal/display/status/tty_test.go:374-385 | PostCopy of the config against an empty store returns nil |
| Scenarios.CopyPostCopyNotFound | cmd/oras/internal/display/status/tty_test.go:387-404 | PostCopy of a manifest missing from an empty store returns an error |
| Scenarios.CopyPostCopyPromptError | cmd/oras/internal/display/status/tty_test.go:406-422 | the copy handler resolves through its tracked target and returns the reporter's error |
| Scenarios.StartTrackingOnPlainOutput | cmd/oras/internal/display/status/tty_test.go:44-49 | push, backup, restore, copy and blob-push tracking all fail on a non-terminal output |
| Scenarios.PullReportErrors | cmd/oras/internal/display/status/tty_test.go:334-364 | OnNodeRestored and OnNodeSkipped return the reporter's error itself |
| Scenarios.PullReports | cmd/oras/internal/display/status/tty_test.go:324-353 | OnNodeRestored and OnNodeSkipped return nil with a discarding reporter |
| Scenarios.BlobExists | cmd/oras/internal/display/status/tty_test.go:447-468 | OnBlobExists returns nil with a discarding reporter and the reporter's error with a failing one |
| Scenarios.StopTrackingWithNopCloser | cmd/oras/internal/display/status/tty_test.go:489-514 | StopTracking returns nil for backup, restore and blob push when the closer succeeds |
| Scenarios.NoOpHooks | cmd/oras/internal/display/status/tty_test.go:30-70 | OnFileLoading, OnEmptyArtifact (on an attach handler), PreCopy, OnNodeDownloading/Downloaded/Processing, OnBlobUploading/Uploaded return nil, on zero-value handlers too |

## Left out

- Concurrency: the registry is a `sync.Map` shared by the copy engine's workers. The model
  is sequential, so the atomicity of a store racing a load is not expressed.
- Manifest fetching and parsing: `graph.FilteredSuccessors`, content successor decoding,
  the memory store and the test fetchers are foreign code. A store maps a digest to the
  decoded successor list, or to `Malformed`; the mock fetcher's digests and titles are
  placeholders.
- Docker manifest media types and the subject field of a manifest are not modelled as
  having successors: only the OCI image manifest and image index are.
- TTY detection, terminal rendering, progress byte counters and cursor control are not
  modelled. They reduce to the `Terminal`/`Plain` output and a reporter that renders the
  line or fails.
- The exact output line format (verb strings, short digests) is not visible. Lines are
  logged as a verb and a descriptor.
- The reporter is either `PromptDiscarder` (always succeeds) or `ErrorPrompt` (always fails).
  Every call gives the same outcome, so a failing reporter fails on the first call and
  renders nothing. A live reporter that fails part-way through a list is not modelled.
- PostCopy renders no line for the copied descriptor itself. That line comes from the
  tracked target's transfer progress, which is not modelled. So `reports` holds only
  lines about committed content; a committed descriptor need not have a line.
- The tracked `GraphTarget` wrapper and its `Closer`: closing releases nothing in the model.
  StopTracking returns the recorded result of closing.
- These hooks are not modelled, because no test calls them: the copy handler's
  `PreCopy`, its mount hook and its `StopTracking`, and the pull handler's tracking calls.
- The stop function returned by `TrackTarget` is not returned separately. It is the
  tracked target's closer.
