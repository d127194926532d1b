/**
 * What the copy hooks shared by the push, attach, backup, restore and copy handlers do
 * to the committed-content registry, which status lines they render and which error
 * they return. The handler classes in module Status delegate here.
 */
module Hooks {
  import opened Outcomes
  import opened Oci
  import opened Successors
  import opened Track

  /** The registry after a hook, the lines it rendered and the error it returned. */
  datatype Effect = Effect(committed: map<string, string>, rendered: seq<Event>, err: Option<Error>)

  /** Records `d` in the registry under its title (a sync.Map Store: an existing entry is replaced). */
  function Commit(committed: map<string, string>, d: Descriptor): (c: map<string, string>)
    ensures c.Keys == committed.Keys + {d.digest}
    ensures c[d.digest] == Title(d)
    ensures forall k | k in committed && k != d.digest :: c[k] == committed[k]
  {
    committed[d.digest := Title(d)]
  }

  /** Every rendered line is about content the registry holds. */
  ghost predicate Covered(committed: map<string, string>, lines: seq<Event>)
  {
    forall i | 0 <= i < |lines| :: lines[i].desc.digest in committed
  }

  /** The registry only grows, so lines covered before stay covered. */
  lemma {:induction false} CoveredExtends(c: map<string, string>, c': map<string, string>, old_lines: seq<Event>, new_lines: seq<Event>)
    requires Covered(c, old_lines) && c.Keys <= c'.Keys && Covered(c', new_lines)
    ensures Covered(c', old_lines + new_lines)
  {
    forall i | 0 <= i < |old_lines + new_lines|
      ensures (old_lines + new_lines)[i].desc.digest in c'
    {
      if i < |old_lines| {
        assert (old_lines + new_lines)[i] == old_lines[i];
        assert old_lines[i].desc.digest in c;
      } else {
        assert (old_lines + new_lines)[i] == new_lines[i - |old_lines|];
      }
    }
  }

  /** OnCopySkipped: commit `d`, then report it as existing. */
  function CopySkipped(committed: map<string, string>, p: Prompt, d: Descriptor): (e: Effect)
    ensures e.committed == Commit(committed, d)
    ensures e.committed.Keys == committed.Keys + {d.digest}
    ensures e.committed[d.digest] == Title(d)
    ensures forall k | k in committed && k != d.digest :: e.committed[k] == committed[k]
    ensures e.err == Report(p)
    ensures e.rendered == if e.err == None then [Event(Exists, d)] else []
    ensures Covered(e.committed, e.rendered)
  {
    var c := Commit(committed, d);
    match Report(p)
    case None => Effect(c, [Event(Exists, d)], None)
    case Some(err) => Effect(c, [], Some(err))
  }

  /** PostCopy needs a fetcher unless `d` is a leaf, and a reporter unless nothing is to be reported. */
  predicate CanPostCopy(committed: map<string, string>, f: Option<Fetcher>, t: Option<Prompt>, d: Descriptor)
  {
    CanResolve(f, d) &&
    (t.Some? ||
     match FilteredSuccessors(f, Commit(committed, d), d)
     case Failure(_) => true
     case Success(ds) => ds == [])
  }

  /**
   * PostCopy: commit `d`, resolve its successors, and report as skipped each successor
   * already committed under a different title, stopping at the first report error.
   */
  function PostCopy(committed: map<string, string>, f: Option<Fetcher>, t: Option<Prompt>, d: Descriptor): (e: Effect)
    requires CanPostCopy(committed, f, t, d)
    ensures e.committed == Commit(committed, d)
    ensures e.committed.Keys == committed.Keys + {d.digest}
    ensures e.committed[d.digest] == Title(d)
    ensures forall k | k in committed && k != d.digest :: e.committed[k] == committed[k]
    ensures e.err.Some? ==> e.rendered == []
    ensures Resolve(f, d).Failure? ==> e.err == Some(Resolve(f, d).error) && e.rendered == []
    ensures !MayHaveSuccessors(d.mediaType) ==> e.err == None && e.rendered == []
    ensures Resolve(f, d).Success? && e.err.Some? ==> t.Some? && e.err == Report(t.value)
    ensures Resolve(f, d).Success? && t.Some? && FilterDeduplicated(e.committed, Resolve(f, d).value) != [] ==>
      e.err == Report(t.value)
    ensures Resolve(f, d).Success? ==> forall i | 0 <= i < |e.rendered| ::
      e.rendered[i].verb == Skipped && e.rendered[i].desc in Resolve(f, d).value &&
      Deduplicated(e.committed, e.rendered[i].desc)
    ensures t == Some(Discarder) && Resolve(f, d).Success? ==>
      e.err == None && e.rendered == Lines(Skipped, FilterDeduplicated(e.committed, Resolve(f, d).value))
    ensures Covered(e.committed, e.rendered)
  {
    var c := Commit(committed, d);
    match FilteredSuccessors(f, c, d)
    case Failure(err) => Effect(c, [], Some(err))
    case Success(ds) =>
      if ds == [] then Effect(c, [], None)
      else
        var r := ReportEach(t.value, Skipped, ds);
        Effect(c, r.rendered, r.err)
  }

  /** The PostCopy body: resolve, filter, then the reporting loop. */
  method RunPostCopy(committed: map<string, string>, f: Option<Fetcher>, t: Option<Prompt>, d: Descriptor) returns (e: Effect)
    requires CanPostCopy(committed, f, t, d)
    ensures e == PostCopy(committed, f, t, d)
  {
    var c := Commit(committed, d);
    var successors := FilteredSuccessors(f, c, d);
    if successors.Failure? {
      return Effect(c, [], Some(successors.error));
    }
    var ds := successors.value;
    if ds == [] {
      return Effect(c, [], None);
    }
    var rendered, err := ReportAll(t.value, Skipped, ds);
    e := Effect(c, rendered, err);
  }

  /**
   * A successor committed under a different title is reported again: a failing reporter
   * makes PostCopy return its error, a working one renders a Skipped line for it.
   */
  lemma MismatchedTitleIsReported(committed: map<string, string>, f: Option<Fetcher>, d: Descriptor, x: Descriptor, err: Error)
    requires CanResolve(f, d) && Resolve(f, d).Success? && x in Resolve(f, d).value
    requires x.digest != d.digest && x.digest in committed && committed[x.digest] != Title(x)
    ensures CanPostCopy(committed, f, Some(ErrorPrompt(err)), d)
    ensures PostCopy(committed, f, Some(ErrorPrompt(err)), d).err == Some(err)
    ensures Event(Skipped, x) in PostCopy(committed, f, Some(Discarder), d).rendered
  {
    var c := Commit(committed, d);
    assert Deduplicated(c, x);
    var ds := FilteredSuccessors(f, c, d).value;
    assert x in ds;
    var k :| 0 <= k < |ds| && ds[k] == x;
    assert Lines(Skipped, ds)[k] == Event(Skipped, x);
  }

  /**
   * When every successor is either uncommitted or committed under its own title, PostCopy
   * renders nothing and returns nil, with any reporter or none at all.
   */
  lemma SameTitleIsQuiet(committed: map<string, string>, f: Option<Fetcher>, t: Option<Prompt>, d: Descriptor)
    requires CanResolve(f, d) && Resolve(f, d).Success?
    requires forall x | x in Resolve(f, d).value ::
      x.digest != d.digest && (x.digest in committed ==> committed[x.digest] == Title(x))
    ensures CanPostCopy(committed, f, t, d)
    ensures PostCopy(committed, f, t, d) == Effect(Commit(committed, d), [], None)
  {
    NothingDeduplicatedKeepsNothing(Commit(committed, d), Resolve(f, d).value);
  }

  /**
   * Content that OnCopySkipped reported is not reported again, under the same
   * descriptor, by the PostCopy of a parent that references it.
   */
  lemma SkippedContentIsNotRepeated(committed: map<string, string>, p: Prompt, x: Descriptor, f: Option<Fetcher>, d: Descriptor)
    requires x.digest != d.digest
    requires CanPostCopy(CopySkipped(committed, p, x).committed, f, Some(p), d)
    ensures Event(Skipped, x) !in PostCopy(CopySkipped(committed, p, x).committed, f, Some(p), d).rendered
  {
  }

  /** A leaf descriptor needs neither a fetcher nor a working reporter. */
  lemma LeafPostCopySucceeds(committed: map<string, string>, f: Option<Fetcher>, t: Option<Prompt>, d: Descriptor)
    requires !MayHaveSuccessors(d.mediaType)
    ensures CanPostCopy(committed, f, t, d)
    ensures PostCopy(committed, f, t, d) == Effect(Commit(committed, d), [], None)
  {
  }

  /** A fetch error on a manifest or index is returned as it is, before any report. */
  lemma ResolutionErrorIsReturned(committed: map<string, string>, err: Error, t: Option<Prompt>, d: Descriptor)
    requires MayHaveSuccessors(d.mediaType)
    ensures CanPostCopy(committed, Some(ErrorFetcher(err)), t, d)
    ensures PostCopy(committed, Some(ErrorFetcher(err)), t, d) == Effect(Commit(committed, d), [], Some(err))
  {
  }
}
