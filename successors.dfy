/**
 * Successor resolution and the deduplication filter applied to it. Fetching and parsing
 * a manifest are abstracted: a store maps a digest to the already-decoded successor list
 * of the manifest or index it holds, or marks that content as unparsable.
 */
module Successors {
  import opened Outcomes
  import opened Oci

  /** What a store holds for a manifest or index digest. */
  datatype Manifest = Parsed(successors: seq<Descriptor>) | Malformed

  /** A content source: a memory store, or a fetcher whose every fetch fails. */
  datatype Fetcher =
    | MemoryStore(contents: map<string, Manifest>)
    | ErrorFetcher(expected: Error)

  /** A nil fetcher is harmless as long as nothing has to be fetched. */
  predicate CanResolve(f: Option<Fetcher>, d: Descriptor)
  {
    f.Some? || !MayHaveSuccessors(d.mediaType)
  }

  /** The immediate successors of `d`; leaves short-circuit to [] without touching `f`. */
  function Resolve(f: Option<Fetcher>, d: Descriptor): (r: Result<seq<Descriptor>>)
    requires CanResolve(f, d)
  {
    if !MayHaveSuccessors(d.mediaType) then Success([])
    else match f.value
      case ErrorFetcher(e) => Failure(e)
      case MemoryStore(contents) =>
        if d.digest !in contents then Failure(NotFound(d.digest))
        else match contents[d.digest]
          case Parsed(successors) => Success(successors)
          case Malformed => Failure(InvalidManifest(d.digest))
  }

  /** A leaf resolves to no successors, whatever the fetcher is, nil included. */
  lemma LeafNeedsNoFetch(f: Option<Fetcher>, d: Descriptor)
    requires !MayHaveSuccessors(d.mediaType)
    ensures CanResolve(None, d) && CanResolve(f, d)
    ensures Resolve(f, d) == Resolve(None, d) == Success([])
  {
  }

  /**
   * The deduplication filter: `s` was committed earlier under another title, i.e. the
   * same content was already reported under a different name and must be shown again.
   */
  predicate Deduplicated(committed: map<string, string>, s: Descriptor)
  {
    s.digest in committed && committed[s.digest] != Title(s)
  }

  /** `a` is `b` with some elements left out, the rest kept in order. */
  ghost predicate IsSubsequence<T>(a: seq<T>, b: seq<T>)
    decreases |b|
  {
    a == [] || (b != [] && ((a[0] == b[0] && IsSubsequence(a[1..], b[1..])) || IsSubsequence(a, b[1..])))
  }

  /** Keeps the deduplicated descriptors of `ds`, in their order. */
  function FilterDeduplicated(committed: map<string, string>, ds: seq<Descriptor>): (r: seq<Descriptor>)
    ensures forall x :: x in r <==> x in ds && Deduplicated(committed, x)
    ensures forall x :: multiset(r)[x] == if Deduplicated(committed, x) then multiset(ds)[x] else 0
    ensures IsSubsequence(r, ds)
    decreases |ds|
  {
    if ds == [] then []
    else
      var rest := FilterDeduplicated(committed, ds[1..]);
      assert ds == [ds[0]] + ds[1..];
      if Deduplicated(committed, ds[0]) then
        assert ([ds[0]] + rest)[1..] == rest;
        [ds[0]] + rest
      else rest
  }

  /** A list none of whose descriptors is deduplicated filters down to nothing. */
  lemma {:induction false} NothingDeduplicatedKeepsNothing(committed: map<string, string>, ds: seq<Descriptor>)
    requires forall x | x in ds :: !Deduplicated(committed, x)
    ensures FilterDeduplicated(committed, ds) == []
    decreases |ds|
  {
    if ds != [] {
      assert ds[0] in ds;
      NothingDeduplicatedKeepsNothing(committed, ds[1..]);
    }
  }

  /** The successors of `d` that pass the deduplication filter over `committed`. */
  function FilteredSuccessors(f: Option<Fetcher>, committed: map<string, string>, d: Descriptor): (r: Result<seq<Descriptor>>)
    requires CanResolve(f, d)
    ensures r.Failure? <==> Resolve(f, d).Failure?
    ensures r.Failure? ==> r.error == Resolve(f, d).error
    ensures r.Success? ==> forall x :: x in r.value <==> x in Resolve(f, d).value && Deduplicated(committed, x)
    ensures r.Success? ==> forall x ::
      multiset(r.value)[x] == if Deduplicated(committed, x) then multiset(Resolve(f, d).value)[x] else 0
    ensures r.Success? ==> IsSubsequence(r.value, Resolve(f, d).value)
    ensures !MayHaveSuccessors(d.mediaType) ==> r == Success([])
  {
    match Resolve(f, d)
    case Failure(e) => Failure(e)
    case Success(all) => Success(FilterDeduplicated(committed, all))
  }
}
