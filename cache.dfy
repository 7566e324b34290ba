/**
  The per-file cache of DirectWrite font collections used to draw folder
  fonts in the preview (`GetOrCreateExternalFontCollection`). The cache maps
  the exact path string to a collection handle; a handle is an opaque number,
  and each DirectWrite call is an outcome supplied by the caller.
*/
module CollectionCache {
  import opened Wrappers

  /** An HRESULT read as a signed 32-bit integer: negative values are failures. */
  type HResult = int

  const E_FAIL: HResult := 0x8000_4005 - 0x1_0000_0000
  const E_INVALIDARG: HResult := 0x8007_0057 - 0x1_0000_0000

  predicate IsFailure(hr: HResult) { hr < 0 }

  /** A DirectWrite call that fills an out-pointer: its HRESULT and whether
      the pointer it wrote is non-null. */
  datatype CallOutcome = CallOutcome(hr: HResult, produced: bool)

  predicate CallOk(c: CallOutcome) { !IsFailure(c.hr) && c.produced }

  /** The code returned after a call that did not succeed: its own HRESULT
      when that is a failure, `E_FAIL` when it "succeeded" with a null object. */
  function CallError(c: CallOutcome): (hr: HResult)
    requires !CallOk(c)
    ensures IsFailure(hr)
    ensures IsFailure(c.hr) ==> hr == c.hr
  {
    if IsFailure(c.hr) then c.hr else E_FAIL
  }

  type CollectionHandle = nat

  /** The five calls that build a collection for one file, in the order they
      are made, and the handle the last one yields. */
  datatype BuildCalls = BuildCalls(
    fileReference: CallOutcome,   // CreateFontFileReference
    setBuilder: CallOutcome,      // CreateFontSetBuilder
    setBuilder1: CallOutcome,     // QueryInterface for IDWriteFontSetBuilder1
    fontSet: CallOutcome,         // CreateFontSet
    collection: CallOutcome,      // CreateFontCollectionFromFontSet
    handle: CollectionHandle)

  function CallSequence(b: BuildCalls): seq<CallOutcome>
  {
    [b.fileReference, b.setBuilder, b.setBuilder1, b.fontSet, b.collection]
  }

  /** Building stops at the first call that does not succeed and reports its code. */
  function Build(b: BuildCalls): (r: Result<CollectionHandle, HResult>)
    ensures r.Success? <==> forall i :: 0 <= i < 5 ==> CallOk(CallSequence(b)[i])
    ensures r.Success? ==> r.value == b.handle
    ensures r.Failure? ==> IsFailure(r.error)
    ensures r.Failure? ==>
              exists i :: 0 <= i < 5 && !CallOk(CallSequence(b)[i]) &&
                          r.error == CallError(CallSequence(b)[i]) &&
                          (forall j :: 0 <= j < i ==> CallOk(CallSequence(b)[j]))
  {
    var s := CallSequence(b);
    if !CallOk(s[0]) then Failure(CallError(s[0]))
    else if !CallOk(s[1]) then Failure(CallError(s[1]))
    else if !CallOk(s[2]) then Failure(CallError(s[2]))
    else if !CallOk(s[3]) then Failure(CallError(s[3]))
    else if !CallOk(s[4]) then Failure(CallError(s[4]))
    else Success(b.handle)
  }

  /** The result of one lookup and the cache afterwards. */
  datatype Lookup = Lookup(result: Result<CollectionHandle, HResult>, cache: map<string, CollectionHandle>)

  /** The reference behaviour of one call: no factory fails with `E_FAIL`, an
      empty path with `E_INVALIDARG`, a cached path returns its handle, and
      otherwise the collection is built and stored only when building succeeds. */
  function GetOrCreate(cache: map<string, CollectionHandle>, factoryPresent: bool, filePath: string,
                       b: BuildCalls): (r: Lookup)
    ensures !factoryPresent ==> r.result == Failure(E_FAIL)
    ensures factoryPresent && filePath == [] ==> r.result == Failure(E_INVALIDARG)
    ensures factoryPresent && filePath != [] && filePath in cache ==> r.result == Success(cache[filePath])
    ensures factoryPresent && filePath != [] && filePath !in cache ==> r.result == Build(b)
    ensures r.result.Failure? ==> IsFailure(r.result.error) && r.cache == cache
    ensures r.result.Success? ==> r.cache == cache[filePath := r.result.value]
  {
    if !factoryPresent then Lookup(Failure(E_FAIL), cache)
    else if filePath == [] then Lookup(Failure(E_INVALIDARG), cache)
    else if filePath in cache then Lookup(Success(cache[filePath]), cache)
    else
      var built := Build(b);
      if built.Success? then Lookup(built, cache[filePath := built.value]) else Lookup(built, cache)
  }

  /** A path that was answered once is answered with the same handle ever
      after, whatever the DirectWrite calls would do, and the cache stays put. */
  lemma {:induction false} SecondCallHits(cache: map<string, CollectionHandle>, filePath: string,
                                          first: BuildCalls, second: BuildCalls)
    requires GetOrCreate(cache, true, filePath, first).result.Success?
    ensures var r1 := GetOrCreate(cache, true, filePath, first);
            var r2 := GetOrCreate(r1.cache, true, filePath, second);
            r2.result == r1.result && r2.cache == r1.cache
  {
    var r1 := GetOrCreate(cache, true, filePath, first);
    assert filePath != [];
    assert filePath in r1.cache && r1.cache[filePath] == r1.result.value;
  }

  /** A failure leaves nothing behind: the next call for the same path builds
      afresh and succeeds exactly when its own calls succeed. */
  lemma {:induction false} FailureIsRetried(cache: map<string, CollectionHandle>, factoryPresent: bool,
                                            filePath: string, first: BuildCalls, second: BuildCalls)
    requires GetOrCreate(cache, factoryPresent, filePath, first).result.Failure?
    ensures var r1 := GetOrCreate(cache, factoryPresent, filePath, first);
            GetOrCreate(r1.cache, factoryPresent, filePath, second) == GetOrCreate(cache, factoryPresent, filePath, second)
  {
    var r1 := GetOrCreate(cache, factoryPresent, filePath, first);
    assert r1.cache == cache;
  }

  /** Other paths are never disturbed: a call changes at most its own entry,
      and never replaces an entry that exists. */
  lemma {:induction false} OtherPathsUntouched(cache: map<string, CollectionHandle>, factoryPresent: bool,
                                               filePath: string, b: BuildCalls, other: string)
    requires other != filePath || other in cache
    ensures var r := GetOrCreate(cache, factoryPresent, filePath, b);
            (other in r.cache <==> other in cache) && (other in cache ==> r.cache[other] == cache[other])
  {
    var r := GetOrCreate(cache, factoryPresent, filePath, b);
    if r.result.Success? && other == filePath {
      assert factoryPresent && filePath != [] && filePath in cache;
      assert r.result == Success(cache[filePath]);
    }
  }

  /** No two paths share a collection handle. */
  predicate DistinctHandles(cache: map<string, CollectionHandle>)
  {
    forall p, q :: p in cache && q in cache && p != q ==> cache[p] != cache[q]
  }

  /** Calls for different paths never alias: when DirectWrite hands out a
      handle not already cached, the cache keeps one distinct handle per path. */
  lemma {:induction false} HandlesStayDistinct(cache: map<string, CollectionHandle>, factoryPresent: bool,
                                               filePath: string, b: BuildCalls)
    requires DistinctHandles(cache)
    requires b.handle !in cache.Values
    ensures DistinctHandles(GetOrCreate(cache, factoryPresent, filePath, b).cache)
  {
    var r := GetOrCreate(cache, factoryPresent, filePath, b);
    if r.cache != cache {
      assert r.cache == cache[filePath := b.handle] && filePath !in cache;
      forall p, q | p in r.cache && q in r.cache && p != q
        ensures r.cache[p] != r.cache[q]
      {
        if p == filePath {
          assert r.cache[q] == cache[q] && cache[q] in cache.Values;
        } else if q == filePath {
          assert r.cache[p] == cache[p] && cache[p] in cache.Values;
        }
      }
    }
  }

  /** The process-wide map of collections, keyed by the exact path string. */
  class FontCollectionCache {
    var collections: map<string, CollectionHandle>

    constructor ()
      ensures collections == map[]
    {
      collections := map[];
    }

    /** `GetOrCreateExternalFontCollection`: answers from the map, or builds the
        collection with the given calls and stores it only when every call succeeds. */
    method GetOrCreateExternalFontCollection(factoryPresent: bool, filePath: string, b: BuildCalls)
      returns (r: Result<CollectionHandle, HResult>)
      modifies this`collections
      ensures Lookup(r, collections) == GetOrCreate(old(collections), factoryPresent, filePath, b)
    {
      if !factoryPresent {
        return Failure(E_FAIL);
      }
      if filePath == [] {
        return Failure(E_INVALIDARG);
      }
      if filePath in collections {
        return Success(collections[filePath]);
      }
      if !CallOk(b.fileReference) {
        return Failure(CallError(b.fileReference));
      }
      if !CallOk(b.setBuilder) {
        return Failure(CallError(b.setBuilder));
      }
      if !CallOk(b.setBuilder1) {
        return Failure(CallError(b.setBuilder1));
      }
      if !CallOk(b.fontSet) {
        return Failure(CallError(b.fontSet));
      }
      if !CallOk(b.collection) {
        return Failure(CallError(b.collection));
      }
      collections := collections[filePath := b.handle];
      r := Success(b.handle);
    }
  }
}
