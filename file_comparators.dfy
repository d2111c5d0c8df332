/** The file comparators of test.c: `fantestic_assert_equals_file` and
    `fantestic_assert_equals_file_mem`. Each acquires two buffers and one or two
    streams step by step and releases them on every return path. Each method
    is proved against a specification function of the runtime's state before
    the call; the properties the framework promises are proved about those
    functions. */
module FileComparators {
  import opened Diagnostics
  import opened CMemory
  import opened Libc

  /** What one `fread(buf, 1, n, f)` on a freshly opened file yields: the
      first `n` bytes, or the whole file when it is shorter. */
  function ReadPrefix(contents: seq<bv8>, n: nat): (r: seq<bv8>)
    ensures |r| <= n && |r| <= |contents| && r == contents[..|r|]
    ensures |r| == n || r == contents
  {
    if n <= |contents| then contents[..n] else contents
  }

  /** The last two decisions of `fantestic_assert_equals_file`, on the bytes the
      two `fread` calls yielded: the counts, then `memcmp` over them. */
  function CompareReads(e: seq<bv8>, a: seq<bv8>): (s: Status)
    ensures s == Ok <==> e == a
    ensures s == SizeMismatch <==> |e| != |a|
    ensures s in {Ok, SizeMismatch, Mismatch}
  {
    if |e| != |a| then SizeMismatch
    else
      MemCmpZeroIff(e, a, |e|);
      if MemCmp(e, a, |e|) == 0 then Ok else Mismatch
  }

  /** What `fopen` may read: both paths are terminated, unless the identity or
      NULL check returns first. */
  predicate FilePathsReadable(expectedPath: array?<bv8>, actualPath: array?<bv8>)
    reads expectedPath, actualPath
  {
    expectedPath != actualPath && expectedPath != null && actualPath != null ==>
      IsCString(expectedPath[..]) && IsCString(actualPath[..])
  }

  /** `malloc`, `malloc` and `fopen`, `fopen` all succeed. */
  predicate FileResourcesAvailable(expectedPath: array<bv8>, actualPath: array<bv8>, maxSize: nat,
                                   files: map<seq<bv8>, seq<bv8>>, available: nat)
    reads expectedPath, actualPath
    requires IsCString(expectedPath[..]) && IsCString(actualPath[..])
  {
    2 * maxSize <= available && CStr(expectedPath[..]) in files && CStr(actualPath[..]) in files
  }

  /** The status `fantestic_assert_equals_file` returns in a runtime whose
      readable files are `files` and with `available` bytes left for `malloc`. */
  function FileVerdict(expectedPath: array?<bv8>, actualPath: array?<bv8>, maxSize: nat,
                       files: map<seq<bv8>, seq<bv8>>, available: nat): (s: Status)
    reads expectedPath, actualPath
    requires FilePathsReadable(expectedPath, actualPath)
    ensures expectedPath == actualPath ==> s == Ok
    ensures expectedPath != actualPath && (expectedPath == null || actualPath == null) ==> s == NullInput
    ensures expectedPath != actualPath && expectedPath != null && actualPath != null ==>
      (s == Fatal <==> !FileResourcesAvailable(expectedPath, actualPath, maxSize, files, available))
    ensures expectedPath != actualPath && expectedPath != null && actualPath != null &&
            FileResourcesAvailable(expectedPath, actualPath, maxSize, files, available) ==>
      var e := ReadPrefix(files[CStr(expectedPath[..])], maxSize);
      var a := ReadPrefix(files[CStr(actualPath[..])], maxSize);
      (s == Ok <==> e == a) && (s == SizeMismatch <==> |e| != |a|) && s in {Ok, SizeMismatch, Mismatch}
  {
    if expectedPath == actualPath then Ok
    else if expectedPath == null || actualPath == null then NullInput
    else if maxSize > available || maxSize > available - maxSize then Fatal
    else if CStr(expectedPath[..]) !in files || CStr(actualPath[..]) !in files then Fatal
    else CompareReads(ReadPrefix(files[CStr(expectedPath[..])], maxSize),
                      ReadPrefix(files[CStr(actualPath[..])], maxSize))
  }

  /** `fantestic_assert_equals_file`. */
  method EqualsFile(rt: Runtime, expectedPath: array?<bv8>, actualPath: array?<bv8>, maxSize: nat)
    returns (s: Status)
    requires FilePathsReadable(expectedPath, actualPath)
    modifies rt`available, rt`buffers, rt`streams
    ensures s == FileVerdict(expectedPath, actualPath, maxSize, old(rt.files), old(rt.available))
    ensures rt.available == old(rt.available)
    ensures rt.buffers == old(rt.buffers) && rt.streams == old(rt.streams)
  {
    if expectedPath == actualPath {
      return Ok;
    }
    if expectedPath == null || actualPath == null {
      return NullInput;
    }

    var bufferExpected := rt.Malloc(maxSize);
    if bufferExpected == null {
      return Fatal;
    }
    var bufferActual := rt.Malloc(maxSize);
    if bufferActual == null {
      rt.Free(bufferExpected);
      return Fatal;
    }

    s := OpenCompareRelease(rt, expectedPath, actualPath, bufferExpected, bufferActual, maxSize);
  }

  /** The part of `fantestic_assert_equals_file` once both buffers are held:
      open both files, then read and compare them; whichever `fopen` fails,
      everything acquired so far is released and the result is FATAL. */
  method OpenCompareRelease(rt: Runtime, expectedPath: array<bv8>, actualPath: array<bv8>,
                            bufferExpected: array<bv8>, bufferActual: array<bv8>, maxSize: nat)
    returns (s: Status)
    requires IsCString(expectedPath[..]) && IsCString(actualPath[..])
    requires {expectedPath, actualPath} !! {bufferExpected, bufferActual}
    requires bufferExpected in rt.buffers && bufferActual in rt.buffers && bufferExpected != bufferActual
    requires bufferExpected.Length == maxSize && bufferActual.Length == maxSize
    modifies rt`available, rt`buffers, rt`streams, bufferExpected, bufferActual
    ensures var e, a := CStr(expectedPath[..]), CStr(actualPath[..]);
      s == if e in rt.files && a in rt.files
           then CompareReads(ReadPrefix(rt.files[e], maxSize), ReadPrefix(rt.files[a], maxSize))
           else Fatal
    ensures rt.available == old(rt.available) + 2 * maxSize
    ensures rt.buffers == old(rt.buffers) - {bufferExpected, bufferActual}
    ensures rt.streams == old(rt.streams)
  {
    var fExpected := rt.Fopen(expectedPath);
    if fExpected == null {
      rt.Free(bufferExpected);
      rt.Free(bufferActual);
      return Fatal;
    }
    var fActual := rt.Fopen(actualPath);
    if fActual == null {
      rt.Free(bufferExpected);
      rt.Free(bufferActual);
      rt.Fclose(fExpected);
      return Fatal;
    }

    s := ReadCompareRelease(rt, bufferExpected, bufferActual, fExpected, fActual, maxSize);
  }

  /** The tail of `fantestic_assert_equals_file` once both buffers and both
      streams are held: read, compare, then free both buffers and close both
      streams whatever the outcome. */
  method ReadCompareRelease(rt: Runtime, bufferExpected: array<bv8>, bufferActual: array<bv8>,
                            fExpected: Stream, fActual: Stream, maxSize: nat)
    returns (s: Status)
    requires bufferExpected in rt.buffers && bufferActual in rt.buffers && bufferExpected != bufferActual
    requires bufferExpected.Length == maxSize && bufferActual.Length == maxSize
    requires fExpected in rt.streams && fActual in rt.streams && fExpected != fActual
    requires fExpected.pos == 0 && fActual.pos == 0
    modifies rt`available, rt`buffers, rt`streams, bufferExpected, bufferActual, fExpected, fActual
    ensures s == CompareReads(ReadPrefix(fExpected.contents, maxSize), ReadPrefix(fActual.contents, maxSize))
    ensures rt.available == old(rt.available) + 2 * maxSize
    ensures rt.buffers == old(rt.buffers) - {bufferExpected, bufferActual}
    ensures rt.streams == old(rt.streams) - {fExpected, fActual}
  {
    var sizeExpected := rt.Fread(bufferExpected, maxSize, fExpected);
    var sizeActual := rt.Fread(bufferActual, maxSize, fActual);
    assert bufferExpected[..sizeExpected] == ReadPrefix(fExpected.contents, maxSize);
    assert bufferActual[..sizeActual] == ReadPrefix(fActual.contents, maxSize);

    if sizeExpected != sizeActual {
      s := SizeMismatch;
    } else {
      MemCmpZeroIff(bufferExpected[..], bufferActual[..], sizeExpected);
      assert bufferExpected[..][..sizeExpected] == bufferExpected[..sizeExpected];
      assert bufferActual[..][..sizeActual] == bufferActual[..sizeActual];
      if MemCmp(bufferExpected[..], bufferActual[..], sizeExpected) == 0 {
        s := Ok;
      } else {
        s := Mismatch;
      }
    }
    rt.Free(bufferExpected);
    rt.Free(bufferActual);
    rt.Fclose(fExpected);
    rt.Fclose(fActual);
  }

  /** What `fopen` and `memcmp` may read: a terminated path and `len` bytes of
      the region, unless the NULL check returns first. */
  predicate FileMemArgsReadable(expectedPath: array?<bv8>, actual: array?<bv8>, len: nat)
    reads expectedPath
  {
    expectedPath != null && actual != null ==> IsCString(expectedPath[..]) && len <= actual.Length
  }

  /** `malloc`, `malloc` and `fopen` all succeed. */
  predicate FileMemResourcesAvailable(expectedPath: array<bv8>, len: nat,
                                      files: map<seq<bv8>, seq<bv8>>, available: nat)
    reads expectedPath
    requires IsCString(expectedPath[..])
  {
    2 * len <= available && CStr(expectedPath[..]) in files
  }

  /** The status `fantestic_assert_equals_file_mem` returns. */
  function FileMemVerdict(expectedPath: array?<bv8>, actual: array?<bv8>, len: nat,
                          files: map<seq<bv8>, seq<bv8>>, available: nat): (s: Status)
    reads expectedPath, actual
    requires FileMemArgsReadable(expectedPath, actual, len)
    ensures expectedPath == null || actual == null ==> s == NullInput
    ensures expectedPath != null && actual != null ==>
      (s == Fatal <==> !FileMemResourcesAvailable(expectedPath, len, files, available))
    ensures expectedPath != null && actual != null &&
            FileMemResourcesAvailable(expectedPath, len, files, available) ==>
      var file := files[CStr(expectedPath[..])];
      (s == SizeMismatch <==> |file| < len) &&
      (s == Ok <==> |file| >= len && file[..len] == actual[..len]) &&
      s in {Ok, SizeMismatch, Mismatch}
  {
    if expectedPath == null || actual == null then NullInput
    else if len > available || len > available - len then Fatal
    else if CStr(expectedPath[..]) !in files then Fatal
    else
      var e := ReadPrefix(files[CStr(expectedPath[..])], len);
      if |e| != len then SizeMismatch
      else if e == actual[..len] then Ok
      else Mismatch
  }

  /** `fantestic_assert_equals_file_mem`. The second buffer is allocated and
      freed but never used, as in the source. */
  method EqualsFileMem(rt: Runtime, expectedPath: array?<bv8>, actual: array?<bv8>, len: nat)
    returns (s: Status)
    requires FileMemArgsReadable(expectedPath, actual, len)
    modifies rt`available, rt`buffers, rt`streams
    ensures s == FileMemVerdict(expectedPath, actual, len, old(rt.files), old(rt.available))
    ensures rt.available == old(rt.available)
    ensures rt.buffers == old(rt.buffers) && rt.streams == old(rt.streams)
  {
    if expectedPath == null || actual == null {
      return NullInput;
    }

    var bufferExpected := rt.Malloc(len);
    if bufferExpected == null {
      return Fatal;
    }
    var bufferActual := rt.Malloc(len);
    if bufferActual == null {
      rt.Free(bufferExpected);
      return Fatal;
    }

    var fExpected := rt.Fopen(expectedPath);
    if fExpected == null {
      rt.Free(bufferExpected);
      rt.Free(bufferActual);
      return Fatal;
    }

    var sizeExpected := rt.Fread(bufferExpected, len, fExpected);
    ghost var e := ReadPrefix(fExpected.contents, len);
    assert bufferExpected[..sizeExpected] == e;

    if sizeExpected != len {
      s := SizeMismatch;
    } else {
      MemCmpZeroIff(bufferExpected[..], actual[..], sizeExpected);
      if MemCmp(bufferExpected[..], actual[..], sizeExpected) == 0 {
        s := Ok;
      } else {
        s := Mismatch;
      }
    }
    rt.Free(bufferExpected);
    rt.Free(bufferActual);
    rt.Fclose(fExpected);
  }

  /** Two files that agree on their first `maxSize` bytes compare equal, however
      they differ after that: the bytes past the bound are never read. */
  lemma FileComparisonTruncatesAtMaxSize(expectedPath: array<bv8>, actualPath: array<bv8>, maxSize: nat,
                                         files: map<seq<bv8>, seq<bv8>>, available: nat)
    requires IsCString(expectedPath[..]) && IsCString(actualPath[..])
    requires FileResourcesAvailable(expectedPath, actualPath, maxSize, files, available)
    requires maxSize <= |files[CStr(expectedPath[..])]| && maxSize <= |files[CStr(actualPath[..])]|
    requires files[CStr(expectedPath[..])][..maxSize] == files[CStr(actualPath[..])][..maxSize]
    ensures FileVerdict(expectedPath, actualPath, maxSize, files, available) == Ok
  {
  }

  /** Replacing the files by any whose first `maxSize` bytes are the same does
      not change the verdict. */
  lemma FileVerdictReadsOnlyPrefixes(expectedPath: array<bv8>, actualPath: array<bv8>, maxSize: nat,
                                     files: map<seq<bv8>, seq<bv8>>, files': map<seq<bv8>, seq<bv8>>,
                                     available: nat)
    requires IsCString(expectedPath[..]) && IsCString(actualPath[..])
    requires files.Keys == files'.Keys
    requires forall name :: name in files ==> ReadPrefix(files[name], maxSize) == ReadPrefix(files'[name], maxSize)
    ensures FileVerdict(expectedPath, actualPath, maxSize, files, available) ==
            FileVerdict(expectedPath, actualPath, maxSize, files', available)
  {
  }

  /** Unlike the file comparator, the file-vs-memory comparator has no identity
      check: one reference passed as both arguments still fails whenever the
      file cannot be opened, whatever `len` and the free memory are. */
  lemma FileMemHasNoIdentityCheck(p: array<bv8>, len: nat, files: map<seq<bv8>, seq<bv8>>, available: nat)
    requires IsCString(p[..]) && len <= p.Length && CStr(p[..]) !in files
    ensures FileMemVerdict(p, p, len, files, available) == Fatal
  {
  }

  /** Only the bytes of the region matter, never which array holds them: the
      path array passed again as the region gives the same verdict as any other
      array with the same bytes. */
  lemma FileMemIdentityIrrelevant(p: array<bv8>, q: array<bv8>, len: nat,
                                  files: map<seq<bv8>, seq<bv8>>, available: nat)
    requires IsCString(p[..]) && len <= p.Length && q[..] == p[..]
    ensures FileMemVerdict(p, p, len, files, available) == FileMemVerdict(p, q, len, files, available)
  {
    assert p[..len] == p[..][..len] == q[..][..len] == q[..len];
  }

  /** Bytes of the file past `len` are never compared with the region: a file
      holding at least `len` bytes gets the same verdict whatever follows them. */
  lemma FileMemIgnoresBytesPastLen(expectedPath: array<bv8>, actual: array<bv8>, len: nat,
                                   files: map<seq<bv8>, seq<bv8>>, available: nat, extra: seq<bv8>)
    requires IsCString(expectedPath[..]) && len <= actual.Length
    requires FileMemResourcesAvailable(expectedPath, len, files, available)
    requires len <= |files[CStr(expectedPath[..])]|
    ensures FileMemVerdict(expectedPath, actual, len, files, available) ==
            FileMemVerdict(expectedPath, actual, len,
                           files[CStr(expectedPath[..]) := files[CStr(expectedPath[..])] + extra], available)
  {
    var file := files[CStr(expectedPath[..])];
    assert (file + extra)[..len] == file[..len];
  }
}
