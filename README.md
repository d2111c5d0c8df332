# fantestic in Dafny

A model of fantestic, a tiny C unit-test framework, and proofs about it. The
framework has three parts, and each has a module here:

- **Comparators** (`fantestic_assert_equals_*` in test.c). Each one decides
  whether an expected and an actual value are equal. It returns 1 or 0 and
  prints an ERROR line on stdout or a FATAL ERROR line on stderr. Here a
  comparator returns a `Status`: `Ok | NullInput | Mismatch | SizeMismatch | Fatal`.
  The C return value and the stream follow from the status. C pointers are
  nullable byte arrays (`array?<bv8>`), so pointer identity is reference
  equality and is kept apart from content equality. C fixes only the sign
  of what `strcmp` and `memcmp` return. The model returns the difference of
  the first differing bytes, which has that sign. Both are proved to return
  0 exactly when the compared bytes are equal.
- **File comparators**. These acquire buffers and `FILE*` handles one step at
  a time and must release them on every return path. They are methods over a
  C runtime object, `Libc.Runtime`, which has these parts:
  - `files`: the readable files by name. A name missing from it makes `fopen`
    fail.
  - `available`: the bytes `malloc` can still hand out. A larger request
    returns NULL.
  - ghost sets of live buffers and open streams.

  Each method is proved equal to a specification function of the state
  before the call. It is also proved to leave the buffers, the streams and
  the free memory as it found them, so no exit path leaks.
- **Registry, `TEST(NAME)` and runner**. `test_array` and
  `fantestic_current_test_count` form a class over an array with capacity
  `MAX_TEST_COUNT` (65536, test.h:191). The constructors generated by
  `TEST(NAME)` are a loop of registration calls. `main` is a loop over the
  registered entries. A test body is the sequence of `ASSERT_*`, `PASS()` and
  `FAIL()` steps it executes, and `Run` gives its early-return semantics.

The header and the implementation disagree in several ways. test.h declares
unprefixed names with 32-bit integers and `struct TestFunction`. test.c
defines `fantestic_`-prefixed functions over 64-bit integers and
`struct FantesticTestFunction`. The model follows the function bodies of
test.c and the macro semantics of test.h. example.c uses
`ASSERT_EQUALS_STR`, which test.h does not define. The model treats it like
the other `ASSERT_*` macros: return 0 when the comparator fails.

## Model

| member | source | states |
|---|---|---|
| `Diagnostics.Status.ReturnValue` | test.c:8-14 | A comparator returns 1 exactly when it decided `Ok`, and 0 for every failure kind |
| `Diagnostics.Status.Channel` | test.c:88-99 | Nothing is printed exactly on `Ok`. A FATAL line goes to stderr exactly on `Fatal`. Every other failure prints an ERROR line on stdout |
| `CMemory.CStr` | test.c:49 | The characters of a C string are the bytes before its first NUL, and they contain no NUL |
| `CMemory.StrCmp` | test.c:49 | The result of `strcmp` is a difference of two `unsigned char` values, so it lies in -255..255 |
| `CMemory.StrCmpZeroIff` | test.c:49-50 | `strcmp` returns 0 exactly when the two C strings are equal. Bytes after the terminator never matter |
| `CMemory.StrCmpFirstDifference` | test.c:49-50 | When two C strings first differ at a byte before any NUL, `strcmp` returns that pair's difference, so its sign is the one C requires. Swapping the arguments negates the result |
| `CMemory.MemCmp` | test.c:68 | The result of `memcmp` is a difference of two `unsigned char` values, so it lies in -255..255 |
| `CMemory.MemCmpZeroIff` | test.c:68-69 | `memcmp` over `n` bytes returns 0 exactly when the first `n` bytes agree |
| `CMemory.MemCmpFirstDifference` | test.c:144-145 | When two regions first differ at a byte among the first `n`, `memcmp` returns that pair's difference. Swapping the arguments negates the result |
| `Comparators.EqualsInt` | test.c:6-15 | Returns 1 exactly when the two 64-bit signed values are equal. Otherwise the status is a mismatch reported on stdout |
| `Comparators.EqualsUnsignedInt` | test.c:17-26 | Returns 1 exactly when the two 64-bit unsigned values are equal. Otherwise the status is a mismatch reported on stdout |
| `Comparators.EqualsStr` | test.c:39-56 | The same reference gives `Ok` without reading it, even when both are NULL or the bytes are unterminated. Exactly one NULL gives `NullInput`. Otherwise the result is `Ok` iff the C strings are equal, and `Mismatch` if not |
| `Comparators.EqualsMem` | test.c:58-75 | The same reference gives `Ok`. One NULL gives `NullInput` without reading. Otherwise, with both regions holding at least `len` bytes, the result is `Ok` iff the first `len` bytes agree, and `Mismatch` if not |
| `Libc.Runtime.Malloc` | test.c:93-100 | `malloc(n)` gives a fresh `n`-byte buffer, recorded as live, when `n` bytes are available. Otherwise it gives NULL and changes nothing |
| `Libc.Runtime.Free` | test.c:108 | Only a live buffer may be freed. Freeing returns its bytes and removes it from the live set |
| `Libc.Runtime.Fopen` | test.c:112-119 | Opening a readable name gives a fresh stream at position 0, recorded as open. Any other name gives NULL |
| `Libc.Runtime.Fread` | test.c:131-132 | Copies `min(n, bytes left)` bytes into the front of the buffer, advances the position and leaves the rest of the buffer alone |
| `Libc.Runtime.Fclose` | test.c:127 | Only an open stream may be closed. Closing removes it from the open set |
| `FileComparators.ReadPrefix` | test.c:131-132 | One read of `n` bytes from a fresh stream yields the prefix of length `n`, or the whole file when it is shorter |
| `FileComparators.CompareReads` | test.c:134-158 | Different read counts give `SizeMismatch`. Otherwise the result is `Ok` iff the bytes read are equal, and `Mismatch` if not |
| `FileComparators.FileVerdict` | test.c:77-159 | The same path reference gives `Ok`, whatever the files and memory. One NULL path gives `NullInput`. `Fatal` comes exactly from a failing `malloc` or `fopen`. Otherwise the result is `Ok` iff the two reads of at most `max_size` bytes are equal, and `SizeMismatch` iff their lengths differ |
| `FileComparators.EqualsFile` | test.c:77-129 | Returns `FileVerdict` of the state before the call. On every path, the buffers, streams and free memory end as they started |
| `FileComparators.OpenCompareRelease` | test.c:112-129 | Once both buffers are held, it returns `Fatal` exactly when either file cannot be opened, and otherwise the comparison of the two reads. Every path frees both buffers and closes every stream it opened |
| `FileComparators.ReadCompareRelease` | test.c:131-158 | Once both buffers and both streams are held, it reads, compares, frees both buffers and closes both streams, whatever the outcome |
| `FileComparators.FileMemVerdict` | test.c:161-226 | Any NULL gives `NullInput`. `Fatal` comes exactly from a failing `malloc` or `fopen`. A file shorter than `len` gives `SizeMismatch`. Otherwise the result is `Ok` iff the file's first `len` bytes equal the region's |
| `FileComparators.EqualsFileMem` | test.c:161-226 | Returns `FileMemVerdict` of the state before the call. Both buffers, including the unused second one, and the stream are released on every path |
| `FileComparators.FileComparisonTruncatesAtMaxSize` | test.c:131-150 | Two files that agree on their first `max_size` bytes compare equal, however they differ after that |
| `FileComparators.FileVerdictReadsOnlyPrefixes` | test.c:131-144 | Replacing the files by others with the same first `max_size` bytes does not change the verdict |
| `FileComparators.FileMemHasNoIdentityCheck` | test.c:168-199 | The file-vs-memory comparator has no identity short-circuit. For every `len`, file map and free memory, the same reference as both arguments gives `Fatal` when the file cannot be opened |
| `FileComparators.FileMemIdentityIrrelevant` | test.c:168-213 | The verdict depends only on the region's bytes: passing the path array itself as the region gives the same verdict as any other array with the same bytes |
| `FileComparators.FileMemIgnoresBytesPastLen` | test.c:201-213 | A file holding at least `len` bytes gets the same verdict whatever follows those bytes |
| `Assertions.Run` | test.h:96-171 | A body that returns yields 0 or 1. It yields 1 exactly when nothing was printed. It runs off its end exactly when every step is a passing assertion |
| `Assertions.StepsAfterReturnDoNotRun` | test.h:96-100 | Once a body has returned, appending any further statements does not change its outcome |
| `Assertions.PassingChecksAreSkipped` | test.h:96-156 | Passing assertions let execution continue. The outcome is that of the first other step |
| `Assertions.FailingCheckEndsBody` | test.h:96-156 | The first failing `ASSERT_*` ends the body with 0 and its comparator's diagnostic. Nothing written after it changes the outcome |
| `Assertions.PassEndsBody` | test.h:170-171 | `PASS()` reached after passing assertions ends the body with 1 |
| `Assertions.FailEndsBody` | test.h:161-165 | `FAIL()` ends the body with 0 and an ERROR line on stdout, whatever assertions passed before it |
| `Registry.Register` | test.c:228-240 | One registration keeps the existing entries as a prefix, adds at most one entry, adds one exactly when the registry is not full, and the added entry is the registered test. A registry within capacity stays within it |
| `Registry.RegisterAll` | test.h:214-219 | A sequence of registrations keeps the starting entries as a prefix, adds at most one entry per registration, adds only registered tests and keeps a registry within capacity |
| `Registry.RegisterAllAppendsWhatFits` | test.c:228-240 | A sequence of registrations keeps the entries already present and appends, in order, those that fit. Every later one is dropped. The registry never exceeds `MAX_TEST_COUNT` |
| `Registry.CapacityPlusOneIsDropped` | test.c:231-235 | With `MAX_TEST_COUNT + 1` registrations, the registry holds exactly the first `MAX_TEST_COUNT` |
| `Registry.TestRegistry.Entries` | test.c:3-4 | The registered entries are the first `count` slots of `test_array` |
| `Registry.TestRegistry.constructor` | test.c:3-4 | The zero-initialised array has `MAX_TEST_COUNT` slots and no registered entries |
| `Registry.TestRegistry.RegisterTest` | test.c:228-240 | Below capacity, the entry goes to index `count`, `count` grows by one and no other slot changes. At capacity, nothing changes and a FATAL line goes to stderr. `count <= MAX_TEST_COUNT` is kept |
| `Registry.TestRegistry.DeclareTests` | test.h:214-219 | Each `TEST(NAME)` registers its body with the name `#NAME`, in declaration order. The registry ends as `RegisterAll` of the declared tests. One FATAL line is printed per dropped declaration |
| `Registry.DeclareOnePastCapacity` | test.c:231-235 | Declaring `MAX_TEST_COUNT + 1` tests prints exactly one FATAL line and keeps the first `MAX_TEST_COUNT` tests |
| `Runner.Outcome` | test.c:252 | A test's result is 0 or 1. It is nonzero exactly when the test passes |
| `Runner.PassedCount` | test.c:250-254 | The passed count is at most the number of entries |
| `Runner.PassedCountExtremes` | test.c:250-254 | The passed count equals the number of entries iff every test passes, and is 0 iff none does |
| `Runner.RunEntries` | test.c:250-254 | The loop runs each entry once, in order: it records each name and each test's result, and counts exactly the passing entries |
| `Runner.RunTests` | test.c:242-260 | Runs entries `0..count-1` once each, in order, printing each name. `passed` is the number of passing entries, `passed <= total`, `failed = total - passed` without underflow, and the exit code is 0 |
| `ExampleTests.CStrOfLiteral` | example.c:18-19 | A string literal's C-string view is its text |
| `ExampleTests.IntArrayBytesInjective` | example.c:32-34 | Two small `int[]` arrays have equal byte images exactly when their elements are equal, so a `memcmp` over `n * sizeof(int)` bytes compares the elements |
| `ExampleTests.ExampleStr` | example.c:17-29 | Two literals with the same text compare `Ok`. "This is a string" against "This is another string" is a `Mismatch` |
| `ExampleTests.ExampleMem` | example.c:31-38 | {1,2,3,4,5} equals a second {1,2,3,4,5} and mismatches {1,2,3,4,6} over `5 * sizeof(int)` bytes |
| `ExampleTests.ExampleBodies` | example.c:3-15 | `example_pass` returns 1. `example_fail` returns 0. `example_assert` stops at `ASSERT_EQUALS_INT(1, 2)` with 0 and never reaches `PASS()` |
| `ExampleTests.PassFailTests` | example.c:3-9 | Registering `example_pass` and `example_fail` into an empty registry keeps both, and exactly one of them passes |
| `ExampleTests.ExampleSummary` | example.c:3-9 | Registering `example_pass` and `example_fail` and running gives total 2, passed 1, failed 1 and exit code 0 |

## Left out

- `fantestic_assert_equals_float` (test.c:28-37): it compares `long double` values exactly, and floating point is not modelled.
- The text of diagnostics: formats, the file name and line number, and the printed values. Only the failure kind and the stream are modelled. The "Executing" lines and the summary line are modelled as values (the names, total, passed, failed), not as text.
- Real `malloc`, `fopen`, `fread`, `fclose` and `free`. Their success is an input, namely the runtime's `available` bytes and readable `files`. `malloc(0)` returning NULL, and `fread` stopping early for a reason other than end of file, are not modelled.
- Reads past undersized buffers by `strcmp`, `memcmp` and `fread`. These are undefined in C, so the requires clauses exclude them: a non-NULL string must be terminated, a region must hold at least `len` bytes.
  The calls `ASSERT_EQUALS_FILE_MEM("file1.txt", "file1", 100)` and `ASSERT_EQUALS_FILE_MEM("file1.txt", "file4", 100)` (example.c:52, 58) pass a 6-byte literal as a 100-byte region. They fall outside this requirement.
- The `__attribute__((constructor))` mechanism and the order of startup registrations. Registration is a sequence of calls in an order given by the caller.
- Test bodies as arbitrary C functions. A body is only the sequence of its assertion, `PASS()` and `FAIL()` steps. Other statements, side effects and bodies that do not terminate are not modelled. A body that runs off its end is undefined in C, so `RunTests` requires every registered body to return.
- The integer width of `passed` (`unsigned int`) and `fantestic_current_test_count` (`size_t`): both stay at or below 65536, so wrap-around cannot occur and is not modelled.
- A configurable capacity. `MAX_TEST_COUNT` is the fixed constant of test.h:191, as in the code.
- The `int` arrays of `example_mem` (example.c:32-34) are given by their elements' low bytes, since every element fits in one byte; the byte image of a general `int` is not modelled.
- The file tests of example.c (example.c:40-60): the contents of file1.txt to file4.txt are not part of this model.
