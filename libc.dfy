/** The part of the C library the file comparators use: `malloc`, `free`,
    `fopen`, `fread` and `fclose`. Whether `malloc` and `fopen` succeed is given
    by the runtime's state, so each failure is an explicit input: `malloc(n)`
    returns NULL when more than `available` bytes are asked for, and `fopen`
    returns NULL for a name that is not among the readable `files`. Buffers
    handed out and streams opened are tracked in ghost state, so that a caller
    can be shown to release everything it acquired. */
module Libc {
  import opened CMemory

  /** An open `FILE *` positioned `pos` bytes into its contents. */
  class Stream {
    const contents: seq<bv8>
    var pos: nat

    constructor (contents: seq<bv8>)
      ensures this.contents == contents && pos == 0
    {
      this.contents := contents;
      pos := 0;
    }
  }

  class Runtime {
    /** Readable files, by name; a name not in the map cannot be opened. */
    var files: map<seq<bv8>, seq<bv8>>
    /** Bytes `malloc` can still hand out. */
    var available: nat
    /** Buffers returned by `Malloc` and not yet passed to `Free`. */
    ghost var buffers: set<array<bv8>>
    /** Streams returned by `Fopen` and not yet passed to `Fclose`. */
    ghost var streams: set<Stream>

    constructor (files: map<seq<bv8>, seq<bv8>>, available: nat)
      ensures this.files == files && this.available == available
      ensures buffers == {} && streams == {}
    {
      this.files := files;
      this.available := available;
      buffers := {};
      streams := {};
    }

    /** `malloc(n)`. */
    method Malloc(n: nat) returns (b: array?<bv8>)
      modifies this`available, this`buffers
      ensures n <= old(available) ==>
        b != null && fresh(b) && b.Length == n &&
        available == old(available) - n && buffers == old(buffers) + {b}
      ensures n > old(available) ==>
        b == null && available == old(available) && buffers == old(buffers)
    {
      if n <= available {
        b := new bv8[n];
        available := available - n;
        buffers := buffers + {b};
      } else {
        b := null;
      }
    }

    /** `free(b)`: only a buffer this runtime handed out and that is still live. */
    method Free(b: array<bv8>)
      requires b in buffers
      modifies this`available, this`buffers
      ensures available == old(available) + b.Length
      ensures buffers == old(buffers) - {b}
    {
      available := available + b.Length;
      buffers := buffers - {b};
    }

    /** `fopen(path, "r")`. */
    method Fopen(path: array<bv8>) returns (f: Stream?)
      requires IsCString(path[..])
      modifies this`streams
      ensures CStr(path[..]) in files ==>
        f != null && fresh(f) && f.contents == files[CStr(path[..])] && f.pos == 0 &&
        streams == old(streams) + {f}
      ensures CStr(path[..]) !in files ==> f == null && streams == old(streams)
    {
      var name := CStr(path[..]);
      if name in files {
        f := new Stream(files[name]);
        streams := streams + {f};
      } else {
        f := null;
      }
    }

    /** `fread(buf, 1, n, f)`: copies up to `n` bytes from the stream's
        position into the front of `buf` and returns how many it copied. */
    method Fread(buf: array<bv8>, n: nat, f: Stream) returns (k: nat)
      requires f in streams && f.pos <= |f.contents|
      requires n <= buf.Length
      modifies buf, f
      ensures k == if n <= |f.contents| - old(f.pos) then n else |f.contents| - old(f.pos)
      ensures f.pos == old(f.pos) + k && f.pos <= |f.contents|
      ensures buf[..k] == f.contents[old(f.pos)..f.pos]
      ensures buf[k..] == old(buf[k..])
    {
      var start := f.pos;
      k := if n <= |f.contents| - start then n else |f.contents| - start;
      var i := 0;
      while i < k
        modifies buf
        invariant 0 <= i <= k
        invariant buf[..i] == f.contents[start..start + i]
        invariant buf[k..] == old(buf[k..])
      {
        buf[i] := f.contents[start + i];
        i := i + 1;
      }
      f.pos := start + k;
    }

    /** `fclose(f)`: only a stream this runtime opened and that is still open. */
    method Fclose(f: Stream)
      requires f in streams
      modifies this`streams
      ensures streams == old(streams) - {f}
    {
      streams := streams - {f};
    }
  }
}
