/** The byte stream a fleet's digest is taken of: it can be read back in one way only. */
module Digest {
  import opened Text

  /** A file as it reaches a git tree. */
  datatype File = File(path: string, exec: bool, body: string)

  const NUL: char := '\0'

  function Bit(exec: bool): string {
    if exec then "true" else "false"
  }

  function DigitOf(d: nat): char
    requires d < 10
  {
    "0123456789"[d]
  }

  function Decimal(n: nat): (r: string)
    ensures r != "" && NUL !in r
  {
    if n < 10 then [DigitOf(n)] else Decimal(n / 10) + [DigitOf(n % 10)]
  }

  function ValueOf(c: char): nat {
    if '0' <= c <= '9' then (c - '0') as int else 0
  }

  function Parse(s: string): nat {
    if s == "" then 0 else Parse(s[..|s| - 1]) * 10 + ValueOf(s[|s| - 1])
  }

  lemma {:induction false} ParseDecimal(n: nat)
    ensures Parse(Decimal(n)) == n
  {
    if n < 10 {
      assert Decimal(n)[..0] == "";
    } else {
      ParseDecimal(n / 10);
      var s := Decimal(n);
      assert s[..|s| - 1] == Decimal(n / 10) && s[|s| - 1] == DigitOf(n % 10);
    }
  }

  function Entry(f: File): string {
    f.path + [NUL] + Bit(f.exec) + [NUL] + Decimal(|f.body|) + [NUL] + f.body
  }

  function Stream(files: seq<File>): string {
    if files == [] then "" else Entry(files[0]) + Stream(files[1..])
  }

  predicate NulFree(files: seq<File>) {
    forall i :: 0 <= i < |files| ==> NUL !in files[i].path
  }

  // ------------------------------------------------------------ reading it back

  /** Up to the first NUL, and what follows it. */
  function Field(s: string): (r: Option<(string, string)>)
    ensures r.Some? ==> |r.value.0| + 1 + |r.value.1| == |s|
  {
    if s == "" then None
    else if s[0] == NUL then Some(("", s[1..]))
    else
      match Field(s[1..])
      case None => None
      case Some((x, rest)) => Some(([s[0]] + x, rest))
  }

  lemma {:induction false} FieldOf(x: string, rest: string)
    requires NUL !in x
    ensures Field(x + [NUL] + rest) == Some((x, rest))
  {
    var s := x + [NUL] + rest;
    if x == "" {
      assert s[1..] == rest;
    } else {
      assert s[1..] == x[1..] + [NUL] + rest && s[0] == x[0] && x[0] in x;
      FieldOf(x[1..], rest);
      assert [x[0]] + x[1..] == x;
    }
  }

  /** One file off the front of a stream. */
  function ReadEntry(s: string): (r: Option<(File, string)>)
    ensures r.Some? ==> |r.value.1| < |s|
  {
    var path := Field(s);
    if path.None? then None else
      var bit := Field(path.value.1);
      if bit.None? || (bit.value.0 != "true" && bit.value.0 != "false") then None else
        var size := Field(bit.value.1);
        if size.None? then None else
          var n, rest := Parse(size.value.0), size.value.1;
          if n > |rest| then None else Some((File(path.value.0, bit.value.0 == "true", rest[..n]), rest[n..]))
  }

  function Read(s: string): Option<seq<File>>
    decreases |s|
  {
    if s == "" then Some([])
    else
      match ReadEntry(s)
      case None => None
      case Some((f, rest)) =>
        var files := Read(rest);
        if files.None? then None else Some([f] + files.value)
  }

  lemma ReadsEntryBack(f: File, rest: string)
    requires NUL !in f.path
    ensures ReadEntry(Entry(f) + rest) == Some((f, rest))
  {
    hide Field, Decimal, Parse;
    var size, bit := Decimal(|f.body|), Bit(f.exec);
    var third := size + [NUL] + (f.body + rest);
    var second := bit + [NUL] + third;
    assert Entry(f) + rest == f.path + [NUL] + second;
    FieldOf(f.path, second);
    assert NUL !in bit;
    FieldOf(bit, third);
    FieldOf(size, f.body + rest);
    ParseDecimal(|f.body|);
    assert (f.body + rest)[..|f.body|] == f.body && (f.body + rest)[|f.body|..] == rest;
  }

  /** What is fed to the hash can be read back: every list of files, bodies of any bytes included. */
  lemma {:induction false} ReadsBack(files: seq<File>)
    requires NulFree(files)
    ensures Read(Stream(files)) == Some(files)
  {
    if files != [] {
      ReadsBack(files[1..]);
      ReadsEntryBack(files[0], Stream(files[1..]));
      assert Entry(files[0]) + Stream(files[1..]) != "";
      assert [files[0]] + files[1..] == files;
    }
  }

  /** Two fleets with one stream are one fleet: no path, bit, size or body can pass for another. */
  lemma StreamIsInjective(a: seq<File>, b: seq<File>)
    requires NulFree(a) && NulFree(b) && Stream(a) == Stream(b)
    ensures a == b
  {
    ReadsBack(a);
    ReadsBack(b);
  }

  /** An entry that does not say how long its body is. */
  function Unsized(f: File): string {
    f.path + [NUL] + Bit(f.exec) + [NUL] + f.body
  }

  function UnsizedStream(files: seq<File>): string {
    if files == [] then "" else Unsized(files[0]) + UnsizedStream(files[1..])
  }

  /** What makes it so is the size: without it any two files read like one whose body swallows the second. */
  lemma SizesAreNeeded(a: File, b: File)
    ensures
      var swallowed := a.(body := a.body + Unsized(b));
      UnsizedStream([a, b]) == UnsizedStream([swallowed]) && [a, b] != [swallowed]
  {
    var swallowed := a.(body := a.body + Unsized(b));
    assert [a, b][1..] == [b] && [b][1..] == [] && [swallowed][1..] == [];
    assert UnsizedStream([b]) == Unsized(b);
    var head := a.path + [NUL] + Bit(a.exec) + [NUL];
    assert head + a.body + Unsized(b) == head + (a.body + Unsized(b));
    assert |[a, b]| == 2;
  }

  // ------------------------------------------------------------ hashing as it runs

  const CHUNK := 0x10000

  /** What has been fed to the hash so far; the hash is a function of it. */
  class Hasher {
    var fed: string

    constructor ()
      ensures fed == ""
    {
      fed := "";
    }

    method Update(bytes: string)
      modifies this
      ensures fed == old(fed) + bytes
    {
      fed := fed + bytes;
    }
  }

  /** A read may return less than there is room for, but nothing only at the end. */
  method ReadSome(body: string, at: nat, most: nat) returns (n: nat)
    requires at <= |body| && most > 0
    ensures n <= most && at + n <= |body| && (n == 0 <==> at == |body|)
  {
    var left := |body| - at;
    var room := if left < most then left else most;
    var got: int := *;
    n := if 1 <= got <= room then got else room;
  }

  /** Feeds one file, its body in chunks of whatever sizes the reads return. */
  method Add(h: Hasher, f: File)
    modifies h
    ensures h.fed == old(h.fed) + Entry(f)
  {
    h.Update(f.path + [NUL] + Bit(f.exec) + [NUL] + Decimal(|f.body|) + [NUL]);
    var at := 0;
    ghost var head := h.fed;
    while true
      invariant at <= |f.body| && h.fed == head + f.body[..at]
      decreases |f.body| - at
    {
      var n := ReadSome(f.body, at, CHUNK);
      if n == 0 {
        break;
      }
      h.Update(f.body[at..at + n]);
      assert f.body[..at + n] == f.body[..at] + f.body[at..at + n];
      at := at + n;
    }
    assert f.body[..|f.body|] == f.body;
  }

  lemma {:induction false} StreamAppend(a: seq<File>, f: File)
    ensures Stream(a + [f]) == Stream(a) + Entry(f)
  {
    if a == [] {
      assert ([] + [f])[1..] == [];
    } else {
      assert (a + [f])[1..] == a[1..] + [f];
      StreamAppend(a[1..], f);
    }
  }

  /** However the reads went, what was hashed is the stream of the files, in the order walked. */
  method HashFleet(files: seq<File>) returns (h: Hasher)
    ensures fresh(h) && h.fed == Stream(files)
  {
    h := new Hasher();
    for i := 0 to |files|
      invariant fresh(h) && h.fed == Stream(files[..i])
    {
      assert files[..i + 1] == files[..i] + [files[i]];
      StreamAppend(files[..i], files[i]);
      Add(h, files[i]);
    }
    assert files[..|files|] == files;
  }
}
