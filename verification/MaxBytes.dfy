/** MaxBytesReader of core/utils/http.go, read to the end over any underlying reader. */
module MaxBytes {
  import opened Bytes

  datatype Error = NoError | EOF | Broken | TooLarge(limit: int)

  /** An io.Reader over a body. The contract of Read is what every reader keeps to: it hands out as
      much as it likes of what is left, possibly nothing, reports EOF with the last bytes or on its
      own, and may break. Callers are verified against that contract; the body is one such reader. */
  class Source {
    var rest: seq<Byte>
    var broken: bool
    ghost var patience: nat  // how many more times it may return nothing at all

    constructor (body: seq<Byte>, ghost patience: nat)
      ensures rest == body && !broken && this.patience == patience
    {
      rest, broken, this.patience := body, false, patience;
    }

    method Read(p: array<Byte>, max: nat) returns (n: nat, err: Error)
      requires 1 <= max <= p.Length
      modifies this, p
      ensures n <= max && p[..n] + rest == old(rest)
      ensures err.NoError? || err.EOF? || err.Broken?
      ensures broken == (old(broken) || err.Broken?)
      ensures err.EOF? ==> rest == []
      ensures err.NoError? ==> |rest| + patience < old(|rest| + patience)
    {
      if rest == [] {
        return 0, EOF;
      }
      p[0] := rest[0];
      rest := rest[1..];
      return 1, NoError;
    }
  }

  class MaxBytesReader {
    const rc: Source
    const limit: int
    var remaining: int
    var sawEOF: bool

    constructor (rc: Source, limit: int)
      ensures this.rc == rc && this.limit == limit && remaining == limit && !sawEOF
    {
      this.rc, this.limit, remaining, sawEOF := rc, limit, limit, false;
    }

    /** After count bytes of a body: what is left of the limit, and whether the end has been seen. */
    ghost predicate Valid(body: seq<Byte>, count: nat)
      reads this, rc
    {
      count <= |body| && rc.rest == body[count..] && 0 <= remaining == limit - count && (sawEOF ==> count == |body|)
    }

    /** Read. An error other than EOF comes from the source or says that the body is too large; a
        caller that goes on after EOF is also told so when the body has exactly the size of the limit. */
    method Read(p: array<Byte>, ghost body: seq<Byte>, ghost count: nat) returns (n: nat, err: Error)
      requires Valid(body, count) && 1 <= p.Length
      modifies this, rc, p
      ensures n <= p.Length && count + n <= |body| && p[..n] == body[count..count + n]
      ensures err.NoError? ==> Valid(body, count + n) && |rc.rest| + rc.patience < old(|rc.rest| + rc.patience)
      ensures err.NoError? ==> sawEOF == old(sawEOF)
      ensures err.EOF? ==> count + n == |body| <= limit
      ensures err.TooLarge? ==> err.limit == limit && (limit < |body| || (old(sawEOF) && limit == |body|))
      ensures err.Broken? ==> rc.broken
      ensures rc.broken ==> old(rc.broken) || err.Broken? || err.TooLarge?
    {
      var toRead := remaining;
      if remaining == 0 {
        if sawEOF {
          return 0, TooLarge(limit);
        }
        toRead := 1;
      }
      var length: int := p.Length;
      if length > toRead {
        length := toRead;
      }
      n, err := rc.Read(p, length);
      NextPart(body, count, p[..n], rc.rest);
      if err.EOF? {
        sawEOF := true;
      }
      if remaining == 0 {
        if n > 0 {
          return 0, TooLarge(limit);
        }
        return 0, err;
      }
      remaining := remaining - n;
      if remaining < 0 {
        remaining := 0;
      }
    }

    lemma NextPart(body: seq<Byte>, count: nat, part: seq<Byte>, rest: seq<Byte>)
      requires count <= |body| && part + rest == body[count..]
      ensures count + |part| <= |body| && part == body[count..count + |part|] && rest == body[count + |part|..]
    {
      assert part == (part + rest)[..|part|];
      assert rest == (part + rest)[|part|..];
    }
  }

  datatype Outcome = Body(bytes: seq<Byte>) | Failed(err: Error)

  /** ioutil.ReadAll: it reads into buffers of any size until an error, of which EOF is none. */
  method ReadAll(mbr: MaxBytesReader) returns (r: Outcome)
    requires mbr.Valid(mbr.rc.rest, 0) && !mbr.rc.broken && !mbr.sawEOF
    modifies mbr, mbr.rc
    ensures r.Body? ==> r.bytes == old(mbr.rc.rest) && |old(mbr.rc.rest)| <= mbr.limit
    ensures r.Failed? && r.err.TooLarge? ==> r.err.limit == mbr.limit < |old(mbr.rc.rest)|
    ensures r.Failed? && !r.err.TooLarge? ==> mbr.rc.broken
    ensures r.Body? ==> !mbr.rc.broken
  {
    ghost var body := mbr.rc.rest;
    var bytes: seq<Byte> := [];
    while true
      invariant mbr.Valid(body, |bytes|) && bytes == body[..|bytes|] && !mbr.rc.broken && !mbr.sawEOF
      decreases |mbr.rc.rest| + mbr.rc.patience
    {
      var size: nat :| true;
      var p := new Byte[size + 1];
      var n, err := mbr.Read(p, body, |bytes|);
      bytes := bytes + p[..n];
      if err.EOF? {
        return Body(bytes);
      }
      if !err.NoError? {
        return Failed(err);
      }
    }
  }

  /** What a reader that never breaks makes of a body: the body itself iff it fits the limit. */
  method ReadResponse(body: seq<Byte>, limit: nat, ghost patience: nat) returns (r: Outcome, broken: bool)
    ensures !broken ==> r == if |body| <= limit then Body(body) else Failed(TooLarge(limit))
    ensures broken ==> r.Failed?
  {
    var rc := new Source(body, patience);
    var mbr := new MaxBytesReader(rc, limit);
    assert body[0..] == body;
    r := ReadAll(mbr);
    broken := rc.broken;
  }
}
