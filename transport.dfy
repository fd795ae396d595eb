/** The serial port's read side, as a script.

    Both instruments are read with pyserial's `read_until(terminator)` (and
    `readline()`, which is `read_until(b'\n')`): bytes are taken one at a time
    until what has been read ends with the terminator, and when the device
    sends nothing more the read times out and returns whatever it has.  The
    device's output is given here as the stream still to be read, so a read
    is a split of that stream into the chunk returned and the rest. */
module Transport {
  import opened Text

  /** Length of the shortest prefix of `s`, at least `k` long, that ends with
      `term`; all of `s` when there is none. */
  function ChunkLength<T(==)>(s: seq<T>, term: seq<T>, k: nat): (n: nat)
    requires k <= |s|
    ensures k <= n <= |s|
    ensures n == |s| || EndsWith(s[..n], term)
    decreases |s| - k
  {
    if k == |s| || EndsWith(s[..k], term) then k
    else ChunkLength(s, term, k + 1)
  }

  /** No prefix skipped by the search ends with the terminator. */
  lemma {:induction false} ChunkLengthIsFirst<T>(s: seq<T>, term: seq<T>, k: nat)
    requires k <= |s|
    ensures forall j :: k <= j < ChunkLength(s, term, k) ==> !EndsWith(s[..j], term)
    decreases |s| - k
  {
    if !(k == |s| || EndsWith(s[..k], term)) {
      ChunkLengthIsFirst(s, term, k + 1);
    }
  }

  /** `read_until(term)` on the stream `s`: the chunk returned and the rest.
      The chunk is the stream up to and including the first occurrence of
      the terminator; with no terminator left it is all that remains. */
  function ReadUntil<T(==)>(s: seq<T>, term: seq<T>): (r: (seq<T>, seq<T>))
    requires term != []
    ensures r.0 + r.1 == s
    ensures s != [] ==> r.0 != []
    ensures EndsWith(r.0, term) || r.1 == []
  {
    var n := ChunkLength(s, term, 0);
    assert s[..n] + s[n..] == s;
    (s[..n], s[n..])
  }

  /** The chunk stops at the FIRST terminator: none of its proper prefixes
      ends with one. */
  lemma ReadUntilStopsAtFirst<T>(s: seq<T>, term: seq<T>)
    requires term != []
    ensures var chunk := ReadUntil(s, term).0;
      forall j :: 0 <= j < |chunk| ==> !EndsWith(chunk[..j], term)
  {
    var n := ChunkLength(s, term, 0);
    ChunkLengthIsFirst(s, term, 0);
    assert forall j :: 0 <= j < n ==> s[..n][..j] == s[..j];
  }

  /** A reply ends with the terminator and holds no earlier one. */
  predicate IsReply<T(==)>(reply: seq<T>, term: seq<T>)
  {
    EndsWith(reply, term) && forall j :: 0 <= j < |reply| ==> !EndsWith(reply[..j], term)
  }

  /** A stream that starts with a whole reply is read one reply at a time. */
  lemma ReadsWholeReply<T>(reply: seq<T>, rest: seq<T>, term: seq<T>)
    requires term != [] && IsReply(reply, term)
    ensures ReadUntil(reply + rest, term) == (reply, rest)
  {
    var s := reply + rest;
    var r := ReadUntil(s, term);
    ReadUntilStopsAtFirst(s, term);
    assert s[..|reply|] == reply;
    assert |r.0| <= |reply| ==> r.0 == reply[..|r.0|];
    assert |r.0| >= |reply| ==> r.0[..|reply|] == reply;
    assert r.0 == s[..|r.0|];
  }

  /** For a one-element terminator (`b'\r'`, `b'\n'`) the chunk holds that
      element only as its last element. */
  lemma ChunkHasOneTerminator<T>(s: seq<T>, t: T)
    ensures var chunk := ReadUntil(s, [t]).0;
      forall i :: 0 <= i < |chunk| - 1 ==> chunk[i] != t
  {
    var chunk := ReadUntil(s, [t]).0;
    ReadUntilStopsAtFirst(s, [t]);
    forall i | 0 <= i < |chunk| - 1
      ensures chunk[i] != t
    {
      assert chunk[..i + 1][i] == chunk[i];
      assert !EndsWith(chunk[..i + 1], [t]);
    }
  }

  /** A one-element terminator that does not occur in `line` makes
      `line + [t]` a reply. */
  lemma LineIsReply<T>(line: seq<T>, t: T)
    requires t !in line
    ensures IsReply(line + [t], [t])
  {
    var reply := line + [t];
    forall j | 0 <= j < |reply|
      ensures !EndsWith(reply[..j], [t])
    {
      if j > 0 {
        assert reply[..j][j - 1] == line[j - 1];
      }
    }
  }
}
