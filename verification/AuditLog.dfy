/** The append-only, hash-chained audit log of `quality_acceptance_v3.py`.

    A digest is a datatype that wraps what it is the digest of, so equal digests mean equal
    content. A line of the file is either text that is not a JSON record or an entry that carries
    its own position and the digest of the line before it. */
module AuditLogs {

  datatype Line<E> = NotARecord(text: string) | Entry(seqNo: int, event: E, prev: Digest<E>)

  datatype Digest<E> = Genesis | Of(line: Line<E>)

  datatype IntegrityError = LineNotARecord(lineNumber: nat) | ChainBroken(lineNumber: nat)

  datatype Reading<E> = Intact(entries: seq<E>, head: Digest<E>) | Broken(error: IntegrityError)

  function Head<E>(lines: seq<Line<E>>): Digest<E> {
    if lines == [] then Genesis else Of(lines[|lines| - 1])
  }

  /** Line `i` is a record, knows its position, and names the line before it. */
  ghost predicate Linked<E>(lines: seq<Line<E>>, i: nat)
    requires i < |lines|
  {
    lines[i].Entry? && lines[i].seqNo == i && lines[i].prev == Head(lines[..i])
  }

  ghost predicate Accepted<E>(lines: seq<Line<E>>) {
    forall i | 0 <= i < |lines| :: Linked(lines, i)
  }

  ghost function EventsOf<E>(lines: seq<Line<E>>): (r: seq<E>)
    requires Accepted(lines)
    ensures |r| == |lines|
  {
    seq(|lines|, i requires 0 <= i < |lines| => assert Linked(lines, i); lines[i].event)
  }

  lemma AcceptedPrefix<E>(lines: seq<Line<E>>, k: nat)
    requires Accepted(lines) && k <= |lines|
    ensures Accepted(lines[..k])
    ensures EventsOf(lines[..k]) == EventsOf(lines)[..k]
  {
    forall i | 0 <= i < k ensures Linked(lines[..k], i) {
      assert Linked(lines, i) && lines[..k][..i] == lines[..i];
    }
  }

  /** What `append` writes keeps the log accepted and adds exactly the new entry. */
  lemma AppendedIsAccepted<E>(lines: seq<Line<E>>, e: E)
    requires Accepted(lines)
    ensures Accepted(lines + [Entry(|lines|, e, Head(lines))])
    ensures EventsOf(lines + [Entry(|lines|, e, Head(lines))]) == EventsOf(lines) + [e]
  {
    var longer := lines + [Entry(|lines|, e, Head(lines))];
    forall i | 0 <= i < |longer| ensures Linked(longer, i) {
      assert longer[..i] == if i < |lines| then lines[..i] else lines;
      assert i < |lines| ==> Linked(lines, i);
    }
  }

  /** The head commits to the whole log: two accepted logs with one head are equal line by line. */
  lemma {:induction false} HeadCommits<E>(a: seq<Line<E>>, b: seq<Line<E>>)
    requires Accepted(a) && Accepted(b)
    requires Head(a) == Head(b)
    ensures a == b
  {
    if a != [] && b != [] {
      var m, n := |a| - 1, |b| - 1;
      assert Linked(a, m) && Linked(b, n);
      AcceptedPrefix(a, m);
      AcceptedPrefix(b, n);
      HeadCommits(a[..m], b[..n]);
      assert a == a[..m] + [a[m]] && b == b[..n] + [b[n]];
    }
  }

  /** Changing, dropping, adding or reordering any line while the last one stands is rejected. */
  lemma TamperingIsRejected<E>(original: seq<Line<E>>, tampered: seq<Line<E>>)
    requires Accepted(original) && original != [] && tampered != []
    requires original[|original| - 1] == tampered[|tampered| - 1]
    requires original != tampered
    ensures !Accepted(tampered)
  {
    if Accepted(tampered) {
      HeadCommits(original, tampered);
    }
  }

  /** What the chain alone cannot show: removed final entries. Any prefix is accepted too, but its
      head is not the recorded one, so the copy of the head kept elsewhere shows the removal. */
  lemma TruncationChangesOnlyTheHead<E>(lines: seq<Line<E>>, k: nat)
    requires Accepted(lines) && k < |lines|
    ensures Accepted(lines[..k])
    ensures Head(lines[..k]) != Head(lines)
  {
    AcceptedPrefix(lines, k);
    if Head(lines[..k]) == Head(lines) {
      HeadCommits(lines[..k], lines);
    }
  }

  class AuditLog<E(==)> {
    var lines: seq<Line<E>>

    constructor ()
      ensures lines == []
    {
      lines := [];
    }

    ghost predicate Unbroken()
      reads this
    {
      Accepted(lines)
    }

    ghost function Events(): seq<E>
      reads this
      requires Unbroken()
    {
      EventsOf(lines)
    }

    /** `_read`: the entries and the head, or the first line at which the chain fails. */
    method Read() returns (r: Reading<E>)
      ensures r.Intact? <==> Unbroken()
      ensures r.Intact? ==> r.entries == Events() && r.head == Head(lines)
      ensures r.Broken? ==>
                var k := r.error.lineNumber - 1;
                && 0 <= k < |lines| && Accepted(lines[..k]) && !Linked(lines, k)
                && (r.error.LineNotARecord? <==> lines[k].NotARecord?)
    {
      var entries: seq<E> := [];
      var previous: Digest<E> := Genesis;
      var index := 0;
      while index < |lines|
        invariant 0 <= index <= |lines|
        invariant Accepted(lines[..index])
        invariant entries == EventsOf(lines[..index])
        invariant previous == Head(lines[..index])
      {
        var line := lines[index];
        if line.NotARecord? {
          assert !Linked(lines, index);
          return Broken(LineNotARecord(index + 1));
        }
        if line.seqNo != index || line.prev != previous {
          assert !Linked(lines, index);
          return Broken(ChainBroken(index + 1));
        }
        assert lines[..index + 1] == lines[..index] + [Entry(|lines[..index]|, line.event, Head(lines[..index]))];
        AppendedIsAccepted(lines[..index], line.event);
        previous := Of(line);
        entries := entries + [line.event];
        index := index + 1;
      }
      assert lines[..index] == lines;
      return Intact(entries, previous);
    }

    /** `append`: refuses a broken log; otherwise adds one line and returns its digest, the new head. */
    method Append(e: E) returns (r: Reading<E>)
      modifies this
      ensures r.Broken? <==> !old(Unbroken())
      ensures r.Broken? ==> lines == old(lines)
      ensures r.Intact? ==> Unbroken() && Events() == old(Events()) + [e] && old(lines) < lines
      ensures r.Intact? ==> r.head == Head(lines) && r.entries == Events()
    {
      r := Read();
      if r.Intact? {
        AppendedIsAccepted(lines, e);
        var line := Entry(|r.entries|, e, r.head);
        lines := lines + [line];
        r := Intact(r.entries + [e], Of(line));
      }
    }
  }
}
