/** What the sends of a handler come to, told from their results alone: how many bytes the kernel took, and whether the
    peer is lost. The send loops are measured against this. */
module Wire {
  import opened Basics
  import opened Proxy

  /** The kernel took something. */
  ghost predicate Took(s: Send) {
    s.Sent? && s.n > 0
  }

  /** How many results in a row took something. */
  ghost function Streak(sends: seq<Send>): nat {
    if sends == [] || !Took(sends[0]) then 0 else 1 + Streak(sends[1..])
  }

  ghost function Total(sends: seq<Send>): nat {
    if sends == [] then 0 else Total(sends[..|sends| - 1]) + if sends[|sends| - 1].Sent? then sends[|sends| - 1].n else 0
  }

  /** Bytes the kernel takes before it would block or fails. */
  ghost function Accepted(sends: seq<Send>): nat {
    Total(sends[..Min(Streak(sends), |sends|)])
  }

  /** What stops the sends is a failure, not a call that would block. */
  ghost predicate Lost(sends: seq<Send>) {
    Streak(sends) < |sends| && (sends[Streak(sends)].SendFailed? || sends[Streak(sends)] == Sent(0))
  }

  /** The streak is the longest run of results that took something. */
  lemma {:induction false} StreakIsLongest(sends: seq<Send>)
    ensures Streak(sends) <= |sends|
    ensures forall i | 0 <= i < Streak(sends) :: Took(sends[i])
    ensures Streak(sends) < |sends| ==> !Took(sends[Streak(sends)])
  {
    if sends != [] && Took(sends[0]) {
      StreakIsLongest(sends[1..]);
      forall i | 0 <= i < Streak(sends) ensures Took(sends[i]) { if i > 0 { assert sends[i] == sends[1..][i - 1]; } }
    }
  }

  lemma {:induction false} TotalFront(sends: seq<Send>)
    requires sends != []
    ensures Total(sends) == (if sends[0].Sent? then sends[0].n else 0) + Total(sends[1..])
  {
    var n := |sends| - 1;
    if n > 0 {
      TotalFront(sends[..n]);
      assert sends[..n][1..] == sends[1..][..n - 1];
    }
  }

  /** One result more in front. */
  lemma AcceptedFront(sends: seq<Send>)
    requires sends != []
    ensures Accepted(sends) == if Took(sends[0]) then sends[0].n + Accepted(sends[1..]) else 0
    ensures Lost(sends) == if Took(sends[0]) then Lost(sends[1..]) else sends[0].SendFailed? || sends[0] == Sent(0)
  {
    StreakIsLongest(sends);
    StreakIsLongest(sends[1..]);
    if Took(sends[0]) {
      var k := Streak(sends);
      TotalFront(sends[..k]);
      assert sends[..k][1..] == sends[1..][..k - 1];
    } else {
      assert sends[..0] == [];
    }
  }

  /** The send loops: they move on by what the kernel took, up to the end, and break off exactly when the peer is lost
      before the end. */
  lemma {:induction false} FlushMoves(buffer: seq<byte>, off: nat, sends: seq<Send>)
    requires off <= |buffer|
    ensures var r := Flush(buffer, off, sends);
            && r.off == Min(|buffer|, off + Accepted(sends))
            && r.end == (if off + Accepted(sends) >= |buffer| then Drained else if Lost(sends) then Broken else Blocked)
    decreases |sends|
  {
    if sends == [] {
      assert Accepted(sends) == 0 && !Lost(sends);
    } else {
      AcceptedFront(sends);
      if off < |buffer| && Took(sends[0]) {
        FlushMoves(buffer, off + Min(sends[0].n, |buffer| - off), sends[1..]);
      }
    }
  }
}
